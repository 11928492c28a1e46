/** Where the count statement counts wrongly: how far the guard of the rewriting and the removal of
    ORDER BY can be trusted. */
module SqlCountLimits {
  import opened Options
  import opened Permutations
  import opened SqlAst
  import opened SqlParser
  import opened SqlSemantics
  import opened SqlCountMeaning

  // ----- the guard is exact over base tables

  /** A table, or tables joined in parentheses. */
  predicate BaseTables(f: FromItem) {
    f.Table? || (f.SubJoin? && BaseTables(f.left) && BaseTables(f.join.right))
  }

  /** A select over base tables, joined in any way, under any WHERE. */
  predicate OverBaseTables(b: SelectBody) {
    && b.PlainSelect? && b.from.Some? && BaseTables(b.from.value)
    && forall i :: 0 <= i < |b.joins| ==> BaseTables(b.joins[i].right)
  }

  /** A database whose tables hold two equal rows and whose predicates all hold. */
  function TwoRows(aggregates: string -> bool): Database {
    Database(_ => [[], []], (_, _) => 0, (_, _) => true, aggregates,
             (_, _, _) => 0, (_, _, _) => true, _ => 1, (_, rows) => rows)
  }

  lemma {:induction false} BaseTablesAreSafe(f: FromItem, steady: bool)
    requires BaseTables(f)
    ensures SafeFrom(f, steady)
  {
    if f.SubJoin? {
      BaseTablesAreSafe(f.left, steady);
      BaseTablesAreSafe(f.join.right, steady);
    }
  }

  lemma {:induction false} FlatMapKeepsLength<A, B>(s: seq<A>, f: A -> seq<B>)
    requires forall x :: |f(x)| >= 1
    ensures |FlatMap(s, f)| >= |s|
  {
    if |s| > 0 {
      FlatMapKeepsLength(s[1..], f);
    }
  }

  lemma {:induction false} TwoFromRows(aggregates: string -> bool, f: FromItem, outer: Tuple)
    requires BaseTables(f)
    ensures |FromRows(TwoRows(aggregates), map[], f, outer)| >= 2
    decreases f, 0
  {
    var db := TwoRows(aggregates);
    if f.Table? {
      MapLength(db.table(f.name), BindTo(AliasOr(f.alias, f.name)));
    } else {
      TwoFromRows(aggregates, f.left, outer);
      JoinKeepsTuples(aggregates, FromRows(db, map[], f.left, outer), f.join, outer);
    }
  }

  lemma {:induction false} JoinKeepsTuples(aggregates: string -> bool, lefts: seq<Tuple>, join: Join, outer: Tuple)
    requires BaseTables(join.right)
    ensures |JoinRows(TwoRows(aggregates), map[], lefts, join, outer)| >= |lefts|
    decreases join, 1
  {
    var m := Matches(TwoRows(aggregates), map[], join, outer);
    forall l ensures |m(l)| >= 1 {
      SomeMatch(aggregates, join, outer, l);
    }
    FlatMapKeepsLength(lefts, m);
    FlatMapKeepsLength(lefts, OrAlone(m));
  }

  lemma {:induction false} SomeMatch(aggregates: string -> bool, join: Join, outer: Tuple, l: Tuple)
    requires BaseTables(join.right)
    ensures |MatchRows(TwoRows(aggregates), map[], join, outer, l)| >= 1
    decreases join, 0
  {
    var db := TwoRows(aggregates);
    var rights := FromRows(db, map[], join.right, Scope(join.right, outer, l));
    TwoFromRows(aggregates, join.right, Scope(join.right, outer, l));
    FilterAll(rights, Fits(db, join.on, outer, l));
    MapLength(rights, Extend(l));
  }

  lemma {:induction false} JoinsKeepTuples(aggregates: string -> bool, lefts: seq<Tuple>, joins: seq<Join>, outer: Tuple)
    requires forall i :: 0 <= i < |joins| ==> BaseTables(joins[i].right)
    ensures |JoinAll(TwoRows(aggregates), map[], lefts, joins, outer)| >= |lefts|
    decreases joins
  {
    if |joins| > 0 {
      JoinKeepsTuples(aggregates, lefts, joins[0], outer);
      JoinsKeepTuples(aggregates, JoinRows(TwoRows(aggregates), map[], lefts, joins[0], outer), joins[1..], outer);
    }
  }

  lemma TwoTuples(aggregates: string -> bool, b: SelectBody)
    requires OverBaseTables(b)
    ensures |SourceTuples(TwoRows(aggregates), map[], b, [])| >= 2
  {
    var db := TwoRows(aggregates);
    var source := FromRows(db, map[], b.from.value, []);
    TwoFromRows(aggregates, b.from.value, []);
    JoinsKeepTuples(aggregates, source, b.joins, []);
    FilterAll(JoinAll(db, map[], source, b.joins, []), Holds(db, b.where, []));
  }

  /** A select over base tables whose columns are replaced is counted rightly on every database
      exactly when it has no LIMIT, no HAVING and no aggregate that the guard overlooks. */
  lemma GuardExact(aggregates: string -> bool, b: SelectBody)
    requires Replaced(b) && OverBaseTables(b)
    ensures (forall db :: Lawful(db) && db.aggregates == aggregates ==> CountsRightly(db, Select([], b)))
       <==> Visible(aggregates, b)
  {
    var s := Select([], b);
    BaseTablesAreSafe(b.from.value, true);
    forall i | 0 <= i < |b.joins| ensures SafeFrom(b.joins[i].right, true) {
      BaseTablesAreSafe(b.joins[i].right, true);
    }
    assert SafeSelect(s);
    if Visible(aggregates, b) {
      forall db | Lawful(db) && db.aggregates == aggregates ensures CountsRightly(db, s) {
        CountPreserved(db, s);
      }
    } else {
      var db := TwoRows(aggregates);
      assert Lawful(db);
      CountExact(db, s);
      TwoTuples(aggregates, b);
      VisibleIsUngrouped(db, b);
      assert !ReplacementCounts(db, map[], b);
      assert !CountsRightly(db, s);
    }
  }

  /** select a from t limit 1 is counted as the whole of t. */
  lemma LimitMiscounted()
    ensures var b := PlainSelect(false, [ExprItem(Atom("a"), None)], Some(Table("t", None)), [], None, None, None, None,
                                 Some(Limit(None, Some(Atom("1")))));
      exists db :: Lawful(db) && !CountsRightly(db, Select([], b))
  {
    var b := PlainSelect(false, [ExprItem(Atom("a"), None)], Some(Table("t", None)), [], None, None, None, None,
                         Some(Limit(None, Some(Atom("1")))));
    GuardExact(_ => false, b);
  }

  /** select sum(a) + 1 from t has one row but is counted as the whole of t. */
  lemma HiddenAggregateMiscounted()
    ensures var sum := Compound("+", [FunctionCall("sum", [Atom("a")]), Atom("1")]);
      var b := PlainSelect(false, [ExprItem(sum, None)], Some(Table("t", None)), [], None, None, None, None, None);
      exists db :: Lawful(db) && !CountsRightly(db, Select([], b))
  {
    var sum := Compound("+", [FunctionCall("sum", [Atom("a")]), Atom("1")]);
    var b := PlainSelect(false, [ExprItem(sum, None)], Some(Table("t", None)), [], None, None, None, None, None);
    assert !ItemShowsMark(b.items[0]) by {
      assert !ShowsMark(sum.parts[0]) && !ShowsMark(sum.parts[1]);
    }
    assert AggregateItem(name => name == "sum", b.items[0]) by {
      assert HasAggregate(name => name == "sum", sum.parts[0]);
    }
    GuardExact(name => name == "sum", b);
  }

  /** select group_concat(a) from t: an aggregate that the parser does not represent as a function call. */
  lemma GroupConcatMiscounted()
    ensures var b := PlainSelect(false, [ExprItem(Compound("group_concat", [Atom("a")]), None)], Some(Table("t", None)), [],
                                 None, None, None, None, None);
      exists db :: Lawful(db) && !CountsRightly(db, Select([], b))
  {
    var concat := Compound("group_concat", [Atom("a")]);
    var b := PlainSelect(false, [ExprItem(concat, None)], Some(Table("t", None)), [], None, None, None, None, None);
    assert !ShowsMark(concat) by {
      assert !ShowsMark(concat.parts[0]);
    }
    assert AggregateItem(name => name == "group_concat", b.items[0]);
    GuardExact(name => name == "group_concat", b);
  }

  // ----- a page of a table, selected from under a WHERE

  function FirstValue(t: Tuple): int {
    if |t| > 0 && |t[0].row| > 0 then t[0].row[0].value else 0
  }

  function TurnedRound(rows: seq<Sortable>): (r: seq<Sortable>)
    ensures multiset(r) == multiset(rows)
  {
    if |rows| == 0 then []
    else
      assert rows == [rows[0]] + rows[1..];
      TurnedRound(rows[1..]) + [rows[0]]
  }

  /** A row of n cells that all hold v. */
  function Wide(v: int, n: nat): (row: Row)
    ensures |row| == n && Full(row, v)
  {
    seq(n, _ => Cell("a", v))
  }

  /** Every cell holds v. */
  predicate Full(row: Row, v: int) {
    forall i :: 0 <= i < |row| ==> row[i].value == v
  }

  /** The name under which a body's one table goes. */
  function TableName(b: SelectBody): string {
    if b.PlainSelect? && b.from.Some? && b.from.value.Table? then AliasOr(b.from.value.alias, b.from.value.name) else ""
  }

  function Arity(page: SelectBody): nat {
    if page.PlainSelect? then |page.items| + 1 else 1
  }

  /** The tuple looks like one of the page's table. */
  predicate OfTable(page: SelectBody, t: Tuple) {
    |t| == 1 && t[0].alias == TableName(page) && |t[0].row| == Arity(page)
  }

  /** Tables of two rows, of zeros and of ones; sorting turns them around; the predicate q tells the two
      apart, unless it is the page's own and looks at the page's table. */
  function Telling(aggregates: string -> bool, page: SelectBody, q: Expr): Database {
    Database(_ => [Wide(0, Arity(page)), Wide(1, Arity(page))], (_, t) => FirstValue(t),
             (e, t) => e != q || FirstValue(t) == 1 || (Filters(page) == Some(q) && OfTable(page, t)),
             aggregates, (_, _, _) => 0, (_, _, _) => true, _ => 1, (_, rows) => TurnedRound(rows))
  }

  function Filters(b: SelectBody): Option<Expr> {
    if b.PlainSelect? then b.where else None
  }

  // What a select list shows of a row: some items show all of it, others one value, others nothing.

  function WholeRows(items: seq<SelectItem>, name: string): nat {
    if |items| == 0 then 0
    else WholeRows(items[1..], name) + if items[0].AllColumns? || items[0] == AllTableColumns(name) then 1 else 0
  }

  function Singles(items: seq<SelectItem>): nat {
    if |items| == 0 then 0 else Singles(items[1..]) + if items[0].ExprItem? then 1 else 0
  }

  /** The row comes through the select list as it is, on every database. */
  predicate Transparent(items: seq<SelectItem>, name: string) {
    WholeRows(items, name) == 1 && Singles(items) == 0
  }

  /** select ... from t [where ...] order by ... limit ..., where the LIMIT may cut and the ORDER BY holds
      no parameter: the page of a table, whose ORDER BY the rewriting removes. */
  predicate OrderedPage(aggregates: string -> bool, b: SelectBody) {
    && b.PlainSelect? && !b.distinct && b.groupBy == None && b.having == None && b.joins == []
    && (forall i :: 0 <= i < |b.items| ==> !AggregateItem(aggregates, b.items[i]))
    && b.from.Some? && b.from.value.Table?
    && WholeRows(b.items, TableName(b)) + Singles(b.items) > 0
    && b.orderBy.Some? && !HasParameters(b.orderBy)
    && b.limit.Some? && b.limit.value != Limit(None, None)
  }

  lemma MapTwo<A, B>(x: A, y: A, f: A -> B)
    ensures Map([x, y], f) == [f(x), f(y)]
  {
    SingletonMap(y, f);
    assert [x, y][1..] == [y];
    assert FlatMap([x, y], One(f)) == One(f)(x) + FlatMap([x, y][1..], One(f));
  }

  lemma ItemOfOneTable(db: Database, item: SelectItem, name: string, row: Row)
    ensures var t := [Bound(name, row)];
      ItemCells(db, item, [], t)
      == match item
         case AllColumns => row
         case AllTableColumns(table) => if table == name then row else []
         case ExprItem(e, alias) => [Cell(ColumnName(e, alias), db.value(e, t))]
  {
    var t := [Bound(name, row)];
    assert [] + t == t;
    assert CellsOf(t[1..], None) == [];
    assert CellsOf(t, None) == row + CellsOf(t[1..], None);
    if item.AllTableColumns? {
      assert CellsOf(t[1..], Some(item.table)) == [];
      assert CellsOf(t, Some(item.table)) == (if item.table == name then row else []) + CellsOf(t[1..], Some(item.table));
    }
  }

  lemma {:induction false} NothingShown(db: Database, items: seq<SelectItem>, name: string, row: Row)
    requires WholeRows(items, name) == 0 && Singles(items) == 0
    ensures TupleCells(db, items, [], [Bound(name, row)]) == []
  {
    if |items| > 0 {
      ItemOfOneTable(db, items[0], name, row);
      NothingShown(db, items[1..], name, row);
    }
  }

  lemma {:induction false} RowComesThrough(db: Database, items: seq<SelectItem>, name: string, row: Row)
    requires Transparent(items, name)
    ensures TupleCells(db, items, [], [Bound(name, row)]) == row
  {
    ItemOfOneTable(db, items[0], name, row);
    if items[0].AllColumns? || items[0] == AllTableColumns(name) {
      NothingShown(db, items[1..], name, row);
    } else {
      RowComesThrough(db, items[1..], name, row);
    }
  }

  /** The row of v that the page shows of such a table row: all v, not empty, and as wide as the table's
      only if rows come through. */
  ghost predicate ShowsOf(row: Row, items: seq<SelectItem>, name: string, n: nat) {
    var whole, singles := WholeRows(items, name), Singles(items);
    && (whole == 0 ==> |row| == singles <= |items|)
    && (whole == 1 ==> |row| == n + singles)
    && (whole >= 2 ==> |row| >= 2 * n)
  }

  lemma {:induction false} CellsShown(db: Database, items: seq<SelectItem>, name: string, v: int, n: nat)
    requires n > 0 && forall e, t :: db.value(e, t) == FirstValue(t)
    ensures var row := TupleCells(db, items, [], [Bound(name, Wide(v, n))]);
      Full(row, v) && ShowsOf(row, items, name, n)
  {
    if |items| > 0 {
      var t := [Bound(name, Wide(v, n))];
      ItemOfOneTable(db, items[0], name, Wide(v, n));
      CellsShown(db, items[1..], name, v, n);
      assert FirstValue(t) == v;
    }
  }

  /** The row that the page shows of a table row of value v. */
  function Shown(db: Database, page: SelectBody, v: int): Row
    requires page.PlainSelect?
  {
    TupleCells(db, page.items, [], [Bound(TableName(page), Wide(v, Arity(page)))])
  }

  lemma ShownTells(aggregates: string -> bool, page: SelectBody, q: Expr, v: int)
    requires OrderedPage(aggregates, page)
    ensures var row := Shown(Telling(aggregates, page, q), page, v);
      Full(row, v) && |row| > 0 && (|row| == Arity(page) ==> Transparent(page.items, TableName(page)))
  {
    CellsShown(Telling(aggregates, page, q), page.items, TableName(page), v, Arity(page));
  }

  lemma TurnedRoundTwo(x: Sortable, y: Sortable)
    ensures TurnedRound([x, y]) == [y, x]
  {
    assert [x, y][1..] == [y] && [y][1..] == [];
    assert TurnedRound([y]) == TurnedRound([]) + [y];
  }

  /** All rows of the table pass the page's own WHERE. */
  lemma PageTuples(aggregates: string -> bool, b: SelectBody, q: Expr)
    requires OrderedPage(aggregates, b)
    ensures var name, n := TableName(b), Arity(b);
      SourceTuples(Telling(aggregates, b, q), map[], b, []) == [[Bound(name, Wide(0, n))], [Bound(name, Wide(1, n))]]
  {
    var db, f, name, n := Telling(aggregates, b, q), b.from.value, TableName(b), Arity(b);
    var t0, t1 := [Bound(name, Wide(0, n))], [Bound(name, Wide(1, n))];
    MapTwo(Wide(0, n), Wide(1, n), BindTo(name));
    assert db.table(f.name) == [Wide(0, n), Wide(1, n)];
    assert FromRows(db, map[], f, []) == [t0, t1];
    assert JoinAll(db, map[], [t0, t1], b.joins, []) == [t0, t1];
    assert [] + t0 == t0 && [] + t1 == t1;
    FilterAll([t0, t1], Holds(db, b.where, []));
  }

  lemma PageOutput(aggregates: string -> bool, b: SelectBody, q: Expr)
    requires OrderedPage(aggregates, b)
    ensures var db := Telling(aggregates, b, q);
      exists g, h :: Output(db, b.items, None, None, [], SourceTuples(db, map[], b, []))
        == [Sortable(g, Shown(db, b, 0)), Sortable(h, Shown(db, b, 1))]
  {
    var db, name, n := Telling(aggregates, b, q), TableName(b), Arity(b);
    var t0, t1 := [Bound(name, Wide(0, n))], [Bound(name, Wide(1, n))];
    PageTuples(aggregates, b, q);
    assert !Grouped(db, b.items, None, None);
    MapTwo(t0, t1, TupleRow(db, b.items, []));
    assert TupleRow(db, b.items, [])(t0) == Sortable(multiset{t0}, Shown(db, b, 0));
    assert TupleRow(db, b.items, [])(t1) == Sortable(multiset{t1}, Shown(db, b, 1));
  }

  /** Of two rows a LIMIT of one keeps the first, and an OFFSET of one the second. */
  lemma OneOfTwo(db: Database, orderBy: Option<seq<OrderByElement>>, limit: Limit, x: Sortable, y: Sortable)
    requires limit != Limit(None, None)
    requires (forall e :: db.number(e) == 1) && forall order :: db.sort(order, [x, y]) == [y, x]
    ensures Finished(db, false, orderBy, Some(limit), [x, y])
      == [if orderBy.Some? == limit.offset.None? then y.row else x.row]
  {
    var sorted := if orderBy.Some? then [y, x] else [x, y];
    assert Sorted(db, orderBy, [x, y]) == sorted;
    var kept := if limit.offset.Some? then sorted[1] else sorted[0];
    assert sorted[1..] == [sorted[1]];
    assert Limited(db, Some(limit), sorted) == [kept];
    SingletonMap(kept, RowOf());
  }

  lemma StripPage(aggregates: string -> bool, b: SelectBody)
    requires OrderedPage(aggregates, b)
    ensures StripBody(b) == PlainSelect(false, b.items, b.from, [], b.where, None, None, None, b.limit)
  {
    assert StripBody(b).joins == [];
  }

  /** With its ORDER BY the page shows one of the two rows, without it the other. */
  lemma PageRows(aggregates: string -> bool, b: SelectBody, q: Expr)
    requires OrderedPage(aggregates, b)
    ensures var db := Telling(aggregates, b, q);
      var first := b.limit.value.offset.None?;
      && BodyRows(db, map[], b, []) == [Shown(db, b, if first then 1 else 0)]
      && BodyRows(db, map[], StripBody(b), []) == [Shown(db, b, if first then 0 else 1)]
  {
    var db := Telling(aggregates, b, q);
    PageOutput(aggregates, b, q);
    var tuples := SourceTuples(db, map[], b, []);
    var g, h :| Output(db, b.items, None, None, [], tuples)
      == [Sortable(g, Shown(db, b, 0)), Sortable(h, Shown(db, b, 1))];
    var x, y := Sortable(g, Shown(db, b, 0)), Sortable(h, Shown(db, b, 1));
    TurnedRoundTwo(x, y);
    OneOfTwo(db, b.orderBy, b.limit.value, x, y);
    OneOfTwo(db, None, b.limit.value, x, y);
    StripPage(aggregates, b);
    SameSource(db, b, StripBody(b));
  }

  lemma SameSource(db: Database, b: SelectBody, b': SelectBody)
    requires b.PlainSelect? && b'.PlainSelect? && b'.from == b.from && b'.joins == b.joins && b'.where == b.where
    ensures SourceTuples(db, map[], b', []) == SourceTuples(db, map[], b, [])
  {}

  /** The select reads the page as the page reads its table: its WHERE, if it is the page's own, sees
      the same rows under the same name. */
  predicate ReadsAsTable(page: SelectBody, alias: Option<string>)
    requires page.PlainSelect?
  {
    AliasOr(alias, "") == TableName(page) && Transparent(page.items, TableName(page))
  }

  /** A select from a page, by its name; nothing else. */
  predicate OverPage(b: SelectBody, page: SelectBody, alias: Option<string>) {
    b.PlainSelect? && b.joins == [] && b.from == Some(SubSelect(page, alias))
  }

  lemma TuplesOverBody(db: Database, b: SelectBody, body: SelectBody, alias: Option<string>)
    requires OverPage(b, body, alias)
    ensures SourceTuples(db, map[], b, [])
      == Filter(Map(BodyRows(db, map[], body, []), BindTo(AliasOr(alias, ""))), Holds(db, b.where, []))
  {
    var source := Map(BodyRows(db, map[], body, []), BindTo(AliasOr(alias, "")));
    assert FromRows(db, map[], b.from.value, []) == source;
    assert JoinAll(db, map[], source, b.joins, []) == source;
  }

  /** A WHERE over the page keeps its one row exactly if that is the row of ones. */
  lemma TuplesOverPage(aggregates: string -> bool, b: SelectBody, page: SelectBody, body: SelectBody,
                       alias: Option<string>, row: Row, v: int)
    requires OverPage(b, body, alias) && b.where.Some?
    requires BodyRows(Telling(aggregates, page, b.where.value), map[], body, []) == [row] && Full(row, v) && |row| > 0
    requires !(Filters(page) == b.where && OfTable(page, [Bound(AliasOr(alias, ""), row)]))
    ensures |SourceTuples(Telling(aggregates, page, b.where.value), map[], b, [])| == if v == 1 then 1 else 0
  {
    var db, t := Telling(aggregates, page, b.where.value), [Bound(AliasOr(alias, ""), row)];
    TuplesOverBody(db, b, body, alias);
    SingletonMap(row, BindTo(AliasOr(alias, "")));
    var p := Holds(db, b.where, []);
    assert Filter([t], p) == Keep(p)(t) + FlatMap([t][1..], Keep(p));
    assert [] + t == t;
    assert p(t) == (v == 1);
  }

  lemma StripOver(b: SelectBody, page: SelectBody, alias: Option<string>)
    requires OverPage(b, page, alias)
    ensures OverPage(StripBody(b), StripBody(page), alias) && StripBody(b).where == b.where
  {
    assert StripBody(b).joins == [];
  }

  lemma WhereOverPageTells(aggregates: string -> bool, b: SelectBody, page: SelectBody, alias: Option<string>)
    requires OverPage(b, page, alias) && OrderedPage(aggregates, page) && b.where.Some?
    requires !(b.where == page.where && ReadsAsTable(page, alias))
    ensures var db := Telling(aggregates, page, b.where.value);
      |SourceTuples(db, map[], b, [])| != |SourceTuples(db, map[], StripBody(b), [])|
  {
    var q := b.where.value;
    var db := Telling(aggregates, page, q);
    var v, v' := if page.limit.value.offset.None? then 1 else 0, if page.limit.value.offset.None? then 0 else 1;
    PageRows(aggregates, page, q);
    ShownTells(aggregates, page, q, v);
    ShownTells(aggregates, page, q, v');
    StripOver(b, page, alias);
    TuplesOverPage(aggregates, b, page, page, alias, Shown(db, page, v), v);
    TuplesOverPage(aggregates, StripBody(b), page, StripBody(page), alias, Shown(db, page, v'), v');
  }

  /** A select that neither aggregates nor limits is counted rightly exactly when the removal of ORDER BY
      leaves it as many tuples. */
  lemma CountsTuples(db: Database, b: SelectBody)
    requires Lawful(db) && Replaced(b) && Visible(db.aggregates, b)
    ensures CountsRightly(db, Select([], b))
       <==> |SourceTuples(db, map[], StripBody(b), [])| == |SourceTuples(db, map[], b, [])|
  {
    var b' := StripBody(b);
    assert Replaced(b') && b'.limit == b.limit && b'.having == None;
    VisibleIsUngrouped(db, b);
    ReplacedRows(db, map[], b');
    OriginalRows(db, map[], b);
    AnswersDiffer(|SourceTuples(db, map[], b', [])|, |SourceTuples(db, map[], b, [])|);
  }

  lemma MappedFrom<A, B>(s: seq<A>, f: A -> B, y: B)
    requires y in Map(s, f)
    ensures exists x :: x in s && f(x) == y
  {
    if |s| > 0 && y != f(s[0]) {
      assert Map(s, f) == One(f)(s[0]) + FlatMap(s[1..], One(f));
      MappedFrom(s[1..], f, y);
    }
  }

  lemma FilteredHolds<A>(s: seq<A>, p: A -> bool, x: A)
    requires x in Filter(s, p)
    ensures x in s && p(x)
  {
    if |s| > 0 && x !in Keep(p)(s[0]) {
      assert Filter(s, p) == Keep(p)(s[0]) + FlatMap(s[1..], Keep(p));
      FilteredHolds(s[1..], p, x);
    }
  }

  /** The rows that come out of ORDER BY and LIMIT went in. */
  lemma FinishedFrom(db: Database, orderBy: Option<seq<OrderByElement>>, limit: Option<Limit>, output: seq<Sortable>,
                     row: Row)
    requires Lawful(db) && row in Finished(db, false, orderBy, limit, output)
    ensures exists x :: x in output && x.row == row
  {
    var sorted := Sorted(db, orderBy, output);
    MappedFrom(Limited(db, limit, sorted), RowOf(), row);
    SortedPerm(db, orderBy, output);
    PermMembers(sorted, output);
    assert forall x :: x in Limited(db, limit, sorted) ==> x in sorted;
  }

  /** A select from one table that neither groups nor drops duplicates. */
  predicate PlainOverTable(aggregates: string -> bool, b: SelectBody) {
    && b.PlainSelect? && !b.distinct && b.groupBy == None && b.having == None && b.joins == []
    && b.from.Some? && b.from.value.Table?
    && forall i :: 0 <= i < |b.items| ==> !AggregateItem(aggregates, b.items[i])
  }

  /** Every row of such a select that comes through as it is passed the WHERE. */
  lemma ShownPassed(db: Database, b: SelectBody, row: Row)
    requires Lawful(db) && PlainOverTable(db.aggregates, b) && Transparent(b.items, TableName(b))
    requires row in BodyRows(db, map[], b, [])
    ensures Holds(db, b.where, [])([Bound(TableName(b), row)])
  {
    var name, tuples := TableName(b), SourceTuples(db, map[], b, []);
    var source := FromRows(db, map[], b.from.value, []);
    assert !Grouped(db, b.items, None, None);
    FinishedFrom(db, b.orderBy, b.limit, Map(tuples, TupleRow(db, b.items, [])), row);
    var x :| x in Map(tuples, TupleRow(db, b.items, [])) && x.row == row;
    MappedFrom(tuples, TupleRow(db, b.items, []), x);
    var t: Tuple :| t in tuples && TupleRow(db, b.items, [])(t) == x;
    assert JoinAll(db, map[], source, b.joins, []) == source;
    FilteredHolds(source, Holds(db, b.where, []), t);
    TableTuple(db, b.from.value, t);
    RowComesThrough(db, b.items, name, t[0].row);
  }

  lemma TableTuple(db: Database, f: FromItem, t: Tuple)
    requires f.Table? && t in FromRows(db, map[], f, [])
    ensures |t| == 1 && t[0].alias == AliasOr(f.alias, f.name) && t == [Bound(AliasOr(f.alias, f.name), t[0].row)]
  {
    MappedFrom(db.table(f.name), BindTo(AliasOr(f.alias, f.name)), t);
  }

  /** Without a WHERE, or under the page's own seeing what that saw, every row of the page counts. */
  lemma AllOfThePage(db: Database, b: SelectBody, page: SelectBody, alias: Option<string>)
    requires Lawful(db) && OverPage(b, page, alias) && PlainOverTable(db.aggregates, page)
    requires b.where == None || (b.where == page.where && ReadsAsTable(page, alias))
    ensures |SourceTuples(db, map[], b, [])| == |BodyRows(db, map[], page, [])|
  {
    var rows, bind := BodyRows(db, map[], page, []), BindTo(AliasOr(alias, ""));
    TuplesOverBody(db, b, page, alias);
    forall t | t in Map(rows, bind) ensures Holds(db, b.where, [])(t) {
      MappedFrom(rows, bind, t);
      var row :| row in rows && bind(row) == t;
      if b.where.Some? {
        ShownPassed(db, page, row);
      }
    }
    FilterAll(Map(rows, bind), Holds(db, b.where, []));
    MapLength(rows, bind);
  }

  lemma PageCountsRightly(db: Database, b: SelectBody, page: SelectBody, alias: Option<string>)
    requires Lawful(db) && Replaced(b) && Visible(db.aggregates, b)
    requires OverPage(b, page, alias) && OrderedPage(db.aggregates, page)
    requires b.where == None || (b.where == page.where && ReadsAsTable(page, alias))
    ensures CountsRightly(db, Select([], b))
  {
    assert SafeSources(page, true);
    StripBodyCount(db, map[], map[], page, [], true);
    StripPage(db.aggregates, page);
    StripOver(b, page, alias);
    AllOfThePage(db, b, page, alias);
    AllOfThePage(db, StripBody(b), StripBody(page), alias);
    CountsTuples(db, b);
  }

  /** A select from an ordered page of a table whose columns are replaced, and which neither
      aggregates nor limits itself, is counted rightly on every database exactly when it has no WHERE,
      so that the page's rows are merely counted, whichever they are; or when its WHERE repeats the
      page's own and sees the same rows under the same name. */
  lemma PageExact(aggregates: string -> bool, b: SelectBody, page: SelectBody, alias: Option<string>)
    requires Replaced(b) && Visible(aggregates, b) && OverPage(b, page, alias) && OrderedPage(aggregates, page)
    ensures (forall db :: Lawful(db) && db.aggregates == aggregates ==> CountsRightly(db, Select([], b)))
       <==> b.where == None || (b.where == page.where && ReadsAsTable(page, alias))
  {
    if b.where == None || (b.where == page.where && ReadsAsTable(page, alias)) {
      forall db | Lawful(db) && db.aggregates == aggregates ensures CountsRightly(db, Select([], b)) {
        PageCountsRightly(db, b, page, alias);
      }
    } else {
      var db := Telling(aggregates, page, b.where.value);
      assert Lawful(db);
      WhereOverPageTells(aggregates, b, page, alias);
      CountsTuples(db, b);
    }
  }

  /** select a from t order by a desc limit 1 */
  function LastOfT(): SelectBody {
    PlainSelect(false, [ExprItem(Atom("a"), None)], Some(Table("t", None)), [], None, None, None,
                Some([OrderByElement(Atom("a"), true)]), Some(Limit(None, Some(Atom("1")))))
  }

  /** select a from (...) x [where ...] */
  function FromLast(where: Option<Expr>): SelectBody {
    PlainSelect(false, [ExprItem(Atom("a"), None)], Some(SubSelect(LastOfT(), Some("x"))), [], where,
                None, None, None, None)
  }

  lemma LastOfTIsPage(aggregates: string -> bool)
    ensures OrderedPage(aggregates, LastOfT())
  {
    assert Singles(LastOfT().items[1..]) == 0;
  }

  /** A sub-select whose ORDER BY decides which row its LIMIT keeps: under a WHERE the count statement,
      which drops that ORDER BY, counts other rows; without the WHERE it counts rightly. */
  lemma NestedLimitMiscounted(where: Expr)
    ensures exists db :: Lawful(db) && !CountsRightly(db, Select([], FromLast(Some(where))))
    ensures forall db :: Lawful(db) ==> CountsRightly(db, Select([], FromLast(None)))
  {
    LastOfTIsPage(_ => false);
    PageExact(_ => false, FromLast(Some(where)), LastOfT(), Some("x"));
    forall db | Lawful(db) ensures CountsRightly(db, Select([], FromLast(None))) {
      LastOfTIsPage(db.aggregates);
      PageExact(db.aggregates, FromLast(None), LastOfT(), Some("x"));
    }
  }
}
