/** What a SELECT statement returns: lists of rows, computed clause by clause. Expressions,
    predicates, aggregate functions, sorting and base tables are those of an arbitrary database. */
module SqlSemantics {
  import opened Options
  import opened Permutations
  import opened SqlAst

  datatype Cell = Cell(column: string, value: int)
  type Row = seq<Cell>

  /** A row of one source under its name; a tuple joins the rows of several sources. */
  datatype Bound = Bound(alias: string, row: Row)
  type Tuple = seq<Bound>

  /** An output row with the tuples it was computed from, so that ORDER BY can use both. */
  datatype Sortable = Sortable(group: multiset<Tuple>, row: Row)

  datatype Database = Database(
    table: string -> seq<Row>,
    value: (Expr, Tuple) -> int,
    truth: (Expr, Tuple) -> bool,
    aggregates: string -> bool,
    groupValue: (Expr, Tuple, multiset<Tuple>) -> int,
    groupTruth: (Expr, Tuple, multiset<Tuple>) -> bool,
    number: Expr -> nat,
    sort: (seq<OrderByElement>, seq<Sortable>) -> seq<Sortable>)

  /** Sorting only rearranges. */
  ghost predicate Lawful(db: Database) {
    forall order, rows :: Perm(db.sort(order, rows), rows)
  }

  type Env = map<string, seq<Row>>

  // ----- select list

  /** An aggregate stands in the expression: as a function call, as a form the parser has a node of its
      own for, such as group_concat or listagg within group, or somewhere inside. */
  predicate HasAggregate(aggregates: string -> bool, e: Expr) {
    match e
    case Atom(text) => text == COUNT_TEXT
    case Placeholder(_) => false
    case FunctionCall(name, args) =>
      aggregates(name) || exists i :: 0 <= i < |args| && HasAggregate(aggregates, args[i])
    case Compound(op, parts) =>
      aggregates(op) || exists i :: 0 <= i < |parts| && HasAggregate(aggregates, parts[i])
  }

  predicate AggregateItem(aggregates: string -> bool, item: SelectItem) {
    item.ExprItem? && HasAggregate(aggregates, item.expr)
  }

  function ColumnName(e: Expr, alias: Option<string>): string {
    if alias.Some? then alias.value else if e.Atom? then e.text else ""
  }

  function CellsOf(t: Tuple, alias: Option<string>): Row {
    if |t| == 0 then []
    else (if alias == None || alias.value == t[0].alias then t[0].row else []) + CellsOf(t[1..], alias)
  }

  function ItemCells(db: Database, item: SelectItem, outer: Tuple, t: Tuple): Row {
    match item
    case AllColumns => CellsOf(t, None)
    case AllTableColumns(table) => CellsOf(t, Some(table))
    case ExprItem(e, alias) => [Cell(ColumnName(e, alias), db.value(e, outer + t))]
  }

  function TupleCells(db: Database, items: seq<SelectItem>, outer: Tuple, t: Tuple): Row {
    if |items| == 0 then [] else ItemCells(db, items[0], outer, t) + TupleCells(db, items[1..], outer, t)
  }

  function GroupValue(db: Database, e: Expr, outer: Tuple, group: multiset<Tuple>): int {
    if e == Atom(COUNT_TEXT) then |group| else db.groupValue(e, outer, group)
  }

  function GroupItemCells(db: Database, item: SelectItem, outer: Tuple, group: multiset<Tuple>): Row {
    match item
    case AllColumns => [Cell("*", GroupValue(db, Atom("*"), outer, group))]
    case AllTableColumns(table) => [Cell(table + ".*", GroupValue(db, Atom(table + ".*"), outer, group))]
    case ExprItem(e, alias) => [Cell(ColumnName(e, alias), GroupValue(db, e, outer, group))]
  }

  function GroupCells(db: Database, items: seq<SelectItem>, outer: Tuple, group: multiset<Tuple>): Row {
    if |items| == 0 then []
    else GroupItemCells(db, items[0], outer, group) + GroupCells(db, items[1..], outer, group)
  }

  // ----- grouping

  /** GROUP BY, HAVING or an aggregate in the select list make one output row per group. */
  predicate Grouped(db: Database, items: seq<SelectItem>, groupBy: Option<seq<Expr>>, having: Option<Expr>) {
    groupBy.Some? || having.Some? || exists i :: 0 <= i < |items| && AggregateItem(db.aggregates, items[i])
  }

  function KeyValues(db: Database, exprs: seq<Expr>, t: Tuple): seq<int> {
    if |exprs| == 0 then [] else [db.value(exprs[0], t)] + KeyValues(db, exprs[1..], t)
  }

  ghost function Key(db: Database, exprs: seq<Expr>, outer: Tuple): Tuple -> seq<int> {
    t => KeyValues(db, exprs, outer + t)
  }

  ghost function HasKey(db: Database, exprs: seq<Expr>, outer: Tuple, key: seq<int>): Tuple -> bool {
    t => KeyValues(db, exprs, outer + t) == key
  }

  ghost function GroupOf(db: Database, exprs: seq<Expr>, outer: Tuple, tuples: seq<Tuple>): seq<int> -> multiset<Tuple> {
    key => multiset(Filter(tuples, HasKey(db, exprs, outer, key)))
  }

  /** The groups in order of their keys; without GROUP BY a single group, even of no tuples. */
  ghost function Groups(db: Database, groupBy: Option<seq<Expr>>, outer: Tuple, tuples: seq<Tuple>): seq<multiset<Tuple>> {
    if groupBy == None then [multiset(tuples)]
    else Map(Dedup(Map(tuples, Key(db, groupBy.value, outer))), GroupOf(db, groupBy.value, outer, tuples))
  }

  ghost function Having(db: Database, having: Option<Expr>, outer: Tuple): multiset<Tuple> -> bool {
    group => having == None || db.groupTruth(having.value, outer, group)
  }

  ghost function GroupRow(db: Database, items: seq<SelectItem>, outer: Tuple): multiset<Tuple> -> Sortable {
    group => Sortable(group, GroupCells(db, items, outer, group))
  }

  ghost function TupleRow(db: Database, items: seq<SelectItem>, outer: Tuple): Tuple -> Sortable {
    t => Sortable(multiset{t}, TupleCells(db, items, outer, t))
  }

  ghost function Output(db: Database, items: seq<SelectItem>, groupBy: Option<seq<Expr>>, having: Option<Expr>,
                        outer: Tuple, tuples: seq<Tuple>): seq<Sortable> {
    if Grouped(db, items, groupBy, having) then
      Map(Filter(Groups(db, groupBy, outer, tuples), Having(db, having, outer)), GroupRow(db, items, outer))
    else
      Map(tuples, TupleRow(db, items, outer))
  }

  // ----- DISTINCT, ORDER BY, LIMIT

  ghost function RowOf(): Sortable -> Row {
    (s: Sortable) => s.row
  }

  ghost function Bare(): Row -> Sortable {
    row => Sortable(multiset{}, row)
  }

  ghost function Distinct(distinct: bool, output: seq<Sortable>): seq<Sortable> {
    if distinct then Map(Dedup(Map(output, RowOf())), Bare()) else output
  }

  ghost function Sorted(db: Database, orderBy: Option<seq<OrderByElement>>, output: seq<Sortable>): seq<Sortable> {
    if orderBy.Some? then db.sort(orderBy.value, output) else output
  }

  function Limited<T>(db: Database, limit: Option<Limit>, rows: seq<T>): seq<T> {
    if limit == None then rows
    else
      var skip := if limit.value.offset.Some? then db.number(limit.value.offset.value) else 0;
      var rest := if skip < |rows| then rows[skip..] else [];
      if limit.value.rowCount.Some? && db.number(limit.value.rowCount.value) < |rest|
      then rest[..db.number(limit.value.rowCount.value)] else rest
  }

  ghost function Finished(db: Database, distinct: bool, orderBy: Option<seq<OrderByElement>>, limit: Option<Limit>,
                          output: seq<Sortable>): seq<Row> {
    Map(Limited(db, limit, Sorted(db, orderBy, Distinct(distinct, output))), RowOf())
  }

  // ----- FROM and JOIN

  ghost function BindTo(alias: string): Row -> Tuple {
    row => [Bound(alias, row)]
  }

  function AliasOr(alias: Option<string>, name: string): string {
    if alias.Some? then alias.value else name
  }

  ghost function ValueRow(db: Database, outer: Tuple): seq<Expr> -> Row {
    exprs => ValueCells(db, exprs, outer)
  }

  function ValueCells(db: Database, exprs: seq<Expr>, outer: Tuple): Row {
    if |exprs| == 0 then [] else [Cell("", db.value(exprs[0], outer))] + ValueCells(db, exprs[1..], outer)
  }

  ghost function Fits(db: Database, on: Option<Expr>, outer: Tuple, l: Tuple): Tuple -> bool {
    r => on == None || db.truth(on.value, outer + l + r)
  }

  ghost function Extend(l: Tuple): Tuple -> Tuple {
    r => l + r
  }

  ghost function NoneFits(db: Database, on: Option<Expr>, outer: Tuple, lefts: seq<Tuple>): Tuple -> bool {
    r => forall l :: l in lefts ==> !Fits(db, on, outer, l)(r)
  }

  ghost function Unmatched(db: Database, on: Option<Expr>, outer: Tuple, lefts: seq<Tuple>, rights: seq<Tuple>): seq<Tuple> {
    Filter(rights, NoneFits(db, on, outer, lefts))
  }

  /** The matched pairs; LEFT and FULL keep unmatched left tuples, RIGHT and FULL right ones. */
  ghost function Joined(kind: JoinKind, lefts: seq<Tuple>, matches: Tuple -> seq<Tuple>, unmatched: seq<Tuple>): seq<Tuple> {
    (if kind == Left || kind == Full then FlatMap(lefts, OrAlone(matches)) else FlatMap(lefts, matches))
    + if kind == Right || kind == Full then unmatched else []
  }

  /** An outer join keeps a tuple without matches, its right columns missing. */
  ghost function OrAlone(matches: Tuple -> seq<Tuple>): Tuple -> seq<Tuple> {
    l => if matches(l) == [] then [l] else matches(l)
  }

  ghost function Fitting(db: Database, on: Option<Expr>, outer: Tuple, l: Tuple, rights: seq<Tuple>): seq<Tuple> {
    Map(Filter(rights, Fits(db, on, outer, l)), Extend(l))
  }

  ghost function Holds(db: Database, where: Option<Expr>, outer: Tuple): Tuple -> bool {
    t => where == None || db.truth(where.value, outer + t)
  }

  ghost function FromRows(db: Database, env: Env, f: FromItem, outer: Tuple): seq<Tuple>
    decreases f, 0
  {
    match f
    case Table(name, alias) =>
      Map(if name in env then env[name] else db.table(name), BindTo(AliasOr(alias, name)))
    case SubSelect(body, alias) => Map(BodyRows(db, env, body, outer), BindTo(AliasOr(alias, "")))
    case SubJoin(left, join) => JoinRows(db, env, FromRows(db, env, left, outer), join, outer)
    case ValuesList(tuples, alias) => Map(Map(tuples, ValueRow(db, outer)), BindTo(AliasOr(alias, "")))
    case LateralSubSelect(body, alias) => Map(BodyRows(db, env, body, outer), BindTo(AliasOr(alias, "")))
  }

  /** A lateral sub-select sees the tuple it is joined to. */
  function Scope(f: FromItem, outer: Tuple, l: Tuple): Tuple {
    if f.LateralSubSelect? then outer + l else outer
  }

  ghost function MatchRows(db: Database, env: Env, join: Join, outer: Tuple, l: Tuple): seq<Tuple>
    decreases join, 0
  {
    Fitting(db, join.on, outer, l, FromRows(db, env, join.right, Scope(join.right, outer, l)))
  }

  ghost function Matches(db: Database, env: Env, join: Join, outer: Tuple): Tuple -> seq<Tuple>
    decreases join, 1
  {
    l => MatchRows(db, env, join, outer, l)
  }

  ghost function JoinRows(db: Database, env: Env, lefts: seq<Tuple>, join: Join, outer: Tuple): seq<Tuple>
    decreases join, 2
  {
    Joined(join.kind, lefts, Matches(db, env, join, outer),
           Unmatched(db, join.on, outer, lefts, FromRows(db, env, join.right, outer)))
  }

  ghost function JoinAll(db: Database, env: Env, lefts: seq<Tuple>, joins: seq<Join>, outer: Tuple): seq<Tuple>
    decreases joins, 0
  {
    if |joins| == 0 then lefts
    else JoinAll(db, env, JoinRows(db, env, lefts, joins[0], outer), joins[1..], outer)
  }

  // ----- bodies and statements

  ghost function In(rows: seq<Row>, wanted: bool): Row -> bool {
    row => (row in rows) == wanted
  }

  ghost function Combined(op: SetOperation, a: seq<Row>, b: seq<Row>): seq<Row> {
    match op
    case UnionAll => a + b
    case Union => Dedup(a + b)
    case Intersect => Dedup(Filter(a, In(b, true)))
    case Except => Dedup(Filter(a, In(b, false)))
  }

  /** The tuples that a plain select works on: sources joined, then filtered. */
  ghost function SourceTuples(db: Database, env: Env, b: SelectBody, outer: Tuple): seq<Tuple>
    requires b.PlainSelect?
    decreases b, 0
  {
    Filter(JoinAll(db, env,
                   if b.from.Some? then FromRows(db, env, b.from.value, outer) else [[]],
                   b.joins, outer),
           Holds(db, b.where, outer))
  }

  ghost function BodyRows(db: Database, env: Env, b: SelectBody, outer: Tuple): seq<Row>
    decreases b, 1
  {
    match b
    case PlainSelect(distinct, items, _, _, _, groupBy, having, orderBy, limit) =>
      Finished(db, distinct, orderBy, limit,
               Output(db, items, groupBy, having, outer, SourceTuples(db, env, b, outer)))
    case SetOperationList(selects, operations, orderBy, limit) =>
      Finished(db, false, orderBy, limit, Map(SelectsRows(db, env, selects, operations, outer), Bare()))
    case NamedBody(_, body) => BodyRows(db, env, body, outer)
  }

  ghost function SelectsRows(db: Database, env: Env, selects: seq<SelectBody>, operations: seq<SetOperation>,
                             outer: Tuple): seq<Row>
    decreases selects, 0
  {
    var n := |selects|;
    if n == 0 then []
    else if n == 1 then BodyRows(db, env, selects[0], outer)
    else Combined(if n - 2 < |operations| then operations[n - 2] else UnionAll,
                  SelectsRows(db, env, selects[..n - 1], operations, outer),
                  BodyRows(db, env, selects[n - 1], outer))
  }

  /** The rows bound to the WITH names, each computed with the earlier ones in scope. */
  ghost function WithRows(db: Database, ws: seq<WithItem>): Env {
    if |ws| == 0 then map[]
    else
      var env, last := WithRows(db, ws[..|ws| - 1]), ws[|ws| - 1];
      env[last.name := BodyRows(db, env, last.body, [])]
  }

  ghost function SelectRows(db: Database, s: Select): seq<Row> {
    BodyRows(db, WithRows(db, s.withItems), s.selectBody, [])
  }
}
