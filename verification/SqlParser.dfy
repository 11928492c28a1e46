/** The count rewriting of the paging helper: ORDER BY removal and the count statement. */
module SqlParser {
  import opened Options
  import opened SqlAst
  import opened Strings

  // ----- what each step leaves behind

  /** ORDER BY stays only when it shows a parameter. */
  predicate HasParameters(orderBy: Option<seq<OrderByElement>>) {
    orderBy.Some? && exists i :: 0 <= i < |orderBy.value| && ShowsMark(orderBy.value[i].expr)
  }

  function KeptOrder(orderBy: Option<seq<OrderByElement>>): Option<seq<OrderByElement>> {
    if HasParameters(orderBy) then orderBy else None
  }

  function StripBody(b: SelectBody): SelectBody {
    match b
    case PlainSelect(distinct, items, from, joins, where, groupBy, having, orderBy, limit) =>
      PlainSelect(distinct, items,
                  if from.Some? then Some(StripFrom(from.value)) else None,
                  seq(|joins|, i requires 0 <= i < |joins| => StripJoin(joins[i])),
                  where, groupBy, having, KeptOrder(orderBy), limit)
    case SetOperationList(selects, operations, orderBy, limit) =>
      SetOperationList(seq(|selects|, i requires 0 <= i < |selects| => StripBody(selects[i])),
                       operations, KeptOrder(orderBy), limit)
    case NamedBody(name, body) => NamedBody(name, StripBody(body))
  }

  function StripFrom(f: FromItem): FromItem {
    match f
    case Table(_, _) => f
    case SubSelect(body, alias) => SubSelect(StripBody(body), alias)
    case SubJoin(left, join) => SubJoin(StripFrom(left), StripJoin(join))
    case ValuesList(_, _) => f
    case LateralSubSelect(body, alias) => LateralSubSelect(StripBody(body), alias)
  }

  function StripJoin(j: Join): Join {
    j.(right := StripFrom(j.right))
  }

  function StripWith(w: WithItem): WithItem {
    w.(body := StripBody(w.body))
  }

  function StripSelect(s: Select): Select {
    Select(seq(|s.withItems|, i requires 0 <= i < |s.withItems| => StripWith(s.withItems[i])),
           StripBody(s.selectBody))
  }

  const COUNT_ITEM := ExprItem(Atom(COUNT_TEXT), None)
  const TABLE_ALIAS := "table_count"

  /** The select list alone may be replaced: no grouping, no DISTINCT, no parameter and no
      function among the selected items. */
  predicate SimpleCount(b: SelectBody)
    requires b.PlainSelect?
  {
    && b.groupBy == None
    && !b.distinct
    && forall i :: 0 <= i < |b.items| ==> CountableItem(b.items[i])
  }

  predicate CountableItem(item: SelectItem) {
    !ItemShowsMark(item) && !(item.ExprItem? && item.expr.FunctionCall?)
  }

  /** select count(0) from (body) table_count */
  function Wrapped(b: SelectBody): SelectBody {
    PlainSelect(false, [COUNT_ITEM], Some(SubSelect(b, Some(TABLE_ALIAS))), [], None, None, None, None, None)
  }

  function CountBody(b: SelectBody): SelectBody {
    if b.PlainSelect? && SimpleCount(b) then b.(items := [COUNT_ITEM]) else Wrapped(b)
  }

  function CountSelect(s: Select): Select {
    s.(selectBody := CountBody(s.selectBody))
  }

  /** The statement that getSmartCountSql prints for a parsed one. */
  function SmartCount(s: Select): Select {
    CountSelect(StripSelect(s))
  }

  // ----- the source's traversals and loops

  method OrderByHashParameters(orderBy: Option<seq<OrderByElement>>) returns (found: bool)
    ensures found == HasParameters(orderBy)
  {
    if orderBy == None {
      return false;
    }
    var elements := orderBy.value;
    for i := 0 to |elements|
      invariant forall k :: 0 <= k < i ==> !ShowsMark(elements[k].expr)
    {
      if ShowsMark(elements[i].expr) {
        return true;
      }
    }
    return false;
  }

  method IsSimpleCount(b: SelectBody) returns (simple: bool)
    requires b.PlainSelect?
    ensures simple == SimpleCount(b)
  {
    if b.groupBy != None {
      return false;
    }
    if b.distinct {
      return false;
    }
    for i := 0 to |b.items|
      invariant forall k :: 0 <= k < i ==> CountableItem(b.items[k])
    {
      if ItemShowsMark(b.items[i]) {
        return false;
      }
      if b.items[i].ExprItem? {
        if b.items[i].expr.FunctionCall? {
          return false;
        }
      }
    }
    return true;
  }

  method ProcessSelectBody(b: SelectBody) returns (r: SelectBody)
    ensures r == StripBody(b)
    decreases b, 1
  {
    if b.PlainSelect? {
      r := ProcessPlainSelect(b);
    } else if b.NamedBody? {
      var body := ProcessSelectBody(b.body);
      r := NamedBody(b.name, body);
    } else {
      var selects := b.selects;
      var i := 0;
      while i < |selects|
        invariant 0 <= i <= |selects| == |b.selects|
        invariant forall k :: 0 <= k < i ==> selects[k] == StripBody(b.selects[k])
        invariant forall k :: i <= k < |selects| ==> selects[k] == b.selects[k]
      {
        var body := ProcessSelectBody(b.selects[i]);
        selects := selects[i := body];
        i := i + 1;
      }
      var orderBy := b.orderBy;
      var parameters := OrderByHashParameters(orderBy);
      if !parameters {
        orderBy := None;
      }
      r := SetOperationList(selects, b.operations, orderBy, b.limit);
    }
  }

  method ProcessPlainSelect(b: SelectBody) returns (r: SelectBody)
    requires b.PlainSelect?
    ensures r == StripBody(b)
    decreases b, 0
  {
    var orderBy, from := b.orderBy, b.from;
    var parameters := OrderByHashParameters(orderBy);
    if !parameters {
      orderBy := None;
    }
    if b.from.Some? {
      var item := ProcessFromItem(b.from.value);
      from := Some(item);
    }
    var joins := b.joins;
    var i := 0;
    while i < |joins|
      invariant 0 <= i <= |joins| == |b.joins|
      invariant forall k :: 0 <= k < i ==> joins[k] == StripJoin(b.joins[k])
      invariant forall k :: i <= k < |joins| ==> joins[k] == b.joins[k]
    {
      var right := ProcessFromItem(b.joins[i].right);
      joins := joins[i := b.joins[i].(right := right)];
      i := i + 1;
    }
    r := PlainSelect(b.distinct, b.items, from, joins, b.where, b.groupBy, b.having, orderBy, b.limit);
  }

  method ProcessFromItem(f: FromItem) returns (r: FromItem)
    ensures r == StripFrom(f)
    decreases f, 1
  {
    if f.SubJoin? {
      var right := ProcessFromItem(f.join.right);
      var left := ProcessFromItem(f.left);
      r := SubJoin(left, f.join.(right := right));
    } else if f.SubSelect? || f.LateralSubSelect? {
      var body := ProcessSelectBody(f.body);
      r := f.(body := body);
    } else {
      r := f;
    }
  }

  method ProcessWithItemsList(items: seq<WithItem>) returns (r: seq<WithItem>)
    ensures |r| == |items|
    ensures forall k :: 0 <= k < |r| ==> r[k] == StripWith(items[k])
  {
    r := items;
    for i := 0 to |items|
      invariant |r| == |items|
      invariant forall k :: 0 <= k < i ==> r[k] == StripWith(items[k])
      invariant forall k :: i <= k < |r| ==> r[k] == items[k]
    {
      var body := ProcessSelectBody(items[i].body);
      r := r[i := items[i].(body := body)];
    }
  }

  /** The parsed statement, whose parts are replaced in place. */
  class Statement {
    var withItems: seq<WithItem>
    var selectBody: SelectBody

    constructor (s: Select)
      ensures Value() == s
    {
      withItems, selectBody := s.withItems, s.selectBody;
    }

    function Value(): Select
      reads this
    {
      Select(withItems, selectBody)
    }
  }

  method SqlToCount(select: Statement)
    modifies select
    ensures select.Value() == CountSelect(old(select.Value()))
  {
    var simple := false;
    if select.selectBody.PlainSelect? {
      simple := IsSimpleCount(select.selectBody);
    }
    if simple {
      select.selectBody := select.selectBody.(items := [COUNT_ITEM]);
    } else {
      select.selectBody := Wrapped(select.selectBody);
    }
  }

  // ----- the entry point and its cache

  datatype Parsed = Unparsable | OtherStatement | Query(select: Select)

  datatype CountSql = Sql(text: string) | ForUpdateRefused | NotASelect

  predicate EndsForUpdate(sql: string) {
    var text, suffix := UpperCase(Trim(sql)), "FOR UPDATE";
    |text| >= |suffix| && text[|text| - |suffix|..] == suffix
  }

  /** FOR UPDATE, in any case, stands at i, and only blanks follow. */
  predicate ForUpdateAt(sql: string, i: nat) {
    && i + 10 <= |sql|
    && (forall j :: i <= j < i + 10 ==> ToUpper(sql[j]) == "FOR UPDATE"[j - i])
    && forall j :: i + 10 <= j < |sql| ==> sql[j] <= ' '
  }

  /** The texts refused are those that end in FOR UPDATE, in any case, up to blanks. */
  lemma EndsForUpdateExactlyWhen(sql: string)
    ensures EndsForUpdate(sql) <==> exists i: nat :: ForUpdateAt(sql, i)
  {
    var k, m := TrimCuts(sql);
    var text := UpperCase(Trim(sql));
    if EndsForUpdate(sql) {
      forall j | m - 10 <= j < m ensures ToUpper(sql[j]) == "FOR UPDATE"[j - (m - 10)] {
        assert text[j - k] == ToUpper(sql[j]);
        assert text[|text| - 10..][j - (m - 10)] == text[j - k];
      }
      assert ForUpdateAt(sql, m - 10);
    }
    if i: nat :| ForUpdateAt(sql, i) {
      assert ToUpper(sql[i]) == "FOR UPDATE"[0] && ToUpper(sql[i + 9]) == "FOR UPDATE"[9];
      assert k <= i && m == i + 10;
      assert text[|text| - 10..] == "FOR UPDATE";
    }
  }

  class SqlParser {
    /** The SQL parser and printer this class calls. */
    const parse: string -> Parsed
    const toText: Select -> string
    var cache: map<string, string>

    /** The count statement for a text, computed afresh. */
    function Fresh(sql: string): CountSql {
      if EndsForUpdate(sql) then ForUpdateRefused
      else match parse(sql)
        case Unparsable => Sql("select count(0) from (" + sql + ") tmp_count")
        case OtherStatement => NotASelect
        case Query(select) => Sql(toText(SmartCount(select)))
    }

    /** The cache never answers differently from a fresh computation. */
    ghost predicate Valid()
      reads this
    {
      forall sql :: sql in cache ==> Fresh(sql) == Sql(cache[sql])
    }

    constructor (parse: string -> Parsed, toText: Select -> string)
      ensures Valid() && this.parse == parse && this.toText == toText
    {
      this.parse, this.toText := parse, toText;
      cache := map[];
    }

    method GetSimpleCountSql(sql: string) returns (r: CountSql)
      ensures r == if EndsForUpdate(sql) then ForUpdateRefused
                   else Sql("select count(0) from (" + sql + ") tmp_count")
    {
      if EndsForUpdate(sql) {
        return ForUpdateRefused;
      }
      r := Sql("select count(0) from (" + sql + ") tmp_count");
    }

    method GetSmartCountSql(sql: string) returns (r: CountSql)
      requires Valid()
      modifies this
      ensures Valid()
      ensures r == Fresh(sql)
      ensures cache == if r.Sql? then old(cache)[sql := r.text] else old(cache)
    {
      if EndsForUpdate(sql) {
        return ForUpdateRefused;
      }
      if sql in cache {
        return Sql(cache[sql]);
      }
      match parse(sql)
      case Unparsable =>
        r := GetSimpleCountSql(sql);
        cache := cache[sql := r.text];
      case OtherStatement =>
        r := NotASelect;
      case Query(value) =>
        var select := new Statement(value);
        select.selectBody := ProcessSelectBody(select.selectBody);
        select.withItems := ProcessWithItemsList(select.withItems);
        assert select.Value() == StripSelect(value);
        SqlToCount(select);
        r := Sql(toText(select.Value()));
        cache := cache[sql := r.text];
    }
  }

  // ----- no removable ORDER BY is left

  /** Every ORDER BY of the body and of what it selects from shows a parameter. */
  predicate OrderedForParameters(b: SelectBody) {
    match b
    case PlainSelect(_, _, from, joins, _, _, _, orderBy, _) =>
      && KeptOrder(orderBy) == orderBy
      && (from.Some? ==> FromOrdered(from.value))
      && forall i :: 0 <= i < |joins| ==> FromOrdered(joins[i].right)
    case SetOperationList(selects, _, orderBy, _) =>
      KeptOrder(orderBy) == orderBy && forall i :: 0 <= i < |selects| ==> OrderedForParameters(selects[i])
    case NamedBody(_, body) => OrderedForParameters(body)
  }

  predicate FromOrdered(f: FromItem) {
    match f
    case Table(_, _) => true
    case SubSelect(body, _) => OrderedForParameters(body)
    case SubJoin(left, join) => FromOrdered(left) && FromOrdered(join.right)
    case ValuesList(_, _) => true
    case LateralSubSelect(body, _) => OrderedForParameters(body)
  }

  /** The traversal leaves no ORDER BY without a parameter at any depth, and changes a body exactly
      when there was one. */
  lemma {:induction false} StripsExactlyRemovable(b: SelectBody)
    ensures OrderedForParameters(StripBody(b))
    ensures StripBody(b) == b <==> OrderedForParameters(b)
    decreases b
  {
    match b
    case PlainSelect(_, _, from, joins, _, _, _, orderBy, _) =>
      if from.Some? {
        StripsFromExactly(from.value);
      }
      forall i | 0 <= i < |joins|
        ensures FromOrdered(StripJoin(joins[i]).right)
        ensures StripJoin(joins[i]) == joins[i] <==> FromOrdered(joins[i].right)
      {
        StripsFromExactly(joins[i].right);
      }
      SameElements(StripBody(b).joins, joins);
    case SetOperationList(selects, _, orderBy, _) =>
      forall i | 0 <= i < |selects|
        ensures OrderedForParameters(StripBody(selects[i]))
        ensures StripBody(selects[i]) == selects[i] <==> OrderedForParameters(selects[i])
      {
        StripsExactlyRemovable(selects[i]);
      }
      SameElements(StripBody(b).selects, selects);
    case NamedBody(_, body) => StripsExactlyRemovable(body);
  }

  lemma {:induction false} StripsFromExactly(f: FromItem)
    ensures FromOrdered(StripFrom(f))
    ensures StripFrom(f) == f <==> FromOrdered(f)
    decreases f
  {
    match f
    case Table(_, _) =>
    case SubSelect(body, _) => StripsExactlyRemovable(body);
    case SubJoin(left, join) =>
      StripsFromExactly(left);
      StripsFromExactly(join.right);
    case ValuesList(_, _) =>
    case LateralSubSelect(body, _) => StripsExactlyRemovable(body);
  }

  lemma SameElements<T>(s: seq<T>, t: seq<T>)
    requires |s| == |t|
    ensures s == t <==> forall i :: 0 <= i < |s| ==> s[i] == t[i]
  {}

  // ----- placeholders survive

  lemma KeptOrderParams(orderBy: Option<seq<OrderByElement>>, limit: Option<Limit>)
    ensures TailParams(KeptOrder(orderBy), limit) == TailParams(orderBy, limit)
  {
    if orderBy.Some? && !HasParameters(orderBy) {
      UnmarkedOrder(orderBy.value);
    }
  }

  lemma {:induction false} StripBodyParams(b: SelectBody)
    ensures BodyParams(StripBody(b)) == BodyParams(b)
  {
    match b
    case PlainSelect(_, _, from, joins, _, _, _, orderBy, limit) =>
      KeptOrderParams(orderBy, limit);
      if from.Some? {
        StripFromParams(from.value);
      }
      StripJoinsParams(joins, StripBody(b).joins);
    case SetOperationList(selects, _, orderBy, limit) =>
      KeptOrderParams(orderBy, limit);
      StripBodiesParams(selects, StripBody(b).selects);
    case NamedBody(_, body) => StripBodyParams(body);
  }

  lemma {:induction false} StripFromParams(f: FromItem)
    ensures FromParams(StripFrom(f)) == FromParams(f)
  {
    match f
    case Table(_, _) =>
    case SubSelect(body, _) => StripBodyParams(body);
    case SubJoin(left, join) =>
      StripFromParams(left);
      StripJoinParams(join);
    case ValuesList(_, _) =>
    case LateralSubSelect(body, _) => StripBodyParams(body);
  }

  lemma {:induction false} StripJoinParams(j: Join)
    ensures JoinParams(StripJoin(j)) == JoinParams(j)
  {
    StripFromParams(j.right);
  }

  lemma {:induction false} StripJoinsParams(js: seq<Join>, stripped: seq<Join>)
    requires |stripped| == |js| && forall i :: 0 <= i < |js| ==> stripped[i] == StripJoin(js[i])
    ensures JoinsParams(stripped) == JoinsParams(js)
  {
    if |js| > 0 {
      StripJoinParams(js[0]);
      StripJoinsParams(js[1..], stripped[1..]);
    }
  }

  lemma {:induction false} StripBodiesParams(bs: seq<SelectBody>, stripped: seq<SelectBody>)
    requires |stripped| == |bs| && forall i :: 0 <= i < |bs| ==> stripped[i] == StripBody(bs[i])
    ensures BodiesParams(stripped) == BodiesParams(bs)
  {
    if |bs| > 0 {
      StripBodyParams(bs[0]);
      StripBodiesParams(bs[1..], stripped[1..]);
    }
  }

  lemma {:induction false} StripWithParams(ws: seq<WithItem>, stripped: seq<WithItem>)
    requires |stripped| == |ws| && forall i :: 0 <= i < |ws| ==> stripped[i] == StripWith(ws[i])
    ensures WithParams(stripped) == WithParams(ws)
  {
    if |ws| > 0 {
      StripBodyParams(ws[0].body);
      StripWithParams(ws[1..], stripped[1..]);
    }
  }

  /** The count statement takes the same parameters in the same order as the original. */
  lemma PlaceholdersPreserved(s: Select)
    ensures SelectParams(SmartCount(s)) == SelectParams(s)
  {
    StripBodyParams(s.selectBody);
    StripWithParams(s.withItems, StripSelect(s).withItems);
    var b := StripBody(s.selectBody);
    assert ExprParams(COUNT_ITEM.expr) == [];
    assert ItemsParams([COUNT_ITEM]) == [];
    if b.PlainSelect? && SimpleCount(b) {
      UnmarkedItems(b.items);
    } else {
      assert BodyParams(Wrapped(b)) == BodyParams(b);
    }
  }
}
