/** The parsed SELECT statement: the parts of JSqlParser's tree that the paging helper's
    count rewriting reads, changes or carries along. */
module SqlAst {
  import opened Options

  datatype Expr =
    | Atom(text: string)
    | Placeholder(id: nat)
    | FunctionCall(name: string, args: seq<Expr>)
    | Compound(op: string, parts: seq<Expr>)

  datatype SelectItem =
    | AllColumns
    | AllTableColumns(table: string)
    | ExprItem(expr: Expr, alias: Option<string>)

  /** The text of the item that turns a statement into its count. */
  const COUNT_TEXT := "count(0)"

  datatype OrderByElement = OrderByElement(expr: Expr, descending: bool)

  datatype Limit = Limit(offset: Option<Expr>, rowCount: Option<Expr>)

  datatype JoinKind = Inner | Left | Right | Full

  datatype Join = Join(kind: JoinKind, right: FromItem, on: Option<Expr>)

  datatype FromItem =
    | Table(name: string, alias: Option<string>)
    | SubSelect(body: SelectBody, alias: Option<string>)
    | SubJoin(left: FromItem, join: Join)
    | ValuesList(tuples: seq<seq<Expr>>, alias: Option<string>)
    | LateralSubSelect(body: SelectBody, alias: Option<string>)

  datatype SetOperation = UnionAll | Union | Intersect | Except

  datatype SelectBody =
    | PlainSelect(distinct: bool,
                  items: seq<SelectItem>,
                  from: Option<FromItem>,
                  joins: seq<Join>,
                  where: Option<Expr>,
                  groupBy: Option<seq<Expr>>,
                  having: Option<Expr>,
                  orderBy: Option<seq<OrderByElement>>,
                  limit: Option<Limit>)
    | SetOperationList(selects: seq<SelectBody>,
                       operations: seq<SetOperation>,
                       orderBy: Option<seq<OrderByElement>>,
                       limit: Option<Limit>)
    | NamedBody(name: string, body: SelectBody)

  datatype WithItem = WithItem(name: string, body: SelectBody)

  datatype Select = Select(withItems: seq<WithItem>, selectBody: SelectBody)

  // ----- printed question marks

  /** Does the printed expression contain a question mark? A parameter does, and so may a literal. */
  predicate ShowsMark(e: Expr) {
    match e
    case Atom(text) => '?' in text
    case Placeholder(_) => true
    case FunctionCall(name, args) => '?' in name || exists i :: 0 <= i < |args| && ShowsMark(args[i])
    case Compound(op, parts) => '?' in op || exists i :: 0 <= i < |parts| && ShowsMark(parts[i])
  }

  predicate ItemShowsMark(item: SelectItem) {
    match item
    case AllColumns => false
    case AllTableColumns(table) => '?' in table
    case ExprItem(e, alias) => ShowsMark(e) || (alias.Some? && '?' in alias.value)
  }

  // ----- the parameters of a statement, in the order in which it is printed

  function ExprParams(e: Expr): seq<nat> {
    match e
    case Atom(_) => []
    case Placeholder(id) => [id]
    case FunctionCall(_, args) => ExprsParams(args)
    case Compound(_, parts) => ExprsParams(parts)
  }

  function ExprsParams(es: seq<Expr>): seq<nat> {
    if |es| == 0 then [] else ExprParams(es[0]) + ExprsParams(es[1..])
  }

  function OptionParams(e: Option<Expr>): seq<nat> {
    if e.Some? then ExprParams(e.value) else []
  }

  function ItemParams(item: SelectItem): seq<nat> {
    if item.ExprItem? then ExprParams(item.expr) else []
  }

  function ItemsParams(items: seq<SelectItem>): seq<nat> {
    if |items| == 0 then [] else ItemParams(items[0]) + ItemsParams(items[1..])
  }

  function OrderParams(elements: seq<OrderByElement>): seq<nat> {
    if |elements| == 0 then [] else ExprParams(elements[0].expr) + OrderParams(elements[1..])
  }

  function TailParams(orderBy: Option<seq<OrderByElement>>, limit: Option<Limit>): seq<nat> {
    (if orderBy.Some? then OrderParams(orderBy.value) else [])
    + if limit.Some? then OptionParams(limit.value.offset) + OptionParams(limit.value.rowCount) else []
  }

  function TuplesParams(tuples: seq<seq<Expr>>): seq<nat> {
    if |tuples| == 0 then [] else ExprsParams(tuples[0]) + TuplesParams(tuples[1..])
  }

  function FromParams(f: FromItem): seq<nat> {
    match f
    case Table(_, _) => []
    case SubSelect(body, _) => BodyParams(body)
    case SubJoin(left, join) => FromParams(left) + JoinParams(join)
    case ValuesList(tuples, _) => TuplesParams(tuples)
    case LateralSubSelect(body, _) => BodyParams(body)
  }

  function JoinParams(j: Join): seq<nat> {
    FromParams(j.right) + OptionParams(j.on)
  }

  function JoinsParams(js: seq<Join>): seq<nat> {
    if |js| == 0 then [] else JoinParams(js[0]) + JoinsParams(js[1..])
  }

  function BodyParams(b: SelectBody): seq<nat> {
    match b
    case PlainSelect(_, items, from, joins, where, groupBy, having, orderBy, limit) =>
      ItemsParams(items)
      + (if from.Some? then FromParams(from.value) else [])
      + JoinsParams(joins)
      + OptionParams(where)
      + (if groupBy.Some? then ExprsParams(groupBy.value) else [])
      + OptionParams(having)
      + TailParams(orderBy, limit)
    case SetOperationList(selects, _, orderBy, limit) =>
      BodiesParams(selects) + TailParams(orderBy, limit)
    case NamedBody(_, body) => BodyParams(body)
  }

  function BodiesParams(bs: seq<SelectBody>): seq<nat> {
    if |bs| == 0 then [] else BodyParams(bs[0]) + BodiesParams(bs[1..])
  }

  function WithParams(ws: seq<WithItem>): seq<nat> {
    if |ws| == 0 then [] else BodyParams(ws[0].body) + WithParams(ws[1..])
  }

  function SelectParams(s: Select): seq<nat> {
    WithParams(s.withItems) + BodyParams(s.selectBody)
  }

  // ----- expressions without a mark hold no parameter

  lemma {:induction false} UnmarkedExpr(e: Expr)
    requires !ShowsMark(e)
    ensures ExprParams(e) == []
  {
    match e
    case Atom(_) =>
    case Placeholder(_) =>
    case FunctionCall(_, args) => UnmarkedExprs(args);
    case Compound(_, parts) => UnmarkedExprs(parts);
  }

  lemma {:induction false} UnmarkedExprs(es: seq<Expr>)
    requires forall i :: 0 <= i < |es| ==> !ShowsMark(es[i])
    ensures ExprsParams(es) == []
  {
    if |es| > 0 {
      UnmarkedExpr(es[0]);
      UnmarkedExprs(es[1..]);
    }
  }

  lemma {:induction false} UnmarkedItems(items: seq<SelectItem>)
    requires forall i :: 0 <= i < |items| ==> !ItemShowsMark(items[i])
    ensures ItemsParams(items) == []
  {
    if |items| > 0 {
      if items[0].ExprItem? {
        UnmarkedExpr(items[0].expr);
      }
      UnmarkedItems(items[1..]);
    }
  }

  lemma {:induction false} UnmarkedOrder(elements: seq<OrderByElement>)
    requires forall i :: 0 <= i < |elements| ==> !ShowsMark(elements[i].expr)
    ensures OrderParams(elements) == []
  {
    if |elements| > 0 {
      UnmarkedExpr(elements[0].expr);
      UnmarkedOrder(elements[1..]);
    }
  }
}
