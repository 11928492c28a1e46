/** The count statement counts the rows of the statement it was made from. */
module SqlCountMeaning {
  import opened Options
  import opened Permutations
  import opened SqlAst
  import opened SqlParser
  import opened SqlSemantics

  /** The WITH names hold the same rows up to order; exactly the same when steady. */
  ghost predicate SameEnv(a: Env, b: Env, steady: bool) {
    && a.Keys == b.Keys
    && (forall name :: name in a ==> Perm(a[name], b[name]))
    && (steady ==> a == b)
  }

  // A LIMIT picks rows by position, so ORDER BY removal may change which ones. A limited
  // part is safe when the rewriting leaves it and the WITH items alone.

  predicate SafeBody(b: SelectBody, steady: bool)
    decreases b, 1
  {
    match b
    case PlainSelect(_, _, from, joins, _, _, _, _, limit) =>
      if limit.Some? then steady && StripBody(b) == b else SafeSources(b, steady)
    case SetOperationList(selects, _, _, limit) =>
      if limit.Some? then steady && StripBody(b) == b else SafeSelects(b, steady)
    case NamedBody(_, body) => SafeBody(body, steady)
  }

  predicate SafeSources(b: SelectBody, steady: bool)
    requires b.PlainSelect?
    decreases b, 0
  {
    && (b.from.Some? ==> SafeFrom(b.from.value, steady))
    && forall i :: 0 <= i < |b.joins| ==> SafeFrom(b.joins[i].right, steady)
  }

  predicate SafeSelects(b: SelectBody, steady: bool)
    requires b.SetOperationList?
    decreases b, 0
  {
    forall i :: 0 <= i < |b.selects| ==> SafeBody(b.selects[i], steady)
  }

  predicate SafeFrom(f: FromItem, steady: bool)
    decreases f, 1
  {
    match f
    case Table(_, _) => true
    case SubSelect(body, _) => SafeBody(body, steady)
    case SubJoin(left, join) => SafeFrom(left, steady) && SafeFrom(join.right, steady)
    case ValuesList(_, _) => true
    case LateralSubSelect(body, _) => SafeBody(body, steady)
  }

  // ----- the clauses of one body

  lemma GroupsPerm(db: Database, groupBy: Option<seq<Expr>>, outer: Tuple, s: seq<Tuple>, t: seq<Tuple>)
    requires Perm(s, t)
    ensures Perm(Groups(db, groupBy, outer, s), Groups(db, groupBy, outer, t))
  {
    if groupBy.Some? {
      var key := Key(db, groupBy.value, outer);
      MapPerm(s, t, key);
      PermMembers(Map(s, key), Map(t, key));
      DedupPerm(Map(s, key), Map(t, key));
      var f, g := GroupOf(db, groupBy.value, outer, s), GroupOf(db, groupBy.value, outer, t);
      forall k ensures f(k) == g(k) {
        FilterPerm(s, t, HasKey(db, groupBy.value, outer, k), HasKey(db, groupBy.value, outer, k));
      }
      FlatMapPerm(Dedup(Map(s, key)), Dedup(Map(t, key)), One(f), One(g));
    }
  }

  lemma OutputPerm(db: Database, items: seq<SelectItem>, groupBy: Option<seq<Expr>>, having: Option<Expr>,
                   outer: Tuple, s: seq<Tuple>, t: seq<Tuple>)
    requires Perm(s, t)
    ensures Perm(Output(db, items, groupBy, having, outer, s), Output(db, items, groupBy, having, outer, t))
  {
    if Grouped(db, items, groupBy, having) {
      GroupsPerm(db, groupBy, outer, s, t);
      var p := Having(db, having, outer);
      var a, b := Groups(db, groupBy, outer, s), Groups(db, groupBy, outer, t);
      FilterPerm(a, b, p, p);
      MapPerm(Filter(a, p), Filter(b, p), GroupRow(db, items, outer));
    } else {
      MapPerm(s, t, TupleRow(db, items, outer));
    }
  }

  lemma DistinctPerm(distinct: bool, s: seq<Sortable>, t: seq<Sortable>)
    requires Perm(s, t)
    ensures Perm(Distinct(distinct, s), Distinct(distinct, t))
  {
    if distinct {
      MapPerm(s, t, RowOf());
      PermMembers(Map(s, RowOf()), Map(t, RowOf()));
      DedupPerm(Map(s, RowOf()), Map(t, RowOf()));
      MapPerm(Dedup(Map(s, RowOf())), Dedup(Map(t, RowOf())), Bare());
    }
  }

  lemma SortedPerm(db: Database, orderBy: Option<seq<OrderByElement>>, output: seq<Sortable>)
    requires Lawful(db)
    ensures Perm(Sorted(db, orderBy, output), output)
  {
  }

  /** Without a LIMIT, neither the order of the input nor ORDER BY matters. */
  lemma FinishedPerm(db: Database, distinct: bool, kept: Option<seq<OrderByElement>>,
                     orderBy: Option<seq<OrderByElement>>, s: seq<Sortable>, t: seq<Sortable>)
    requires Lawful(db) && Perm(s, t)
    ensures Perm(Finished(db, distinct, kept, None, s), Finished(db, distinct, orderBy, None, t))
  {
    DistinctPerm(distinct, s, t);
    SortedPerm(db, kept, Distinct(distinct, s));
    SortedPerm(db, orderBy, Distinct(distinct, t));
    MapPerm(Sorted(db, kept, Distinct(distinct, s)), Sorted(db, orderBy, Distinct(distinct, t)), RowOf());
  }

  /** With a LIMIT, at least the number of rows stays the same. */
  lemma FinishedLength(db: Database, distinct: bool, kept: Option<seq<OrderByElement>>,
                       orderBy: Option<seq<OrderByElement>>, limit: Option<Limit>, s: seq<Sortable>, t: seq<Sortable>)
    requires Lawful(db) && Perm(s, t)
    ensures |Finished(db, distinct, kept, limit, s)| == |Finished(db, distinct, orderBy, limit, t)|
  {
    DistinctPerm(distinct, s, t);
    var a, b := Sorted(db, kept, Distinct(distinct, s)), Sorted(db, orderBy, Distinct(distinct, t));
    SortedPerm(db, kept, Distinct(distinct, s));
    SortedPerm(db, orderBy, Distinct(distinct, t));
    PermMembers(a, b);
    MapLength(Limited(db, limit, a), RowOf());
    MapLength(Limited(db, limit, b), RowOf());
  }

  lemma CombinedPerm(op: SetOperation, a: seq<Row>, b: seq<Row>, c: seq<Row>, d: seq<Row>)
    requires Perm(a, c) && Perm(b, d)
    ensures Perm(Combined(op, a, b), Combined(op, c, d))
  {
    PermMembers(b, d);
    match op
    case UnionAll =>
    case Union =>
      PermMembers(a + b, c + d);
      DedupPerm(a + b, c + d);
    case Intersect =>
      FilterPerm(a, c, In(b, true), In(d, true));
      PermMembers(Filter(a, In(b, true)), Filter(c, In(d, true)));
      DedupPerm(Filter(a, In(b, true)), Filter(c, In(d, true)));
    case Except =>
      FilterPerm(a, c, In(b, false), In(d, false));
      PermMembers(Filter(a, In(b, false)), Filter(c, In(d, false)));
      DedupPerm(Filter(a, In(b, false)), Filter(c, In(d, false)));
  }

  // ----- sources and joins

  lemma FittingPerm(db: Database, on: Option<Expr>, outer: Tuple, l: Tuple, rights': seq<Tuple>, rights: seq<Tuple>)
    requires Perm(rights', rights)
    ensures Perm(Fitting(db, on, outer, l, rights'), Fitting(db, on, outer, l, rights))
  {
    var fits := Fits(db, on, outer, l);
    FilterPerm(rights', rights, fits, fits);
    MapPerm(Filter(rights', fits), Filter(rights, fits), Extend(l));
  }

  lemma UnmatchedPerm(db: Database, on: Option<Expr>, outer: Tuple, lefts': seq<Tuple>, lefts: seq<Tuple>,
                      rights': seq<Tuple>, rights: seq<Tuple>)
    requires Perm(lefts', lefts) && Perm(rights', rights)
    ensures Perm(Unmatched(db, on, outer, lefts', rights'), Unmatched(db, on, outer, lefts, rights))
  {
    PermMembers(lefts', lefts);
    FilterPerm(rights', rights, NoneFits(db, on, outer, lefts'), NoneFits(db, on, outer, lefts));
  }

  lemma JoinedPerm(kind: JoinKind, lefts': seq<Tuple>, lefts: seq<Tuple>, m': Tuple -> seq<Tuple>,
                   m: Tuple -> seq<Tuple>, unmatched': seq<Tuple>, unmatched: seq<Tuple>)
    requires Perm(lefts', lefts) && Perm(unmatched', unmatched)
    requires forall l :: Perm(m'(l), m(l))
    ensures Perm(Joined(kind, lefts', m', unmatched'), Joined(kind, lefts, m, unmatched))
  {
    FlatMapPerm(lefts', lefts, m', m);
    forall l ensures Perm(OrAlone(m')(l), OrAlone(m)(l)) {
      PermMembers(m'(l), m(l));
    }
    FlatMapPerm(lefts', lefts, OrAlone(m'), OrAlone(m));
  }

  // ----- ORDER BY removal, everywhere at once

  lemma {:induction false} StripBodyRows(db: Database, env: Env, env': Env, b: SelectBody, outer: Tuple, steady: bool)
    requires Lawful(db) && SameEnv(env', env, steady) && SafeBody(b, steady)
    ensures Perm(BodyRows(db, env', StripBody(b), outer), BodyRows(db, env, b, outer))
    decreases b, 1
  {
    match b
    case PlainSelect(distinct, items, from, joins, where, groupBy, having, orderBy, limit) =>
      if limit == None {
        StripSources(db, env, env', b, outer, steady);
        var s', s := SourceTuples(db, env', StripBody(b), outer), SourceTuples(db, env, b, outer);
        OutputPerm(db, items, groupBy, having, outer, s', s);
        FinishedPerm(db, distinct, KeptOrder(orderBy), orderBy,
                     Output(db, items, groupBy, having, outer, s'), Output(db, items, groupBy, having, outer, s));
      }
    case SetOperationList(selects, operations, orderBy, limit) =>
      if limit == None {
        StripSelects(db, env, env', selects, StripBody(b).selects, operations, outer, steady);
        var r', r := SelectsRows(db, env', StripBody(b).selects, operations, outer),
                     SelectsRows(db, env, selects, operations, outer);
        MapPerm(r', r, Bare());
        FinishedPerm(db, false, KeptOrder(orderBy), orderBy, Map(r', Bare()), Map(r, Bare()));
      }
    case NamedBody(_, body) => StripBodyRows(db, env, env', body, outer, steady);
  }

  lemma {:induction false} StripSources(db: Database, env: Env, env': Env, b: SelectBody, outer: Tuple, steady: bool)
    requires b.PlainSelect? && Lawful(db) && SameEnv(env', env, steady) && SafeSources(b, steady)
    ensures Perm(SourceTuples(db, env', StripBody(b), outer), SourceTuples(db, env, b, outer))
    decreases b, 0
  {
    var b' := StripBody(b);
    var first' := if b'.from.Some? then FromRows(db, env', b'.from.value, outer) else [[]];
    var first := if b.from.Some? then FromRows(db, env, b.from.value, outer) else [[]];
    if b.from.Some? {
      StripFromRows(db, env, env', b.from.value, outer, steady);
    }
    StripJoins(db, env, env', first, first', b.joins, b'.joins, outer, steady);
    FilterPerm(JoinAll(db, env', first', b'.joins, outer), JoinAll(db, env, first, b.joins, outer),
               Holds(db, b.where, outer), Holds(db, b.where, outer));
  }

  lemma {:induction false} StripFromRows(db: Database, env: Env, env': Env, f: FromItem, outer: Tuple, steady: bool)
    requires Lawful(db) && SameEnv(env', env, steady) && SafeFrom(f, steady)
    ensures Perm(FromRows(db, env', StripFrom(f), outer), FromRows(db, env, f, outer))
    decreases f, 0
  {
    match f
    case Table(name, alias) =>
      MapPerm(if name in env' then env'[name] else db.table(name),
              if name in env then env[name] else db.table(name), BindTo(AliasOr(alias, name)));
    case SubSelect(body, alias) =>
      StripBodyRows(db, env, env', body, outer, steady);
      MapPerm(BodyRows(db, env', StripBody(body), outer), BodyRows(db, env, body, outer), BindTo(AliasOr(alias, "")));
    case SubJoin(left, join) =>
      StripFromRows(db, env, env', left, outer, steady);
      StripJoinRows(db, env, env', FromRows(db, env, left, outer), FromRows(db, env', StripFrom(left), outer),
                    join, outer, steady);
    case ValuesList(_, _) =>
    case LateralSubSelect(body, alias) =>
      StripBodyRows(db, env, env', body, outer, steady);
      MapPerm(BodyRows(db, env', StripBody(body), outer), BodyRows(db, env, body, outer), BindTo(AliasOr(alias, "")));
  }

  lemma {:induction false} StripJoinRows(db: Database, env: Env, env': Env, lefts: seq<Tuple>, lefts': seq<Tuple>,
                                         join: Join, outer: Tuple, steady: bool)
    requires Lawful(db) && SameEnv(env', env, steady) && SafeFrom(join.right, steady) && Perm(lefts', lefts)
    ensures Perm(JoinRows(db, env', lefts', StripJoin(join), outer), JoinRows(db, env, lefts, join, outer))
    decreases join, 1
  {
    var join' := StripJoin(join);
    var m', m := Matches(db, env', join', outer), Matches(db, env, join, outer);
    forall l ensures Perm(m'(l), m(l)) {
      StripMatches(db, env, env', join, outer, l, steady);
    }
    var rights', rights := FromRows(db, env', join'.right, outer), FromRows(db, env, join.right, outer);
    StripFromRows(db, env, env', join.right, outer, steady);
    UnmatchedPerm(db, join.on, outer, lefts', lefts, rights', rights);
    JoinedPerm(join.kind, lefts', lefts, m', m, Unmatched(db, join.on, outer, lefts', rights'),
               Unmatched(db, join.on, outer, lefts, rights));
  }

  lemma {:induction false} StripMatches(db: Database, env: Env, env': Env, join: Join, outer: Tuple, l: Tuple,
                                        steady: bool)
    requires Lawful(db) && SameEnv(env', env, steady) && SafeFrom(join.right, steady)
    ensures Perm(MatchRows(db, env', StripJoin(join), outer, l), MatchRows(db, env, join, outer, l))
    decreases join, 0
  {
    var scope := Scope(join.right, outer, l);
    StripFromRows(db, env, env', join.right, scope, steady);
    FittingPerm(db, join.on, outer, l, FromRows(db, env', StripFrom(join.right), scope),
                FromRows(db, env, join.right, scope));
  }

  lemma {:induction false} StripJoins(db: Database, env: Env, env': Env, lefts: seq<Tuple>, lefts': seq<Tuple>,
                                      joins: seq<Join>, joins': seq<Join>, outer: Tuple, steady: bool)
    requires Lawful(db) && SameEnv(env', env, steady) && Perm(lefts', lefts)
    requires forall i :: 0 <= i < |joins| ==> SafeFrom(joins[i].right, steady)
    requires |joins'| == |joins| && forall i :: 0 <= i < |joins| ==> joins'[i] == StripJoin(joins[i])
    ensures Perm(JoinAll(db, env', lefts', joins', outer), JoinAll(db, env, lefts, joins, outer))
    decreases joins, 0
  {
    if |joins| > 0 {
      StripJoinRows(db, env, env', lefts, lefts', joins[0], outer, steady);
      StripJoins(db, env, env', JoinRows(db, env, lefts, joins[0], outer), JoinRows(db, env', lefts', joins'[0], outer),
                 joins[1..], joins'[1..], outer, steady);
    }
  }

  lemma {:induction false} StripSelects(db: Database, env: Env, env': Env, selects: seq<SelectBody>,
                                        selects': seq<SelectBody>, operations: seq<SetOperation>, outer: Tuple,
                                        steady: bool)
    requires Lawful(db) && SameEnv(env', env, steady)
    requires forall i :: 0 <= i < |selects| ==> SafeBody(selects[i], steady)
    requires |selects'| == |selects| && forall i :: 0 <= i < |selects| ==> selects'[i] == StripBody(selects[i])
    ensures Perm(SelectsRows(db, env', selects', operations, outer), SelectsRows(db, env, selects, operations, outer))
    decreases selects, 0
  {
    var n := |selects|;
    if n >= 1 {
      StripBodyRows(db, env, env', selects[n - 1], outer, steady);
    }
    if n >= 2 {
      StripSelects(db, env, env', selects[..n - 1], selects'[..n - 1], operations, outer, steady);
      CombinedPerm(if n - 2 < |operations| then operations[n - 2] else UnionAll,
                   SelectsRows(db, env', selects'[..n - 1], operations, outer),
                   BodyRows(db, env', selects'[n - 1], outer),
                   SelectsRows(db, env, selects[..n - 1], operations, outer),
                   BodyRows(db, env, selects[n - 1], outer));
    }
  }

  // ----- WITH items

  predicate SafeWiths(ws: seq<WithItem>, steady: bool) {
    forall i :: 0 <= i < |ws| ==> SafeBody(ws[i].body, steady)
  }

  predicate Unchanged(s: Select) {
    forall i :: 0 <= i < |s.withItems| ==> StripWith(s.withItems[i]) == s.withItems[i]
  }

  lemma {:induction false} StripWithRows(db: Database, ws: seq<WithItem>, ws': seq<WithItem>)
    requires Lawful(db) && SafeWiths(ws, false)
    requires |ws'| == |ws| && forall i :: 0 <= i < |ws| ==> ws'[i] == StripWith(ws[i])
    ensures SameEnv(WithRows(db, ws'), WithRows(db, ws), false)
  {
    if |ws| > 0 {
      var front', front := ws'[..|ws| - 1], ws[..|ws| - 1];
      StripWithRows(db, front, front');
      StripBodyRows(db, WithRows(db, front), WithRows(db, front'), ws[|ws| - 1].body, [], false);
    }
  }

  lemma StripEnv(db: Database, s: Select)
    requires Lawful(db) && (Unchanged(s) || SafeWiths(s.withItems, false))
    ensures SameEnv(WithRows(db, StripSelect(s).withItems), WithRows(db, s.withItems), Unchanged(s))
  {
    if Unchanged(s) {
      assert StripSelect(s).withItems == s.withItems;
    } else {
      StripWithRows(db, s.withItems, StripSelect(s).withItems);
    }
  }

  // ----- the count of a body

  lemma SingletonMap<A, B>(x: A, f: A -> B)
    ensures Map([x], f) == [f(x)]
  {
    assert FlatMap([x], One(f)) == One(f)(x) + FlatMap([x][1..], One(f));
  }

  lemma {:induction false} FilterAll<T>(s: seq<T>, p: T -> bool)
    requires forall x :: x in s ==> p(x)
    ensures Filter(s, p) == s
  {
    if |s| > 0 {
      FilterAll(s[1..], p);
      assert Filter(s, p) == Keep(p)(s[0]) + Filter(s[1..], p);
    }
  }

  lemma LimitedLength<S, T>(db: Database, limit: Option<Limit>, s: seq<S>, t: seq<T>)
    requires |s| == |t|
    ensures |Limited(db, limit, s)| == |Limited(db, limit, t)|
  {
  }

  /** The group of all tuples, kept or dropped by HAVING. */
  lemma OneGroup(db: Database, items: seq<SelectItem>, having: Option<Expr>, outer: Tuple, tuples: seq<Tuple>)
    requires Grouped(db, items, None, having)
    ensures var group := multiset(tuples);
      Output(db, items, None, having, outer, tuples) ==
      if Having(db, having, outer)(group) then [Sortable(group, GroupCells(db, items, outer, group))] else []
  {
    var group := multiset(tuples);
    var p := Having(db, having, outer);
    assert Filter([group], p) == Keep(p)(group) + FlatMap([group][1..], Keep(p));
    if p(group) {
      SingletonMap(group, GroupRow(db, items, outer));
    }
  }

  lemma FinishedCount(db: Database, orderBy: Option<seq<OrderByElement>>, limit: Option<Limit>, output: seq<Sortable>)
    requires Lawful(db)
    ensures |Finished(db, false, orderBy, limit, output)| == |Limited(db, limit, output)|
  {
    var sorted := Sorted(db, orderBy, output);
    SortedPerm(db, orderBy, output);
    PermMembers(sorted, output);
    LimitedLength(db, limit, sorted, output);
    MapLength(Limited(db, limit, sorted), RowOf());
  }

  // A limited sub-select may also be safe because whoever reads it only counts its rows.

  /** The number of rows of the body depends on the number of rows it selects from alone. */
  predicate MerelyCounts(b: SelectBody) {
    && b.PlainSelect? && b.from.Some? && b.joins == [] && b.where == None
    && !b.distinct && b.groupBy == None && b.having == None
  }

  predicate OnlyUnionAll(n: nat, operations: seq<SetOperation>) {
    forall i :: 0 <= i < |operations| && i < n - 1 ==> operations[i] == UnionAll
  }

  /** Removing ORDER BY cannot change the number of rows; the body's own LIMIT does not matter. */
  predicate SafeCount(b: SelectBody, steady: bool)
    decreases b, 1
  {
    SafeBody(b, steady)
    || match b
       case PlainSelect(_, _, from, _, _, _, _, _, _) =>
         SafeSources(b, steady) || (MerelyCounts(b) && SafeFromCount(from.value, steady))
       case SetOperationList(selects, operations, _, _) =>
         SafeSelects(b, steady) || (OnlyUnionAll(|selects|, operations) && SafeCounts(b, steady))
       case NamedBody(_, body) => SafeCount(body, steady)
  }

  predicate SafeCounts(b: SelectBody, steady: bool)
    requires b.SetOperationList?
    decreases b, 0
  {
    forall i :: 0 <= i < |b.selects| ==> SafeCount(b.selects[i], steady)
  }

  predicate SafeFromCount(f: FromItem, steady: bool)
    decreases f, 1
  {
    match f
    case SubSelect(body, _) => SafeCount(body, steady)
    case LateralSubSelect(body, _) => SafeCount(body, steady)
    case _ => SafeFrom(f, steady)
  }

  lemma MerelyCountedTuples(db: Database, env: Env, b: SelectBody, outer: Tuple)
    requires MerelyCounts(b)
    ensures |SourceTuples(db, env, b, outer)| == |FromRows(db, env, b.from.value, outer)|
  {
    var source := FromRows(db, env, b.from.value, outer);
    assert JoinAll(db, env, source, b.joins, outer) == source;
    FilterAll(source, Holds(db, None, outer));
  }

  lemma OutputLength(db: Database, items: seq<SelectItem>, outer: Tuple, s: seq<Tuple>, t: seq<Tuple>)
    requires |s| == |t|
    ensures |Output(db, items, None, None, outer, s)| == |Output(db, items, None, None, outer, t)|
  {
    if Grouped(db, items, None, None) {
      OneGroup(db, items, None, outer, s);
      OneGroup(db, items, None, outer, t);
    } else {
      MapLength(s, TupleRow(db, items, outer));
      MapLength(t, TupleRow(db, items, outer));
    }
  }

  lemma FinishedSameLength(db: Database, kept: Option<seq<OrderByElement>>, orderBy: Option<seq<OrderByElement>>,
                           limit: Option<Limit>, s: seq<Sortable>, t: seq<Sortable>)
    requires Lawful(db) && |s| == |t|
    ensures |Finished(db, false, kept, limit, s)| == |Finished(db, false, orderBy, limit, t)|
  {
    FinishedCount(db, kept, limit, s);
    FinishedCount(db, orderBy, limit, t);
    LimitedLength(db, limit, s, t);
  }

  /** ORDER BY removal keeps the number of rows, whatever LIMIT the outermost body has and, as long
      as rows are merely counted, the bodies below it. */
  lemma {:induction false} StripBodyCount(db: Database, env: Env, env': Env, b: SelectBody, outer: Tuple, steady: bool)
    requires Lawful(db) && SameEnv(env', env, steady) && SafeCount(b, steady)
    ensures |BodyRows(db, env', StripBody(b), outer)| == |BodyRows(db, env, b, outer)|
    decreases b, 1
  {
    if SafeBody(b, steady) {
      StripBodyRows(db, env, env', b, outer, steady);
      PermMembers(BodyRows(db, env', StripBody(b), outer), BodyRows(db, env, b, outer));
    } else {
      match b
      case PlainSelect(_, _, _, _, _, _, _, _, _) => StripPlainCount(db, env, env', b, outer, steady);
      case SetOperationList(_, _, _, _) => StripListCount(db, env, env', b, outer, steady);
      case NamedBody(_, body) => StripBodyCount(db, env, env', body, outer, steady);
    }
  }

  lemma {:induction false} StripPlainCount(db: Database, env: Env, env': Env, b: SelectBody, outer: Tuple, steady: bool)
    requires Lawful(db) && SameEnv(env', env, steady) && b.PlainSelect?
    requires SafeSources(b, steady) || (MerelyCounts(b) && SafeFromCount(b.from.value, steady))
    ensures |BodyRows(db, env', StripBody(b), outer)| == |BodyRows(db, env, b, outer)|
    ensures |SourceTuples(db, env', StripBody(b), outer)| == |SourceTuples(db, env, b, outer)|
    decreases b, 0
  {
    var b' := StripBody(b);
    var s', s := SourceTuples(db, env', b', outer), SourceTuples(db, env, b, outer);
    var o' := Output(db, b.items, b.groupBy, b.having, outer, s');
    var o := Output(db, b.items, b.groupBy, b.having, outer, s);
    if SafeSources(b, steady) {
      StripSources(db, env, env', b, outer, steady);
      PermMembers(s', s);
      OutputPerm(db, b.items, b.groupBy, b.having, outer, s', s);
      FinishedLength(db, b.distinct, KeptOrder(b.orderBy), b.orderBy, b.limit, o', o);
    } else {
      StripFromCount(db, env, env', b.from.value, outer, steady);
      MerelyCountedTuples(db, env, b, outer);
      MerelyCountedTuples(db, env', b', outer);
      OutputLength(db, b.items, outer, s', s);
      FinishedSameLength(db, KeptOrder(b.orderBy), b.orderBy, b.limit, o', o);
    }
  }

  lemma {:induction false} StripFromCount(db: Database, env: Env, env': Env, f: FromItem, outer: Tuple, steady: bool)
    requires Lawful(db) && SameEnv(env', env, steady) && SafeFromCount(f, steady)
    ensures |FromRows(db, env', StripFrom(f), outer)| == |FromRows(db, env, f, outer)|
    decreases f, 0
  {
    if f.SubSelect? || f.LateralSubSelect? {
      StripBodyCount(db, env, env', f.body, outer, steady);
      MapLength(BodyRows(db, env', StripBody(f.body), outer), BindTo(AliasOr(f.alias, "")));
      MapLength(BodyRows(db, env, f.body, outer), BindTo(AliasOr(f.alias, "")));
    } else {
      StripFromRows(db, env, env', f, outer, steady);
      PermMembers(FromRows(db, env', StripFrom(f), outer), FromRows(db, env, f, outer));
    }
  }

  lemma {:induction false} StripListCount(db: Database, env: Env, env': Env, b: SelectBody, outer: Tuple, steady: bool)
    requires Lawful(db) && SameEnv(env', env, steady) && b.SetOperationList?
    requires SafeSelects(b, steady) || (OnlyUnionAll(|b.selects|, b.operations) && SafeCounts(b, steady))
    ensures |BodyRows(db, env', StripBody(b), outer)| == |BodyRows(db, env, b, outer)|
    decreases b, 0
  {
    var b' := StripBody(b);
    var r' := SelectsRows(db, env', b'.selects, b.operations, outer);
    var r := SelectsRows(db, env, b.selects, b.operations, outer);
    if SafeSelects(b, steady) {
      StripSelects(db, env, env', b.selects, b'.selects, b.operations, outer, steady);
      PermMembers(r', r);
    } else {
      StripSelectsCount(db, env, env', b.selects, b'.selects, b.operations, outer, steady);
    }
    MapLength(r', Bare());
    MapLength(r, Bare());
    FinishedSameLength(db, KeptOrder(b.orderBy), b.orderBy, b.limit, Map(r', Bare()), Map(r, Bare()));
  }

  lemma CountedByUnionAll(db: Database, env: Env, selects: seq<SelectBody>, operations: seq<SetOperation>, outer: Tuple)
    requires |selects| >= 2 && OnlyUnionAll(|selects|, operations)
    ensures var n := |selects|;
      |SelectsRows(db, env, selects, operations, outer)|
      == |SelectsRows(db, env, selects[..n - 1], operations, outer)| + |BodyRows(db, env, selects[n - 1], outer)|
  {}

  lemma {:induction false} StripSelectsCount(db: Database, env: Env, env': Env, selects: seq<SelectBody>,
                                             selects': seq<SelectBody>, operations: seq<SetOperation>, outer: Tuple,
                                             steady: bool)
    requires Lawful(db) && SameEnv(env', env, steady) && OnlyUnionAll(|selects|, operations)
    requires forall i :: 0 <= i < |selects| ==> SafeCount(selects[i], steady)
    requires |selects'| == |selects| && forall i :: 0 <= i < |selects| ==> selects'[i] == StripBody(selects[i])
    ensures |SelectsRows(db, env', selects', operations, outer)| == |SelectsRows(db, env, selects, operations, outer)|
    decreases selects, 0
  {
    var n := |selects|;
    if n >= 1 {
      StripBodyCount(db, env, env', selects[n - 1], outer, steady);
    }
    if n >= 2 {
      StripSelectsCount(db, env, env', selects[..n - 1], selects'[..n - 1], operations, outer, steady);
      CountedByUnionAll(db, env, selects, operations, outer);
      CountedByUnionAll(db, env', selects', operations, outer);
    }
  }

  /** The one-row answer of a count statement. */
  function Answer(n: int): seq<Row> {
    [[Cell(COUNT_TEXT, n)]]
  }

  lemma CountItemIsAggregate(db: Database, groupBy: Option<seq<Expr>>, having: Option<Expr>)
    ensures Grouped(db, [COUNT_ITEM], groupBy, having)
  {
    assert AggregateItem(db.aggregates, [COUNT_ITEM][0]);
  }

  /** select count(0) over given tuples, without GROUP BY and HAVING: one row with their number. */
  lemma CountOutput(db: Database, tuples: seq<Tuple>)
    ensures Output(db, [COUNT_ITEM], None, None, [], tuples) == [Sortable(multiset(tuples), Answer(|tuples|)[0])]
  {
    CountItemIsAggregate(db, None, None);
    var group := multiset(tuples);
    var p := Having(db, None, []);
    assert FlatMap([group], Keep(p)) == Keep(p)(group) + FlatMap([group][1..], Keep(p));
    SingletonMap(group, GroupRow(db, [COUNT_ITEM], []));
    assert GroupCells(db, [COUNT_ITEM], [], group) == [Cell(COUNT_TEXT, |group|)];
  }

  /** select count(0) from (b) table_count returns the number of b's rows. */
  lemma WrappedCounts(db: Database, env: Env, b: SelectBody)
    ensures BodyRows(db, env, Wrapped(b), []) == Answer(|BodyRows(db, env, b, [])|)
  {
    var w := Wrapped(b);
    var source := FromRows(db, env, w.from.value, []);
    assert source == Map(BodyRows(db, env, b, []), BindTo(TABLE_ALIAS));
    MapLength(BodyRows(db, env, b, []), BindTo(TABLE_ALIAS));
    assert JoinAll(db, env, source, w.joins, []) == source;
    var tuples := SourceTuples(db, env, w, []);
    assert tuples == Filter(source, Holds(db, None, []));
    FilterAll(source, Holds(db, None, []));
    CountOutput(db, tuples);
    SingletonMap(Sortable(multiset(tuples), Answer(|tuples|)[0]), RowOf());
  }

  // ----- the replaced select list, exactly

  /** The LIMIT of a count statement lets its one row through. */
  predicate PassesOneRow(db: Database, limit: Option<Limit>) {
    |Limited(db, limit, [0])| == 1
  }

  /** How many of n rows a LIMIT without OFFSET lets through. */
  function Capped(db: Database, limit: Option<Limit>, n: nat): nat {
    if limit.Some? && limit.value.rowCount.Some? && db.number(limit.value.rowCount.value) < n
    then db.number(limit.value.rowCount.value) else n
  }

  /** When replacing the select list counts rightly: the LIMIT starts at the first row and cuts
      nothing off; and a statement whose columns aggregate reads exactly one tuple. */
  ghost predicate ReplacementCounts(db: Database, env: Env, b: SelectBody)
    requires b.PlainSelect?
  {
    var tuples := SourceTuples(db, env, b, []);
    && PassesOneRow(db, b.limit)
    && if Grouped(db, b.items, b.groupBy, b.having)
       then |tuples| == 1 && Having(db, b.having, [])(multiset(tuples))
       else Capped(db, b.limit, |tuples|) == |tuples|
  }

  lemma FinishedOne(db: Database, orderBy: Option<seq<OrderByElement>>, limit: Option<Limit>, x: Sortable)
    requires Lawful(db)
    ensures Finished(db, false, orderBy, limit, [x]) == if PassesOneRow(db, limit) then [x.row] else []
  {
    SortedPerm(db, orderBy, [x]);
    var sorted := Sorted(db, orderBy, [x]);
    PermMembers(sorted, [x]);
    assert sorted == [x] by { assert sorted[0] in sorted; }
    LimitedLength(db, limit, [x], [0]);
    SingletonMap(x, RowOf());
    if PassesOneRow(db, limit) {
      assert Limited(db, limit, [x]) == [x];
    } else {
      assert Limited(db, limit, [x]) == [];
    }
  }

  /** What the replaced statement answers. */
  lemma ReplacedRows(db: Database, env: Env, b: SelectBody)
    requires Lawful(db) && b.PlainSelect? && SimpleCount(b)
    ensures var tuples := SourceTuples(db, env, b, []);
      BodyRows(db, env, b.(items := [COUNT_ITEM]), []) ==
      if Having(db, b.having, [])(multiset(tuples)) && PassesOneRow(db, b.limit) then Answer(|tuples|) else []
  {
    var c := b.(items := [COUNT_ITEM]);
    var tuples := SourceTuples(db, env, b, []);
    assert SourceTuples(db, env, c, []) == tuples;
    CountItemIsAggregate(db, None, b.having);
    OneGroup(db, [COUNT_ITEM], b.having, [], tuples);
    var group := multiset(tuples);
    if Having(db, b.having, [])(group) {
      assert GroupCells(db, [COUNT_ITEM], [], group) == [Cell(COUNT_TEXT, |group|)];
      FinishedOne(db, b.orderBy, b.limit, Sortable(group, [Cell(COUNT_TEXT, |group|)]));
    } else {
      FinishedCount(db, b.orderBy, b.limit, []);
    }
  }

  /** How many rows the statement with its own columns returns. */
  lemma OriginalRows(db: Database, env: Env, b: SelectBody)
    requires Lawful(db) && b.PlainSelect? && SimpleCount(b)
    ensures var tuples := SourceTuples(db, env, b, []);
      |BodyRows(db, env, b, [])| ==
      if Grouped(db, b.items, b.groupBy, b.having)
      then (if Having(db, b.having, [])(multiset(tuples)) && PassesOneRow(db, b.limit) then 1 else 0)
      else |Limited(db, b.limit, tuples)|
  {
    var tuples := SourceTuples(db, env, b, []);
    var output := Output(db, b.items, b.groupBy, b.having, [], tuples);
    FinishedCount(db, b.orderBy, b.limit, output);
    if Grouped(db, b.items, b.groupBy, b.having) {
      OneGroup(db, b.items, b.having, [], tuples);
      if Having(db, b.having, [])(multiset(tuples)) {
        LimitedLength(db, b.limit, output, [0]);
      }
    } else {
      MapLength(tuples, TupleRow(db, b.items, []));
      LimitedLength(db, b.limit, output, tuples);
    }
  }

  lemma CappedLength<T>(db: Database, limit: Option<Limit>, s: seq<T>)
    requires PassesOneRow(db, limit)
    ensures |Limited(db, limit, s)| == Capped(db, limit, |s|)
  {
  }

  lemma AnswersDiffer(m: int, n: int)
    ensures Answer(m) == Answer(n) <==> m == n
    ensures Answer(m) != []
  {
    assert Answer(m)[0][0].value == m && Answer(n)[0][0].value == n;
  }

  /** The replaced select list counts rightly exactly when ReplacementCounts holds. */
  lemma ReplacementExact(db: Database, env: Env, b: SelectBody)
    requires Lawful(db) && b.PlainSelect? && SimpleCount(b)
    ensures BodyRows(db, env, b.(items := [COUNT_ITEM]), []) == Answer(|BodyRows(db, env, b, [])|)
       <==> ReplacementCounts(db, env, b)
  {
    ReplacedRows(db, env, b);
    OriginalRows(db, env, b);
    var tuples := SourceTuples(db, env, b, []);
    AnswersDiffer(|tuples|, |BodyRows(db, env, b, [])|);
    if PassesOneRow(db, b.limit) {
      CappedLength(db, b.limit, tuples);
    }
  }

  // ----- the count statement, exactly

  /** The rewriting replaces the select list instead of wrapping the statement. */
  predicate Replaced(b: SelectBody) {
    b.PlainSelect? && SimpleCount(b)
  }

  /** Nested LIMITs cannot notice the removal of ORDER BY, or nobody notices which rows they keep. */
  predicate SafeSelect(s: Select) {
    && (Unchanged(s) || SafeWiths(s.withItems, false))
    && SafeCount(s.selectBody, Unchanged(s))
  }

  /** The count statement answers one row, the number of rows of the original. */
  ghost predicate CountsRightly(db: Database, s: Select) {
    SelectRows(db, SmartCount(s)) == Answer(|SelectRows(db, s)|)
  }



  lemma SameReplacement(db: Database, env: Env, env': Env, b: SelectBody, b': SelectBody)
    requires b.PlainSelect? && b'.PlainSelect? && b'.items == b.items && b'.groupBy == b.groupBy
    requires b'.having == b.having && b'.limit == b.limit
    requires var tuples', tuples := SourceTuples(db, env', b', []), SourceTuples(db, env, b, []);
      |tuples'| == |tuples| && (b.having == None || multiset(tuples') == multiset(tuples))
    ensures ReplacementCounts(db, env', b') <==> ReplacementCounts(db, env, b)
  {}

  lemma SameTuples(db: Database, env: Env, env': Env, b: SelectBody, b': SelectBody)
    requires b' == b && env' == env && b.PlainSelect?
    ensures SourceTuples(db, env', b', []) == SourceTuples(db, env, b, [])
  {}

  lemma StripKeepsReplacement(db: Database, env: Env, env': Env, b: SelectBody, steady: bool)
    requires Lawful(db) && SameEnv(env', env, steady) && SafeCount(b, steady) && Replaced(b)
    ensures Replaced(StripBody(b))
    ensures ReplacementCounts(db, env', StripBody(b)) <==> ReplacementCounts(db, env, b)
  {
    if SafeSources(b, steady) {
      StripSources(db, env, env', b, [], steady);
      PermMembers(SourceTuples(db, env', StripBody(b), []), SourceTuples(db, env, b, []));
    } else if b.limit.Some? && SafeBody(b, steady) {
      SameTuples(db, env, env', b, StripBody(b));
    } else {
      StripPlainCount(db, env, env', b, [], steady);
    }
    SameReplacement(db, env, env', b, StripBody(b));
  }

  /** The count is right exactly when the statement was wrapped, or replacing its columns counts. */
  lemma CountExact(db: Database, s: Select)
    requires Lawful(db) && SafeSelect(s)
    ensures CountsRightly(db, s)
       <==> (Replaced(s.selectBody) ==> ReplacementCounts(db, WithRows(db, s.withItems), s.selectBody))
  {
    var b, b' := s.selectBody, StripBody(s.selectBody);
    var env, env' := WithRows(db, s.withItems), WithRows(db, StripSelect(s).withItems);
    StripEnv(db, s);
    StripBodyCount(db, env, env', b, [], Unchanged(s));
    if Replaced(b) {
      StripKeepsReplacement(db, env, env', b, Unchanged(s));
      ReplacementExact(db, env', b');
      assert CountBody(b') == b'.(items := [COUNT_ITEM]);
    } else {
      assert CountBody(b') == Wrapped(b');
      WrappedCounts(db, env', b');
    }
  }

  /** What a caller can see in the statement: nothing limits it, no HAVING, no hidden aggregate. */
  predicate Visible(aggregates: string -> bool, b: SelectBody)
    requires b.PlainSelect?
  {
    && (b.limit.Some? ==> b.limit.value == Limit(None, None))
    && b.having == None
    && forall i :: 0 <= i < |b.items| ==> !AggregateItem(aggregates, b.items[i])
  }

  lemma VisibleIsUngrouped(db: Database, b: SelectBody)
    requires Replaced(b)
    ensures !Grouped(db, b.items, b.groupBy, b.having) <==>
      b.having == None && forall i :: 0 <= i < |b.items| ==> !AggregateItem(db.aggregates, b.items[i])
  {}

  /** Count rewriting preserves meaning, over every database, for every statement whose nested
      LIMITs are safe and whose aggregation and LIMIT, if its columns are replaced, are visible. */
  lemma CountPreserved(db: Database, s: Select)
    requires Lawful(db) && SafeSelect(s)
    requires Replaced(s.selectBody) ==> Visible(db.aggregates, s.selectBody)
    ensures CountsRightly(db, s)
  {
    CountExact(db, s);
    if Replaced(s.selectBody) {
      VisibleIsUngrouped(db, s.selectBody);
    }
  }
}
