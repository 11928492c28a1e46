/** Fairness for a caller of the weighted round robin: over the target objects that it is given. */
module TargetFairness {
  import opened RoundRobinFairness
  import opened RoundRobinSchedule
  import opened WeightLoadBalancer
  import Divisibility

  lemma {:induction false} OneMorePick(ws: seq<int>, c: Cursor, k: nat)
    requires Fair(ws) && InRange(ws, c)
    ensures CanReturn(ws, AfterGets(ws, c, k)) && Scan(ws, AfterGets(ws, c, k)).Found?
    ensures Picks(ws, c, k + 1) == Picks(ws, c, k) + [Scan(ws, AfterGets(ws, c, k)).pick]
    ensures AfterGets(ws, c, k + 1) == Scan(ws, AfterGets(ws, c, k)).at
    decreases k
  {
    ScanDelivers(ws, AfterGets(ws, c, k));
    ScanDelivers(ws, c);
    if k == 0 {
      assert Picks(ws, c, 1) == [Scan(ws, c).pick] + Picks(ws, Scan(ws, c).at, 0);
      assert AfterGets(ws, c, 1) == AfterGets(ws, Scan(ws, c).at, 0);
    } else {
      OneMorePick(ws, Scan(ws, c).at, k - 1);
    }
  }

  /** The objects were given for these picks. */
  ghost predicate GivenFor<T>(given: seq<T>, targets: seq<DelegateTarget<T>>, picks: seq<nat>) {
    |given| == |picks| && forall j :: 0 <= j < |picks| ==> picks[j] < |targets| && given[j] == targets[picks[j]].target
  }

  /** A caller that takes k targets in a row. */
  method TakeTargets<T(==)>(balancer: WeightLoadBalancer<T>, k: nat) returns (given: seq<T>)
    requires balancer.Valid() && Fair(Weights(balancer.targets))
    modifies balancer`currentIndex, balancer`currentWeight
    ensures balancer.Valid()
    ensures GivenFor(given, balancer.targets, Picks(Weights(balancer.targets), old(balancer.At()), k))
    ensures balancer.At() == AfterGets(Weights(balancer.targets), old(balancer.At()), k)
  {
    ghost var ws, start := Weights(balancer.targets), balancer.At();
    given := [];
    FairGcd(ws);
    for i := 0 to k
      invariant balancer.Valid()
      invariant balancer.At() == AfterGets(ws, start, i)
      invariant GivenFor(given, balancer.targets, Picks(ws, start, i))
    {
      OneMorePick(ws, start, i);
      var r := balancer.Get();
      given := given + [r.value];
    }
  }

  /** The calls due to an object: those of all the entries that hold it. */
  function Share<T(==)>(targets: seq<DelegateTarget<T>>, x: T, g: int): int
    requires g > 0
  {
    if |targets| == 0 then 0
    else
      var last := targets[|targets| - 1];
      Share(targets[..|targets| - 1], x, g) + if last.target == x then last.weight / g else 0
  }

  ghost function Times(picks: seq<nat>, i: nat): nat {
    multiset(picks)[i]
  }

  /** How many of the picks fall on the first n entries that hold the object. */
  ghost function Hits<T>(targets: seq<DelegateTarget<T>>, picks: seq<nat>, x: T, n: nat): nat
    requires n <= |targets|
  {
    if n == 0 then 0
    else Hits(targets, picks, x, n - 1) + if targets[n - 1].target == x then Times(picks, n - 1) else 0
  }

  lemma {:induction false} NoPicksNoHits<T>(targets: seq<DelegateTarget<T>>, x: T, n: nat)
    requires n <= |targets|
    ensures Hits(targets, [], x, n) == 0
  {
    if n > 0 {
      NoPicksNoHits(targets, x, n - 1);
    }
  }

  lemma {:induction false} OneMoreHit<T>(targets: seq<DelegateTarget<T>>, picks: seq<nat>, pick: nat, x: T, n: nat)
    requires n <= |targets| && pick < |targets|
    ensures Hits(targets, picks + [pick], x, n)
      == Hits(targets, picks, x, n) + if pick < n && targets[pick].target == x then 1 else 0
  {
    if n > 0 {
      OneMoreHit(targets, picks, pick, x, n - 1);
      OneMore(picks, pick, n - 1);
    }
  }

  lemma {:induction false} GivenAreHits<T>(targets: seq<DelegateTarget<T>>, picks: seq<nat>, given: seq<T>, x: T)
    requires GivenFor(given, targets, picks)
    ensures multiset(given)[x] == Hits(targets, picks, x, |targets|)
    decreases |picks|
  {
    if |picks| == 0 {
      NoPicksNoHits(targets, x, |targets|);
    } else {
      var k := |picks| - 1;
      assert picks == picks[..k] + [picks[k]] && given == given[..k] + [given[k]];
      GivenAreHits(targets, picks[..k], given[..k], x);
      OneMoreHit(targets, picks[..k], picks[k], x, |targets|);
      OneMore(given[..k], given[k], x);
    }
  }

  lemma {:induction false} HitsAreShares<T>(targets: seq<DelegateTarget<T>>, picks: seq<nat>, x: T, g: int, n: nat)
    requires g > 0 && n <= |targets|
    requires forall i :: 0 <= i < n ==> Times(picks, i) == targets[i].weight / g
    ensures Hits(targets, picks, x, n) == Share(targets[..n], x, g)
  {
    if n > 0 {
      HitsAreShares(targets, picks, x, g, n - 1);
      assert targets[..n][..n - 1] == targets[..n - 1];
    }
  }

  /** Over a cycle of calls each object is given as often as its entries' weights say, whatever a
      caller took before it, once a leftover level has been worked off. */
  lemma ObjectsAreFair<T>(targets: seq<DelegateTarget<T>>, c: Cursor, earlier: nat, given: seq<T>, x: T)
    requires var ws := Weights(targets);
      Fair(ws) && InRange(ws, c) && (OnCycle(ws, c) || earlier > |Upcoming(ws, c)|)
    requires var ws := Weights(targets);
      Divisibility.GcdAll(ws) > 0 && Sum(ws) >= 0
      && GivenFor(given, targets, Picks(ws, AfterGets(ws, c, earlier), Sum(ws) / Divisibility.GcdAll(ws)))
    ensures multiset(given)[x] == Share(targets, x, Divisibility.GcdAll(Weights(targets)))
  {
    var ws := Weights(targets);
    var g := Divisibility.GcdAll(ws);
    var picks := Picks(ws, AfterGets(ws, c, earlier), Sum(ws) / g);
    forall i: nat | i < |targets| ensures Times(picks, i) == targets[i].weight / g {
      if OnCycle(ws, c) {
        StaysOnCycle(ws, c, earlier);
        ExactFairness(ws, AfterGets(ws, c, earlier), i);
      } else {
        FairFromAnywhere(ws, c, earlier, i);
      }
    }
    GivenAreHits(targets, picks, given, x);
    HitsAreShares(targets, picks, x, g, |targets|);
    assert targets[..|targets|] == targets;
  }

  lemma {:induction false} ShareElsewhere<T>(targets: seq<DelegateTarget<T>>, x: T, g: int)
    requires g > 0 && forall i :: 0 <= i < |targets| ==> targets[i].target != x
    ensures Share(targets, x, g) == 0
  {
    if |targets| > 0 {
      ShareElsewhere(targets[..|targets| - 1], x, g);
    }
  }

  /** The share of an object that stands in one entry alone is that entry's. */
  lemma {:induction false} ShareOfOne<T>(targets: seq<DelegateTarget<T>>, i: nat, g: int)
    requires g > 0 && i < |targets|
    requires forall j :: 0 <= j < |targets| && j != i ==> targets[j].target != targets[i].target
    ensures Share(targets, targets[i].target, g) == targets[i].weight / g
  {
    if i < |targets| - 1 {
      ShareOfOne(targets[..|targets| - 1], i, g);
    } else {
      ShareElsewhere(targets[..i], targets[i].target, g);
    }
  }
}
