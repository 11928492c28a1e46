/** The weighted round robin load balancer: its mutable fields and its loops. */
module WeightLoadBalancer {
  import opened Options
  import opened Divisibility
  import opened RoundRobinSchedule

  datatype DelegateTarget<T> = DelegateTarget(target: T, weight: int)

  function Weights<T>(targets: seq<DelegateTarget<T>>): (ws: seq<int>)
    ensures |ws| == |targets|
    ensures forall i :: 0 <= i < |ws| ==> ws[i] == targets[i].weight
  {
    seq(|targets|, i requires 0 <= i < |targets| => targets[i].weight)
  }

  /** The targets without every entry that holds t. */
  function Without<T(==)>(targets: seq<DelegateTarget<T>>, t: T): seq<DelegateTarget<T>> {
    if |targets| == 0 then []
    else
      var last := targets[|targets| - 1];
      Without(targets[..|targets| - 1], t) + if last.target == t then [] else [last]
  }

  lemma OneMore<T>(front: seq<T>, last: T, x: T)
    ensures multiset(front + [last])[x] == multiset(front)[x] + if last == x then 1 else 0
  {}

  lemma {:induction false} WithoutKeepsOthers<T>(targets: seq<DelegateTarget<T>>, t: T, x: DelegateTarget<T>)
    ensures multiset(Without(targets, t))[x] == if x.target == t then 0 else multiset(targets)[x]
  {
    if |targets| > 0 {
      var front, last := targets[..|targets| - 1], targets[|targets| - 1];
      WithoutKeepsOthers(front, t, x);
      assert targets == front + [last];
      OneMore(front, last, x);
      if last.target == t {
        assert Without(targets, t) == Without(front, t);
      } else {
        OneMore(Without(front, t), last, x);
      }
    }
  }

  /** What reloadWeightParams leaves in gcdWeight: with fewer than two targets its loop does not run. */
  function GcdField(ws: seq<int>): nat {
    if |ws| < 2 then 0 else GcdAll(ws)
  }

  function MaxField(ws: seq<int>): int {
    if |ws| == 0 then 0 else Max(ws)
  }

  class WeightLoadBalancer<T(==)> {
    var targets: seq<DelegateTarget<T>>
    var currentIndex: int
    var totalTarget: int
    var currentWeight: int
    var maxWeight: int
    var gcdWeight: int

    ghost predicate Valid()
      reads this
    {
      && totalTarget == |targets|
      && maxWeight == MaxField(Weights(targets))
      && gcdWeight == GcdField(Weights(targets))
      && (|targets| >= 2 ==> 0 <= currentIndex < |targets|)
    }

    ghost function At(): Cursor
      reads this
    {
      Cursor(currentIndex, currentWeight)
    }

    /** The loop of Get can end. With two or more targets it cannot when every weight is zero
        and an earlier set of targets has left a positive level behind. */
    ghost predicate GetReturns()
      requires Valid()
      reads this
    {
      |targets| >= 2 ==> CanReturn(Weights(targets), At())
    }

    constructor ()
      ensures Valid() && targets == [] && currentWeight == 0
    {
      targets := [];
      currentIndex, totalTarget, currentWeight, maxWeight, gcdWeight := 0, 0, 0, 0, 0;
    }

    method AddTarget(target: T, weight: int)
      requires Valid()
      modifies this
      ensures Valid()
      ensures targets == old(targets) + [DelegateTarget(target, weight)]
      ensures currentWeight == old(currentWeight) && currentIndex == |targets| - 1
    {
      targets := targets + [DelegateTarget(target, weight)];
      ReloadWeightParams();
    }

    method RemoveTarget(target: T)
      requires Valid()
      modifies this
      ensures Valid()
      ensures targets == Without(old(targets), target)
      ensures currentWeight == old(currentWeight) && currentIndex == |targets| - 1
    {
      var i := 0;
      ghost var was, k := targets, 0;
      while i < |targets|
        invariant 0 <= k <= |was| && 0 <= i <= |targets|
        invariant targets[..i] == Without(was[..k], target) && targets[i..] == was[k..]
        invariant currentWeight == old(currentWeight)
        decreases |was| - k
      {
        assert was[..k + 1][..k] == was[..k];
        if targets[i].target == target {
          RemoveAt(i);
        } else {
          i := i + 1;
        }
        k := k + 1;
      }
      assert was[..k] == was && targets[..i] == targets;
      ReloadWeightParams();
    }

    /** The iterator's remove. */
    method RemoveAt(i: nat)
      requires i < |targets|
      modifies this`targets
      ensures targets == old(targets)[..i] + old(targets)[i + 1..]
    {
      targets := targets[..i] + targets[i + 1..];
    }

    method ReloadWeightParams()
      modifies this
      ensures Valid()
      ensures targets == old(targets) && currentWeight == old(currentWeight)
      ensures currentIndex == |targets| - 1
    {
      totalTarget := |targets|;
      currentIndex := totalTarget - 1;
      maxWeight := ComputeMaxWeight();
      gcdWeight := ComputeTargetGcd();
    }

    method ComputeTargetGcd() returns (comDivisor: int)
      requires totalTarget == |targets|
      ensures comDivisor == GcdField(Weights(targets))
    {
      var ws := Weights(targets);
      comDivisor := 0;
      var i := 0;
      while i < totalTarget - 1
        invariant 0 <= i && (if totalTarget < 2 then i == 0 else i < totalTarget)
        invariant i == 0 ==> comDivisor == 0
        invariant 0 < i < |ws| ==> comDivisor == GcdAll(ws[..i + 1])
      {
        assert ws[..i + 2][..i + 1] == ws[..i + 1];
        if comDivisor == 0 {
          comDivisor := Gcd(Abs(targets[i].weight), Abs(targets[i + 1].weight));
          if i == 0 {
            assert ws[..1] == [ws[0]];
            assert GcdAll(ws[..1]) == Gcd(0, Abs(ws[0])) == Abs(ws[0]);
          } else {
            GcdAllZero(ws[..i + 1]);
            assert ws[..i + 1][i] == 0;
          }
        } else {
          comDivisor := Gcd(comDivisor, Abs(targets[i + 1].weight));
        }
        i := i + 1;
      }
      assert |ws| >= 2 ==> ws[..i + 1] == ws;
    }

    method ComputeMaxWeight() returns (max: int)
      requires totalTarget == |targets|
      ensures max == MaxField(Weights(targets))
    {
      if |targets| == 0 {
        return 0;
      }
      var ws := Weights(targets);
      max := targets[0].weight;
      var i := 1;
      while i < totalTarget
        invariant 1 <= i <= totalTarget
        invariant forall j :: 0 <= j < i ==> ws[j] <= max
        invariant exists j :: 0 <= j < i && ws[j] == max
      {
        var tmp := targets[i].weight;
        if max < tmp {
          max := tmp;
        }
        i := i + 1;
      }
    }

    /** The next target: for two or more the one at the index where the scan stops, whose weight reaches
        the level; none only at a reset to a largest weight of zero. */
    method Get() returns (r: Option<T>)
      requires Valid() && GetReturns()
      modifies this`currentIndex, this`currentWeight
      ensures Valid() && GetReturns()
      ensures |targets| == 0 ==> r == None
      ensures |targets| == 1 ==> r == Some(targets[0].target)
      ensures |targets| < 2 ==> At() == old(At())
      ensures |targets| >= 2 ==>
        var t := Scan(Weights(targets), old(At()));
        && At() == t.at
        && r == if t.Found? then Some(targets[t.pick].target) else None
      ensures |targets| >= 2 && r.Some? ==>
        r.value == targets[currentIndex].target && targets[currentIndex].weight >= currentWeight
      ensures |targets| >= 2 && r.None? ==> currentIndex == 0 && currentWeight == maxWeight == 0
      ensures Fair(Weights(targets)) ==> r.Some?
    {
      if |targets| == 0 {
        return None;
      }
      if |targets| == 1 {
        return Some(targets[0].target);
      }
      if Fair(Weights(targets)) {
        ScanDelivers(Weights(targets), At());
      }
      r := ScanTargets(Weights(targets));
    }

    /** The scanning loop of Get, for two or more targets with the given weights. */
    method ScanTargets(ghost ws: seq<int>) returns (r: Option<T>)
      requires InRange(ws, At()) && CanReturn(ws, At())
      requires |ws| == |targets| == totalTarget && maxWeight == Max(ws) && gcdWeight == GcdAll(ws)
      requires forall i :: 0 <= i < |ws| ==> ws[i] == targets[i].weight
      modifies this`currentIndex, this`currentWeight
      ensures InRange(ws, At()) && At() == Scan(ws, old(At())).at
      ensures var t := Scan(ws, old(At()));
        r == if t.Found? then Some(targets[t.pick].target) else None
      ensures r.Some? ==> r.value == targets[currentIndex].target && targets[currentIndex].weight >= currentWeight
      ensures r.None? ==> currentIndex == 0 && currentWeight == maxWeight == 0
    {
      while true
        invariant InRange(ws, At()) && CanReturn(ws, At())
        invariant Scan(ws, At()) == Scan(ws, old(At()))
        decreases Excess(ws, At()), Distance(ws, At())
      {
        ghost var t := OneTurn(ws, At());
        TurnProgress(ws, At());
        currentIndex := NextIndex(currentIndex, totalTarget);
        if currentIndex == 0 {
          currentWeight := currentWeight - gcdWeight;
          if currentWeight <= 0 {
            currentWeight := maxWeight;
            if currentWeight == 0 {
              return None;
            }
          }
        }
        if targets[currentIndex].weight >= currentWeight {
          return Some(targets[currentIndex].target);
        }
      }
    }
  }

  /** The index after i, back to 0 at the end. */
  method NextIndex(i: int, n: int) returns (next: int)
    requires 0 <= i < n
    ensures next == if i + 1 == n then 0 else i + 1
  {
    next := (i + 1) % n;
  }
}
