/** Exact fairness of the weighted round robin: over any cycle's worth of consecutive calls,
    every target is picked in proportion to its weight, in the order of the schedule. */
module RoundRobinFairness {
  import opened Divisibility
  import opened Numbers
  import opened RoundRobinSchedule

  /** The targets picked by k consecutive calls of get. */
  ghost function Picks(ws: seq<int>, c: Cursor, k: nat): (picks: seq<nat>)
    requires Fair(ws) && InRange(ws, c)
    ensures |picks| == k
    decreases k
  {
    ScanDelivers(ws, c);
    if k == 0 then [] else [Scan(ws, c).pick] + Picks(ws, Scan(ws, c).at, k - 1)
  }

  /** The cursor after k consecutive calls of get. */
  ghost function AfterGets(ws: seq<int>, c: Cursor, k: nat): (after: Cursor)
    requires Fair(ws) && InRange(ws, c)
    ensures InRange(ws, after)
    decreases k
  {
    ScanDelivers(ws, c);
    if k == 0 then c else AfterGets(ws, Scan(ws, c).at, k - 1)
  }

  /** The cursor is at a point of the cycle: it owes the cycle's remainder. */
  ghost predicate OnCycle(ws: seq<int>, c: Cursor)
    requires Fair(ws) && InRange(ws, c)
  {
    |Upcoming(ws, c)| <= |Cycle(ws)| && Upcoming(ws, c) == Cycle(ws)[Offset(ws, c)..]
  }

  ghost function Offset(ws: seq<int>, c: Cursor): int
    requires Fair(ws) && InRange(ws, c)
  {
    |Cycle(ws)| - |Upcoming(ws, c)|
  }

  // ----- where cycles begin

  lemma {:induction false} RowTail(ws: seq<int>, level: int, from: nat)
    requires from <= |ws|
    ensures |Row(ws, level, from)| <= |Row(ws, level, 0)|
    ensures Row(ws, level, 0)[|Row(ws, level, 0)| - |Row(ws, level, from)|..] == Row(ws, level, from)
  {
    if from > 0 {
      RowTail(ws, level, from - 1);
    }
  }

  /** A cursor whose level has just been reset to the largest weight is on the cycle. */
  lemma ResetIsOnCycle(ws: seq<int>, c: Cursor)
    requires Fair(ws) && InRange(ws, c) && c.level == Max(ws)
    ensures OnCycle(ws, c)
  {
    FairGcd(ws);
    RowTail(ws, c.level, c.index + 1);
    var g := GcdAll(ws);
    var whole, tail, rest := Row(ws, c.level, 0), Row(ws, c.level, c.index + 1), Levels(ws, c.level - g, g);
    assert Cycle(ws) == whole + rest;
    assert (whole + rest)[|whole| - |tail|..] == whole[|whole| - |tail|..] + rest;
  }

  /** So is the cursor of a balancer that has never lowered a level. */
  lemma FreshIsOnCycle(ws: seq<int>, c: Cursor)
    requires Fair(ws) && InRange(ws, c) && c.index == |ws| - 1 && c.level <= 0
    ensures OnCycle(ws, c)
  {
    FairGcd(ws);
    assert Upcoming(ws, c) == [];
  }

  lemma StepOnCycle(ws: seq<int>, c: Cursor)
    requires Fair(ws) && InRange(ws, c) && OnCycle(ws, c)
    ensures CanReturn(ws, c) && Scan(ws, c).Found? && |Cycle(ws)| > 0
    ensures OnCycle(ws, Scan(ws, c).at)
    ensures Upcoming(ws, c) == [] ==>
      Scan(ws, c).pick == Cycle(ws)[0] && Offset(ws, Scan(ws, c).at) == 1
    ensures Upcoming(ws, c) != [] ==>
      Scan(ws, c).pick == Cycle(ws)[Offset(ws, c)] && Offset(ws, Scan(ws, c).at) == Offset(ws, c) + 1
  {
    ScanDelivers(ws, c);
    CycleNotEmpty(ws);
    var left := Upcoming(ws, Scan(ws, c).at);
    assert left == Owed(ws, c)[1..];
  }

  lemma {:induction false} RowFirst(ws: seq<int>, level: int, from: nat, i: nat)
    requires from <= i < |ws| && ws[i] >= level && forall j :: from <= j < i ==> ws[j] < level
    ensures Row(ws, level, from) != [] && Row(ws, level, from)[0] == i
    decreases i - from
  {
    if from < i {
      RowFirst(ws, level, from + 1, i);
    }
  }

  lemma CycleStartsHeaviest(ws: seq<int>, i: nat)
    requires Fair(ws) && i < |ws| && ws[i] == Max(ws) && forall j :: 0 <= j < i ==> ws[j] < Max(ws)
    ensures Cycle(ws) != [] && Cycle(ws)[0] == i
  {
    FairGcd(ws);
    RowFirst(ws, Max(ws), 0, i);
  }

  lemma FreshOwesNothing(ws: seq<int>, c: Cursor)
    requires Fair(ws) && InRange(ws, c) && c.index == |ws| - 1 && c.level <= 0
    ensures Upcoming(ws, c) == []
  {
    FairGcd(ws);
  }

  /** A balancer that has never lowered a level first picks the first of the heaviest targets. */
  lemma FreshPicksHeaviestFirst(ws: seq<int>, c: Cursor, i: nat)
    requires Fair(ws) && InRange(ws, c) && c.index == |ws| - 1 && c.level <= 0
    requires i < |ws| && ws[i] == Max(ws) && forall j :: 0 <= j < i ==> ws[j] < Max(ws)
    ensures CanReturn(ws, c) && Scan(ws, c).Found? && Scan(ws, c).pick == i
  {
    FreshIsOnCycle(ws, c);
    FreshOwesNothing(ws, c);
    StepOnCycle(ws, c);
    CycleStartsHeaviest(ws, i);
  }

  /** From any cursor, with whatever level an earlier set of targets left behind,
      finitely many calls lead onto the cycle. */
  lemma {:induction false} LeadsOntoCycle(ws: seq<int>, c: Cursor)
    requires Fair(ws) && InRange(ws, c)
    ensures OnCycle(ws, AfterGets(ws, c, |Upcoming(ws, c)| + 1))
    decreases |Upcoming(ws, c)|
  {
    ScanDelivers(ws, c);
    CycleNotEmpty(ws);
    var next := Scan(ws, c).at;
    var left := Upcoming(ws, next);
    assert left == Owed(ws, c)[1..];
    if Upcoming(ws, c) == [] {
      assert AfterGets(ws, c, 1) == AfterGets(ws, next, 0) == next;
      assert left == Cycle(ws)[1..];
    } else {
      LeadsOntoCycle(ws, next);
      assert AfterGets(ws, c, |Upcoming(ws, c)| + 1) == AfterGets(ws, next, |left| + 1);
    }
  }

  // ----- the pick sequence

  /** The picks are the cycle, repeated, read from offset o on. */
  ghost predicate Follows(picks: seq<nat>, cycle: seq<nat>, o: nat)
    requires |cycle| > 0
  {
    forall j :: 0 <= j < |picks| ==> picks[j] == cycle[Rem(o + j, |cycle|)]
  }

  lemma FollowsPrepend(first: nat, rest: seq<nat>, cycle: seq<nat>, o: nat, next: nat)
    requires |cycle| > 0 && o <= |cycle| && next == if o == |cycle| then 1 else o + 1
    requires first == cycle[if o == |cycle| then 0 else o]
    requires Follows(rest, cycle, next)
    ensures Follows([first] + rest, cycle, o)
  {
    RemUnder(o, |cycle|);
  }

  /** The picks are the schedule's: the cycle repeated from the cursor's offset. */
  lemma {:induction false} PicksFollowCycle(ws: seq<int>, c: Cursor, k: nat)
    requires Fair(ws) && InRange(ws, c) && OnCycle(ws, c)
    ensures |Cycle(ws)| > 0 && Follows(Picks(ws, c, k), Cycle(ws), Offset(ws, c))
    decreases k
  {
    StepOnCycle(ws, c);
    if k > 0 {
      var t := Scan(ws, c);
      PicksFollowCycle(ws, t.at, k - 1);
      FollowsPrepend(t.pick, Picks(ws, t.at, k - 1), Cycle(ws), Offset(ws, c), Offset(ws, t.at));
    }
  }

  /** The schedule repeats: a cycle later the same targets are picked again. */
  lemma Periodic(ws: seq<int>, c: Cursor, k: nat, j: nat)
    requires Fair(ws) && InRange(ws, c) && OnCycle(ws, c) && j + |Cycle(ws)| < k
    ensures Picks(ws, c, k)[j + |Cycle(ws)|] == Picks(ws, c, k)[j]
  {
    PicksFollowCycle(ws, c, k);
    RepeatsAfterCycle(Picks(ws, c, k), Cycle(ws), Offset(ws, c), j);
  }

  lemma RepeatsAfterCycle(picks: seq<nat>, cycle: seq<nat>, o: nat, j: nat)
    requires |cycle| > 0 && Follows(picks, cycle, o) && j + |cycle| < |picks|
    ensures picks[j + |cycle|] == picks[j]
  {
    var m := |cycle|;
    assert picks[j + m] == cycle[Rem(o + (j + m), m)];
    assert Rem(o + j + m, m) == Rem(o + j, m);
  }

  lemma RemUnder(x: nat, m: nat)
    requires x < 2 * m
    ensures Rem(x, m) == if x < m then x else x - m
  {
    if x >= m { assert Rem(x - m, m) == x - m; }
  }

  lemma RotationSameMultiset(cycle: seq<nat>, o: nat, picks: seq<nat>)
    requires |picks| == |cycle| > 0 && o <= |cycle|
    requires Follows(picks, cycle, o)
    ensures multiset(picks) == multiset(cycle)
  {
    var m := |cycle|;
    var turned := cycle[o..] + cycle[..o];
    forall j | 0 <= j < m ensures picks[j] == turned[j] {
      RemUnder(o + j, m);
    }
    assert picks == cycle[o..] + cycle[..o];
    assert cycle == cycle[..o] + cycle[o..];
  }

  // ----- counting a cycle

  lemma {:induction false} RowCounts(ws: seq<int>, level: int, from: nat, i: nat)
    requires i < |ws|
    ensures multiset(Row(ws, level, from))[i] == if from <= i && ws[i] >= level then 1 else 0
    decreases |ws| - from
  {
    if from < |ws| {
      RowCounts(ws, level, from + 1, i);
      var here := if ws[from] >= level then [from] else [];
      assert Row(ws, level, from) == here + Row(ws, level, from + 1);
      assert multiset(here)[i] == if from == i && ws[i] >= level then 1 else 0;
    }
  }

  lemma MultipleOfStep(x: nat, g: nat)
    requires g > 0 && Divides(g, x) && x > 0
    ensures x >= g && Divides(g, x - g)
  {
    QuoRem(x, g);
    MultipleDivides(g, Quo(x, g) - 1);
    assert x >= g ==> x - g == g * (Quo(x, g) - 1);
  }

  lemma MultipleGap(x: nat, y: nat, g: nat)
    requires g > 0 && Divides(g, x) && Divides(g, y) && x < y
    ensures x <= y - g
  {
    DividesSum(g, y, x);
    MultipleOfStep(y - x, g);
  }

  /** One level more: one more for those that reach it. */
  lemma LevelStep(w: nat, level: nat, g: nat)
    requires g > 0 && level > 0 && Divides(g, w) && Divides(g, level)
    ensures level >= g && Divides(g, level - g)
    ensures Quo(Least(level, w), g) == Quo(Least(level - g, w), g) + if w >= level then 1 else 0
  {
    MultipleOfStep(level, g);
    if w < level {
      MultipleGap(w, level, g);
    }
  }

  /** Target i appears once for each level up to its weight. */
  lemma {:induction false} LevelsCount(ws: seq<int>, level: nat, g: nat, i: nat)
    requires g > 0 && i < |ws| && ws[i] >= 0
    requires Divides(g, ws[i]) && Divides(g, level)
    ensures multiset(Levels(ws, level, g))[i] == Quo(Least(level, ws[i]), g)
    decreases level
  {
    if level > 0 {
      LevelStep(ws[i], level, g);
      RowCounts(ws, level, 0, i);
      LevelsCount(ws, level - g, g, i);
      LevelsBegin(ws, level, g);
      CountJoined(Row(ws, level, 0), Levels(ws, level - g, g), i);
    }
  }

  lemma LevelsBegin(ws: seq<int>, level: nat, g: nat)
    requires g > 0 && level > 0
    ensures Levels(ws, level, g) == Row(ws, level, 0) + Levels(ws, level - g, g)
  {}

  lemma CountJoined(a: seq<nat>, b: seq<nat>, i: nat)
    ensures multiset(a + b)[i] == multiset(a)[i] + multiset(b)[i]
  {}

  function {:induction false} Shares(ws: seq<int>, level: nat, g: nat): nat
    requires g > 0 && forall i :: 0 <= i < |ws| ==> ws[i] >= 0
  {
    if |ws| == 0 then 0
    else Shares(ws[..|ws| - 1], level, g) + Quo(Least(level, ws[|ws| - 1]), g)
  }

  function {:induction false} Reaching(ws: seq<int>, level: int): nat {
    if |ws| == 0 then 0
    else Reaching(ws[..|ws| - 1], level) + if ws[|ws| - 1] >= level then 1 else 0
  }

  lemma {:induction false} ReachingFrom(ws: seq<int>, level: int, from: nat)
    requires from <= |ws|
    ensures |Row(ws, level, from)| + Reaching(ws[..from], level) == Reaching(ws, level)
    decreases |ws| - from
  {
    if from == |ws| {
      assert ws[..from] == ws;
    } else {
      ReachingFrom(ws, level, from + 1);
      assert ws[..from + 1][..from] == ws[..from];
    }
  }

  lemma {:induction false} SharesStep(ws: seq<int>, level: nat, g: nat)
    requires g > 0 && level >= g && Divides(g, level)
    requires forall i :: 0 <= i < |ws| ==> ws[i] >= 0 && Divides(g, ws[i])
    ensures Shares(ws, level, g) == Reaching(ws, level) + Shares(ws, level - g, g)
  {
    if |ws| > 0 {
      SharesStep(ws[..|ws| - 1], level, g);
      LevelStep(ws[|ws| - 1], level, g);
    }
  }

  lemma {:induction false} SharesZero(ws: seq<int>, g: nat)
    requires g > 0
    requires forall i :: 0 <= i < |ws| ==> ws[i] >= 0
    ensures Shares(ws, 0, g) == 0
  {
    if |ws| > 0 {
      SharesZero(ws[..|ws| - 1], g);
    }
  }

  lemma {:induction false} LevelsLength(ws: seq<int>, level: nat, g: nat)
    requires g > 0 && Divides(g, level)
    requires forall i :: 0 <= i < |ws| ==> ws[i] >= 0 && Divides(g, ws[i])
    ensures |Levels(ws, level, g)| == Shares(ws, level, g)
    decreases level
  {
    if level == 0 {
      SharesZero(ws, g);
    } else {
      MultipleOfStep(level, g);
      LevelsLength(ws, level - g, g);
      SharesStep(ws, level, g);
      ReachingFrom(ws, level, 0);
    }
  }

  lemma {:induction false} SharesOfSum(ws: seq<int>, level: nat, g: nat)
    requires g > 0
    requires forall i :: 0 <= i < |ws| ==> 0 <= ws[i] <= level && Divides(g, ws[i])
    ensures g * Shares(ws, level, g) == Sum(ws)
  {
    if |ws| > 0 {
      var front, w := ws[..|ws| - 1], ws[|ws| - 1];
      SharesOfSum(front, level, g);
      QuoRem(w, g);
      assert g * (Shares(front, level, g) + Quo(w, g)) == g * Shares(front, level, g) + g * Quo(w, g);
    }
  }

  lemma ExactQuotient(x: int, g: nat, q: nat)
    requires g > 0 && x == g * q
    ensures x >= 0 && q == x / g
  {
    SameQuotient(x, g, q, 0);
  }

  /** A cycle has sum(w)/gcd picks. */
  lemma CycleLength(ws: seq<int>)
    requires Fair(ws)
    ensures GcdAll(ws) > 0 && Sum(ws) >= 0 && Sum(ws) == GcdAll(ws) * |Cycle(ws)|
    ensures |Cycle(ws)| == Sum(ws) / GcdAll(ws)
  {
    FairGcd(ws);
    var g, max := GcdAll(ws), Max(ws);
    forall i | 0 <= i < |ws| ensures Divides(g, ws[i]) { GcdAllDivides(ws, i); }
    LevelsLength(ws, max, g);
    SharesOfSum(ws, max, g);
    ExactQuotient(Sum(ws), g, Shares(ws, max, g));
  }

  /** In one cycle target i comes w[i]/gcd times. */
  lemma CycleCounts(ws: seq<int>, i: nat)
    requires Fair(ws) && i < |ws|
    ensures GcdAll(ws) > 0 && multiset(Cycle(ws))[i] == ws[i] / GcdAll(ws)
  {
    FairGcd(ws);
    var g := GcdAll(ws);
    GcdAllDivides(ws, i);
    var heaviest: nat :| heaviest < |ws| && ws[heaviest] == Max(ws);
    GcdAllDivides(ws, heaviest);
    LevelsCount(ws, Max(ws), g, i);
    QuoRem(ws[i], g);
  }

  /** Exact fairness: any sum(w)/gcd consecutive calls pick target i exactly w[i]/gcd times. */
  lemma ExactFairness(ws: seq<int>, c: Cursor, i: nat)
    requires Fair(ws) && InRange(ws, c) && OnCycle(ws, c) && i < |ws|
    ensures GcdAll(ws) > 0 && Sum(ws) >= 0
    ensures multiset(Picks(ws, c, Sum(ws) / GcdAll(ws)))[i] == ws[i] / GcdAll(ws)
  {
    CycleLength(ws);
    CycleCounts(ws, i);
    CycleNotEmpty(ws);
    PicksFollowCycle(ws, c, |Cycle(ws)|);
    RotationSameMultiset(Cycle(ws), Offset(ws, c), Picks(ws, c, |Cycle(ws)|));
  }

  lemma {:induction false} StaysOnCycle(ws: seq<int>, c: Cursor, k: nat)
    requires Fair(ws) && InRange(ws, c) && OnCycle(ws, c)
    ensures OnCycle(ws, AfterGets(ws, c, k))
    decreases k
  {
    if k > 0 {
      StepOnCycle(ws, c);
      StaysOnCycle(ws, Scan(ws, c).at, k - 1);
    }
  }

  lemma {:induction false} AfterGetsCompose(ws: seq<int>, c: Cursor, a: nat, b: nat)
    requires Fair(ws) && InRange(ws, c)
    ensures AfterGets(ws, c, a + b) == AfterGets(ws, AfterGets(ws, c, a), b)
    decreases a
  {
    if a > 0 {
      ScanDelivers(ws, c);
      AfterGetsCompose(ws, Scan(ws, c).at, a - 1, b);
    }
  }

  /** From any state at all, whatever level an earlier set of targets has left behind: once the picks
      owed by that level are worked off, every window of sum(w)/gcd consecutive calls is exactly fair. */
  lemma FairFromAnywhere(ws: seq<int>, c: Cursor, earlier: nat, i: nat)
    requires Fair(ws) && InRange(ws, c) && i < |ws| && earlier > |Upcoming(ws, c)|
    ensures GcdAll(ws) > 0 && Sum(ws) >= 0
    ensures multiset(Picks(ws, AfterGets(ws, c, earlier), Sum(ws) / GcdAll(ws)))[i] == ws[i] / GcdAll(ws)
  {
    var first := |Upcoming(ws, c)| + 1;
    LeadsOntoCycle(ws, c);
    AfterGetsCompose(ws, c, first, earlier - first);
    StaysOnCycle(ws, AfterGets(ws, c, first), earlier - first);
    ExactFairness(ws, AfterGets(ws, c, earlier), i);
  }
}
