/** The weighted round robin scan of one list of weights, as a function of its cursor,
    and the schedule it produces. WeightLoadBalancer runs this scan on its fields. */
module RoundRobinSchedule {
  import opened Divisibility

  /** The two fields that a call of get moves: currentIndex and currentWeight. */
  datatype Cursor = Cursor(index: int, level: int)

  /** What one turn of the scanning loop does. */
  datatype Turn =
    | Found(pick: nat, at: Cursor)
    | Nothing(at: Cursor)
    | Next(at: Cursor)

  function Max(ws: seq<int>): (m: int)
    requires |ws| > 0
    ensures forall i :: 0 <= i < |ws| ==> ws[i] <= m
    ensures exists i :: 0 <= i < |ws| && ws[i] == m
  {
    var last := ws[|ws| - 1];
    if |ws| == 1 then last
    else
      var front := ws[..|ws| - 1];
      var m := Max(front);
      assert forall i :: 0 <= i < |front| ==> front[i] == ws[i];
      assert exists i :: 0 <= i < |front| && front[i] == m && ws[i] == m;
      if m < last then last else m
  }

  function {:induction false} Sum(ws: seq<int>): int {
    if |ws| == 0 then 0 else Sum(ws[..|ws| - 1]) + ws[|ws| - 1]
  }

  /** The loop of get only runs with two or more targets, on an index set by an earlier
      turn or by reloadWeightParams. */
  predicate InRange(ws: seq<int>, c: Cursor) {
    |ws| >= 2 && 0 <= c.index < |ws|
  }

  /** One turn of the loop in get. */
  function OneTurn(ws: seq<int>, c: Cursor): (t: Turn)
    requires InRange(ws, c)
    ensures InRange(ws, t.at)
    ensures t.Found? ==> t.pick < |ws|
  {
    if c.index + 1 < |ws| then
      Probe(ws, Cursor(c.index + 1, c.level))
    else
      var lowered := c.level - GcdAll(ws);
      var level := if lowered <= 0 then Max(ws) else lowered;
      if lowered <= 0 && level == 0 then Nothing(Cursor(0, 0)) else Probe(ws, Cursor(0, level))
  }

  function Probe(ws: seq<int>, c: Cursor): Turn
    requires 0 <= c.index < |ws|
  {
    if ws[c.index] >= c.level then Found(c.index, c) else Next(c)
  }

  /** When the scan comes to an end: some weight is nonzero, or no leftover level is positive. */
  predicate CanReturn(ws: seq<int>, c: Cursor) {
    GcdAll(ws) != 0 || c.level <= 0
  }

  /** The loop ends within the given number of turns. */
  predicate EndsWithin(ws: seq<int>, c: Cursor, turns: nat)
    requires InRange(ws, c)
    decreases turns
  {
    turns > 0 &&
    var t := OneTurn(ws, c);
    (t.Next? ==> EndsWithin(ws, t.at, turns - 1))
  }

  /** How far the level lies above the largest weight; shrinks at every wrap of the index. */
  function Excess(ws: seq<int>, c: Cursor): nat
    requires InRange(ws, c)
  {
    if c.level > Max(ws) then c.level - Max(ws) else 0
  }

  /** Turns left until the largest weight is probed, or until the index wraps. */
  ghost function Distance(ws: seq<int>, c: Cursor): nat
    requires InRange(ws, c)
  {
    var heaviest: nat :| heaviest < |ws| && ws[heaviest] == Max(ws);
    if c.level > Max(ws) then |ws| - c.index
    else if heaviest > c.index then heaviest - c.index
    else |ws| - c.index + heaviest
  }

  lemma AllZeroMax(ws: seq<int>)
    requires |ws| > 0 && GcdAll(ws) == 0
    ensures Max(ws) == 0
  {
    GcdAllZero(ws);
  }

  lemma TurnProgress(ws: seq<int>, c: Cursor)
    requires InRange(ws, c) && CanReturn(ws, c)
    ensures CanReturn(ws, OneTurn(ws, c).at)
    ensures var t := OneTurn(ws, c);
      t.Next? ==>
        && Excess(ws, t.at) <= Excess(ws, c)
        && (Excess(ws, t.at) < Excess(ws, c) || Distance(ws, t.at) < Distance(ws, c))
  {
    if GcdAll(ws) == 0 {
      AllZeroMax(ws);
    }
  }

  /** The whole loop of get for two or more targets: the pick, if any, and the final cursor. */
  ghost function Scan(ws: seq<int>, c: Cursor): (t: Turn)
    requires InRange(ws, c) && CanReturn(ws, c)
    ensures !t.Next? && InRange(ws, t.at) && CanReturn(ws, t.at)
    ensures t.Found? ==> t.pick < |ws|
    decreases Excess(ws, c), Distance(ws, c)
  {
    var t := OneTurn(ws, c);
    TurnProgress(ws, c);
    if t.Next? then Scan(ws, t.at) else t
  }

  // ----- termination, exactly

  ghost predicate Ending(ws: seq<int>, c: Cursor)
    requires InRange(ws, c)
  {
    exists turns: nat :: EndsWithin(ws, c, turns)
  }

  lemma {:induction false} EndsWithinMore(ws: seq<int>, c: Cursor, turns: nat, more: nat)
    requires InRange(ws, c) && EndsWithin(ws, c, turns) && turns <= more
    ensures EndsWithin(ws, c, more)
    decreases turns
  {
    var t := OneTurn(ws, c);
    if t.Next? {
      EndsWithinMore(ws, t.at, turns - 1, more - 1);
    }
  }

  lemma {:induction false} EndsFromLowLevel(ws: seq<int>, c: Cursor)
    requires InRange(ws, c) && CanReturn(ws, c) && Excess(ws, c) == 0
    ensures EndsWithin(ws, c, Distance(ws, c))
    decreases Distance(ws, c)
  {
    var t := OneTurn(ws, c);
    if t.Next? {
      TurnProgress(ws, c);
      EndsFromLowLevel(ws, t.at);
      EndsWithinMore(ws, t.at, Distance(ws, t.at), Distance(ws, c) - 1);
    }
  }

  /** A level no higher than the largest weight: the scan probes at most n entries. */
  lemma ProbesAtMostN(ws: seq<int>, c: Cursor)
    requires InRange(ws, c) && CanReturn(ws, c) && c.level <= Max(ws)
    ensures EndsWithin(ws, c, |ws|)
  {
    EndsFromLowLevel(ws, c);
    EndsWithinMore(ws, c, Distance(ws, c), |ws|);
  }

  lemma {:induction false} Ends(ws: seq<int>, c: Cursor) returns (turns: nat)
    requires InRange(ws, c) && CanReturn(ws, c)
    ensures EndsWithin(ws, c, turns)
    decreases Excess(ws, c), Distance(ws, c)
  {
    var t := OneTurn(ws, c);
    if t.Next? {
      TurnProgress(ws, c);
      var rest := Ends(ws, t.at);
      turns := rest + 1;
    } else {
      turns := 1;
    }
  }

  lemma {:induction false} NeverEnds(ws: seq<int>, c: Cursor, turns: nat)
    requires InRange(ws, c) && !CanReturn(ws, c)
    ensures !EndsWithin(ws, c, turns)
    decreases turns
  {
    AllZeroMax(ws);
    if turns > 0 {
      var t := OneTurn(ws, c);
      assert t.Next? && t.at.level == c.level;
      NeverEnds(ws, t.at, turns - 1);
    }
  }

  /** The loop of get ends exactly when some weight is nonzero or the leftover level is not positive. */
  lemma EndsExactlyWhen(ws: seq<int>, c: Cursor)
    requires InRange(ws, c)
    ensures Ending(ws, c) <==> CanReturn(ws, c)
  {
    if CanReturn(ws, c) {
      var turns := Ends(ws, c);
      assert EndsWithin(ws, c, turns);
    } else {
      forall turns: nat ensures !EndsWithin(ws, c, turns) { NeverEnds(ws, c, turns); }
    }
  }

  /** With nonnegative weights the level stays between 0 and the largest weight or leftover
      level, so currentWeight - gcdWeight cannot leave the range of a 32-bit int. */
  lemma {:induction false} LevelStaysInRange(ws: seq<int>, c: Cursor, bound: nat)
    requires InRange(ws, c) && CanReturn(ws, c)
    requires forall i :: 0 <= i < |ws| ==> 0 <= ws[i] <= bound
    requires 0 <= c.level <= bound
    ensures 0 <= c.level - GcdAll(ws) + bound
    ensures 0 <= Scan(ws, c).at.level <= bound
    decreases Excess(ws, c), Distance(ws, c)
  {
    var i: nat :| i < |ws| && ws[i] == Max(ws);
    GcdAllDivides(ws, i);
    GcdAllZero(ws);
    var k := Quotient(GcdAll(ws), ws[i]);
    MultipleBound(GcdAll(ws), k);
    assert k == 0 ==> Max(ws) == 0;
    assert GcdAll(ws) <= bound;
    var t := OneTurn(ws, c);
    if t.Next? {
      TurnProgress(ws, c);
      LevelStaysInRange(ws, t.at, bound);
    }
  }

  // ----- the schedule

  /** Weights under which the schedule is defined: two or more, none negative, one positive. */
  predicate Fair(ws: seq<int>) {
    |ws| >= 2 && (forall i :: 0 <= i < |ws| ==> ws[i] >= 0) && (exists i :: 0 <= i < |ws| && ws[i] > 0)
  }

  /** The targets from a given index on whose weight reaches the level. */
  function Row(ws: seq<int>, level: int, from: nat): (row: seq<nat>)
    ensures forall k :: 0 <= k < |row| ==> row[k] < |ws|
    decreases |ws| - from
  {
    if from >= |ws| then []
    else (if ws[from] >= level then [from] else []) + Row(ws, level, from + 1)
  }

  /** Rows for level, level - g, level - 2g, ... down to the last positive one. */
  function Levels(ws: seq<int>, level: int, g: nat): (picks: seq<nat>)
    requires g > 0
    ensures forall k :: 0 <= k < |picks| ==> picks[k] < |ws|
    decreases if level <= 0 then 0 else level
  {
    if level <= 0 then [] else Row(ws, level, 0) + Levels(ws, level - g, g)
  }

  lemma FairGcd(ws: seq<int>)
    requires Fair(ws)
    ensures GcdAll(ws) > 0 && Max(ws) > 0
  {
    GcdAllZero(ws);
  }

  /** One full cycle: the levels max, max - gcd, ..., gcd flattened. */
  function Cycle(ws: seq<int>): (picks: seq<nat>)
    requires Fair(ws)
    ensures forall k :: 0 <= k < |picks| ==> picks[k] < |ws|
  {
    FairGcd(ws);
    Levels(ws, Max(ws), GcdAll(ws))
  }

  /** What a scan that probes index `from` next still picks before a level is reset. */
  function Pending(ws: seq<int>, level: int, from: nat): seq<nat>
    requires Fair(ws)
  {
    FairGcd(ws);
    Row(ws, level, from) + Levels(ws, level - GcdAll(ws), GcdAll(ws))
  }

  function Upcoming(ws: seq<int>, c: Cursor): seq<nat>
    requires Fair(ws) && InRange(ws, c)
  {
    Pending(ws, c.level, c.index + 1)
  }

  lemma {:induction false} RowNotEmpty(ws: seq<int>, level: int, from: nat, i: nat)
    requires from <= i < |ws| && ws[i] >= level
    ensures Row(ws, level, from) != []
    decreases i - from
  {
    if from < i { RowNotEmpty(ws, level, from + 1, i); }
  }

  lemma CycleNotEmpty(ws: seq<int>)
    requires Fair(ws)
    ensures Cycle(ws) != []
  {
    FairGcd(ws);
    var i: nat :| i < |ws| && ws[i] == Max(ws);
    RowNotEmpty(ws, Max(ws), 0, i);
  }

  /** The picks the cursor owes next: what is left of its levels, or else a new cycle. */
  function Owed(ws: seq<int>, c: Cursor): seq<nat>
    requires Fair(ws) && InRange(ws, c)
  {
    if Upcoming(ws, c) == [] then Cycle(ws) else Upcoming(ws, c)
  }

  lemma PendingUnfolds(ws: seq<int>, level: int, from: nat)
    requires Fair(ws) && from < |ws|
    ensures Pending(ws, level, from) ==
      (if ws[from] >= level then [from] else []) + Pending(ws, level, from + 1)
  {
  }

  /** Probing one index of a row either leaves the pending picks or delivers the first. */
  lemma ProbeDelivers(ws: seq<int>, level: int, from: nat)
    requires Fair(ws) && from < |ws|
    ensures var t := Probe(ws, Cursor(from, level));
      && t.at == Cursor(from, level)
      && (t.Next? ==> Upcoming(ws, t.at) == Pending(ws, level, from))
      && (t.Found? ==> Pending(ws, level, from) == [t.pick] + Upcoming(ws, t.at))
  {
    PendingUnfolds(ws, level, from);
  }

  function NextLevel(ws: seq<int>, level: int): int
    requires Fair(ws)
  {
    if level - GcdAll(ws) <= 0 then Max(ws) else level - GcdAll(ws)
  }

  lemma TurnProbes(ws: seq<int>, c: Cursor)
    requires Fair(ws) && InRange(ws, c)
    ensures c.index + 1 < |ws| ==> OneTurn(ws, c) == Probe(ws, Cursor(c.index + 1, c.level))
    ensures c.index + 1 == |ws| ==> OneTurn(ws, c) == Probe(ws, Cursor(0, NextLevel(ws, c.level)))
  {
    FairGcd(ws);
  }

  /** When the index wraps, the picks owed are those of the next level's rows. */
  lemma OwedAtWrap(ws: seq<int>, c: Cursor)
    requires Fair(ws) && InRange(ws, c) && c.index + 1 == |ws|
    ensures var rows := Pending(ws, NextLevel(ws, c.level), 0);
      Owed(ws, c) == if rows == [] then Cycle(ws) else rows
  {
    FairGcd(ws);
    var g := GcdAll(ws);
    var level := NextLevel(ws, c.level);
    assert Row(ws, c.level, |ws|) == [];
    assert Upcoming(ws, c) == Levels(ws, c.level - g, g);
    assert Pending(ws, level, 0) == Levels(ws, level, g);
  }

  /** A turn that finds nothing owes the same picks; one that finds delivers the first. */
  lemma TurnDelivers(ws: seq<int>, c: Cursor)
    requires Fair(ws) && InRange(ws, c)
    ensures var t := OneTurn(ws, c);
      && !t.Nothing?
      && (t.Next? ==> Owed(ws, t.at) == Owed(ws, c))
      && (t.Found? ==> Owed(ws, c) == [t.pick] + Upcoming(ws, t.at))
  {
    TurnProbes(ws, c);
    if c.index + 1 < |ws| {
      ProbeDelivers(ws, c.level, c.index + 1);
    } else {
      ProbeDelivers(ws, NextLevel(ws, c.level), 0);
      OwedAtWrap(ws, c);
    }
  }

  /** Every call of get picks the first of the owed picks and leaves the others. */
  lemma {:induction false} ScanDelivers(ws: seq<int>, c: Cursor)
    requires Fair(ws) && InRange(ws, c)
    ensures CanReturn(ws, c)
    ensures var t := Scan(ws, c);
      t.Found? && Owed(ws, c) == [t.pick] + Upcoming(ws, t.at)
    decreases Excess(ws, c), Distance(ws, c)
  {
    FairGcd(ws);
    var t := OneTurn(ws, c);
    TurnDelivers(ws, c);
    if t.Next? {
      TurnProgress(ws, c);
      ScanDelivers(ws, t.at);
    }
  }
}
