/** When the reset policy, which sends a consumer to the end of a partition, loses records. Retention is
    not counted as a loss: a record that expires unattempted is gone from the log for everyone. */
module ConsumerResets {
  import opened ConsumerOffsets

  /** Nothing to resume from: no readable offset is stored for the partition, or the one stored lies
      before what retention has left of the log. */
  predicate Stranded(w: World, p: Partition, answered: bool, sought: bool) {
    if p in w.db && answered && sought then w.db[p] < Start(w, p)
    else p in w.committed ==> w.committed[p] < Start(w, p)
  }

  /** The partition holds a record that nobody has attempted. */
  ghost predicate Waiting(w: World, p: Partition) {
    exists r :: r in w.records && r.partition == p && r !in w.attempted
  }

  /** An assignment leads to a reset exactly when it leaves the consumer stranded. */
  lemma ResetFollowsExactlyWhen(w: World, c: ConsumerId, p: Partition, answered: bool, sought: bool)
    requires Between(w, c)
    ensures Enabled(AssignEffect(w, c, p, answered, sought), Reset(c, p)) <==> Stranded(w, p, answered, sought)
  {}

  lemma OnlyResetsLose(w: World, s: Step)
    requires Enabled(w, s)
    ensures Next(w, s).lost == if s.Reset? then w.lost + Jumped(w, s.p) else w.lost
  {}

  lemma TwoSteps(w: World, a: Step, b: Step)
    requires Enabled(w, a) && Enabled(Next(w, a), b)
    ensures Feasible(w, [a, b]) && After(w, [a, b]) == Next(Next(w, a), b)
  {
    Extend(w, [], a);
    assert [] + [a] == [a];
    Extend(w, [a], b);
    assert [a] + [b] == [a, b];
  }

  lemma JoinedAndAssigned(w: World, c: ConsumerId, p: Partition, answered: bool, sought: bool)
    requires c !in w.consumers
    ensures var run := [Join(c), Assign(c, p, answered, sought)];
      && Feasible(w, run) && After(w, run).records == w.records && Done(After(w, run)) == Done(w)
      && After(w, run).attempted == w.attempted
      && (Enabled(After(w, run), Reset(c, p)) <==> Stranded(w, p, answered, sought))
  {
    var joined := Next(w, Join(c));
    TwoSteps(w, Join(c), Assign(c, p, answered, sought));
    ResetFollowsExactlyWhen(joined, c, p, answered, sought);
  }

  /** The next consumer to join and be given the partition is reset exactly when it is stranded, and
      then loses every record not yet attempted: say after a crash between the first poll and the
      first commit, or when retention has overtaken the group. */
  lemma JoinerLosesExactlyWhen(w: World, c: ConsumerId, p: Partition, answered: bool, sought: bool)
    requires c !in w.consumers
    ensures var run := [Join(c), Assign(c, p, answered, sought), Reset(c, p)];
      && (Feasible(w, run) <==> Stranded(w, p, answered, sought))
      && (Feasible(w, run) ==>
            forall r :: r in w.records && r.partition == p && r !in w.attempted ==>
              r in After(w, run).lost && r !in After(w, run).attempted)
  {
    var front, reset := [Join(c), Assign(c, p, answered, sought)], Reset(c, p);
    JoinedAndAssigned(w, c, p, answered, sought);
    var run := [Join(c), Assign(c, p, answered, sought), Reset(c, p)];
    assert run[..|run| - 1] == front;
    if Stranded(w, p, answered, sought) {
      OnlyResetsLose(After(w, front), reset);
    }
  }

  /** A reset goes to the end of the log: all records there lie before the position, and any to come at
      or after it. */
  lemma ResetGoesToTheEnd(w: World, c: ConsumerId, p: Partition, there: Record, coming: Record)
    requires Inv(w) && Enabled(w, Reset(c, p)) && there in w.records && there.partition == p
    requires coming.partition == p && Enabled(Next(w, Reset(c, p)), Produce(coming))
    ensures var positions := Next(w, Reset(c, p)).consumers[c].positions;
      p in positions && positions[p].Some? && there.offset < positions[p].value <= coming.offset
    ensures forall q :: q != p && q in w.consumers[c].positions ==>
      Next(w, Reset(c, p)).consumers[c].positions[q] == w.consumers[c].positions[q]
  {}

  // ----- over a run

  /** Going by the run alone, the consumer has the partition but no place in it: its last placement was
      an assignment that found no readable offset stored. */
  ghost predicate Unplaced(run: seq<Step>, c: ConsumerId, p: Partition)
    requires Feasible(EMPTY, run)
    decreases |run|
  {
    if |run| == 0 then false
    else
      var front, s := run[..|run| - 1], run[|run| - 1];
      var w := After(EMPTY, front);
      match s
      case Assign(c', p', answered, sought) =>
        if c' == c && p' == p then p !in w.committed && !(p in w.db && answered && sought) else Unplaced(front, c, p)
      case Reset(c', p') => !(c' == c && p' == p) && Unplaced(front, c, p)
      case Release(c', p') => !(c' == c && p' == p) && Unplaced(front, c, p)
      case Close(c', _) => c' != c && Unplaced(front, c, p)
      case Crash(c') => c' != c && Unplaced(front, c, p)
      case _ => Unplaced(front, c, p)
  }

  predicate WithoutPosition(w: World, c: ConsumerId, p: Partition) {
    c in w.consumers && p in w.consumers[c].positions && w.consumers[c].positions[p].None?
  }

  /** Steps that place or remove consumers. */
  lemma PlacingStep(w: World, s: Step, c: ConsumerId, p: Partition)
    requires Enabled(w, s)
    ensures match s
      case Assign(c', p', answered, sought) =>
        WithoutPosition(Next(w, s), c, p) <==>
          if c' == c && p' == p then p !in w.committed && !(p in w.db && answered && sought) else WithoutPosition(w, c, p)
      case Reset(c', p') => WithoutPosition(Next(w, s), c, p) <==> !(c' == c && p' == p) && WithoutPosition(w, c, p)
      case Release(c', p') => WithoutPosition(Next(w, s), c, p) <==> !(c' == c && p' == p) && WithoutPosition(w, c, p)
      case Close(c', _) => WithoutPosition(Next(w, s), c, p) <==> c' != c && WithoutPosition(w, c, p)
      case Crash(c') => WithoutPosition(Next(w, s), c, p) <==> c' != c && WithoutPosition(w, c, p)
      case _ => true
  {}

  lemma PollLeavesUnplaced(w: World, u: ConsumerId, batch: seq<Record>, next: Offsets, c: ConsumerId, p: Partition)
    requires Between(w, u) && Polled(w, w.consumers[u], batch, next)
    ensures WithoutPosition(PollEffect(w, u, batch, next), c, p) <==> WithoutPosition(w, c, p)
  {
    assert p in next ==> MayAdvance(w, w.consumers[u], p, next[p]);
  }

  lemma ProcessLeavesPositions(w: World, u: ConsumerId, noted: bool, c: ConsumerId, p: Partition)
    requires u in w.consumers && w.consumers[u].batch != []
    ensures WithoutPosition(ProcessEffect(w, u, noted), c, p) <==> WithoutPosition(w, c, p)
  {}

  lemma RevokeLeavesPositions(w: World, u: ConsumerId, q: Partition, ok: bool, c: ConsumerId, p: Partition)
    requires u in w.consumers
    ensures WithoutPosition(RevokeEffect(w, u, q, ok), c, p) <==> WithoutPosition(w, c, p)
  {}

  lemma DropLeavesPositions(w: World, flight: Flight, c: ConsumerId, p: Partition)
    ensures WithoutPosition(DropEffect(w, flight), c, p) <==> WithoutPosition(w, c, p)
  {}

  lemma StoresLeaveConsumers(w: World, s: Step)
    requires Enabled(w, s)
    requires s.Produce? || s.Expire? || s.Commit? || s.Apply? || s.Fail? || s.Write?
    ensures Next(w, s).consumers == w.consumers
  {}

  lemma JoinLeavesPositions(w: World, u: ConsumerId, c: ConsumerId, p: Partition)
    requires u !in w.consumers
    ensures WithoutPosition(Next(w, Join(u)), c, p) <==> WithoutPosition(w, c, p)
  {}

  lemma StartRevokeLeavesPositions(w: World, u: ConsumerId, c: ConsumerId, p: Partition)
    requires Between(w, u)
    ensures WithoutPosition(Next(w, StartRevoke(u)), c, p) <==> WithoutPosition(w, c, p)
  {}

  /** The other steps leave consumers without a position where they are. */
  lemma OtherStep(w: World, s: Step, c: ConsumerId, p: Partition)
    requires Enabled(w, s)
    requires !s.Assign? && !s.Reset? && !s.Release? && !s.Close? && !s.Crash?
    ensures WithoutPosition(Next(w, s), c, p) <==> WithoutPosition(w, c, p)
  {
    match s
    case Poll(u, batch, next) => PollLeavesUnplaced(w, u, batch, next, c, p);
    case Process(u, noted) => ProcessLeavesPositions(w, u, noted, c, p);
    case Revoke(u, q, ok) => RevokeLeavesPositions(w, u, q, ok, c, p);
    case Acknowledge(flight) => DropLeavesPositions(w.(flights := w.flights - multiset{flight}), flight, c, p);
    case Join(u) => JoinLeavesPositions(w, u, c, p);
    case StartRevoke(u) => StartRevokeLeavesPositions(w, u, c, p);
    case _ => StoresLeaveConsumers(w, s);
  }

  lemma {:induction false} UnplacedIsWithoutPosition(run: seq<Step>, c: ConsumerId, p: Partition)
    requires Feasible(EMPTY, run)
    ensures Unplaced(run, c, p) <==> WithoutPosition(After(EMPTY, run), c, p)
    decreases |run|
  {
    if |run| > 0 {
      UnplacedIsWithoutPosition(run[..|run| - 1], c, p);
      var w, s := After(EMPTY, run[..|run| - 1]), run[|run| - 1];
      PlacingStep(w, s, c, p);
      if !s.Assign? && !s.Reset? && !s.Release? && !s.Close? && !s.Crash? {
        OtherStep(w, s, c, p);
      }
    }
  }

  /** Retention has overtaken the consumer's place in the partition. */
  predicate Overtaken(w: World, c: ConsumerId, p: Partition) {
    && c in w.consumers && p in w.consumers[c].positions && w.consumers[c].positions[p].Some?
    && w.consumers[c].positions[p].value < Start(w, p)
  }

  /** Step i resets a consumer that was assigned the partition with nothing stored, or that retention
      has overtaken, while a record of the partition waits for its first attempt. */
  ghost predicate LosingReset(run: seq<Step>, i: nat) {
    && i < |run| && run[i].Reset? && Feasible(EMPTY, run[..i])
    && (Unplaced(run[..i], run[i].c, run[i].p) || Overtaken(After(EMPTY, run[..i]), run[i].c, run[i].p))
    && Waiting(After(EMPTY, run[..i]), run[i].p)
  }

  lemma LosingEarlier(front: seq<Step>, s: Step, i: nat)
    requires i < |front|
    ensures LosingReset(front + [s], i) <==> LosingReset(front, i)
  {
    assert (front + [s])[..i] == front[..i] && (front + [s])[i] == front[i];
  }

  lemma LosingEarlierOrNow(front: seq<Step>, s: Step)
    requires Feasible(EMPTY, front + [s])
    ensures (exists i: nat :: LosingReset(front + [s], i))
      <==> (exists i: nat :: LosingReset(front, i)) || LosingReset(front + [s], |front|)
  {
    if i: nat :| LosingReset(front, i) {
      LosingEarlier(front, s, i);
    }
    if i: nat :| LosingReset(front + [s], i) && i < |front| {
      LosingEarlier(front, s, i);
    }
  }

  lemma LosingNow(front: seq<Step>, s: Step)
    requires Feasible(EMPTY, front) && Enabled(After(EMPTY, front), s)
    ensures LosingReset(front + [s], |front|) <==> s.Reset? && Waiting(After(EMPTY, front), s.p)
  {
    assert (front + [s])[..|front|] == front;
    if s.Reset? {
      UnplacedIsWithoutPosition(front, s.c, s.p);
    }
  }

  lemma LosesNow(w: World, s: Step)
    requires Enabled(w, s)
    ensures Next(w, s).lost != {} <==> w.lost != {} || (s.Reset? && Waiting(w, s.p))
  {
    OnlyResetsLose(w, s);
    if s.Reset? && Waiting(w, s.p) {
      LostWhenWaiting(w, s.p);
    }
    assert s.Reset? && Jumped(w, s.p) != {} ==> Waiting(w, s.p);
  }

  /** A run loses a record exactly when, at some point of it, a consumer with nothing to resume from is
      reset while a record of the partition waits. */
  lemma {:induction false} LosesExactlyWhen(run: seq<Step>)
    requires Feasible(EMPTY, run)
    ensures After(EMPTY, run).lost != {} <==> exists i: nat :: LosingReset(run, i)
    decreases |run|
  {
    if |run| > 0 {
      var front, s := run[..|run| - 1], run[|run| - 1];
      assert run == front + [s];
      LosesExactlyWhen(front);
      LosingEarlierOrNow(front, s);
      LosingNow(front, s);
      LosesNow(After(EMPTY, front), s);
    }
  }

  lemma LostWhenWaiting(w: World, p: Partition)
    requires Waiting(w, p)
    ensures w.lost + Jumped(w, p) != {}
  {
    var r :| r in w.records && r.partition == p && r !in w.attempted;
    assert r in w.lost || r in Jumped(w, p);
  }

  /** So, in a run without such a reset, no seek ever jumps over an unattempted record. */
  lemma WithoutLosingResetNothingIsSkipped(run: seq<Step>, c: ConsumerId, p: Partition, answered: bool, sought: bool)
    requires Feasible(EMPTY, run) && Between(After(EMPTY, run), c) && !exists i: nat :: LosingReset(run, i)
    ensures var w := After(EMPTY, run);
      var at := AssignEffect(w, c, p, answered, sought).consumers[c].positions[p];
      at.Some? ==> forall r :: r in w.records && r.partition == p && r.offset < at.value ==> r in w.attempted
  {
    SeekJumpsOverNothingNew(run, c, p, answered, sought);
    LosesExactlyWhen(run);
  }

  /** What is not counted: a record that expires before anyone attempts it leaves nothing lost behind. */
  lemma RetentionIsNotCounted(r: Record)
    ensures var run := [Produce(r), Expire(r.partition, r.offset + 1)];
      Feasible(EMPTY, run) && After(EMPTY, run).lost == {} && r !in After(EMPTY, run).attempted
      && r !in After(EMPTY, run).records
  {
    var produce, expire := Produce(r), Expire(r.partition, r.offset + 1);
    Extend(EMPTY, [], produce);
    assert [] + [produce] == [produce];
    Extend(EMPTY, [produce], expire);
    assert [produce] + [expire] == [produce, expire];
  }
}
