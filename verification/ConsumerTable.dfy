/** The offsets in the table, written late by many hands: when they can go back. */
module ConsumerTable {
  import opened Options
  import opened ConsumerOffsets

  /** What a step queues for the table of p. */
  function Queue(w: World, s: Step, p: Partition): seq<nat>
    requires s.Commit? || s.Revoke? || s.Close? ==> s.c in w.consumers
  {
    match s
    case Commit(c, queued) => if queued then Noted(w.consumers[c], p) else []
    case Revoke(c, q, ok) => if q == p && ok then Noted(w.consumers[c], p) else []
    case Close(c, _) => Noted(w.consumers[c], p)
    case _ => []
  }

  function Noted(consumer: Consumer, p: Partition): seq<nat> {
    if p in consumer.currentOffsets then [consumer.currentOffsets[p]] else []
  }

  /** The offsets queued for the table of p, in order. */
  ghost function Queued(run: seq<Step>, p: Partition): seq<nat>
    requires Feasible(EMPTY, run)
    decreases |run|
  {
    if |run| == 0 then []
    else Queued(run[..|run| - 1], p) + Queue(After(EMPTY, run[..|run| - 1]), run[|run| - 1], p)
  }

  /** The offsets that land there, in order. */
  function Landed(run: seq<Step>, p: Partition): seq<nat> {
    if |run| == 0 then []
    else Landed(run[..|run| - 1], p) + Landing(run[|run| - 1], p)
  }

  function Landing(s: Step, p: Partition): seq<nat> {
    if s.Write? && s.landed && s.write.partition == p then [s.write.offset] else []
  }

  predicate Nondecreasing(s: seq<nat>) {
    forall i, j :: 0 <= i < j < |s| ==> s[i] <= s[j]
  }

  function Top(s: seq<nat>): nat {
    if |s| == 0 then 0 else s[|s| - 1]
  }

  // ----- exactly when the table goes back

  /** No step of the run lowers the offset of p in the table, or takes it away. */
  ghost predicate NeverGoesBack(w: World, run: seq<Step>, p: Partition)
    requires Feasible(w, run)
    decreases |run|
  {
    |run| > 0 ==>
      var before, after := After(w, run[..|run| - 1]), After(w, run);
      && NeverGoesBack(w, run[..|run| - 1], p)
      && (p in before.db ==> p in after.db && before.db[p] <= after.db[p])
  }

  lemma LandingIsTheTable(w: World, s: Step, p: Partition)
    requires Enabled(w, s)
    ensures Find(Next(w, s).db, p) == if Landing(s, p) == [] then Find(w.db, p) else Some(Landing(s, p)[0])
  {}

  lemma {:induction false} TableIsLastLanded(run: seq<Step>, p: Partition)
    requires Feasible(EMPTY, run)
    ensures Find(After(EMPTY, run).db, p) == if Landed(run, p) == [] then None else Some(Top(Landed(run, p)))
    decreases |run|
  {
    if |run| > 0 {
      TableIsLastLanded(run[..|run| - 1], p);
      LandingIsTheTable(After(EMPTY, run[..|run| - 1]), run[|run| - 1], p);
    }
  }

  lemma NondecreasingExtends(s: seq<nat>, x: nat)
    ensures Nondecreasing(s + [x]) <==> Nondecreasing(s) && (s != [] ==> Top(s) <= x)
  {
    var t := s + [x];
    if Nondecreasing(t) {
      assert forall i, j :: 0 <= i < j < |s| ==> t[i] == s[i] && t[j] == s[j];
      assert s != [] ==> t[|s| - 1] <= t[|s|];
    }
  }

  /** The table's offset never goes back over a run exactly when the offsets that land in it, in the
      order of their landing, never decrease. */
  lemma {:induction false} NeverGoesBackExactlyWhen(run: seq<Step>, p: Partition)
    requires Feasible(EMPTY, run)
    ensures NeverGoesBack(EMPTY, run, p) <==> Nondecreasing(Landed(run, p))
    decreases |run|
  {
    if |run| > 0 {
      var front, s := run[..|run| - 1], run[|run| - 1];
      NeverGoesBackExactlyWhen(front, p);
      TableIsLastLanded(front, p);
      TableIsLastLanded(run, p);
      if Landing(s, p) == [] {
        assert Landed(run, p) == Landed(front, p);
      } else {
        NondecreasingExtends(Landed(front, p), s.write.offset);
      }
    }
  }

  // ----- what is queued tells whether it may

  /** A queued write of p lies below the table, or below another queued one. */
  ghost predicate OutOfStep(w: World, p: Partition) {
    || (exists x :: x in w.writes && x.partition == p && p in w.db && x.offset < w.db[p])
    || (exists x, y :: x in w.writes && y in w.writes && x.partition == y.partition == p && x.offset < y.offset)
  }

  predicate OnlyWrites(run: seq<Step>) {
    forall i :: 0 <= i < |run| ==> run[i].Write?
  }

  lemma WriteKeepsInStep(w: World, write: Record, landed: bool, p: Partition)
    requires write in w.writes && !OutOfStep(w, p)
    ensures var w' := WriteEffect(w, write, landed);
      !OutOfStep(w', p) && (p in w.db ==> p in w'.db && w.db[p] <= w'.db[p])
  {
    var w' := WriteEffect(w, write, landed);
    assert forall x :: x in w'.writes ==> x in w.writes;
  }

  lemma {:induction false} InStepNeverGoesBack(w: World, run: seq<Step>, p: Partition)
    requires Feasible(w, run) && OnlyWrites(run) && !OutOfStep(w, p)
    ensures NeverGoesBack(w, run, p) && !OutOfStep(After(w, run), p)
    decreases |run|
  {
    if |run| > 0 {
      var front, s := run[..|run| - 1], run[|run| - 1];
      InStepNeverGoesBack(w, front, p);
      WriteKeepsInStep(After(w, front), s.write, s.landed, p);
    }
  }

  lemma LowersAtOnce(w: World, x: Record)
    requires x in w.writes && x.partition in w.db && x.offset < w.db[x.partition]
    ensures Feasible(w, [Write(x, true)]) && !NeverGoesBack(w, [Write(x, true)], x.partition)
  {
    assert [Write(x, true)][..0] == [];
  }

  lemma LowersNext(w: World, x: Record, y: Record)
    requires x in w.writes && y in w.writes && x.partition == y.partition && x.offset < y.offset
    ensures Feasible(w, [Write(y, true), Write(x, true)])
    ensures !NeverGoesBack(w, [Write(y, true), Write(x, true)], x.partition)
  {
    var run := [Write(y, true), Write(x, true)];
    assert run[..1] == [Write(y, true)] && run[..1][..0] == [];
    assert x in WriteEffect(w, y, true).writes;
  }

  /** In any world, the queued writes can make the table of p go back, landing in some order, exactly
      when one of them lies below the table or two of them differ. */
  lemma WritesMayGoBackExactlyWhen(w: World, p: Partition)
    ensures (exists run :: Feasible(w, run) && OnlyWrites(run) && !NeverGoesBack(w, run, p)) <==> OutOfStep(w, p)
  {
    if x :| x in w.writes && x.partition == p && p in w.db && x.offset < w.db[p] {
      LowersAtOnce(w, x);
      assert OnlyWrites([Write(x, true)]);
    } else if x, y :| x in w.writes && y in w.writes && x.partition == y.partition == p && x.offset < y.offset {
      LowersNext(w, x, y);
      assert OnlyWrites([Write(y, true), Write(x, true)]);
    } else {
      forall run | Feasible(w, run) && OnlyWrites(run) ensures NeverGoesBack(w, run, p) {
        InStepNeverGoesBack(w, run, p);
      }
    }
  }

  // ----- one owner, whose writes land in the order queued

  /** The consumer has nothing to do with the partition. */
  predicate Untouched(consumer: Consumer, p: Partition) {
    && p !in consumer.currentOffsets && p !in consumer.positions
    && forall i :: 0 <= i < |consumer.batch| ==> consumer.batch[i].partition != p
  }

  /** All that the consumer may still note for the partition lies at or beyond what it has queued. */
  predicate Forward(consumer: Consumer, p: Partition, top: nat) {
    && (p in consumer.currentOffsets ==> top <= consumer.currentOffsets[p])
    && (forall i :: 0 <= i < |consumer.batch| && consumer.batch[i].partition == p ==>
          top <= consumer.batch[i].offset
          && (p in consumer.currentOffsets ==> consumer.currentOffsets[p] <= consumer.batch[i].offset))
    && (forall i, j :: 0 <= i < j < |consumer.batch| && consumer.batch[i].partition == consumer.batch[j].partition == p ==>
          consumer.batch[i].offset < consumer.batch[j].offset)
    && (p in consumer.positions && consumer.positions[p].Some? ==> AtOrBefore(consumer, p, top, consumer.positions[p].value))
  }

  /** What was queued, noted or polled lies before the position. */
  predicate AtOrBefore(consumer: Consumer, p: Partition, top: nat, position: nat) {
    && top <= position
    && (p in consumer.currentOffsets ==> consumer.currentOffsets[p] <= position)
    && forall i :: 0 <= i < |consumer.batch| && consumer.batch[i].partition == p ==> consumer.batch[i].offset < position
  }

  /** Only the owner, once it has been assigned p, has to do with it, and what it queues goes forward. */
  ghost predicate Ordered(w: World, p: Partition, owner: ConsumerId, given: bool, queued: seq<nat>) {
    && Nondecreasing(queued) && Top(queued) <= End(w, p)
    && (forall c :: c in w.consumers && (c != owner || !given) ==> Untouched(w.consumers[c], p))
    && (!given ==> queued == [])
    && (owner in w.consumers ==> Forward(w.consumers[owner], p, Top(queued)))
  }

  lemma OthersUntouched(w: World, w': World, p: Partition, owner: ConsumerId, given: bool, queued: seq<nat>)
    requires Ordered(w, p, owner, given, queued) && End(w, p) <= End(w', p)
    requires forall c :: c in w'.consumers ==> c in w.consumers && w'.consumers[c] == w.consumers[c]
    ensures Ordered(w', p, owner, given, queued)
  {}

  lemma AssignKeepsOrder(w: World, c: ConsumerId, q: Partition, answered: bool, sought: bool, p: Partition, owner: ConsumerId,
      given: bool, queued: seq<nat>)
    requires Ordered(w, p, owner, given, queued) && Between(w, c)
    requires q == p ==> c == owner && !given
    ensures Ordered(AssignEffect(w, c, q, answered, sought), p, owner, given || q == p, queued)
  {}

  lemma ResetKeepsForward(w: World, c: ConsumerId, q: Partition, p: Partition, top: nat)
    requires Between(w, c) && Settled(w, w.consumers[c]) && Forward(w.consumers[c], p, top) && top <= End(w, p)
    ensures Forward(ResetEffect(w, c, q).consumers[c], p, top)
  {
    assert p in w.consumers[c].currentOffsets ==> Covered(w, p, w.consumers[c].currentOffsets[p]);
  }

  lemma ResetKeepsUntouched(w: World, c: ConsumerId, q: Partition, p: Partition)
    requires Between(w, c) && NeedsReset(w, c, q) && Untouched(w.consumers[c], p)
    ensures Untouched(ResetEffect(w, c, q).consumers[c], p)
  {}

  lemma ResetKeepsOrder(w: World, c: ConsumerId, q: Partition, p: Partition, owner: ConsumerId, given: bool,
      queued: seq<nat>)
    requires Ordered(w, p, owner, given, queued) && Inv(w) && Between(w, c) && NeedsReset(w, c, q)
    ensures Ordered(ResetEffect(w, c, q), p, owner, given, queued)
  {
    if c == owner {
      ResetKeepsForward(w, c, q, p, Top(queued));
    }
    if c != owner || !given {
      ResetKeepsUntouched(w, c, q, p);
    }
  }

  lemma PollKeepsUntouched(w: World, c: ConsumerId, batch: seq<Record>, next: Offsets, p: Partition)
    requires Between(w, c) && Polled(w, w.consumers[c], batch, next) && Untouched(w.consumers[c], p)
    ensures Untouched(PollEffect(w, c, batch, next).consumers[c], p)
  {
    assert forall q :: q in next ==> MayAdvance(w, w.consumers[c], q, next[q]);
    assert forall i :: 0 <= i < |batch| ==> InReach(w.consumers[c], next, batch[i]);
  }

  /** A batch from the position on, in order. */
  lemma FetchedForward(consumer: Consumer, consumer': Consumer, p: Partition, top: nat)
    requires Forward(consumer, p, top) && p in consumer.positions && p in consumer'.positions
    requires consumer.positions[p].Some? && consumer'.positions[p].Some?
    requires consumer'.currentOffsets == consumer.currentOffsets || consumer'.currentOffsets == map[]
    requires var at, at' := consumer.positions[p].value, consumer'.positions[p].value;
      at <= at'
      && forall i :: 0 <= i < |consumer'.batch| && consumer'.batch[i].partition == p ==> at <= consumer'.batch[i].offset < at'
    requires forall i, j :: 0 <= i < j < |consumer'.batch| && consumer'.batch[i].partition == consumer'.batch[j].partition ==>
      consumer'.batch[i].offset < consumer'.batch[j].offset
    ensures Forward(consumer', p, top)
  {}

  /** No record of p in the batch. */
  lemma ElsewhereForward(consumer: Consumer, consumer': Consumer, p: Partition, top: nat)
    requires Forward(consumer, p, top)
    requires p in consumer'.positions ==> p in consumer.positions && consumer'.positions[p] == consumer.positions[p]
    requires consumer'.currentOffsets == consumer.currentOffsets || consumer'.currentOffsets == map[]
    requires forall i :: 0 <= i < |consumer'.batch| ==> consumer'.batch[i].partition != p
    ensures Forward(consumer', p, top)
  {}

  lemma PollKeepsForward(w: World, c: ConsumerId, batch: seq<Record>, next: Offsets, p: Partition, top: nat)
    requires Between(w, c) && Polled(w, w.consumers[c], batch, next) && Forward(w.consumers[c], p, top)
    ensures Forward(PollEffect(w, c, batch, next).consumers[c], p, top)
  {
    var consumer, consumer' := w.consumers[c], PollEffect(w, c, batch, next).consumers[c];
    assert forall i :: 0 <= i < |batch| ==> InReach(consumer, next, batch[i]);
    if p in next {
      assert MayAdvance(w, consumer, p, next[p]);
      FetchedForward(consumer, consumer', p, top);
    } else {
      ElsewhereForward(consumer, consumer', p, top);
    }
  }

  lemma PollKeepsOrder(w: World, c: ConsumerId, batch: seq<Record>, next: Offsets, p: Partition, owner: ConsumerId,
      given: bool, queued: seq<nat>)
    requires Ordered(w, p, owner, given, queued) && Between(w, c) && Polled(w, w.consumers[c], batch, next)
    ensures Ordered(PollEffect(w, c, batch, next), p, owner, given, queued)
  {
    if c == owner {
      PollKeepsForward(w, c, batch, next, p, Top(queued));
    }
    if c != owner || !given {
      PollKeepsUntouched(w, c, batch, next, p);
    }
  }

  lemma ProcessKeepsOrder(w: World, c: ConsumerId, noted: bool, p: Partition, owner: ConsumerId, given: bool,
      queued: seq<nat>)
    requires Ordered(w, p, owner, given, queued) && c in w.consumers && w.consumers[c].batch != []
    ensures Ordered(ProcessEffect(w, c, noted), p, owner, given, queued)
  {
    var consumer, consumer' := w.consumers[c], ProcessEffect(w, c, noted).consumers[c];
    assert forall i :: 0 <= i < |consumer'.batch| ==> consumer'.batch[i] == consumer.batch[i + 1];
    if c == owner && given {
      assert Forward(consumer', p, Top(queued));
    } else {
      assert consumer.batch[0].partition != p;
      assert Untouched(consumer', p);
    }
  }

  /** Fewer noted offsets, fewer positions, fewer records to process. */
  lemma LessKeepsOrder(w: World, w': World, c: ConsumerId, p: Partition, owner: ConsumerId, given: bool, queued: seq<nat>)
    requires Ordered(w, p, owner, given, queued) && End(w, p) == End(w', p) && c in w.consumers && c in w'.consumers
    requires forall d :: d in w'.consumers && d != c ==> d in w.consumers && w'.consumers[d] == w.consumers[d]
    requires var consumer, consumer' := w.consumers[c], w'.consumers[c];
      && consumer'.batch == consumer.batch
      && (p in consumer'.currentOffsets ==>
            p in consumer.currentOffsets && consumer'.currentOffsets[p] == consumer.currentOffsets[p])
      && (p in consumer'.positions ==> p in consumer.positions && consumer'.positions[p] == consumer.positions[p])
    ensures Ordered(w', p, owner, given, queued)
  {
    var consumer, consumer' := w.consumers[c], w'.consumers[c];
    if c == owner && given {
      assert Forward(consumer', p, Top(queued));
    } else {
      assert Untouched(consumer', p);
    }
  }

  /** What is noted may be queued: it is no lower than what was queued before. */
  lemma QueueKeepsOrder(w: World, c: ConsumerId, p: Partition, owner: ConsumerId, given: bool, queued: seq<nat>)
    requires Ordered(w, p, owner, given, queued) && Inv(w) && c in w.consumers
    ensures Ordered(w, p, owner, given, queued + Noted(w.consumers[c], p))
  {
    var consumer := w.consumers[c];
    if p in consumer.currentOffsets {
      assert c == owner && given;
      NondecreasingExtends(queued, consumer.currentOffsets[p]);
      assert Settled(w, consumer);
      assert Covered(w, p, consumer.currentOffsets[p]);
    } else {
      assert queued + Noted(consumer, p) == queued;
    }
  }

  lemma CommitKeepsOrder(w: World, c: ConsumerId, enqueued: bool, p: Partition, owner: ConsumerId, given: bool,
      queued: seq<nat>)
    requires Ordered(w, p, owner, given, queued) && Inv(w) && c in w.consumers
    ensures Ordered(CommitEffect(w, c, enqueued), p, owner, given, queued + Queue(w, Commit(c, enqueued), p))
  {
    QueueKeepsOrder(w, c, p, owner, given, queued);
    assert queued + [] == queued;
    OthersUntouched(w, CommitEffect(w, c, enqueued), p, owner, given, queued + Queue(w, Commit(c, enqueued), p));
  }

  lemma RevokeKeepsOrder(w: World, c: ConsumerId, q: Partition, ok: bool, p: Partition, owner: ConsumerId, given: bool,
      queued: seq<nat>)
    requires Ordered(w, p, owner, given, queued) && Inv(w) && Between(w, c)
    ensures Ordered(RevokeEffect(w, c, q, ok), p, owner, given, queued + Queue(w, Revoke(c, q, ok), p))
  {
    QueueKeepsOrder(w, c, p, owner, given, queued);
    assert queued + [] == queued;
    LessKeepsOrder(w, RevokeEffect(w, c, q, ok), c, p, owner, given, queued + Queue(w, Revoke(c, q, ok), p));
  }

  lemma JoinKeepsOrder(w: World, c: ConsumerId, p: Partition, owner: ConsumerId, given: bool, queued: seq<nat>)
    requires Ordered(w, p, owner, given, queued) && c !in w.consumers
    ensures Ordered(Next(w, Join(c)), p, owner, given, queued)
  {
    var w' := Next(w, Join(c));
    assert Untouched(w'.consumers[c], p);
    assert c == owner ==> Forward(w'.consumers[c], p, Top(queued));
  }

  /** No consumer gains anything. */
  lemma BystanderKeepsOrder(w: World, s: Step, p: Partition, owner: ConsumerId, given: bool, queued: seq<nat>)
    requires Ordered(w, p, owner, given, queued) && Enabled(w, s)
    requires s.Produce? || s.Expire? || s.Apply? || s.Fail? || s.Write? || s.Crash?
    ensures Ordered(Next(w, s), p, owner, given, queued)
  {
    OthersUntouched(w, Next(w, s), p, owner, given, queued);
  }

  lemma AcknowledgeKeepsOrder(w: World, flight: Flight, p: Partition, owner: ConsumerId, given: bool, queued: seq<nat>)
    requires Ordered(w, p, owner, given, queued)
    ensures Ordered(AcknowledgeEffect(w, flight), p, owner, given, queued)
  {
    if flight.consumer in w.consumers {
      LessKeepsOrder(w, AcknowledgeEffect(w, flight), flight.consumer, p, owner, given, queued);
    } else {
      OthersUntouched(w, AcknowledgeEffect(w, flight), p, owner, given, queued);
    }
  }

  lemma LettingGoKeepsOrder(w: World, s: Step, p: Partition, owner: ConsumerId, given: bool, queued: seq<nat>)
    requires Ordered(w, p, owner, given, queued) && Enabled(w, s) && (s.StartRevoke? || s.Release?)
    ensures Ordered(Next(w, s), p, owner, given, queued)
  {
    LessKeepsOrder(w, Next(w, s), s.c, p, owner, given, queued);
  }

  lemma CloseKeepsOrder(w: World, c: ConsumerId, ok: bool, p: Partition, owner: ConsumerId, given: bool, queued: seq<nat>)
    requires Ordered(w, p, owner, given, queued) && Inv(w) && c in w.consumers
    ensures Ordered(CloseEffect(w, c, ok), p, owner, given, queued + Noted(w.consumers[c], p))
  {
    QueueKeepsOrder(w, c, p, owner, given, queued);
    OthersUntouched(w, CloseEffect(w, c, ok), p, owner, given, queued + Noted(w.consumers[c], p));
  }

  /** The steps by which a consumer is placed, fetches and processes. */
  lemma FetchKeepsOrder(w: World, s: Step, p: Partition, owner: ConsumerId, given: bool, queued: seq<nat>)
    requires Ordered(w, p, owner, given, queued) && Inv(w) && Enabled(w, s)
    requires s.Reset? || s.Poll? || s.Process?
    ensures Ordered(Next(w, s), p, owner, given, queued)
  {
    if s.Reset? {
      ResetKeepsOrder(w, s.c, s.p, p, owner, given, queued);
    } else if s.Poll? {
      PollKeepsOrder(w, s.c, s.batch, s.next, p, owner, given, queued);
    } else {
      ProcessKeepsOrder(w, s.c, s.noted, p, owner, given, queued);
    }
  }

  /** The steps that queue nothing. */
  lemma SilentKeepsOrder(w: World, s: Step, p: Partition, owner: ConsumerId, given: bool, queued: seq<nat>)
    requires Ordered(w, p, owner, given, queued) && Inv(w) && Enabled(w, s)
    requires !s.Commit? && !s.Revoke? && !s.Close?
    requires s.Assign? && s.p == p ==> s.c == owner && !given
    ensures Ordered(Next(w, s), p, owner, given || (s.Assign? && s.p == p), queued)
  {
    if s.Assign? {
      AssignKeepsOrder(w, s.c, s.p, s.answered, s.sought, p, owner, given, queued);
    } else if s.Reset? || s.Poll? || s.Process? {
      FetchKeepsOrder(w, s, p, owner, given, queued);
    } else if s.Join? {
      JoinKeepsOrder(w, s.c, p, owner, given, queued);
    } else if s.StartRevoke? || s.Release? {
      LettingGoKeepsOrder(w, s, p, owner, given, queued);
    } else if s.Acknowledge? {
      AcknowledgeKeepsOrder(w, s.flight, p, owner, given, queued);
    } else {
      BystanderKeepsOrder(w, s, p, owner, given, queued);
    }
  }

  lemma StepKeepsOrder(w: World, s: Step, p: Partition, owner: ConsumerId, given: bool, queued: seq<nat>)
    requires Ordered(w, p, owner, given, queued) && Inv(w) && Enabled(w, s)
    requires s.Assign? && s.p == p ==> s.c == owner && !given
    ensures Ordered(Next(w, s), p, owner, given || (s.Assign? && s.p == p), queued + Queue(w, s, p))
  {
    if s.Commit? {
      CommitKeepsOrder(w, s.c, s.queued, p, owner, given, queued);
    } else if s.Revoke? {
      RevokeKeepsOrder(w, s.c, s.p, s.ok, p, owner, given, queued);
    } else if s.Close? {
      CloseKeepsOrder(w, s.c, s.ok, p, owner, given, queued);
    } else {
      assert queued + Queue(w, s, p) == queued;
      SilentKeepsOrder(w, s, p, owner, given, queued);
    }
  }

  /** The partition is assigned once at most, to the owner. */
  predicate AssignedOnce(run: seq<Step>, p: Partition, owner: ConsumerId) {
    |run| > 0 ==>
      var front, s := run[..|run| - 1], run[|run| - 1];
      AssignedOnce(front, p, owner) && (s.Assign? && s.p == p ==> s.c == owner && !Assigned(front, p))
  }

  predicate Assigned(run: seq<Step>, p: Partition) {
    exists i :: 0 <= i < |run| && run[i].Assign? && run[i].p == p
  }

  lemma AssignedNow(front: seq<Step>, s: Step, p: Partition)
    ensures Assigned(front + [s], p) <==> Assigned(front, p) || (s.Assign? && s.p == p)
  {
    var run := front + [s];
    assert run[|front|] == s && forall i :: 0 <= i < |front| ==> run[i] == front[i];
  }

  lemma OwnerStarts(p: Partition, owner: ConsumerId)
    ensures Ordered(EMPTY, p, owner, false, [])
  {}

  lemma {:induction false} OwnerQueuesInOrder(run: seq<Step>, p: Partition, owner: ConsumerId)
    requires Feasible(EMPTY, run) && AssignedOnce(run, p, owner)
    ensures Ordered(After(EMPTY, run), p, owner, Assigned(run, p), Queued(run, p))
    decreases |run|
  {
    if |run| == 0 {
      OwnerStarts(p, owner);
    } else {
      var front, s := run[..|run| - 1], run[|run| - 1];
      assert run == front + [s];
      OwnerQueuesInOrder(front, p, owner);
      RunKeepsInv(front);
      AssignedNow(front, s, p);
      StepKeepsOrder(After(EMPTY, front), s, p, owner, Assigned(front, p), Queued(front, p));
    }
  }

  /** The offsets of a, in order, are among those of b. */
  predicate Among(a: seq<nat>, b: seq<nat>)
    decreases |b|
  {
    |a| == 0
    || (|b| > 0 && (Among(a, b[..|b| - 1]) || (Top(a) == Top(b) && Among(a[..|a| - 1], b[..|b| - 1]))))
  }

  lemma {:induction false} AmongNondecreasing(a: seq<nat>, b: seq<nat>)
    requires Among(a, b) && Nondecreasing(b)
    ensures Nondecreasing(a) && (a != [] ==> b != [] && Top(a) <= Top(b))
    decreases |b|
  {
    if |a| > 0 {
      var front := b[..|b| - 1];
      assert b == front + [Top(b)];
      NondecreasingExtends(front, Top(b));
      if Among(a, front) {
        AmongNondecreasing(a, front);
      } else {
        AmongNondecreasing(a[..|a| - 1], front);
        NondecreasingExtends(a[..|a| - 1], Top(a));
        assert a == a[..|a| - 1] + [Top(a)];
      }
    }
  }

  /** With one owner, assigned once, whose writes land in the order queued, however late and with some
      dropped, the table never goes back. */
  lemma OneOwnerNeverGoesBack(run: seq<Step>, p: Partition, owner: ConsumerId)
    requires Feasible(EMPTY, run) && AssignedOnce(run, p, owner) && Among(Landed(run, p), Queued(run, p))
    ensures NeverGoesBack(EMPTY, run, p)
  {
    OwnerQueuesInOrder(run, p, owner);
    AmongNondecreasing(Landed(run, p), Queued(run, p));
    NeverGoesBackExactlyWhen(run, p);
  }

  // ----- with one owner alone, it may go back

  /** The run leads to the world, having assigned p to consumer 0 alone, once, with these offsets
      queued and landed. */
  ghost predicate Leads(run: seq<Step>, p: Partition, w: World, queued: seq<nat>, landed: seq<nat>) {
    && Feasible(EMPTY, run) && After(EMPTY, run) == w && AssignedOnce(run, p, 0)
    && Queued(run, p) == queued && Landed(run, p) == landed
  }

  lemma Take(run: seq<Step>, p: Partition, w: World, queued: seq<nat>, landed: seq<nat>, s: Step)
    requires Leads(run, p, w, queued, landed) && Enabled(w, s)
    requires s.Assign? && s.p == p ==> s.c == 0 && !Assigned(run, p)
    ensures Leads(run + [s], p, Next(w, s), queued + Queue(w, s, p), landed + Landing(s, p))
  {
    Extend(EMPTY, run, s);
    assert (run + [s])[..|run + [s]| - 1] == run;
  }

  function First(p: Partition): Record {
    Record(p, 0)
  }

  function Second(p: Partition): Record {
    Record(p, 1)
  }

  /** The world as far as consumer 0 has come. */
  function Alone(p: Partition, noted: Offsets, position: Option<nat>, batch: seq<Record>, ends: Offsets,
      records: set<Record>): World
  {
    EMPTY.(ends := ends, records := records, consumers := map[0 := Consumer(noted, map[p := position], batch, map[])])
  }

  function Placed(p: Partition): World {
    Alone(p, map[], Some(0), [], map[], {})
  }

  function Half(p: Partition): World {
    Alone(p, map[], Some(0), [], map[p := 1], {First(p)})
  }

  function Stocked(p: Partition): World {
    Alone(p, map[], Some(0), [], map[p := 2], {First(p), Second(p)})
  }

  function Opened(p: Partition): World {
    Alone(p, map[], Some(2), [First(p), Second(p)], map[p := 2], {First(p), Second(p)})
  }

  function AfterOne(p: Partition): World {
    Alone(p, map[p := 1], Some(2), [Second(p)], map[p := 2], {First(p), Second(p)}).(
      attempted := {First(p)}, writes := multiset{Record(p, 1)}, flights := multiset{Flight(0, map[p := 1], false)})
  }

  function AfterBoth(p: Partition): World {
    Alone(p, map[p := 2], Some(2), [], map[p := 2], {First(p), Second(p)}).(
      attempted := {First(p), Second(p)}, writes := multiset{Record(p, 1), Record(p, 2)},
      flights := multiset{Flight(0, map[p := 1], false), Flight(0, map[p := 2], false)})
  }

  lemma AssignedFresh(p: Partition)
    ensures var w := EMPTY.(consumers := map[0 := Consumer(map[], map[], [], map[])]);
      AssignEffect(w, 0, p, true, true) == Alone(p, map[], None, [], map[], {})
  {}

  lemma ResetFresh(p: Partition)
    ensures ResetEffect(Alone(p, map[], None, [], map[], {}), 0, p) == Placed(p)
  {
    var w := Alone(p, map[], None, [], map[], {});
    assert Jumped(w, p) == {};
    assert w.consumers[0].positions[p := Some(0)] == map[p := Some(0)];
    assert ResetEffect(w, 0, p).consumers == Placed(p).consumers;
  }

  lemma ProducedFirst(p: Partition)
    ensures Enabled(Placed(p), Produce(First(p))) && Next(Placed(p), Produce(First(p))) == Half(p)
  {
    assert {} + {First(p)} == {First(p)};
  }

  lemma ProducedSecond(p: Partition)
    ensures Enabled(Half(p), Produce(Second(p))) && Next(Half(p), Produce(Second(p))) == Stocked(p)
  {
    assert map[p := 1][p := 2] == map[p := 2];
  }

  lemma PolledBoth(p: Partition)
    ensures var batch, next := [First(p), Second(p)], map[p := 2];
      Polled(Stocked(p), Stocked(p).consumers[0], batch, next) && PollEffect(Stocked(p), 0, batch, next) == Opened(p)
  {
    var w, batch, next := Stocked(p), [First(p), Second(p)], map[p := 2];
    assert MayAdvance(w, w.consumers[0], p, 2);
    assert batch[0] == First(p) && batch[1] == Second(p);
    assert PollEffect(w, 0, batch, next).consumers[0].positions == map[p := Some(2)];
    assert PollEffect(w, 0, batch, next).consumers == Opened(p).consumers;
  }

  lemma WritesOne(p: Partition, offset: nat)
    ensures Writes(map[p := offset]) == multiset{Record(p, offset)}
  {
    var m := map[p := offset];
    assert p in m;
    assert {Record(p, offset)} == set q | q in m :: Record(q, m[q]);
  }

  lemma OneTurn(p: Partition)
    ensures CommitEffect(ProcessEffect(Opened(p), 0, true), 0, true) == AfterOne(p)
    ensures Noted(ProcessEffect(Opened(p), 0, true).consumers[0], p) == [1]
  {
    assert Opened(p).consumers[0].batch[1..] == [Second(p)];
    assert ProcessEffect(Opened(p), 0, true).consumers == AfterOne(p).consumers;
    WritesOne(p, 1);
  }

  lemma AnotherTurn(p: Partition)
    ensures CommitEffect(ProcessEffect(AfterOne(p), 0, true), 0, true) == AfterBoth(p)
    ensures Noted(ProcessEffect(AfterOne(p), 0, true).consumers[0], p) == [2]
  {
    assert AfterOne(p).consumers[0].batch[1..] == [];
    assert map[p := 1][p := 2] == map[p := 2];
    assert ProcessEffect(AfterOne(p), 0, true).consumers == AfterBoth(p).consumers;
    WritesOne(p, 2);
  }

  /** Consumer 0 joins, is given p, starts at its end, finds two records there, takes them in one poll
      and processes and commits them in turn. */
  predicate Serving(run: seq<Step>, p: Partition) {
    && |run| == 10
    && run[0] == Join(0) && run[1] == Assign(0, p, true, true) && run[2] == Reset(0, p)
    && run[3] == Produce(First(p)) && run[4] == Produce(Second(p))
    && run[5] == Poll(0, [First(p), Second(p)], map[p := 2])
    && run[6] == run[8] == Process(0, true) && run[7] == run[9] == Commit(0, true)
  }

  lemma TakeNext(all: seq<Step>, i: nat, s: Step, p: Partition, w: World, queued: seq<nat>, w': World, queued': seq<nat>)
    requires i < |all| && all[i] == s && Leads(all[..i], p, w, queued, []) && Enabled(w, s) && Next(w, s) == w'
    requires (s.Assign? && s.p == p ==> s.c == 0 && !Assigned(all[..i], p)) && !s.Write?
    requires queued' == queued + Queue(w, s, p)
    ensures Leads(all[..i + 1], p, w', queued', [])
  {
    Take(all[..i], p, w, queued, [], s);
    assert [] + Landing(s, p) == [];
    OneMoreTaken(all, i);
  }

  lemma OneMoreTaken(all: seq<Step>, i: nat)
    requires i < |all|
    ensures all[..i + 1] == all[..i] + [all[i]]
  {}

  lemma Arrives(run: seq<Step>, p: Partition)
    requires Serving(run, p)
    ensures Leads(run[..2], p, Alone(p, map[], None, [], map[], {}), [], [])
  {
    var w := EMPTY.(consumers := map[0 := Consumer(map[], map[], [], map[])]);
    TakeNext(run, 0, Join(0), p, EMPTY, [], w, []);
    AssignedFresh(p);
    TakeNext(run, 1, Assign(0, p, true, true), p, w, [], Alone(p, map[], None, [], map[], {}), []);
  }

  lemma Places(run: seq<Step>, p: Partition)
    requires Serving(run, p)
    ensures Leads(run[..3], p, Placed(p), [], [])
  {
    Arrives(run, p);
    ResetFresh(p);
    TakeNext(run, 2, Reset(0, p), p, Alone(p, map[], None, [], map[], {}), [], Placed(p), []);
  }

  lemma StocksFirst(run: seq<Step>, p: Partition)
    requires Serving(run, p)
    ensures Leads(run[..4], p, Half(p), [], [])
  {
    Places(run, p);
    ProducedFirst(p);
    TakeNext(run, 3, Produce(First(p)), p, Placed(p), [], Half(p), []);
  }

  lemma StocksSecond(run: seq<Step>, p: Partition)
    requires Serving(run, p)
    ensures Leads(run[..5], p, Stocked(p), [], [])
  {
    StocksFirst(run, p);
    ProducedSecond(p);
    TakeNext(run, 4, Produce(Second(p)), p, Half(p), [], Stocked(p), []);
  }

  lemma Polls(run: seq<Step>, p: Partition)
    requires Serving(run, p)
    ensures Leads(run[..6], p, Opened(p), [], [])
  {
    StocksSecond(run, p);
    PolledBoth(p);
    TakeNext(run, 5, Poll(0, [First(p), Second(p)], map[p := 2]), p, Stocked(p), [], Opened(p), []);
  }

  lemma TakesTurn(all: seq<Step>, i: nat, p: Partition, w: World, queued: seq<nat>, w': World, queued': seq<nat>)
    requires i + 2 <= |all| && all[i] == Process(0, true) && all[i + 1] == Commit(0, true)
    requires Leads(all[..i], p, w, queued, []) && 0 in w.consumers && w.consumers[0].batch != []
    requires CommitEffect(ProcessEffect(w, 0, true), 0, true) == w'
    requires queued' == queued + Noted(ProcessEffect(w, 0, true).consumers[0], p)
    ensures Leads(all[..i + 2], p, w', queued', [])
  {
    var w1 := ProcessEffect(w, 0, true);
    TakeNext(all, i, Process(0, true), p, w, queued, w1, queued);
    TakeNext(all, i + 1, Commit(0, true), p, w1, queued, w', queued');
  }

  lemma TurnsOnceMore(run: seq<Step>, p: Partition)
    requires Serving(run, p) && Leads(run[..6], p, Opened(p), [], [])
    ensures Leads(run[..8], p, AfterOne(p), [1], [])
  {
    OneTurn(p);
    assert [] + [1] == [1];
    TakesTurn(run, 6, p, Opened(p), [], AfterOne(p), [1]);
  }

  lemma TurnsOnce(run: seq<Step>, p: Partition)
    requires Serving(run, p)
    ensures Leads(run[..8], p, AfterOne(p), [1], [])
  {
    Polls(run, p);
    TurnsOnceMore(run, p);
  }

  lemma TurnsAgain(run: seq<Step>, p: Partition)
    requires Serving(run, p) && Leads(run[..8], p, AfterOne(p), [1], [])
    ensures Leads(run[..10], p, AfterBoth(p), [1, 2], [])
  {
    AnotherTurn(p);
    assert [1] + [2] == [1, 2];
    TakesTurn(run, 8, p, AfterOne(p), [1], AfterBoth(p), [1, 2]);
  }

  lemma TurnsTwice(run: seq<Step>, p: Partition)
    requires Serving(run, p)
    ensures Leads(run[..10], p, AfterBoth(p), [1, 2], [])
  {
    TurnsOnce(run, p);
    TurnsAgain(run, p);
  }

  /** And the write queued by the second commit overtakes that of the first. */
  function Overtaking(run: seq<Step>, p: Partition): seq<Step> {
    run + [Write(Record(p, 2), true)] + [Write(Record(p, 1), true)]
  }

  lemma SecondLands(run: seq<Step>, p: Partition)
    requires Leads(run, p, AfterBoth(p), [1, 2], [])
    ensures Leads(run + [Write(Record(p, 2), true)], p, WriteEffect(AfterBoth(p), Record(p, 2), true), [1, 2], [2])
  {
    Take(run, p, AfterBoth(p), [1, 2], [], Write(Record(p, 2), true));
    assert [1, 2] + [] == [1, 2] && [] + [2] == [2];
  }

  lemma FirstLands(run: seq<Step>, p: Partition, w: World)
    requires Leads(run, p, w, [1, 2], [2]) && Record(p, 1) in w.writes
    ensures Leads(run + [Write(Record(p, 1), true)], p, WriteEffect(w, Record(p, 1), true), [1, 2], [2, 1])
  {
    Take(run, p, w, [1, 2], [2], Write(Record(p, 1), true));
    assert [1, 2] + [] == [1, 2] && [2] + [1] == [2, 1];
  }

  lemma Overtakes(run: seq<Step>, p: Partition)
    requires Leads(run, p, AfterBoth(p), [1, 2], [])
    ensures Feasible(EMPTY, Overtaking(run, p)) && AssignedOnce(Overtaking(run, p), p, 0)
    ensures Queued(Overtaking(run, p), p) == [1, 2] && Landed(Overtaking(run, p), p) == [2, 1]
  {
    SecondLands(run, p);
    FirstLands(run + [Write(Record(p, 2), true)], p, WriteEffect(AfterBoth(p), Record(p, 2), true));
  }

  /** The table goes back although p was assigned once only. */
  ghost predicate OutOfOrder(run: seq<Step>, p: Partition) {
    && Feasible(EMPTY, run) && AssignedOnce(run, p, 0)
    && Queued(run, p) == [1, 2] && Landed(run, p) == [2, 1] && !NeverGoesBack(EMPTY, run, p)
  }

  lemma Swapped(run: seq<Step>, p: Partition)
    requires Serving(run, p)
    ensures OutOfOrder(Overtaking(run, p), p)
  {
    assert run[..10] == run;
    TurnsTwice(run, p);
    Overtakes(run, p);
    NeverGoesBackExactlyWhen(Overtaking(run, p), p);
    assert [2, 1][0] > [2, 1][1];
  }

  /** One owner, assigned once, is not enough: when its queued writes swap, the table goes back. */
  lemma OvertakingGoesBack(p: Partition)
    ensures exists run :: Serving(run, p) && OutOfOrder(Overtaking(run, p), p)
  {
    var run := [Join(0), Assign(0, p, true, true), Reset(0, p), Produce(First(p)), Produce(Second(p)),
      Poll(0, [First(p), Second(p)], map[p := 2]), Process(0, true), Commit(0, true), Process(0, true), Commit(0, true)];
    Swapped(run, p);
  }
}
