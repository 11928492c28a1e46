/** What a consumer's turn comes to when nothing interferes: a batch polled, processed, committed and
    acknowledged, and its offsets written to the table. */
module ConsumerTurns {
  import opened ConsumerHandlers
  import opened ConsumerOffsets
  import opened Options

  /** Poll, and process k of the records. */
  function Serving(c: ConsumerId, batch: seq<Record>, next: Offsets, k: nat): seq<Step> {
    if k == 0 then [Poll(c, batch, next)] else Serving(c, batch, next, k - 1) + [Process(c, true)]
  }

  function Members(records: seq<Record>): set<Record> {
    set r | r in records
  }

  /** The world when k records of the batch have been processed. */
  function Served(w: World, c: ConsumerId, batch: seq<Record>, next: Offsets, k: nat): World
    requires c in w.consumers && k <= |batch|
  {
    WithConsumer(w.(attempted := w.attempted + Members(batch[..k])), c,
                 PollEffect(w, c, batch, next).consumers[c].(batch := batch[k..], currentOffsets := Noted(batch[..k])))
  }

  lemma ServesNext(w: World, c: ConsumerId, batch: seq<Record>, next: Offsets, k: nat)
    requires c in w.consumers && k < |batch|
    ensures Enabled(Served(w, c, batch, next, k), Process(c, true))
    ensures Next(Served(w, c, batch, next, k), Process(c, true)) == Served(w, c, batch, next, k + 1)
  {
    OneMoreNoted(batch, k);
    assert batch[k..][1..] == batch[k + 1..];
    assert Members(batch[..k + 1]) == Members(batch[..k]) + {batch[k]};
    assert w.attempted + Members(batch[..k]) + {batch[k]} == w.attempted + Members(batch[..k + 1]);
    var a, b := ProcessEffect(Served(w, c, batch, next, k), c, true), Served(w, c, batch, next, k + 1);
    assert a.consumers == b.consumers;
  }

  lemma PolledIsServed(w: World, c: ConsumerId, batch: seq<Record>, next: Offsets)
    requires c in w.consumers && batch != []
    ensures PollEffect(w, c, batch, next) == Served(w, c, batch, next, 0)
  {
    assert Members(batch[..0]) == {} && batch[0..] == batch;
    assert w.attempted + {} == w.attempted;
  }

  ghost predicate Reaches(w: World, run: seq<Step>, end: World) {
    Feasible(w, run) && After(w, run) == end
  }

  lemma Then(w: World, run: seq<Step>, mid: World, s: Step, end: World)
    requires Reaches(w, run, mid) && Enabled(mid, s) && Next(mid, s) == end
    ensures Reaches(w, run + [s], end)
  {
    Extend(w, run, s);
  }

  lemma StartsAt(w: World)
    ensures Reaches(w, [], w)
  {}

  lemma TakesPoll(w: World, c: ConsumerId, batch: seq<Record>, next: Offsets)
    requires Between(w, c) && Polled(w, w.consumers[c], batch, next) && batch != []
    ensures Reaches(w, [Poll(c, batch, next)], Served(w, c, batch, next, 0))
  {
    PolledIsServed(w, c, batch, next);
    StartsAt(w);
    Then(w, [], w, Poll(c, batch, next), Served(w, c, batch, next, 0));
    assert [] + [Poll(c, batch, next)] == [Poll(c, batch, next)];
  }

  lemma ServesOneMore(w: World, c: ConsumerId, batch: seq<Record>, next: Offsets, k: nat, run: seq<Step>)
    requires c in w.consumers && k < |batch| && Reaches(w, run, Served(w, c, batch, next, k))
    ensures Reaches(w, run + [Process(c, true)], Served(w, c, batch, next, k + 1))
  {
    ServesNext(w, c, batch, next, k);
    Then(w, run, Served(w, c, batch, next, k), Process(c, true), Served(w, c, batch, next, k + 1));
  }

  lemma {:induction false} Serves(w: World, c: ConsumerId, batch: seq<Record>, next: Offsets, k: nat)
    requires Between(w, c) && Polled(w, w.consumers[c], batch, next) && batch != [] && k <= |batch|
    ensures Reaches(w, Serving(c, batch, next, k), Served(w, c, batch, next, k))
  {
    if k == 0 {
      TakesPoll(w, c, batch, next);
    } else {
      Serves(w, c, batch, next, k - 1);
      ServesOneMore(w, c, batch, next, k - 1, Serving(c, batch, next, k - 1));
    }
  }

  /** What a commit adds to the world in which the whole batch is processed. */
  ghost predicate CommittedBatch(w: World, c: ConsumerId, batch: seq<Record>, next: Offsets, end: World) {
    && end.attempted == w.attempted + Members(batch)
    && end.flights == w.flights + multiset{Flight(c, Noted(batch), false)}
    && end.writes == w.writes + Writes(Noted(batch))
    && c in end.consumers && end.consumers[c].currentOffsets == Noted(batch) && end.consumers[c].batch == []
    && end.committed == w.committed && end.db == w.db
    && forall p :: p in next ==> p in end.consumers[c].positions && end.consumers[c].positions[p] == Some(next[p])
  }

  lemma WholeBatch(w: World, c: ConsumerId, batch: seq<Record>, next: Offsets)
    requires Between(w, c) && Polled(w, w.consumers[c], batch, next)
    ensures Enabled(Served(w, c, batch, next, |batch|), Commit(c, true))
    ensures CommittedBatch(w, c, batch, next, Next(Served(w, c, batch, next, |batch|), Commit(c, true)))
  {
    assert batch[..|batch|] == batch && batch[|batch|..] == [];
    forall p | p in next ensures p in w.consumers[c].positions {
      assert MayAdvance(w, w.consumers[c], p, next[p]);
    }
  }

  /** A batch that is polled, processed and committed: every record of it has been attempted, an
      asynchronous commit with one past the last of each partition is on its way to Kafka, a write
      for each is queued, and the consumer fetches on behind what it polled. */
  lemma BatchIsCommitted(w: World, c: ConsumerId, batch: seq<Record>, next: Offsets)
    requires Between(w, c) && Polled(w, w.consumers[c], batch, next) && batch != []
    ensures exists run :: Feasible(w, run) && CommittedBatch(w, c, batch, next, After(w, run))
  {
    var n := |batch|;
    Serves(w, c, batch, next, n);
    WholeBatch(w, c, batch, next);
    var end := Next(Served(w, c, batch, next, n), Commit(c, true));
    Then(w, Serving(c, batch, next, n), Served(w, c, batch, next, n), Commit(c, true), end);
  }

  /** What one past the last record of a partition means for the two stores: the write for it is queued,
      and when commit and write get through, both hold it. */
  lemma CommitReachesBoth(w: World, c: ConsumerId, batch: seq<Record>, i: nat)
    requires i < |batch| && forall j :: i < j < |batch| ==> batch[j].partition != batch[i].partition
    requires Flight(c, Noted(batch), false) in w.flights && Writes(Noted(batch)) <= w.writes
    ensures var p, offset := batch[i].partition, batch[i].offset + 1;
      var apply, write := Apply(Flight(c, Noted(batch), false)), Write(Record(p, offset), true);
      && Enabled(w, apply) && p in Next(w, apply).committed && Next(w, apply).committed[p] == offset
      && Enabled(w, write) && p in Next(w, write).db && Next(w, write).db[p] == offset
  {
    NotedIsLatest(batch, i);
    var p := batch[i].partition;
    assert p in Noted(batch);
    assert Record(p, batch[i].offset + 1) in Writes(Noted(batch));
  }

  /** An acknowledged commit leaves its consumer nothing to commit, unless it has gone on. */
  lemma AcknowledgedIsForgotten(w: World, flight: Flight)
    requires flight in w.flights && flight.applied && flight.consumer in w.consumers
    requires w.consumers[flight.consumer].currentOffsets == flight.offsets
    ensures Next(w, Acknowledge(flight)).consumers[flight.consumer].currentOffsets == map[]
  {}

  // ----- a partition taken away, and the end of a consumer

  /** A revoked partition is handed over: if the commit succeeds Kafka has its offset, a write for it is
      queued and the consumer has forgotten it; if not, the consumer still has it, to go along with the
      next. */
  lemma RevokedIsHandedOver(w: World, c: ConsumerId, p: Partition, ok: bool)
    requires Between(w, c) && p in w.consumers[c].currentOffsets
    ensures var offset := w.consumers[c].currentOffsets[p];
      var w' := Next(w, Revoke(c, p, ok));
      var consumer := w'.consumers[c];
      if ok then
        && p in w'.committed && w'.committed[p] == offset && p !in consumer.currentOffsets
        && w'.writes == w.writes + multiset{Record(p, offset)} && p !in consumer.retained
      else
        && w'.committed == w.committed && w'.writes == w.writes
        && consumer.currentOffsets == w.consumers[c].currentOffsets
        && p in consumer.retained && consumer.retained[p] == offset
  {}

  /** A released partition is fetched no more. */
  lemma ReleasedIsNotFetched(w: World, c: ConsumerId, p: Partition, batch: seq<Record>, next: Offsets, i: nat)
    requires Between(w, c) && i < |batch|
    requires var w' := Next(w, Release(c, p)); Polled(w', w'.consumers[c], batch, next)
    ensures batch[i].partition != p
  {
    var w' := Next(w, Release(c, p));
    assert InReach(w'.consumers[c], next, batch[i]);
  }

  /** A consumer that closes leaves its offsets: to Kafka if its last commit succeeds, and in any case to
      the table's queue. */
  lemma ClosedIsHandedOver(w: World, c: ConsumerId, ok: bool, p: Partition)
    requires c in w.consumers && p in w.consumers[c].currentOffsets
    ensures var offset := w.consumers[c].currentOffsets[p];
      var w' := Next(w, Close(c, ok));
      && c !in w'.consumers && Record(p, offset) in w'.writes
      && Find(w'.committed, p) == if ok then Some(offset) else Find(w.committed, p)
  {
    assert Record(p, w.consumers[c].currentOffsets[p]) in Writes(w.consumers[c].currentOffsets);
  }
}
