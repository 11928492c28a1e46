/** Offsets of a consumer group, moving between the consumers' memory, Kafka and the database. Any
    number of consumers, some of them ousted without knowing; commits and database writes land late. */
module ConsumerOffsets {
  import opened Options

  type Partition = string
  type ConsumerId = nat
  datatype Record = Record(partition: Partition, offset: nat)
  type Offsets = map<Partition, nat>

  /** A consumer: the offsets it has yet to commit, where it fetches next in each of its partitions
      (None: by the reset policy), the records polled but not yet processed, and those whose commit
      failed earlier in the running revocation. */
  datatype Consumer = Consumer(
    currentOffsets: Offsets, positions: map<Partition, Option<nat>>, batch: seq<Record>, retained: Offsets)

  /** An asynchronous commit: under way, or applied by Kafka with its callback still to come. */
  datatype Flight = Flight(consumer: ConsumerId, offsets: Offsets, applied: bool)

  /** The partitions' logs, Kafka's commits, the offset table, its queued writes, the commits under
      way, the consumers; and the history: which records were attempted and which were jumped over
      by a reset before anyone attempted them. */
  datatype World = World(
    starts: Offsets, ends: Offsets, records: set<Record>,
    committed: Offsets, db: Offsets, writes: multiset<Record>, flights: multiset<Flight>,
    consumers: map<ConsumerId, Consumer>,
    attempted: set<Record>, lost: set<Record>)

  datatype Step =
    | Produce(r: Record)
    | Expire(p: Partition, upto: nat)
    | Join(c: ConsumerId)
    | Assign(c: ConsumerId, p: Partition, answered: bool, sought: bool)
    | Reset(c: ConsumerId, p: Partition)
    | Poll(c: ConsumerId, batch: seq<Record>, next: Offsets)
    | Process(c: ConsumerId, noted: bool)
    | Commit(c: ConsumerId, queued: bool)
    | Apply(flight: Flight)
    | Acknowledge(flight: Flight)
    | Fail(flight: Flight)
    | StartRevoke(c: ConsumerId)
    | Revoke(c: ConsumerId, p: Partition, ok: bool)
    | Release(c: ConsumerId, p: Partition)
    | Write(write: Record, landed: bool)
    | Close(c: ConsumerId, ok: bool)
    | Crash(c: ConsumerId)

  // ----- what the consumer's code does with its maps

  function Find(m: Offsets, p: Partition): Option<nat> {
    if p in m then Some(m[p]) else None
  }

  /** The callback of a successful asynchronous commit: an entry goes if it is still the one committed. */
  function DropAcked(current: Offsets, acked: Offsets): Offsets {
    map p | p in current && !(p in acked && acked[p] == current[p]) :: current[p]
  }

  /** currentOffsets.put after a record. */
  function Put(current: Offsets, r: Record): Offsets {
    current[r.partition := r.offset + 1]
  }

  /** Where an assigned partition resumes: at the table's offset if the query answers and finds one,
      else at Kafka's; if the seek fails, where the client itself would. None leaves it to the reset
      policy. */
  function AssignedPosition(db: Offsets, committed: Offsets, p: Partition, answered: bool, sought: bool): Option<nat> {
    if sought && answered && p in db then Some(db[p]) else Find(committed, p)
  }

  /** commitOffset for a revoked partition, with the commit's outcome: the entries retained from
      earlier failures go along with its own. */
  datatype Revocation = Revocation(current: Offsets, retained: Offsets, committed: Offsets, writes: seq<Record>)

  function RevokeOne(r: Revocation, p: Partition, ok: bool): Revocation {
    if p !in r.current then r
    else
      var batch := r.retained[p := r.current[p]];
      if ok then Revocation(r.current - {p}, batch - {p}, r.committed + batch, r.writes + [Record(p, r.current[p])])
      else r.(retained := batch)
  }

  /** saveOffest2Db: one queued write per entry. */
  function Writes(offsets: Offsets): multiset<Record> {
    multiset(set p | p in offsets :: Record(p, offsets[p]))
  }

  // ----- the world

  function Start(w: World, p: Partition): nat {
    if p in w.starts then w.starts[p] else 0
  }

  function End(w: World, p: Partition): nat {
    if p in w.ends then w.ends[p] else 0
  }

  function Done(w: World): set<Record> {
    w.attempted + w.lost
  }

  function WithConsumer(w: World, c: ConsumerId, consumer: Consumer): World {
    w.(consumers := w.consumers[c := consumer])
  }

  /** The record lies between the consumer's position in its partition and the next position. */
  predicate InReach(consumer: Consumer, next: Offsets, r: Record) {
    && r.partition in next && r.partition in consumer.positions && consumer.positions[r.partition].Some?
    && consumer.positions[r.partition].value <= r.offset < next[r.partition]
  }

  predicate MayAdvance(w: World, consumer: Consumer, p: Partition, next: nat) {
    && p in consumer.positions && consumer.positions[p].Some?
    && Start(w, p) <= consumer.positions[p].value <= next <= End(w, p)
  }

  /** What a poll may return: for some partitions in range, all the records from the position up to
      the next position, in order within each partition. */
  ghost predicate Polled(w: World, consumer: Consumer, batch: seq<Record>, next: Offsets) {
    && (forall p :: p in next ==> MayAdvance(w, consumer, p, next[p]))
    && (forall i :: 0 <= i < |batch| ==> batch[i] in w.records && InReach(consumer, next, batch[i]))
    && (forall i, j :: 0 <= i < j < |batch| && batch[i].partition == batch[j].partition ==>
          batch[i].offset < batch[j].offset)
    && (forall r :: r in w.records && InReach(consumer, next, r) ==> r in batch)
  }

  /** The reset policy takes over when there is no position, or one that retention has overtaken. */
  predicate NeedsReset(w: World, c: ConsumerId, p: Partition) {
    && c in w.consumers && p in w.consumers[c].positions
    && (w.consumers[c].positions[p].None? || w.consumers[c].positions[p].value < Start(w, p))
  }

  predicate Between(w: World, c: ConsumerId) {
    c in w.consumers && w.consumers[c].batch == []
  }

  ghost predicate Enabled(w: World, s: Step) {
    match s
    case Produce(r) => r.offset >= End(w, r.partition)
    case Expire(p, upto) => Start(w, p) <= upto <= End(w, p)
    case Join(c) => c !in w.consumers
    case Assign(c, _, _, _) => Between(w, c)
    case Reset(c, p) => Between(w, c) && NeedsReset(w, c, p)
    case Poll(c, batch, next) => Between(w, c) && Polled(w, w.consumers[c], batch, next)
    case Process(c, _) => c in w.consumers && w.consumers[c].batch != []
    case Commit(c, _) => c in w.consumers
    case Apply(flight) => flight in w.flights && !flight.applied
    case Acknowledge(flight) => flight in w.flights && flight.applied
    case Fail(flight) => flight in w.flights
    case StartRevoke(c) => Between(w, c)
    case Revoke(c, _, _) => Between(w, c)
    case Release(c, _) => Between(w, c)
    case Write(write, _) => write in w.writes
    case Close(c, _) => c in w.consumers
    case Crash(c) => c in w.consumers
  }

  /** The records that a reset jumps over unattempted. */
  function Jumped(w: World, p: Partition): set<Record> {
    set r | r in w.records && r.partition == p && r !in Done(w)
  }

  function AssignEffect(w: World, c: ConsumerId, p: Partition, answered: bool, sought: bool): World
    requires c in w.consumers
  {
    var at := AssignedPosition(w.db, w.committed, p, answered, sought);
    WithConsumer(w, c, w.consumers[c].(positions := w.consumers[c].positions[p := at]))
  }

  function ResetEffect(w: World, c: ConsumerId, p: Partition): World
    requires c in w.consumers
  {
    WithConsumer(w.(lost := w.lost + Jumped(w, p)), c,
                 w.consumers[c].(positions := w.consumers[c].positions[p := Some(End(w, p))]))
  }

  function PollEffect(w: World, c: ConsumerId, batch: seq<Record>, next: Offsets): World
    requires c in w.consumers
  {
    var consumer := w.consumers[c];
    var moved := map p | p in consumer.positions ::
      if p in next then Some(next[p]) else consumer.positions[p];
    WithConsumer(w, c, consumer.(positions := moved, batch := batch,
                                 currentOffsets := if batch == [] then consumer.currentOffsets else map[]))
  }

  function ProcessEffect(w: World, c: ConsumerId, noted: bool): World
    requires c in w.consumers && w.consumers[c].batch != []
  {
    var consumer := w.consumers[c];
    var r := consumer.batch[0];
    WithConsumer(w.(attempted := w.attempted + {r}), c,
                 consumer.(batch := consumer.batch[1..],
                           currentOffsets := if noted then Put(consumer.currentOffsets, r) else consumer.currentOffsets))
  }

  function CommitEffect(w: World, c: ConsumerId, queued: bool): World
    requires c in w.consumers
  {
    var offsets := w.consumers[c].currentOffsets;
    w.(writes := if queued then w.writes + Writes(offsets) else w.writes,
       flights := w.flights + multiset{Flight(c, offsets, false)})
  }

  function ApplyEffect(w: World, flight: Flight): World {
    w.(committed := w.committed + flight.offsets,
       flights := w.flights - multiset{flight} + multiset{flight.(applied := true)})
  }

  function DropEffect(w: World, flight: Flight): World {
    if flight.consumer !in w.consumers then w
    else
      var consumer := w.consumers[flight.consumer];
      WithConsumer(w, flight.consumer, consumer.(currentOffsets := DropAcked(consumer.currentOffsets, flight.offsets)))
  }

  function AcknowledgeEffect(w: World, flight: Flight): World {
    DropEffect(w.(flights := w.flights - multiset{flight}), flight)
  }

  function RevokeEffect(w: World, c: ConsumerId, p: Partition, ok: bool): World
    requires c in w.consumers
  {
    var consumer := w.consumers[c];
    var r := RevokeOne(Revocation(consumer.currentOffsets, consumer.retained, w.committed, []), p, ok);
    WithConsumer(w.(committed := r.committed, writes := w.writes + multiset(r.writes)), c,
                 consumer.(currentOffsets := r.current, retained := r.retained))
  }

  function ReleaseEffect(w: World, c: ConsumerId, p: Partition): World
    requires c in w.consumers
  {
    WithConsumer(w, c, w.consumers[c].(positions := w.consumers[c].positions - {p}))
  }

  function WriteEffect(w: World, write: Record, landed: bool): World {
    w.(writes := w.writes - multiset{write},
       db := if landed then w.db[write.partition := write.offset] else w.db)
  }

  function CloseEffect(w: World, c: ConsumerId, ok: bool): World
    requires c in w.consumers
  {
    var offsets := w.consumers[c].currentOffsets;
    w.(committed := if ok then w.committed + offsets else w.committed,
       writes := w.writes + Writes(offsets),
       consumers := w.consumers - {c})
  }

  function Next(w: World, s: Step): World
    requires Enabled(w, s)
  {
    match s
    case Produce(r) => w.(records := w.records + {r}, ends := w.ends[r.partition := r.offset + 1])
    case Expire(p, upto) =>
      w.(starts := w.starts[p := upto], records := set r | r in w.records && !(r.partition == p && r.offset < upto))
    case Join(c) => WithConsumer(w, c, Consumer(map[], map[], [], map[]))
    case Assign(c, p, answered, sought) => AssignEffect(w, c, p, answered, sought)
    case Reset(c, p) => ResetEffect(w, c, p)
    case Poll(c, batch, next) => PollEffect(w, c, batch, next)
    case Process(c, noted) => ProcessEffect(w, c, noted)
    case Commit(c, queued) => CommitEffect(w, c, queued)
    case Apply(flight) => ApplyEffect(w, flight)
    case Acknowledge(flight) => AcknowledgeEffect(w, flight)
    case Fail(flight) => w.(flights := w.flights - multiset{flight})
    case StartRevoke(c) => WithConsumer(w, c, w.consumers[c].(retained := map[]))
    case Revoke(c, p, ok) => RevokeEffect(w, c, p, ok)
    case Release(c, p) => ReleaseEffect(w, c, p)
    case Write(write, landed) => WriteEffect(w, write, landed)
    case Close(c, ok) => CloseEffect(w, c, ok)
    case Crash(c) => w.(consumers := w.consumers - {c})
  }

  const EMPTY := World(map[], map[], {}, map[], map[], multiset{}, multiset{}, map[], {}, {})

  /** A run: each step enabled when it is taken. */
  ghost predicate Feasible(w: World, run: seq<Step>)
    decreases |run|, 0
  {
    |run| > 0 ==> Feasible(w, run[..|run| - 1]) && Enabled(After(w, run[..|run| - 1]), run[|run| - 1])
  }

  ghost function After(w: World, run: seq<Step>): World
    requires Feasible(w, run)
    decreases |run|, 1
  {
    if |run| == 0 then w else Next(After(w, run[..|run| - 1]), run[|run| - 1])
  }

  // ----- the invariant

  /** Everything before the offset has been attempted, or was lost to a reset. */
  ghost predicate Covered(w: World, p: Partition, offset: nat) {
    && offset <= End(w, p)
    && forall r :: r in w.records && r.partition == p && r.offset < offset ==> r in Done(w)
  }

  ghost predicate AllCovered(w: World, offsets: Offsets) {
    forall p :: p in offsets ==> Covered(w, p, offsets[p])
  }

  /** Everything before a polled record is done or comes earlier in the batch. */
  ghost predicate Backed(w: World, batch: seq<Record>, i: nat)
    requires i < |batch|
  {
    && batch[i].offset < End(w, batch[i].partition)
    && forall r :: r in w.records && r.partition == batch[i].partition && r.offset < batch[i].offset ==>
         r in Done(w) || r in batch[..i]
  }

  /** Everything before the position is done or in the batch. */
  ghost predicate Ahead(w: World, p: Partition, position: nat, batch: seq<Record>) {
    && position <= End(w, p)
    && forall r :: r in w.records && r.partition == p && r.offset < position ==> r in Done(w) || r in batch
  }

  ghost predicate Settled(w: World, consumer: Consumer) {
    && AllCovered(w, consumer.currentOffsets)
    && AllCovered(w, consumer.retained)
    && (forall i :: 0 <= i < |consumer.batch| ==> Backed(w, consumer.batch, i))
    && forall p :: p in consumer.positions && consumer.positions[p].Some? ==>
         Ahead(w, p, consumer.positions[p].value, consumer.batch)
  }

  ghost predicate StoresCovered(w: World) {
    && AllCovered(w, w.committed)
    && AllCovered(w, w.db)
    && (forall x :: x in w.writes ==> Covered(w, x.partition, x.offset))
    && forall f :: f in w.flights ==> AllCovered(w, f.offsets)
  }

  ghost predicate Inv(w: World) {
    && (forall r :: r in w.records ==> r.offset < End(w, r.partition))
    && StoresCovered(w)
    && forall c :: c in w.consumers ==> Settled(w, w.consumers[c])
  }

  // ----- what only grows keeps what is covered

  /** Nothing done is undone, and new records come at the end. */
  ghost predicate Grows(w: World, w': World) {
    && Done(w) <= Done(w')
    && (forall p :: End(w, p) <= End(w', p))
    && (forall r :: r in w'.records ==> r in w.records || r.offset >= End(w, r.partition))
  }

  lemma OffsetsStayCovered(w: World, w': World, offsets: Offsets)
    requires Grows(w, w') && AllCovered(w, offsets)
    ensures AllCovered(w', offsets)
  {
    forall p | p in offsets ensures Covered(w', p, offsets[p]) {
      assert Covered(w, p, offsets[p]);
    }
  }

  lemma ConsumerStaysSettled(w: World, w': World, consumer: Consumer)
    requires Grows(w, w') && Settled(w, consumer)
    ensures Settled(w', consumer)
  {
    OffsetsStayCovered(w, w', consumer.currentOffsets);
    OffsetsStayCovered(w, w', consumer.retained);
    forall i | 0 <= i < |consumer.batch| ensures Backed(w', consumer.batch, i) {
      assert Backed(w, consumer.batch, i);
    }
    forall p | p in consumer.positions && consumer.positions[p].Some?
      ensures Ahead(w', p, consumer.positions[p].value, consumer.batch)
    {
      assert Ahead(w, p, consumer.positions[p].value, consumer.batch);
    }
  }

  lemma QueuesStayCovered(w: World, w': World)
    requires Grows(w, w') && StoresCovered(w) && w'.writes <= w.writes && w'.flights <= w.flights
    ensures forall x :: x in w'.writes ==> Covered(w', x.partition, x.offset)
    ensures forall f :: f in w'.flights ==> AllCovered(w', f.offsets)
  {
    forall x | x in w'.writes ensures Covered(w', x.partition, x.offset) {
      assert x in w.writes;
      assert Covered(w, x.partition, x.offset);
    }
    forall f | f in w'.flights ensures AllCovered(w', f.offsets) {
      assert f in w.flights;
      OffsetsStayCovered(w, w', f.offsets);
    }
  }

  lemma StoresStayCovered(w: World, w': World)
    requires Grows(w, w') && StoresCovered(w)
    requires w'.committed == w.committed && w'.db == w.db && w'.writes <= w.writes && w'.flights <= w.flights
    ensures StoresCovered(w')
  {
    OffsetsStayCovered(w, w', w.committed);
    OffsetsStayCovered(w, w', w.db);
    QueuesStayCovered(w, w');
  }

  lemma OthersStaySettled(w: World, w': World, but: set<ConsumerId>)
    requires Grows(w, w') && forall c :: c in w.consumers ==> Settled(w, w.consumers[c])
    requires forall c :: c in w'.consumers && c !in but ==> c in w.consumers && w'.consumers[c] == w.consumers[c]
    ensures forall c :: c in w'.consumers && c !in but ==> Settled(w', w'.consumers[c])
  {
    forall c | c in w'.consumers && c !in but ensures Settled(w', w'.consumers[c]) {
      ConsumerStaysSettled(w, w', w.consumers[c]);
    }
  }

  lemma WritesCovered(w: World, offsets: Offsets)
    requires AllCovered(w, offsets)
    ensures forall x :: x in Writes(offsets) ==> Covered(w, x.partition, x.offset)
  {}

  lemma MergedCovered(w: World, a: Offsets, b: Offsets)
    requires AllCovered(w, a) && AllCovered(w, b)
    ensures AllCovered(w, a + b)
  {
    forall p | p in a + b ensures Covered(w, p, (a + b)[p]) {
      if p in b {
        assert Covered(w, p, b[p]);
      } else {
        assert Covered(w, p, a[p]);
      }
    }
  }

  // ----- every step keeps the invariant

  lemma LogStepKeepsInv(w: World, s: Step)
    requires Inv(w) && Enabled(w, s) && (s.Produce? || s.Expire?)
    ensures Inv(Next(w, s))
  {
    var w' := Next(w, s);
    assert Grows(w, w');
    StoresStayCovered(w, w');
    OthersStaySettled(w, w', {});
  }

  lemma AssignKeepsInv(w: World, c: ConsumerId, p: Partition, answered: bool, sought: bool)
    requires Inv(w) && Between(w, c)
    ensures Inv(AssignEffect(w, c, p, answered, sought))
  {
    var w' := AssignEffect(w, c, p, answered, sought);
    assert Grows(w, w');
    StoresStayCovered(w, w');
    OthersStaySettled(w, w', {c});
    ConsumerStaysSettled(w, w', w.consumers[c]);
  }

  lemma ResetKeepsInv(w: World, c: ConsumerId, p: Partition)
    requires Inv(w) && Between(w, c)
    ensures Inv(ResetEffect(w, c, p))
  {
    var w' := ResetEffect(w, c, p);
    assert Grows(w, w');
    StoresStayCovered(w, w');
    OthersStaySettled(w, w', {c});
    ConsumerStaysSettled(w, w', w.consumers[c]);
    assert Ahead(w', p, End(w, p), []);
  }

  lemma PollKeepsInv(w: World, c: ConsumerId, batch: seq<Record>, next: Offsets)
    requires Inv(w) && Between(w, c) && Polled(w, w.consumers[c], batch, next)
    ensures Inv(PollEffect(w, c, batch, next))
  {
    var w' := PollEffect(w, c, batch, next);
    var consumer, consumer' := w.consumers[c], w'.consumers[c];
    assert Grows(w, w');
    StoresStayCovered(w, w');
    OthersStaySettled(w, w', {c});
    ConsumerStaysSettled(w, w', consumer);
    forall i | 0 <= i < |batch| ensures Backed(w', batch, i) {
      PolledIsBacked(w, consumer, batch, next, i);
    }
    forall p | p in consumer'.positions && consumer'.positions[p].Some?
      ensures Ahead(w', p, consumer'.positions[p].value, batch)
    {
      assert Ahead(w, p, consumer.positions[p].value, []);
    }
  }

  lemma PolledIsBacked(w: World, consumer: Consumer, batch: seq<Record>, next: Offsets, i: nat)
    requires Settled(w, consumer) && consumer.batch == [] && Polled(w, consumer, batch, next) && i < |batch|
    ensures Backed(w, batch, i)
  {
    var p := batch[i].partition;
    forall r | r in w.records && r.partition == p && r.offset < batch[i].offset
      ensures r in Done(w) || r in batch[..i]
    {
      if r.offset < consumer.positions[p].value {
        assert Ahead(w, p, consumer.positions[p].value, []);
      } else {
        var j :| 0 <= j < |batch| && batch[j] == r;
        assert j < i;
        assert batch[..i][j] == r;
      }
    }
  }

  /** A consumer that has attempted the first record of its batch, and may have noted it. */
  lemma ProcessedIsSettled(w: World, consumer: Consumer, consumer': Consumer)
    requires Settled(w, consumer) && consumer.batch != [] && consumer.batch[0] in Done(w)
    requires consumer'.batch == consumer.batch[1..] && consumer'.retained == consumer.retained
    requires consumer'.positions == consumer.positions
    requires consumer'.currentOffsets == consumer.currentOffsets
      || consumer'.currentOffsets == Put(consumer.currentOffsets, consumer.batch[0])
    ensures Settled(w, consumer')
  {
    var r := consumer.batch[0];
    assert consumer.batch == [r] + consumer'.batch;
    assert Backed(w, consumer.batch, 0);
    assert Covered(w, r.partition, r.offset + 1);
    forall i | 0 <= i < |consumer'.batch| ensures Backed(w, consumer'.batch, i) {
      assert Backed(w, consumer.batch, i + 1);
      assert consumer.batch[..i + 1] == [r] + consumer'.batch[..i];
    }
    forall p | p in consumer'.positions && consumer'.positions[p].Some?
      ensures Ahead(w, p, consumer'.positions[p].value, consumer'.batch)
    {
      assert Ahead(w, p, consumer.positions[p].value, consumer.batch);
    }
  }

  lemma ProcessKeepsInv(w: World, c: ConsumerId, noted: bool)
    requires Inv(w) && c in w.consumers && w.consumers[c].batch != []
    ensures Inv(ProcessEffect(w, c, noted))
  {
    var w' := ProcessEffect(w, c, noted);
    assert Grows(w, w');
    StoresStayCovered(w, w');
    OthersStaySettled(w, w', {c});
    ConsumerStaysSettled(w, w', w.consumers[c]);
    ProcessedIsSettled(w', w.consumers[c], w'.consumers[c]);
  }

  lemma CommitKeepsInv(w: World, c: ConsumerId, queued: bool)
    requires Inv(w) && c in w.consumers
    ensures Inv(CommitEffect(w, c, queued))
  {
    var w' := CommitEffect(w, c, queued);
    assert Grows(w, w');
    OthersStaySettled(w, w', {});
    WritesCovered(w, w.consumers[c].currentOffsets);
    forall x | x in w'.writes ensures Covered(w', x.partition, x.offset) {
      assert Covered(w, x.partition, x.offset);
    }
    forall f | f in w'.flights ensures AllCovered(w', f.offsets) {
      OffsetsStayCovered(w, w', f.offsets);
    }
    OffsetsStayCovered(w, w', w.committed);
    OffsetsStayCovered(w, w', w.db);
  }

  lemma FlightsStayCovered(w: World, w': World)
    requires Grows(w, w') && StoresCovered(w)
    requires forall f :: f in w'.flights ==> exists g :: g in w.flights && g.offsets == f.offsets
    ensures forall f :: f in w'.flights ==> AllCovered(w', f.offsets)
  {
    forall f | f in w'.flights ensures AllCovered(w', f.offsets) {
      OffsetsStayCovered(w, w', f.offsets);
    }
  }

  lemma ApplyKeepsInv(w: World, flight: Flight)
    requires Inv(w) && flight in w.flights
    ensures Inv(ApplyEffect(w, flight))
  {
    var w' := ApplyEffect(w, flight);
    assert Grows(w, w');
    FlightsStayCovered(w, w');
    MergedCovered(w, w.committed, flight.offsets);
    OffsetsStayCovered(w, w', w'.committed);
    OffsetsStayCovered(w, w', w.db);
    forall x | x in w'.writes ensures Covered(w', x.partition, x.offset) {
      assert Covered(w, x.partition, x.offset);
    }
    OthersStaySettled(w, w', {});
  }

  lemma DropKeepsInv(w: World, flight: Flight)
    requires Inv(w)
    ensures Inv(DropEffect(w, flight))
  {
    var w' := DropEffect(w, flight);
    assert Grows(w, w');
    StoresStayCovered(w, w');
    OthersStaySettled(w, w', {flight.consumer});
    if flight.consumer in w.consumers {
      ConsumerStaysSettled(w, w', w.consumers[flight.consumer]);
    }
  }

  lemma FailKeepsInv(w: World, flight: Flight)
    requires Inv(w) && flight in w.flights
    ensures Inv(w.(flights := w.flights - multiset{flight}))
  {
    var w' := w.(flights := w.flights - multiset{flight});
    StoresStayCovered(w, w');
    OthersStaySettled(w, w', {});
  }

  lemma RevokedIsSettled(w: World, w': World, consumer: Consumer, p: Partition, ok: bool)
    requires Grows(w, w') && Settled(w, consumer)
    ensures var r := RevokeOne(Revocation(consumer.currentOffsets, consumer.retained, w.committed, []), p, ok);
      Settled(w', consumer.(currentOffsets := r.current, retained := r.retained))
  {
    ConsumerStaysSettled(w, w', consumer);
  }

  lemma RevokedIsCovered(w: World, consumer: Consumer, p: Partition, ok: bool)
    requires StoresCovered(w) && Settled(w, consumer)
    ensures var r := RevokeOne(Revocation(consumer.currentOffsets, consumer.retained, w.committed, []), p, ok);
      && AllCovered(w, r.committed)
      && forall x :: x in r.writes ==> Covered(w, x.partition, x.offset)
  {
    if p in consumer.currentOffsets {
      assert AllCovered(w, consumer.retained[p := consumer.currentOffsets[p]]);
      MergedCovered(w, w.committed, consumer.retained[p := consumer.currentOffsets[p]]);
    }
  }

  lemma RevokeKeepsInv(w: World, c: ConsumerId, p: Partition, ok: bool)
    requires Inv(w) && Between(w, c)
    ensures Inv(RevokeEffect(w, c, p, ok))
  {
    var w' := RevokeEffect(w, c, p, ok);
    assert Grows(w, w');
    OthersStaySettled(w, w', {c});
    RevokedIsSettled(w, w', w.consumers[c], p, ok);
    RevokedIsCovered(w, w.consumers[c], p, ok);
    OffsetsStayCovered(w, w', w'.committed);
    OffsetsStayCovered(w, w', w.db);
    forall x | x in w'.writes ensures Covered(w', x.partition, x.offset) {
      assert Covered(w, x.partition, x.offset);
    }
    forall f | f in w'.flights ensures AllCovered(w', f.offsets) {
      OffsetsStayCovered(w, w', f.offsets);
    }
  }

  lemma CloseKeepsInv(w: World, c: ConsumerId, ok: bool)
    requires Inv(w) && c in w.consumers
    ensures Inv(CloseEffect(w, c, ok))
  {
    var w' := CloseEffect(w, c, ok);
    var offsets := w.consumers[c].currentOffsets;
    assert Grows(w, w');
    OthersStaySettled(w, w', {});
    WritesCovered(w, offsets);
    MergedCovered(w, w.committed, offsets);
    OffsetsStayCovered(w, w', w'.committed);
    OffsetsStayCovered(w, w', w.db);
    forall x | x in w'.writes ensures Covered(w', x.partition, x.offset) {
      assert Covered(w, x.partition, x.offset);
    }
    forall f | f in w'.flights ensures AllCovered(w', f.offsets) {
      OffsetsStayCovered(w, w', f.offsets);
    }
  }

  lemma DequeueKeepsInv(w: World, write: Record)
    requires Inv(w)
    ensures Inv(w.(writes := w.writes - multiset{write}))
  {
    var w' := w.(writes := w.writes - multiset{write});
    StoresStayCovered(w, w');
    OthersStaySettled(w, w', {});
  }

  lemma LandKeepsInv(w: World, write: Record)
    requires Inv(w) && Covered(w, write.partition, write.offset)
    ensures Inv(w.(db := w.db[write.partition := write.offset]))
  {
    var w' := w.(db := w.db[write.partition := write.offset]);
    QueuesStayCovered(w, w');
    OffsetsStayCovered(w, w', w.committed);
    OffsetsStayCovered(w, w', w.db);
    OthersStaySettled(w, w', {});
  }

  lemma WriteKeepsInv(w: World, write: Record, landed: bool)
    requires Inv(w) && write in w.writes
    ensures Inv(WriteEffect(w, write, landed))
  {
    DequeueKeepsInv(w, write);
    if landed {
      var dequeued := w.(writes := w.writes - multiset{write});
      assert Covered(w, write.partition, write.offset);
      assert Covered(dequeued, write.partition, write.offset);
      LandKeepsInv(dequeued, write);
    }
  }

  /** A consumer changes nothing of what must be covered. */
  lemma RevocationKeepsInv(w: World, s: Step)
    requires Inv(w) && Enabled(w, s) && (s.StartRevoke? || s.Release?)
    ensures Inv(Next(w, s))
  {
    var w' := Next(w, s);
    assert Grows(w, w');
    StoresStayCovered(w, w');
    OthersStaySettled(w, w', {s.c});
    ConsumerStaysSettled(w, w', w.consumers[s.c]);
  }

  /** A consumer comes or goes. */
  lemma MembershipKeepsInv(w: World, s: Step)
    requires Inv(w) && Enabled(w, s) && (s.Join? || s.Crash?)
    ensures Inv(Next(w, s))
  {
    var w' := Next(w, s);
    assert Grows(w, w');
    StoresStayCovered(w, w');
    OthersStaySettled(w, w', {s.c});
  }

  lemma StepKeepsInv(w: World, s: Step)
    requires Inv(w) && Enabled(w, s)
    ensures Inv(Next(w, s))
  {
    match s
    case Produce(_) => LogStepKeepsInv(w, s);
    case Expire(_, _) => LogStepKeepsInv(w, s);
    case Assign(c, p, answered, sought) => AssignKeepsInv(w, c, p, answered, sought);
    case Reset(c, p) => ResetKeepsInv(w, c, p);
    case Poll(c, batch, next) => PollKeepsInv(w, c, batch, next);
    case Process(c, noted) => ProcessKeepsInv(w, c, noted);
    case Commit(c, queued) => CommitKeepsInv(w, c, queued);
    case Apply(flight) => ApplyKeepsInv(w, flight);
    case Acknowledge(flight) =>
      FailKeepsInv(w, flight);
      DropKeepsInv(w.(flights := w.flights - multiset{flight}), flight);
    case Fail(flight) => FailKeepsInv(w, flight);
    case Revoke(c, p, ok) => RevokeKeepsInv(w, c, p, ok);
    case Close(c, ok) => CloseKeepsInv(w, c, ok);
    case Write(write, landed) => WriteKeepsInv(w, write, landed);
    case Join(_) => MembershipKeepsInv(w, s);
    case StartRevoke(_) => RevocationKeepsInv(w, s);
    case Release(_, _) => RevocationKeepsInv(w, s);
    case Crash(_) => MembershipKeepsInv(w, s);
  }

  /** Over any run, every offset in memory, in Kafka, in the table or on its way to either has only
      attempted or lost records before it. */
  lemma {:induction false} RunKeepsInv(run: seq<Step>)
    requires Feasible(EMPTY, run)
    ensures Inv(After(EMPTY, run))
    decreases |run|
  {
    if |run| > 0 {
      RunKeepsInv(run[..|run| - 1]);
      StepKeepsInv(After(EMPTY, run[..|run| - 1]), run[|run| - 1]);
    }
  }

  // ----- what the invariant means for a reader

  /** A seek on assignment jumps only over records that were attempted, or lost to an earlier reset. */
  lemma SeekJumpsOverNothingNew(run: seq<Step>, c: ConsumerId, p: Partition, answered: bool, sought: bool)
    requires Feasible(EMPTY, run) && Between(After(EMPTY, run), c)
    ensures var w := After(EMPTY, run);
      var at := AssignEffect(w, c, p, answered, sought).consumers[c].positions[p];
      at.Some? ==> forall r :: r in w.records && r.partition == p && r.offset < at.value ==>
        r in w.attempted || r in w.lost
  {
    RunKeepsInv(run);
    var w := After(EMPTY, run);
    assert p in w.db ==> Covered(w, p, w.db[p]);
    assert p in w.committed ==> Covered(w, p, w.committed[p]);
  }

  /** A consumer attempts a record only when those before it have been attempted or lost. */
  lemma AttemptsInOrder(run: seq<Step>, c: ConsumerId)
    requires Feasible(EMPTY, run)
    requires c in After(EMPTY, run).consumers && After(EMPTY, run).consumers[c].batch != []
    ensures var w := After(EMPTY, run);
      var next := w.consumers[c].batch[0];
      forall r :: r in w.records && r.partition == next.partition && r.offset < next.offset ==>
        r in w.attempted || r in w.lost
  {
    RunKeepsInv(run);
    var w := After(EMPTY, run);
    assert Backed(w, w.consumers[c].batch, 0);
  }

  /** The callback of a commit drops exactly the entries still equal to what was committed, so never
      an offset newer than that, and changes no other. */
  lemma AckDropsOnlyEqual(w: World, flight: Flight, p: Partition)
    requires flight.consumer in w.consumers && p in w.consumers[flight.consumer].currentOffsets
    ensures var current := w.consumers[flight.consumer].currentOffsets;
      var current' := AcknowledgeEffect(w, flight).consumers[flight.consumer].currentOffsets;
      && (p !in current' <==> p in flight.offsets && flight.offsets[p] == current[p])
      && (p in current' ==> current'[p] == current[p])
      && current'.Keys <= current.Keys
  {}

  lemma Extend(w: World, run: seq<Step>, s: Step)
    requires Feasible(w, run) && Enabled(After(w, run), s)
    ensures Feasible(w, run + [s]) && After(w, run + [s]) == Next(After(w, run), s)
  {
    assert (run + [s])[..|run + [s]| - 1] == run;
  }
}
