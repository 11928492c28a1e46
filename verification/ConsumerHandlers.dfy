/** The loops of a consumer over its offset map: processing a batch, committing, and rebalancing. */
module ConsumerHandlers {
  import opened Options
  import opened ConsumerOffsets
  import opened Divisibility

  // ----- a batch

  /** The offsets noted once these records have been processed. */
  function Noted(records: seq<Record>): Offsets {
    if |records| == 0 then map[] else Put(Noted(records[..|records| - 1]), records[|records| - 1])
  }

  /** A partition's noted offset is one past the last of its records. */
  lemma {:induction false} NotedIsLatest(records: seq<Record>, i: nat)
    requires i < |records| && forall j :: i < j < |records| ==> records[j].partition != records[i].partition
    ensures Find(Noted(records), records[i].partition) == Some(records[i].offset + 1)
  {
    var front := records[..|records| - 1];
    if i < |front| {
      assert records[|records| - 1].partition != records[i].partition;
      assert forall j :: i < j < |front| ==> front[j] == records[j];
      NotedIsLatest(front, i);
    }
  }

  /** Whether a commit is due after the n-th record, count records after the last: at every size-th
      record, at the end of the batch, and when the worker has been told to stop. A size of zero
      makes the test throw. */
  predicate Due(count: nat, n: nat, total: nat, size: int, stops: set<nat>) {
    size != 0 && (Divides(Abs(size), count) || n == total || n in stops)
  }

  /** A consumer during a batch: its offsets, what it attempted, the commits it sent (each a copy of
      the map), the writes it queued for the offset table, and the records since the last commit. */
  datatype Progress = Progress(
    currentOffsets: Offsets, attempted: seq<Record>, flights: seq<Offsets>, writes: multiset<Record>, dataCount: nat)

  function Attempted(s: Progress, r: Record): Progress {
    s.(currentOffsets := Put(s.currentOffsets, r), attempted := s.attempted + [r], dataCount := s.dataCount + 1)
  }

  function Committed(s: Progress): Progress {
    s.(flights := s.flights + [s.currentOffsets], writes := s.writes + Writes(s.currentOffsets), dataCount := 0)
  }

  function Advanced(s: Progress, r: Record, due: bool): Progress {
    if due then Committed(Attempted(s, r)) else Attempted(s, r)
  }

  /** After the first n records of a batch. */
  function Processed(s: Progress, batch: seq<Record>, n: nat, size: int, stops: set<nat>): Progress
    requires n <= |batch|
  {
    if n == 0 then s
    else
      var before := Processed(s, batch, n - 1, size, stops);
      Advanced(before, batch[n - 1], Due(before.dataCount + 1, n, |batch|, size, stops))
  }

  lemma NextProcessed(s: Progress, batch: seq<Record>, n: nat, size: int, stops: set<nat>)
    requires n < |batch|
    ensures var before := Processed(s, batch, n, size, stops);
      Processed(s, batch, n + 1, size, stops)
      == Advanced(before, batch[n], Due(before.dataCount + 1, n + 1, |batch|, size, stops))
  {}

  lemma OnlyMultipleUpToItself(count: nat, size: nat)
    requires 0 < count <= size
    ensures Divides(size, count) <==> count == size
  {
    if count == size {
      assert Rem(0, size) == 0;
    }
  }

  /** A batch begins with an empty map and no records since a commit. */
  predicate Fresh(s: Progress) {
    s.currentOffsets == map[] && s.dataCount == 0
  }

  /** Fewer than batchCommitSize records wait for a commit at any time, none at the end of a batch or
      after a record that finds the worker stopped; and a commit comes no earlier than that. */
  lemma {:induction false} CommitSpacing(s: Progress, batch: seq<Record>, n: nat, size: int, stops: set<nat>)
    requires n <= |batch| && Fresh(s) && size != 0
    ensures Processed(s, batch, n, size, stops).dataCount < Abs(size)
    ensures n > 0 ==> (Processed(s, batch, n, size, stops).dataCount == 0
      <==> Processed(s, batch, n - 1, size, stops).dataCount + 1 == Abs(size) || n == |batch| || n in stops)
  {
    if n > 0 {
      CommitSpacing(s, batch, n - 1, size, stops);
      OnlyMultipleUpToItself(Processed(s, batch, n - 1, size, stops).dataCount + 1, Abs(size));
    }
  }

  /** From s, the first n records have each been attempted once, in order; the map holds the latest
      offsets; and the last commit sent covers exactly the records before those that wait. */
  ghost predicate Outcome(s: Progress, s': Progress, batch: seq<Record>, n: nat)
    requires n <= |batch|
  {
    && s'.attempted == s.attempted + batch[..n]
    && s'.currentOffsets == Noted(batch[..n])
    && s'.dataCount <= n
    && if s'.dataCount == n then s'.flights == s.flights && s'.writes == s.writes
       else LastCommitIs(s', Noted(batch[..n - s'.dataCount]))
  }

  /** The last commit sent was of these offsets, and a table write is queued for each of them. */
  predicate LastCommitIs(s: Progress, offsets: Offsets) {
    |s.flights| > 0 && s.flights[|s.flights| - 1] == offsets && Writes(offsets) <= s.writes
  }

  lemma OneMoreNoted(batch: seq<Record>, n: nat)
    requires n < |batch|
    ensures batch[..n + 1] == batch[..n] + [batch[n]]
    ensures Noted(batch[..n + 1]) == Put(Noted(batch[..n]), batch[n])
  {
    assert batch[..n + 1][..n] == batch[..n];
  }

  lemma OneMoreWaits(s: Progress, s': Progress, batch: seq<Record>, n: nat)
    requires n < |batch| && Outcome(s, s', batch, n)
    ensures Outcome(s, Attempted(s', batch[n]), batch, n + 1)
  {
    OneMoreNoted(batch, n);
    assert s.attempted + batch[..n] + [batch[n]] == s.attempted + batch[..n + 1];
  }

  lemma OneMoreCommitted(s: Progress, s': Progress, batch: seq<Record>, n: nat)
    requires n < |batch| && Outcome(s, s', batch, n)
    ensures Outcome(s, Committed(Attempted(s', batch[n])), batch, n + 1)
  {
    OneMoreNoted(batch, n);
    assert s.attempted + batch[..n] + [batch[n]] == s.attempted + batch[..n + 1];
  }

  lemma OneMoreAttempted(s: Progress, s': Progress, batch: seq<Record>, n: nat, due: bool)
    requires n < |batch| && Outcome(s, s', batch, n)
    ensures Outcome(s, Advanced(s', batch[n], due), batch, n + 1)
  {
    if due {
      OneMoreCommitted(s, s', batch, n);
    } else {
      OneMoreWaits(s, s', batch, n);
    }
  }

  lemma {:induction false} BatchOutcome(s: Progress, batch: seq<Record>, n: nat, size: int, stops: set<nat>)
    requires n <= |batch| && Fresh(s)
    ensures Outcome(s, Processed(s, batch, n, size, stops), batch, n)
  {
    if n == 0 {
      assert batch[..0] == [];
    } else {
      BatchOutcome(s, batch, n - 1, size, stops);
      var before := Processed(s, batch, n - 1, size, stops);
      OneMoreAttempted(s, before, batch, n - 1, Due(before.dataCount + 1, n, |batch|, size, stops));
    }
  }

  class KafkaConsumerManager {
    var progress: Progress
    var committed: Offsets

    constructor (committed: Offsets)
      ensures progress == Progress(map[], [], [], multiset{}, 0) && this.committed == committed
    {
      progress := Progress(map[], [], [], multiset{}, 0);
      this.committed := committed;
    }

    /** One poll's records: attempt each in turn, note its offset, and commit when due. The worker may
        be stopped at any time: before a record it finds itself running as long as fewer than `admitted`
        have been processed, and after a record unless its number is in `stops`. */
    method ProcessBatch(batch: seq<Record>, batchCommitSize: int, admitted: nat, stops: set<nat>) returns (n: nat)
      modifies this`progress
      ensures n == if admitted < |batch| then admitted else |batch|
      ensures progress == if batch == [] then old(progress)
        else Processed(old(progress).(currentOffsets := map[], dataCount := 0), batch, n, batchCommitSize, stops)
    {
      n := 0;
      if batch == [] {
        return;
      }
      ghost var start := progress.(currentOffsets := map[], dataCount := 0);
      progress := progress.(currentOffsets := map[], dataCount := 0);
      while n < |batch|
        invariant n <= |batch| && n <= admitted
        invariant progress == Processed(start, batch, n, batchCommitSize, stops)
      {
        if n == admitted {
          return;
        }
        ProcessRecord(batch[n], n + 1, |batch|, batchCommitSize, stops, start, batch);
        n := n + 1;
      }
    }

    /** The n-th record of a batch. */
    method ProcessRecord(record: Record, n: nat, total: nat, batchCommitSize: int, stops: set<nat>,
        ghost start: Progress, ghost batch: seq<Record>)
      requires 0 < n <= total == |batch| && record == batch[n - 1]
      requires progress == Processed(start, batch, n - 1, batchCommitSize, stops)
      modifies this`progress
      ensures progress == Processed(start, batch, n, batchCommitSize, stops)
    {
      NextProcessed(start, batch, n - 1, batchCommitSize, stops);
      Attempt(record);
      if Due(progress.dataCount, n, total, batchCommitSize, stops) {
        CommitAsync();
      }
    }

    /** A record is handled, or skipped as malformed or already logged, and its offset noted. */
    method Attempt(record: Record)
      modifies this`progress
      ensures progress == Attempted(old(progress), record)
    {
      progress := progress.(attempted := progress.attempted + [record]);
      progress := progress.(currentOffsets := Put(progress.currentOffsets, record));
      progress := progress.(dataCount := progress.dataCount + 1);
    }

    method CommitAsync()
      modifies this`progress
      ensures progress == Committed(old(progress))
    {
      SaveOffset2Db(progress.currentOffsets);
      progress := progress.(flights := progress.flights + [progress.currentOffsets]);
      progress := progress.(dataCount := 0);
    }

    /** saveOffest2Db: a write is queued for every entry. */
    method SaveOffset2Db(offsets: Offsets)
      modifies this`progress
      ensures progress == old(progress).(writes := old(progress).writes + Writes(offsets))
    {
      OnComplete(offsets, true, false);
    }

    /** GeneralOffsetCommitCallback.onComplete: queue the entries for the table whether or not the
        commit failed; or, after a successful commit, drop those that are still current. */
    method OnComplete(offsets: Offsets, saveFlag: bool, failed: bool)
      modifies this`progress
      ensures progress ==
        if saveFlag then old(progress).(writes := old(progress).writes + Writes(offsets))
        else if failed then old(progress)
        else old(progress).(currentOffsets := DropAcked(old(progress).currentOffsets, offsets))
    {
      var todo := offsets.Keys;
      ghost var done: Offsets := map[];
      while todo != {}
        invariant todo <= offsets.Keys && done.Keys == offsets.Keys - todo
        invariant forall p :: p in done ==> done[p] == offsets[p]
        invariant progress ==
          if saveFlag then old(progress).(writes := old(progress).writes + Writes(done))
          else if failed then old(progress)
          else old(progress).(currentOffsets := DropAcked(old(progress).currentOffsets, done))
        decreases todo
      {
        var p :| p in todo;
        if saveFlag {
          OneMoreWrite(done, p, offsets[p]);
          progress := progress.(writes := progress.writes + multiset{Record(p, offsets[p])});
        } else if !failed {
          if p in progress.currentOffsets && offsets[p] == progress.currentOffsets[p] {
            progress := progress.(currentOffsets := progress.currentOffsets - {p});
          }
        }
        done, todo := done[p := offsets[p]], todo - {p};
      }
      assert done == offsets;
    }

    /** syncCommitOffest: the final commit; the entries go to the table even if Kafka refuses them. */
    method SyncCommitOffset(ok: bool)
      modifies this
      ensures committed == if ok then old(committed) + old(progress).currentOffsets else old(committed)
      ensures progress == old(progress).(writes := old(progress).writes + Writes(old(progress).currentOffsets))
    {
      if progress.currentOffsets == map[] {
        return;
      }
      if ok {
        committed := committed + progress.currentOffsets;
      }
      SaveOffset2Db(progress.currentOffsets);
    }
  }

  lemma OneMoreWrite(done: Offsets, p: Partition, offset: nat)
    requires p !in done
    ensures Writes(done[p := offset]) == Writes(done) + multiset{Record(p, offset)}
  {
    var more := done[p := offset];
    var s, s' := (set q | q in done :: Record(q, done[q])), (set q | q in more :: Record(q, more[q]));
    forall x ensures x in s' <==> x in s + {Record(p, offset)} {
      if x in s {
        assert x.partition in more && x == Record(x.partition, more[x.partition]);
      }
      assert p in more;
    }
    assert s' == s + {Record(p, offset)};
    assert Record(p, offset) !in s;
  }

  // ----- rebalancing

  function RevokeAll(r: Revocation, partitions: seq<Partition>, commits: Partition -> bool): Revocation {
    if |partitions| == 0 then r
    else
      var p := partitions[|partitions| - 1];
      RevokeOne(RevokeAll(r, partitions[..|partitions| - 1], commits), p, commits(p))
  }

  function SavedAll(db: Offsets, writes: seq<Record>, saves: Partition -> bool): Offsets {
    if |writes| == 0 then db
    else
      var last := writes[|writes| - 1];
      var before := SavedAll(db, writes[..|writes| - 1], saves);
      if saves(last.partition) then before[last.partition := last.offset] else before
  }

  /** What a revocation has come to, given the offsets before it. */
  ghost predicate RevokedSoFar(r: Revocation, current: Offsets, committed: Offsets, partitions: seq<Partition>,
      commits: Partition -> bool)
  {
    && (forall p :: p in r.current <==> p in current && !(p in partitions && commits(p)))
    && (forall p :: p in r.current ==> r.current[p] == current[p])
    && (forall p :: p in r.retained <==> p in current && p in partitions && !commits(p))
    && (forall p :: p in r.retained ==> r.retained[p] == current[p])
    && (forall p :: p in r.committed ==> NewOrOld(r.committed[p], current, committed, p))
    && (forall x :: x in r.writes <==> WrittenBack(x, current, partitions, commits))
  }

  predicate NewOrOld(offset: nat, current: Offsets, committed: Offsets, p: Partition) {
    (p in current && offset == current[p]) || (p in committed && offset == committed[p])
  }

  predicate WrittenBack(x: Record, current: Offsets, partitions: seq<Partition>, commits: Partition -> bool) {
    x.partition in partitions && x.partition in current && commits(x.partition) && x.offset == current[x.partition]
  }

  lemma RevokeOneMore(r: Revocation, current: Offsets, committed: Offsets, partitions: seq<Partition>, p: Partition,
      commits: Partition -> bool)
    requires RevokedSoFar(r, current, committed, partitions, commits)
    ensures RevokedSoFar(RevokeOne(r, p, commits(p)), current, committed, partitions + [p], commits)
  {
    var r' := RevokeOne(r, p, commits(p));
    assert forall q :: q in partitions + [p] <==> q in partitions || q == p;
    forall x ensures x in r'.writes <==> WrittenBack(x, current, partitions + [p], commits) {
      assert x in r.writes <==> WrittenBack(x, current, partitions, commits);
    }
  }

  /** A revocation commits, forgets and writes to the table exactly the offsets whose commit succeeds;
      for any partition Kafka then holds what it held or what the consumer had. */
  lemma {:induction false} RevocationOutcome(current: Offsets, committed: Offsets, partitions: seq<Partition>,
      commits: Partition -> bool)
    ensures RevokedSoFar(RevokeAll(Revocation(current, map[], committed, []), partitions, commits),
                         current, committed, partitions, commits)
    decreases |partitions|
  {
    if |partitions| > 0 {
      var front, p := partitions[..|partitions| - 1], partitions[|partitions| - 1];
      RevocationOutcome(current, committed, front, commits);
      var before := RevokeAll(Revocation(current, map[], committed, []), front, commits);
      RevokeOneMore(before, current, committed, front, p, commits);
      assert partitions == front + [p];
    }
  }

  /** An offset whose commit fails is not given up: the next commit to succeed carries it along. */
  lemma {:induction false} RetainedRidesAlong(current: Offsets, committed: Offsets, partitions: seq<Partition>,
      commits: Partition -> bool, i: nat, j: nat)
    requires i <= j < |partitions| && partitions[i] in current && partitions[j] in current && commits(partitions[j])
    requires forall k, l :: 0 <= k < l < |partitions| ==> partitions[k] != partitions[l]
    ensures var r := RevokeAll(Revocation(current, map[], committed, []), partitions, commits);
      partitions[i] in r.committed && r.committed[partitions[i]] == current[partitions[i]]
    decreases |partitions|
  {
    var front, p := partitions[..|partitions| - 1], partitions[|partitions| - 1];
    assert partitions == front + [p];
    RevocationOutcome(current, committed, front, commits);
    if j < |front| {
      RetainedRidesAlong(current, committed, front, commits, i, j);
    } else if i < |front| {
      assert partitions[i] in front;
      if commits(partitions[i]) {
        RetainedRidesAlong(current, committed, front, commits, i, i);
      }
    }
  }

  /** Records to save, of which each partition has one offset at most. */
  ghost predicate OneOffsetEach(writes: seq<Record>) {
    forall x, y :: x in writes && y in writes && x.partition == y.partition ==> x == y
  }

  lemma {:induction false} SavedEach(db: Offsets, writes: seq<Record>, saves: Partition -> bool, p: Partition)
    requires OneOffsetEach(writes)
    ensures forall x :: x in writes && x.partition == p && saves(p) ==> Find(SavedAll(db, writes, saves), p) == Some(x.offset)
    ensures (saves(p) ==> forall x :: x in writes ==> x.partition != p) ==> Find(SavedAll(db, writes, saves), p) == Find(db, p)
  {
    if |writes| > 0 {
      var front, last := writes[..|writes| - 1], writes[|writes| - 1];
      assert writes == front + [last];
      assert last in writes && forall x :: x in front ==> x in writes;
      SavedEach(db, front, saves, p);
    }
  }

  /** The table afterwards holds what the consumer had for the partitions whose commit and save succeed,
      and for others what it held. */
  lemma SavedOutcome(db: Offsets, current: Offsets, committed: Offsets, partitions: seq<Partition>,
      commits: Partition -> bool, saves: Partition -> bool)
    ensures var r := RevokeAll(Revocation(current, map[], committed, []), partitions, commits);
      forall p :: Find(SavedAll(db, r.writes, saves), p)
        == if p in partitions && p in current && commits(p) && saves(p) then Some(current[p]) else Find(db, p)
  {
    RevocationOutcome(current, committed, partitions, commits);
    var r := RevokeAll(Revocation(current, map[], committed, []), partitions, commits);
    assert forall x :: x in r.writes ==> WrittenBack(x, current, partitions, commits);
    forall p ensures Find(SavedAll(db, r.writes, saves), p)
      == if p in partitions && p in current && commits(p) && saves(p) then Some(current[p]) else Find(db, p)
    {
      SavedEach(db, r.writes, saves, p);
      if p in partitions && p in current && commits(p) {
        assert WrittenBack(Record(p, current[p]), current, partitions, commits);
        assert Record(p, current[p]) in r.writes;
      }
    }
  }

  class HandleRebalance {
    var currentOffsets: Offsets
    var positions: map<Partition, Option<nat>>
    var committed: Offsets
    var db: Offsets

    constructor (currentOffsets: Offsets, committed: Offsets, db: Offsets)
      ensures this.currentOffsets == currentOffsets && this.committed == committed && this.db == db && positions == map[]
    {
      this.currentOffsets, this.committed, this.db, positions := currentOffsets, committed, db, map[];
    }

    /** commitOffset for the partitions revoked. */
    method CommitOffset(partitions: seq<Partition>, commits: Partition -> bool, saves: Partition -> bool)
      modifies this`currentOffsets, this`committed, this`db
      ensures var r := RevokeAll(Revocation(old(currentOffsets), map[], old(committed), []), partitions, commits);
        && currentOffsets == r.current && committed == r.committed && db == SavedAll(old(db), r.writes, saves)
      ensures forall p :: p in partitions && p in old(currentOffsets) && commits(p) && saves(p) ==>
        p in db && db[p] == old(currentOffsets)[p]
      ensures forall p :: !(p in partitions && p in old(currentOffsets) && commits(p) && saves(p)) ==>
        Find(db, p) == Find(old(db), p)
      ensures forall p :: p in currentOffsets <==> p in old(currentOffsets) && !(p in partitions && commits(p))
    {
      ghost var current, offsets, table := currentOffsets, committed, db;
      RevocationOutcome(current, offsets, partitions, commits);
      SavedOutcome(table, current, offsets, partitions, commits, saves);
      ghost var r := Revocation(currentOffsets, map[], committed, []);
      ghost var r0 := r;
      if currentOffsets == map[] {
        NothingToRevoke(r0, partitions, commits);
        return;
      }
      var offsetAndMetadataMap: Offsets := map[];
      assert partitions[..0] == [];
      for i := 0 to |partitions|
        invariant r == RevokeAll(r0, partitions[..i], commits)
        invariant r == Revocation(currentOffsets, offsetAndMetadataMap, committed, r.writes)
        invariant db == SavedAll(old(db), r.writes, saves)
      {
        var p := partitions[i];
        assert partitions[..i + 1][..i] == partitions[..i];
        r := RevokeOne(r, p, commits(p));
        if p in currentOffsets {
          var offset := currentOffsets[p];
          offsetAndMetadataMap := offsetAndMetadataMap[p := offset];
          if commits(p) {
            committed := committed + offsetAndMetadataMap;
            offsetAndMetadataMap := offsetAndMetadataMap - {p};
            currentOffsets := currentOffsets - {p};
            assert r.writes[..|r.writes| - 1] == RevokeAll(r0, partitions[..i], commits).writes;
            if saves(p) {
              db := db[p := offset];
            }
          }
        }
      }
      assert partitions[..|partitions|] == partitions;
    }

    /** onPartitionsAssigned: each partition is sought to the table's offset, else Kafka's, else it
        is left to the client, which resumes from Kafka's or resets. */
    method OnPartitionsAssigned(partitions: seq<Partition>, answers: Partition -> bool, seeks: Partition -> bool)
      modifies this`positions
      ensures positions.Keys == old(positions).Keys + set p | p in partitions
      ensures forall p :: p in positions ==>
        positions[p] == (if p in partitions then AssignedPosition(db, committed, p, answers(p), seeks(p))
                         else old(positions)[p])
      ensures forall p :: p in partitions && answers(p) && seeks(p) && p in db ==> positions[p] == Some(db[p])
      ensures forall p :: p in partitions && !(answers(p) && seeks(p) && p in db) ==> positions[p] == Find(committed, p)
    {
      for i := 0 to |partitions|
        invariant positions.Keys == old(positions).Keys + set p | p in partitions[..i]
        invariant forall p :: p in positions ==>
          positions[p] == (if p in partitions[..i] then AssignedPosition(db, committed, p, answers(p), seeks(p))
                           else old(positions)[p])
      {
        var p := partitions[i];
        var offset: Option<nat> := None;
        if answers(p) && p in db {
          offset := Some(db[p]);
        }
        if offset.None? && p in committed {
          offset := Some(committed[p]);
        }
        var at := if p in committed then Some(committed[p]) else None;
        if offset.Some? && seeks(p) {
          at := offset;
        }
        positions := positions[p := at];
        assert partitions[..i + 1] == partitions[..i] + [p];
      }
      assert partitions[..|partitions|] == partitions;
    }
  }

  lemma NothingToRevoke(r: Revocation, partitions: seq<Partition>, commits: Partition -> bool)
    requires r.current == map[]
    ensures RevokeAll(r, partitions, commits) == r
    decreases |partitions|
  {
    if |partitions| > 0 {
      NothingToRevoke(r, partitions[..|partitions| - 1], commits);
    }
  }
}
