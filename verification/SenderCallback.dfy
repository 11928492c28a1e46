/** The producer's send callback: it moves an acknowledged message from the process table to the full log. */
module SenderCallback {
  import opened Options
  import opened CompensationRules

  type Id = string

  datatype Message = Message(digest: Id, topic: string, content: string, createtime: int)

  datatype Metadata = Metadata(topic: string, partition: int, offset: int)

  /** The columns of a process row that a callback writes, and the rest of the row. */
  datatype ProcessRow = ProcessRow(status: Status, partition: Option<int>, offset: Option<int>, rest: Row)

  datatype FullRow = FullRow(status: Status, partition: int, offset: int, content: string, createtime: int,
    updateTime: int)

  datatype Tables = Tables(process: map<Id, ProcessRow>, full: map<Id, FullRow>)

  /** Which store calls get through: a delete that does not is caught, the others end the callback. */
  datatype Calls = Calls(deletes: bool, updates: bool, saves: bool)

  const ALL := Calls(true, true, true)

  /** Two tables that differ in update times only. */
  ghost predicate SameButTime(a: Tables, b: Tables) {
    && a.process == b.process
    && a.full.Keys == b.full.Keys
    && forall id :: id in a.full ==> a.full[id].(updateTime := 0) == b.full[id].(updateTime := 0)
  }

  function MarkNormal(r: ProcessRow, d: Metadata): ProcessRow {
    r.(status := NORMAL, partition := Some(d.partition), offset := Some(d.offset))
  }

  function MarkFail(r: ProcessRow, d: Metadata): ProcessRow {
    r.(status := FAIL, partition := Some(d.partition))
  }

  function FullLog(m: Message, d: Metadata, now: int): FullRow {
    FullRow(NORMAL, d.partition, d.offset, m.content, m.createtime, now)
  }

  /** The tables after a success callback. */
  function Succeeded(t: Tables, m: Message, d: Metadata, calls: Calls, now: int): Tables {
    var id := m.digest;
    var deleted := calls.deletes && id in t.process;
    Tables(
      if calls.deletes then t.process - {id}
      else if calls.updates && id in t.process then t.process[id := MarkNormal(t.process[id], d)]
      else t.process,
      if (deleted || calls.updates) && calls.saves then t.full[id := FullLog(m, d, now)] else t.full)
  }

  function Failed(t: Tables, m: Message, d: Metadata, calls: Calls): Tables {
    if calls.updates && m.digest in t.process
    then t.(process := t.process[m.digest := MarkFail(t.process[m.digest], d)]) else t
  }

  /** The tables after handle4MessageLog. A callback without metadata, as a failed synchronous send
      makes it, or for another topic leaves no trace. */
  function Handled(t: Tables, m: Message, metadata: Option<Metadata>, err: bool, calls: Calls, now: int): Tables {
    match metadata
    case None => t
    case Some(d) =>
      if d.topic != m.topic then t
      else if err then Failed(t, m, d, calls)
      else Succeeded(t, m, d, calls, now)
  }

  class Callback {
    const message: Message
    var tables: Tables

    constructor (message: Message, tables: Tables)
      ensures this.message == message && this.tables == tables
    {
      this.message, this.tables := message, tables;
    }

    /** deleteById: whether a row was deleted; None when the call throws. */
    method DeleteById(id: Id, calls: Calls) returns (deleted: Option<bool>)
      modifies this
      ensures deleted == if calls.deletes then Some(id in old(tables).process) else None
      ensures tables == if calls.deletes then old(tables).(process := old(tables).process - {id}) else old(tables)
    {
      if !calls.deletes {
        return None;
      }
      deleted := Some(id in tables.process);
      tables := tables.(process := tables.process - {id});
    }

    /** updateById: whether the call got through; it changes only a row that is there. */
    method UpdateById(id: Id, row: ProcessRow -> ProcessRow, calls: Calls) returns (ok: bool)
      modifies this
      ensures ok == calls.updates
      ensures tables == if ok && id in old(tables).process
                        then old(tables).(process := old(tables).process[id := row(old(tables).process[id])])
                        else old(tables)
    {
      ok := calls.updates;
      if ok && id in tables.process {
        tables := tables.(process := tables.process[id := row(tables.process[id])]);
      }
    }

    method Handle4MessageLog(metadata: Option<Metadata>, err: bool, calls: Calls, now: int)
      modifies this
      ensures tables == Handled(old(tables), message, metadata, err, calls, now)
    {
      if metadata.None? {
        return;
      }
      var d := metadata.value;
      var id := message.digest;
      if d.topic == message.topic {
        if !err {
          var rs := false;
          var deleted := DeleteById(id, calls);
          if deleted.Some? {
            rs := deleted.value;
          }
          if !rs {
            var ok := UpdateById(id, r => MarkNormal(r, d), calls);
            if !ok {
              return;
            }
          }
          if calls.saves {
            tables := tables.(full := tables.full[id := FullLog(message, d, now)]);
          }
        } else {
          var _ := UpdateById(id, r => MarkFail(r, d), calls);
        }
      }
    }
  }

  // ----- what repeated and racing callbacks amount to

  /** The callback of a synchronous send runs twice: once or twice makes no difference, even when
      the same store calls fail both times. */
  lemma RunningTwiceIsRunningOnce(t: Tables, m: Message, metadata: Option<Metadata>, err: bool, calls: Calls,
      first: int, second: int)
    ensures SameButTime(
      Handled(Handled(t, m, metadata, err, calls, first), m, metadata, err, calls, second),
      Handled(t, m, metadata, err, calls, first))
  {
    if metadata.Some? && metadata.value.topic == m.topic && !err {
      var once := Succeeded(t, m, metadata.value, calls, first);
      var twice := Succeeded(once, m, metadata.value, calls, second);
      assert twice.process == once.process;
      assert twice.full.Keys == once.full.Keys;
    }
  }

  /** Whatever earlier callbacks for a message did or failed to do, a success callback whose calls
      all get through ends with the message gone from the process table and in the full log. */
  lemma SuccessCompletes(t: Tables, m: Message, earlier: Option<Metadata>, err: bool, calls: Calls, before: int,
      d: Metadata, now: int)
    requires d.topic == m.topic
    ensures SameButTime(
      Handled(Handled(t, m, earlier, err, calls, before), m, Some(d), false, ALL, now),
      Handled(t, m, Some(d), false, ALL, now))
    ensures var done := Handled(t, m, Some(d), false, ALL, now);
      && m.digest !in done.process && m.digest in done.full
      && var row := done.full[m.digest];
         && row.status == NORMAL && row.partition == d.partition && row.offset == d.offset
         && row.content == m.content && row.createtime == m.createtime && row.updateTime == now
  {
    var between := Handled(t, m, earlier, err, calls, before);
    assert between.process - {m.digest} == t.process - {m.digest};
    assert Handled(between, m, Some(d), false, ALL, now).full == t.full[m.digest := FullLog(m, d, now)];
  }

  /** A row that a success callback cannot delete is marked with where the message lies; a failure
      callback marks it with the partition alone. Neither changes the rest of the row. */
  lemma MarksWhatIsKnown(t: Tables, m: Message, d: Metadata, err: bool, calls: Calls, now: int)
    requires d.topic == m.topic && m.digest in t.process && calls.updates && (err || !calls.deletes)
    ensures var t' := Handled(t, m, Some(d), err, calls, now);
      && m.digest in t'.process
      && var row, row' := t.process[m.digest], t'.process[m.digest];
         && row'.status == (if err then FAIL else NORMAL) && row'.partition == Some(d.partition)
         && row'.offset == (if err then row.offset else Some(d.offset)) && row'.rest == row.rest
  {}

  /** A failure callback undoes a NORMAL mark exactly when the mark is all the success callback
      achieved: the row is there, its delete having failed, and the update gets through. */
  lemma LateFailureUndoes(t: Tables, m: Message, d: Metadata, calls: Calls, late: Metadata, lateCalls: Calls, now: int)
    requires d.topic == m.topic && late.topic == m.topic && calls.updates && m.digest in t.process
    ensures var succeeded := Handled(t, m, Some(d), false, calls, now);
      var failed := Handled(succeeded, m, Some(late), true, lateCalls, now);
      (m.digest in failed.process && failed.process[m.digest].status == FAIL)
      <==> (!calls.deletes && lateCalls.updates)
  {}

  /** A callback touches no other message. */
  lemma OthersUntouched(t: Tables, m: Message, metadata: Option<Metadata>, err: bool, calls: Calls, now: int, other: Id)
    requires other != m.digest
    ensures var t' := Handled(t, m, metadata, err, calls, now);
      && (other in t'.process <==> other in t.process)
      && (other in t.process ==> t'.process[other] == t.process[other])
      && (other in t'.full <==> other in t.full)
      && (other in t.full ==> t'.full[other] == t.full[other])
  {}

  /** A success callback loses the message only together with a failing save to the full log; and
      what it adds to the full log or marks NORMAL is the message acknowledged. */
  lemma LostOnlyByFailingSave(t: Tables, m: Message, metadata: Option<Metadata>, err: bool, calls: Calls, now: int)
    requires m.digest in t.process
    ensures var t' := Handled(t, m, metadata, err, calls, now);
      (m.digest !in t'.process && m.digest !in t'.full)
      <==> (metadata.Some? && metadata.value.topic == m.topic && !err
            && calls.deletes && !calls.saves && m.digest !in t.full)
  {}
}
