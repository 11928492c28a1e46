/** The client's interceptor around a send: it records the message first, and afterwards marks the row
    if the send failed. Run without interruption it takes the protocol's client steps, one by one. */
module ClientInterceptor {
  import opened CompensationRules
  import opened ProducerProtocol

  /** What the calls come to: a save may land without the client hearing of it, a failed send may
      still have delivered. */
  datatype Calls = Calls(landed: bool, reported: bool, delivered: bool, failed: bool, marks: bool, landsAgain: bool)

  /** The protocol steps after the send. */
  function FailureRun(t: TaskId, calls: Calls): seq<Step> {
    if !calls.failed then []
    else [ByClient(t, MarkFail(calls.marks))] + if calls.reported then [] else [ByClient(t, SaveAgain(calls.landsAgain))]
  }

  /** The protocol steps of one interception. */
  function ClientRun(t: TaskId, id: Id, createtime: int, calls: Calls): seq<Step> {
    [ByClient(t, Save(id, createtime, calls.landed, calls.reported))]
    + ([ByClient(t, Send(calls.delivered, calls.failed))] + FailureRun(t, calls))
  }

  class KafkaMQClientIntercepter {
    var process: map<Id, Row>
    var sent: set<Id>

    constructor (process: map<Id, Row>, sent: set<Id>)
      ensures this.process == process && this.sent == sent
    {
      this.process, this.sent := process, sent;
    }

    method SaveProcessLog(id: Id, row: Row, landed: bool)
      modifies this`process
      ensures process == Stored(old(process), id, row, landed)
    {
      if landed {
        process := process[id := row];
      }
    }

    /** update with the criteria id and status not NORMAL. */
    method UpdateUnlessNormal(id: Id, status: Status, landed: bool)
      modifies this`process
      ensures process == if id in old(process) && old(process)[id].status != NORMAL
                         then Updated(old(process), id, status, landed) else old(process)
    {
      if landed && id in process && process[id].status != NORMAL {
        process := process[id := process[id].(status := status)];
      }
    }

    /** In any world with these tables, in which the client's task is free, the interception leaves
        the tables that its protocol steps lead to, and its task done. */
    method DoAround(id: Id, createtime: int, calls: Calls, ghost w: World, ghost t: TaskId)
      requires w.process == process && w.sent == sent && t !in w.tasks && (calls.reported ==> calls.landed)
      modifies this
      ensures Feasible(w, ClientRun(t, id, createtime, calls))
      ensures var w' := After(w, ClientRun(t, id, createtime, calls));
        process == w'.process && sent == w'.sent && w'.tasks == w.tasks
    {
      var status := READY;
      var row := Row(READY, 0, createtime);
      SaveProcessLog(id, row, calls.landed);
      var saveFlag := calls.reported;
      if calls.delivered {
        sent := sent + {id};
      }
      if calls.failed {
        status := FAIL;
      }
      if status != READY {
        UpdateUnlessNormal(id, status, calls.marks);
        if !saveFlag {
          SaveProcessLog(id, row.(status := status), calls.landsAgain);
        }
      }
      StepsOfClient(w, t, id, createtime, calls);
      ClientLeavesNoTask(w, t, id, createtime, calls);
    }
  }

  function AfterFailure(w: World, t: TaskId, calls: Calls): World
    requires calls.failed ==> AtClient(w, t, Sent) && w.tasks[t].saved == calls.reported
  {
    if !calls.failed then w
    else
      var marked := MarkFailEffect(w, t, calls.marks);
      if calls.reported then marked else SaveAgainEffect(marked, t, calls.landsAgain)
  }

  /** The world after the client's steps. */
  function AfterClient(w: World, t: TaskId, id: Id, createtime: int, calls: Calls): World
    requires t !in w.tasks
  {
    var saved := SaveEffect(w, t, id, createtime, calls.landed, calls.reported);
    AfterFailure(SendEffect(saved, t, calls.delivered, calls.failed), t, calls)
  }

  lemma StepsAfterSend(w: World, t: TaskId, calls: Calls)
    requires calls.failed ==> AtClient(w, t, Sent) && w.tasks[t].saved == calls.reported
    ensures Feasible(w, FailureRun(t, calls)) && After(w, FailureRun(t, calls)) == AfterFailure(w, t, calls)
  {
    if calls.failed {
      var mark, again := ByClient(t, MarkFail(calls.marks)), ByClient(t, SaveAgain(calls.landsAgain));
      if calls.reported {
        OneStep(w, mark);
        assert [mark] + [] == [mark];
      } else {
        OneStep(MarkFailEffect(w, t, calls.marks), again);
        TakesFirst(w, mark, [again]);
      }
    }
  }

  lemma StepsOfClient(w: World, t: TaskId, id: Id, createtime: int, calls: Calls)
    requires t !in w.tasks && (calls.reported ==> calls.landed)
    ensures Feasible(w, ClientRun(t, id, createtime, calls))
    ensures After(w, ClientRun(t, id, createtime, calls)) == AfterClient(w, t, id, createtime, calls)
  {
    var saved := SaveEffect(w, t, id, createtime, calls.landed, calls.reported);
    var send := ByClient(t, Send(calls.delivered, calls.failed));
    StepsAfterSend(SendEffect(saved, t, calls.delivered, calls.failed), t, calls);
    TakesFirst(saved, send, FailureRun(t, calls));
    TakesFirst(w, ByClient(t, Save(id, createtime, calls.landed, calls.reported)), [send] + FailureRun(t, calls));
  }

  lemma ClientLeavesNoTask(w: World, t: TaskId, id: Id, createtime: int, calls: Calls)
    requires t !in w.tasks
    ensures AfterClient(w, t, id, createtime, calls).tasks == w.tasks
  {
  }

  lemma RowAfterSending(w: World, t: TaskId, id: Id, createtime: int, calls: Calls)
    requires t !in w.tasks && (calls.reported ==> calls.landed) && !calls.failed
    ensures var w' := AfterClient(w, t, id, createtime, calls);
      && w'.process == (if calls.landed then w.process[id := Row(READY, 0, createtime)] else w.process)
      && w'.sent == if calls.delivered then w.sent + {id} else w.sent
  {}

  lemma RowAfterFailing(w: World, t: TaskId, id: Id, createtime: int, calls: Calls)
    requires t !in w.tasks && (calls.reported ==> calls.landed) && calls.failed
    requires calls.landed || !calls.marks
    ensures var w', p := AfterClient(w, t, id, createtime, calls), w.process;
      && w'.process == (if (calls.landed && calls.marks) || (!calls.reported && calls.landsAgain)
                        then p[id := Row(FAIL, 0, createtime)]
                        else if calls.landed then p[id := Row(READY, 0, createtime)] else p)
      && w'.sent == if calls.delivered then w.sent + {id} else w.sent
  {}

  /** Uninterrupted, an interception leaves the row READY after a send that went through, and FAIL after
      one that failed, as long as the save and the mark land, or the second save does. (A mark that
      lands where the save did not meets an older row with the id, if any.) */
  lemma InterceptionOutcome(w: World, t: TaskId, id: Id, createtime: int, calls: Calls)
    requires t !in w.tasks && (calls.reported ==> calls.landed) && (calls.landed || !calls.failed || !calls.marks)
    ensures Feasible(w, ClientRun(t, id, createtime, calls))
    ensures var w', p := After(w, ClientRun(t, id, createtime, calls)), w.process;
      && w'.process == (if calls.failed && ((calls.landed && calls.marks) || (!calls.reported && calls.landsAgain))
                        then p[id := Row(FAIL, 0, createtime)]
                        else if calls.landed then p[id := Row(READY, 0, createtime)] else p)
      && w'.sent == if calls.delivered then w.sent + {id} else w.sent
  {
    StepsOfClient(w, t, id, createtime, calls);
    if calls.failed {
      RowAfterFailing(w, t, id, createtime, calls);
    } else {
      RowAfterSending(w, t, id, createtime, calls);
    }
  }
}
