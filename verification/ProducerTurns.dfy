/** What a compensator's turn with one row and a callback come to when no store fails; and a message
    that is resent six times. */
module ProducerTurns {
  import opened CompensationRules
  import opened Counting
  import opened ProducerProtocol
  import opened ProducerRetries

  /** The run leads there in order and without losing a count. */
  ghost predicate Leads(w: World, run: seq<Step>, end: World) {
    && Orderly(w, run) && Feasible(w, run) && After(w, run) == end
    && forall i :: 0 <= i < |run| ==> !LosesCount(run[i])
  }

  lemma {:induction false} Then(w: World, run: seq<Step>, mid: World, s: Step, end: World)
    requires Leads(w, run, mid) && Enabled(mid, s) && Disciplined(mid, s) && !LosesCount(s) && Apply(mid, s) == end
    ensures Leads(w, run + [s], end)
    decreases |run|
  {
    OneMoreStep(w, run, s);
    OneMoreInOrder(w, run, s);
  }

  lemma {:induction false} OneMoreInOrder(w: World, run: seq<Step>, s: Step)
    requires Orderly(w, run) && Feasible(w, run) && Enabled(After(w, run), s) && Disciplined(After(w, run), s)
    ensures Orderly(w, run + [s])
    decreases |run|
  {
    if |run| == 0 {
      assert run + [s] == [s];
    } else {
      OneMoreInOrder(Apply(w, run[0]), run[1..], s);
      assert (run + [s])[1..] == run[1..] + [s];
    }
  }

  // ----- single steps of a compensator with one row before it

  predicate Idle(w: World, t: TaskId) {
    t in w.tasks && w.tasks[t].Compensator? && w.tasks[t].queue == []
  }

  function Facing(w: World, t: TaskId, stage: CompensatorStage, id: Id, row: Row, decidedAt: int): World {
    w.(tasks := w.tasks[t := Compensator(stage, [Snapshot(id, row)], decidedAt)])
  }

  function Rested(w: World, t: TaskId, decidedAt: int): World {
    w.(tasks := w.tasks[t := Compensator(Choosing, [], decidedAt)])
  }

  lemma Loads(w: World, t: TaskId, id: Id)
    requires Idle(w, t) && id in w.process
    ensures Enabled(w, ByCompensator(t, LoadPage([id])))
    ensures Apply(w, ByCompensator(t, LoadPage([id]))) == Facing(w, t, Choosing, id, w.process[id], 0)
  {
    assert Snapshots(w.process, [id]) == [Snapshot(id, w.process[id])];
  }

  /** A row that is due for a resend. */
  predicate Due(row: Row, now: int) {
    && now - row.createtime <= 15 * 60 * 1000
    && ((row.status == FAIL && row.retrytimes <= 5) || (row.status == READY && now - row.createtime > 6 * 60 * 1000))
  }

  /** A row that has had its resends or its time. */
  predicate Lost(row: Row, now: int) {
    && (row.status == FAIL || row.status == COMPENSATE || row.status == READY)
    && (now - row.createtime > 15 * 60 * 1000 || (row.status != READY && row.retrytimes >= 6))
  }

  lemma ChoosesToResend(w: World, t: TaskId, id: Id, row: Row)
    requires Due(row, w.now)
    ensures var step := ByCompensator(t, Choose(true));
      Enabled(Facing(w, t, Choosing, id, row, 0), step)
      && Apply(Facing(w, t, Choosing, id, row, 0), step)
        == Facing(w, t, Rechecking, id, row.(retrytimes := row.retrytimes + 1), w.now)
  {
    var head := Snapshot(id, row.(retrytimes := row.retrytimes + 1));
    assert [Snapshot(id, row)][0 := head] == [head];
  }

  lemma ChoosesOtherwise(w: World, t: TaskId, id: Id, row: Row)
    requires !Due(row, w.now)
    ensures var step := ByCompensator(t, Choose(true));
      var stage := match row.status case DEAD => SavingDead case NORMAL => SavingNormal case _ => Judging;
      Enabled(Facing(w, t, Choosing, id, row, 0), step)
      && Apply(Facing(w, t, Choosing, id, row, 0), step) == Facing(w, t, stage, id, row, 0)
  {}

  lemma FindsUnconfirmed(w: World, t: TaskId, id: Id, row: Row, d: int)
    requires id in w.process && w.process[id].status != NORMAL
    ensures var step := ByCompensator(t, Recheck(false));
      Enabled(Facing(w, t, Rechecking, id, row, d), step)
      && Apply(Facing(w, t, Rechecking, id, row, d), step)
        == Facing(w, t, SavingCompensate, id, row.(status := COMPENSATE), d)
  {
    var head := Snapshot(id, row.(status := COMPENSATE));
    assert [Snapshot(id, row)][0 := head] == [head];
  }

  /** The world with a row stored. */
  function Holding(w: World, id: Id, row: Row): World {
    w.(process := w.process[id := row], recorded := w.recorded + w.process.Keys + {id})
  }

  lemma StoresRow(w: World, t: TaskId, id: Id, row: Row, d: int)
    ensures var step := ByCompensator(t, SaveCompensate(true));
      Enabled(Facing(w, t, SavingCompensate, id, row, d), step)
      && Apply(Facing(w, t, SavingCompensate, id, row, d), step) == Facing(Holding(w, id, row), t, Resending, id, row, d)
  {
    assert w.recorded + w.process[id := row].Keys == w.recorded + w.process.Keys + {id};
  }

  lemma SendsAgain(w: World, t: TaskId, id: Id, row: Row, d: int)
    ensures var step := ByCompensator(t, Resend(true));
      Enabled(Facing(w, t, Resending, id, row, d), step)
      && Apply(Facing(w, t, Resending, id, row, d), step)
        == Facing(w.(sent := w.sent + {id}, resends := Bump(w.resends, id)), t, Judging, id, row, d)
  {}

  lemma Judges(w: World, t: TaskId, id: Id, row: Row, d: int)
    requires Pending(row.status)
    ensures Enabled(Facing(w, t, Judging, id, row, d), ByCompensator(t, Judge))
    ensures Apply(Facing(w, t, Judging, id, row, d), ByCompensator(t, Judge))
      == if Lost(row, w.now) then Facing(w, t, SavingDead, id, row, d) else Rested(w, t, d)
  {
    assert [Snapshot(id, row)][1..] == [];
  }

  lemma SavesDead(w: World, t: TaskId, id: Id, row: Row, d: int)
    ensures var step := ByCompensator(t, SaveDead(true, true));
      Enabled(Facing(w, t, SavingDead, id, row, d), step)
      && Apply(Facing(w, t, SavingDead, id, row, d), step)
        == Facing(w.(dead := w.dead + {id}), t, Removing, id, row.(status := DEAD), d)
  {
    var head := Snapshot(id, row.(status := DEAD));
    assert [Snapshot(id, row)][0 := head] == [head];
  }

  lemma SavesNormal(w: World, t: TaskId, id: Id, row: Row, d: int)
    ensures var step := ByCompensator(t, SaveNormal(true, true));
      Enabled(Facing(w, t, SavingNormal, id, row, d), step)
      && Apply(Facing(w, t, SavingNormal, id, row, d), step) == Facing(w.(full := w.full + {id}), t, Removing, id, row, d)
  {}

  /** The world with a row gone. */
  function Without(w: World, id: Id): World {
    w.(process := w.process - {id}, recorded := w.recorded + (w.process.Keys - {id}))
  }

  lemma Removes(w: World, t: TaskId, id: Id, row: Row, d: int)
    ensures Enabled(Facing(w, t, Removing, id, row, d), ByCompensator(t, Remove(true)))
    ensures Apply(Facing(w, t, Removing, id, row, d), ByCompensator(t, Remove(true))) == Rested(Without(w, id), t, d)
  {
    assert [Snapshot(id, row)][1..] == [];
    assert (w.process - {id}).Keys == w.process.Keys - {id};
  }

  // ----- turns

  lemma Begins(w0: World, front: seq<Step>, w: World, t: TaskId, id: Id)
    requires Leads(w0, front, w) && Idle(w, t) && id in w.process
    ensures Leads(w0, front + [ByCompensator(t, LoadPage([id]))], Facing(w, t, Choosing, id, w.process[id], 0))
  {
    Loads(w, t, id);
    Then(w0, front, w, ByCompensator(t, LoadPage([id])), Facing(w, t, Choosing, id, w.process[id], 0));
  }

  function ResendSteps(t: TaskId, id: Id): seq<Step> {
    [ByCompensator(t, LoadPage([id]))] + [ByCompensator(t, Choose(true))] + [ByCompensator(t, Recheck(false))]
    + [ByCompensator(t, SaveCompensate(true))] + [ByCompensator(t, Resend(true))] + [ByCompensator(t, Judge)]
  }

  /** The world after a resend: the row counted and marked, the message handed to the broker once more. */
  function Resent(w: World, id: Id): World
    requires id in w.process
  {
    var row := w.process[id];
    Holding(w, id, Row(COMPENSATE, row.retrytimes + 1, row.createtime)).(
      sent := w.sent + {id}, resends := Bump(w.resends, id))
  }

  lemma ResendStored(w0: World, front: seq<Step>, w: World, t: TaskId, id: Id)
    requires Leads(w0, front, w) && Idle(w, t) && id in w.process && Due(w.process[id], w.now)
    ensures var row := Row(COMPENSATE, w.process[id].retrytimes + 1, w.process[id].createtime);
      Leads(w0, front + [ByCompensator(t, LoadPage([id]))] + [ByCompensator(t, Choose(true))]
                + [ByCompensator(t, Recheck(false))] + [ByCompensator(t, SaveCompensate(true))],
            Facing(Holding(w, id, row), t, Resending, id, row, w.now))
  {
    var row := w.process[id];
    var counted := row.(retrytimes := row.retrytimes + 1);
    var marked := counted.(status := COMPENSATE);
    Begins(w0, front, w, t, id);
    var run := front + [ByCompensator(t, LoadPage([id]))];
    ChoosesToResend(w, t, id, row);
    Then(w0, run, Facing(w, t, Choosing, id, row, 0), ByCompensator(t, Choose(true)),
         Facing(w, t, Rechecking, id, counted, w.now));
    run := run + [ByCompensator(t, Choose(true))];
    FindsUnconfirmed(w, t, id, counted, w.now);
    Then(w0, run, Facing(w, t, Rechecking, id, counted, w.now), ByCompensator(t, Recheck(false)),
         Facing(w, t, SavingCompensate, id, marked, w.now));
    run := run + [ByCompensator(t, Recheck(false))];
    StoresRow(w, t, id, marked, w.now);
    Then(w0, run, Facing(w, t, SavingCompensate, id, marked, w.now), ByCompensator(t, SaveCompensate(true)),
         Facing(Holding(w, id, marked), t, Resending, id, marked, w.now));
  }

  /** A row due for a resend is counted, marked and stored, its message is handed to the broker once,
      and the compensator goes on to bury it exactly if this was the sixth time. */
  lemma ResendTurn(w0: World, front: seq<Step>, w: World, t: TaskId, id: Id)
    requires Leads(w0, front, w) && Idle(w, t) && id in w.process && Due(w.process[id], w.now)
    ensures var row := Row(COMPENSATE, w.process[id].retrytimes + 1, w.process[id].createtime);
      Leads(w0, front + ResendSteps(t, id),
            if row.retrytimes >= 6 then Facing(Resent(w, id), t, SavingDead, id, row, w.now)
            else Rested(Resent(w, id), t, w.now))
  {
    var row := Row(COMPENSATE, w.process[id].retrytimes + 1, w.process[id].createtime);
    ResendStored(w0, front, w, t, id);
    var run := front + [ByCompensator(t, LoadPage([id]))] + [ByCompensator(t, Choose(true))]
      + [ByCompensator(t, Recheck(false))] + [ByCompensator(t, SaveCompensate(true))];
    SendsAgain(Holding(w, id, row), t, id, row, w.now);
    Then(w0, run, Facing(Holding(w, id, row), t, Resending, id, row, w.now), ByCompensator(t, Resend(true)),
         Facing(Resent(w, id), t, Judging, id, row, w.now));
    Judges(Resent(w, id), t, id, row, w.now);
    Then(w0, run + [ByCompensator(t, Resend(true))], Facing(Resent(w, id), t, Judging, id, row, w.now),
         ByCompensator(t, Judge),
         if row.retrytimes >= 6 then Facing(Resent(w, id), t, SavingDead, id, row, w.now)
         else Rested(Resent(w, id), t, w.now));
    assert front + ResendSteps(t, id) == run + [ByCompensator(t, Resend(true))] + [ByCompensator(t, Judge)];
  }

  lemma Buries(w0: World, front: seq<Step>, w: World, t: TaskId, id: Id, row: Row, d: int)
    requires Leads(w0, front, Facing(w, t, SavingDead, id, row, d))
    ensures Leads(w0, front + [ByCompensator(t, SaveDead(true, true))] + [ByCompensator(t, Remove(true))],
                  Rested(Without(w.(dead := w.dead + {id}), id), t, d))
  {
    SavesDead(w, t, id, row, d);
    Then(w0, front, Facing(w, t, SavingDead, id, row, d), ByCompensator(t, SaveDead(true, true)),
         Facing(w.(dead := w.dead + {id}), t, Removing, id, row.(status := DEAD), d));
    Removes(w.(dead := w.dead + {id}), t, id, row.(status := DEAD), d);
    Then(w0, front + [ByCompensator(t, SaveDead(true, true))],
         Facing(w.(dead := w.dead + {id}), t, Removing, id, row.(status := DEAD), d), ByCompensator(t, Remove(true)),
         Rested(Without(w.(dead := w.dead + {id}), id), t, d));
  }

  /** So, in any world: a row due for a resend is sent once more, counted and marked. */
  lemma DueIsResent(w: World, t: TaskId, id: Id)
    requires Idle(w, t) && id in w.process && Due(w.process[id], w.now)
    ensures exists run, end ::
              && Leads(w, run, end) && id in end.sent && Count(end.resends, id) == Count(w.resends, id) + 1
              && end.process == w.process[id := Row(COMPENSATE, w.process[id].retrytimes + 1, w.process[id].createtime)]
              && end.dead == w.dead && end.full == w.full
              && (At(end, t, SavingDead) <==> w.process[id].retrytimes >= 5)
  {
    ResendTurn(w, [], w, t, id);
  }

  /** A row that has had its resends or its time goes to the dead log, and is not sent. */
  lemma LostIsBuried(w: World, t: TaskId, id: Id)
    requires Idle(w, t) && id in w.process && Lost(w.process[id], w.now)
    ensures exists run, end ::
              && Leads(w, run, end) && end.process == w.process - {id} && end.dead == w.dead + {id}
              && end.full == w.full && end.sent == w.sent && end.resends == w.resends
  {
    var row := w.process[id];
    Begins(w, [], w, t, id);
    ChoosesOtherwise(w, t, id, row);
    Then(w, [] + [ByCompensator(t, LoadPage([id]))], Facing(w, t, Choosing, id, row, 0), ByCompensator(t, Choose(true)),
         Facing(w, t, Judging, id, row, 0));
    var run := [] + [ByCompensator(t, LoadPage([id]))] + [ByCompensator(t, Choose(true))];
    Judges(w, t, id, row, 0);
    Then(w, run, Facing(w, t, Judging, id, row, 0), ByCompensator(t, Judge), Facing(w, t, SavingDead, id, row, 0));
    Buries(w, run + [ByCompensator(t, Judge)], w, t, id, row, 0);
  }

  /** A row that died in an earlier pass is buried now. */
  lemma DeadIsBuried(w: World, t: TaskId, id: Id)
    requires Idle(w, t) && id in w.process && w.process[id].status == DEAD
    ensures exists run, end ::
              && Leads(w, run, end) && end.process == w.process - {id} && end.dead == w.dead + {id}
              && end.full == w.full && end.sent == w.sent && end.resends == w.resends
  {
    var row := w.process[id];
    Begins(w, [], w, t, id);
    ChoosesOtherwise(w, t, id, row);
    Then(w, [] + [ByCompensator(t, LoadPage([id]))], Facing(w, t, Choosing, id, row, 0), ByCompensator(t, Choose(true)),
         Facing(w, t, SavingDead, id, row, 0));
    Buries(w, [] + [ByCompensator(t, LoadPage([id]))] + [ByCompensator(t, Choose(true))], w, t, id, row, 0);
  }

  /** A confirmed row goes to the full log. */
  lemma ConfirmedIsCompleted(w: World, t: TaskId, id: Id)
    requires Idle(w, t) && id in w.process && w.process[id].status == NORMAL
    ensures exists run, end ::
              && Leads(w, run, end) && end.process == w.process - {id} && end.full == w.full + {id}
              && end.dead == w.dead && end.sent == w.sent && end.resends == w.resends
  {
    var row := w.process[id];
    Begins(w, [], w, t, id);
    ChoosesOtherwise(w, t, id, row);
    Then(w, [] + [ByCompensator(t, LoadPage([id]))], Facing(w, t, Choosing, id, row, 0), ByCompensator(t, Choose(true)),
         Facing(w, t, SavingNormal, id, row, 0));
    var run := [] + [ByCompensator(t, LoadPage([id]))] + [ByCompensator(t, Choose(true))];
    SavesNormal(w, t, id, row, 0);
    Then(w, run, Facing(w, t, SavingNormal, id, row, 0), ByCompensator(t, SaveNormal(true, true)),
         Facing(w.(full := w.full + {id}), t, Removing, id, row, 0));
    Removes(w.(full := w.full + {id}), t, id, row, 0);
    Then(w, run + [ByCompensator(t, SaveNormal(true, true))], Facing(w.(full := w.full + {id}), t, Removing, id, row, 0),
         ByCompensator(t, Remove(true)), Rested(Without(w.(full := w.full + {id}), id), t, 0));
  }

  /** A young READY row, and a resent one that may still be confirmed, is left alone. */
  lemma OthersWait(w: World, t: TaskId, id: Id)
    requires Idle(w, t) && id in w.process && !Due(w.process[id], w.now) && !Lost(w.process[id], w.now)
    requires w.process[id].status == READY || w.process[id].status == COMPENSATE
    ensures exists run, end ::
              && Leads(w, run, end) && end.process == w.process && end.dead == w.dead && end.full == w.full
              && end.sent == w.sent && Idle(end, t)
  {
    var row := w.process[id];
    Begins(w, [], w, t, id);
    ChoosesOtherwise(w, t, id, row);
    Then(w, [] + [ByCompensator(t, LoadPage([id]))], Facing(w, t, Choosing, id, row, 0), ByCompensator(t, Choose(true)),
         Facing(w, t, Judging, id, row, 0));
    var run := [] + [ByCompensator(t, LoadPage([id]))] + [ByCompensator(t, Choose(true))];
    Judges(w, t, id, row, 0);
    Then(w, run, Facing(w, t, Judging, id, row, 0), ByCompensator(t, Judge), Rested(w, t, 0));
  }

  // ----- callbacks

  lemma TaskGone(w: World, t: TaskId, task: Task)
    requires t !in w.tasks
    ensures w.tasks[t := task] - {t} == w.tasks
  {}

  /** A failure callback marks the row FAIL, whatever it was. */
  lemma FailureTurn(w0: World, front: seq<Step>, w: World, t: TaskId, id: Id)
    requires Leads(w0, front, w) && t !in w.tasks && id in w.sent && id in w.process
    ensures Leads(w0, front + [ByCallback(t, StartFailure(id))] + [ByCallback(t, MarkFailed(true))],
                  Holding(w, id, w.process[id].(status := FAIL)))
  {
    var started := WithTask(w, t, Callback(MarkingFail, id));
    Then(w0, front, w, ByCallback(t, StartFailure(id)), started);
    TaskGone(w, t, Callback(MarkingFail, id));
    var p := w.process[id := w.process[id].(status := FAIL)];
    assert w.recorded + p.Keys == w.recorded + w.process.Keys + {id};
    Then(w0, front + [ByCallback(t, StartFailure(id))], started, ByCallback(t, MarkFailed(true)),
         Holding(w, id, w.process[id].(status := FAIL)));
  }

  /** So, in any world: the row is FAIL, so that the next compensator resends or buries it. */
  lemma FailureIsMarked(w: World, t: TaskId, id: Id)
    requires t !in w.tasks && id in w.sent && id in w.process
    ensures exists run, end ::
              && Leads(w, run, end) && end.process == w.process[id := w.process[id].(status := FAIL)]
              && end.full == w.full && end.dead == w.dead
  {
    FailureTurn(w, [], w, t, id);
  }

  /** A success callback moves the message from the process table to the full log. */
  lemma SuccessTurn(w: World, t: TaskId, id: Id)
    requires t !in w.tasks && id in w.acked && id in w.process
    ensures exists run, end ::
              Leads(w, run, end) && end.process == w.process - {id} && end.full == w.full + {id} && end.dead == w.dead
  {
    var started := WithTask(w, t, Callback(Deleting, id));
    var deleted := WithTask(Without(w, id), t, Callback(SavingFull, id));
    Then(w, [], w, ByCallback(t, StartSuccess(id)), started);
    assert (w.process - {id}).Keys == w.process.Keys - {id};
    assert started.tasks[t := Callback(SavingFull, id)] == w.tasks[t := Callback(SavingFull, id)];
    Then(w, [] + [ByCallback(t, StartSuccess(id))], started, ByCallback(t, Delete(true, true)), deleted);
    TaskGone(w, t, Callback(SavingFull, id));
    Then(w, [] + [ByCallback(t, StartSuccess(id))] + [ByCallback(t, Delete(true, true))], deleted,
         ByCallback(t, SaveFull(true)), Without(w, id).(full := w.full + {id}));
  }

  /** A success callback whose deletion does not get through marks the row NORMAL, and saves the message
      all the same. */
  lemma UndeletedIsMarked(w: World, t: TaskId, id: Id)
    requires t !in w.tasks && id in w.acked && id in w.process
    ensures exists run, end ::
              && Leads(w, run, end) && end.process == w.process[id := w.process[id].(status := NORMAL)]
              && end.full == w.full + {id} && end.dead == w.dead
  {
    var started := WithTask(w, t, Callback(Deleting, id));
    var marking := WithTask(WithProcess(started, w.process), t, Callback(MarkingNormal, id));
    var p := w.process[id := w.process[id].(status := NORMAL)];
    var marked := WithTask(WithProcess(marking, p), t, Callback(SavingFull, id));
    Then(w, [], w, ByCallback(t, StartSuccess(id)), started);
    var run := [] + [ByCallback(t, StartSuccess(id))];
    Then(w, run, started, ByCallback(t, Delete(false, false)), marking);
    run := run + [ByCallback(t, Delete(false, false))];
    Then(w, run, marking, ByCallback(t, MarkNormal(true, false)), marked);
    run := run + [ByCallback(t, MarkNormal(true, false))];
    Then(w, run, marked, ByCallback(t, SaveFull(true)), WithoutTask(marked.(full := w.full + {id}), t));
  }

  /** A client whose send has failed marks the row FAIL if the update gets through and it is not already
      confirmed, whatever has happened since it was saved, and touches no other. */
  lemma FailedSendIsMarked(w: World, t: TaskId, other: Id)
    requires AtClient(w, t, Sent)
    ensures var id, p := w.tasks[t].id, Apply(w, ByClient(t, MarkFail(true))).process;
      && p.Keys == w.process.Keys
      && (id in p ==> p[id] == if w.process[id].status == NORMAL then w.process[id] else w.process[id].(status := FAIL))
      && (other in p && other != id ==> p[other] == w.process[other])
  {}

  // ----- six resends

  /** The message has been resent k times, and each time its callback reported a failure; one
      compensator is at work. */
  predicate FailedTimes(w: World, id: Id, k: nat) {
    && w.now == 0 && w.tasks.Keys == {0} && Idle(w, 0)
    && id in w.process && w.process[id] == Row(FAIL, k, 0) && id in w.sent && Count(w.resends, id) == k
  }

  lemma FirstFailure(id: Id) returns (run: seq<Step>, w: World)
    ensures Leads(NOTHING, run, w) && FailedTimes(w, id, 0)
  {
    var saved := SaveEffect(NOTHING, 1, id, 0, true, true);
    var sent := SendEffect(saved, 1, true, true);
    var marked := MarkFailEffect(sent, 1, true);
    Then(NOTHING, [], NOTHING, ByClient(1, Save(id, 0, true, true)), saved);
    run := [] + [ByClient(1, Save(id, 0, true, true))];
    Then(NOTHING, run, saved, ByClient(1, Send(true, true)), sent);
    run := run + [ByClient(1, Send(true, true))];
    Then(NOTHING, run, sent, ByClient(1, MarkFail(true)), marked);
    run := run + [ByClient(1, MarkFail(true))];
    w := WithTask(marked, 0, Compensator(Choosing, [], 0));
    assert marked.tasks == map[];
    Then(NOTHING, run, marked, ByCompensator(0, Start), w);
    run := run + [ByCompensator(0, Start)];
  }

  lemma OneMoreFailure(front: seq<Step>, w: World, id: Id, k: nat) returns (run: seq<Step>, w': World)
    requires Leads(NOTHING, front, w) && FailedTimes(w, id, k) && k < 5
    ensures Leads(NOTHING, run, w') && FailedTimes(w', id, k + 1)
  {
    ResendTurn(NOTHING, front, w, 0, id);
    var resent := Rested(Resent(w, id), 0, w.now);
    FailureTurn(NOTHING, front + ResendSteps(0, id), resent, 1, id);
    run := front + ResendSteps(0, id) + [ByCallback(1, StartFailure(id))] + [ByCallback(1, MarkFailed(true))];
    w' := Holding(resent, id, resent.process[id].(status := FAIL));
  }

  lemma {:induction false} FailsTimes(id: Id, k: nat) returns (run: seq<Step>, w: World)
    requires k <= 5
    ensures Leads(NOTHING, run, w) && FailedTimes(w, id, k)
  {
    if k == 0 {
      run, w := FirstFailure(id);
    } else {
      run, w := FailsTimes(id, k - 1);
      run, w := OneMoreFailure(run, w, id, k - 1);
    }
  }

  /** The bound of six is met: a run from empty tables, with one compensator and no count lost, resends
      a message exactly six times, and then buries it. */
  lemma SixResends(id: Id)
    ensures exists run, end ::
              Leads(NOTHING, run, end) && Count(end.resends, id) == 6 && id in end.dead && id !in end.process
  {
    var run, w := FailsTimes(id, 5);
    ResendTurn(NOTHING, run, w, 0, id);
    var row := Row(COMPENSATE, 6, 0);
    run := run + ResendSteps(0, id);
    Buries(NOTHING, run, Resent(w, id), 0, id, row, w.now);
    run := run + [ByCompensator(0, SaveDead(true, true))] + [ByCompensator(0, Remove(true))];
  }
}
