/** How often a message is resent, when one compensator works at a time and every message is
    recorded once. */
module ProducerRetries {
  import opened CompensationRules
  import opened Counting
  import opened ProducerProtocol

  const MAX_RESENDS := MAX_RETRYTIMES + 1

  /** The lock admits one compensator, and a client stores a row only for a message not yet recorded. */
  ghost predicate Disciplined(w: World, s: Step) {
    match s
    case ByClient(t, Save(id, _, landed, _)) => landed ==> id !in w.recorded
    case ByClient(t, SaveAgain(landed)) => landed && t in w.tasks && w.tasks[t].Client? ==> w.tasks[t].id !in w.recorded
    case ByCompensator(_, Start) => forall t :: t in w.tasks ==> !w.tasks[t].Compensator?
    case _ => true
  }

  ghost predicate Orderly(w: World, run: seq<Step>)
    decreases |run|
  {
    |run| == 0 || (Enabled(w, run[0]) && Disciplined(w, run[0]) && Orderly(Apply(w, run[0]), run[1..]))
  }

  /** Resends that went out or were charged for nothing. */
  function Spent(w: World, id: Id): nat {
    Count(w.resends, id) + Count(w.unsent, id)
  }

  /** What a stored retry count accounts for, together with the counts that were not stored. */
  function Charged(w: World, id: Id, retrytimes: int): int {
    retrytimes + Count(w.unsaved, id)
  }

  ghost predicate AboutToResend(w: World, id: Id) {
    exists t :: t in w.tasks && ResendingHead(w.tasks[t], id)
  }

  predicate ResendingHead(task: Task, id: Id) {
    task.Compensator? && task.stage == Resending && |task.queue| > 0 && task.queue[0].id == id
  }

  ghost predicate RowAccounted(w: World, id: Id)
    requires id in w.process
  {
    var row := w.process[id];
    && row.retrytimes <= MAX_RESENDS
    && (row.status == READY ==> row.retrytimes == 0)
    && Charged(w, id, row.retrytimes) == Spent(w, id) + if AboutToResend(w, id) then 1 else 0
  }

  ghost predicate SnapshotAccounted(w: World, s: Snapshot, charge: int) {
    && s.id in w.recorded
    && s.row.retrytimes <= MAX_RESENDS
    && Charged(w, s.id, s.row.retrytimes) == Spent(w, s.id) + charge
  }

  ghost predicate QueueAccounted(w: World, task: Task)
    requires task.Compensator?
  {
    var queue := task.queue;
    && (forall i, j :: 0 <= i < j < |queue| ==> queue[i].id != queue[j].id)
    && (forall i :: 1 <= i < |queue| ==>
          SnapshotAccounted(w, queue[i], 0) && (queue[i].row.status == READY ==> queue[i].row.retrytimes == 0))
    && (|queue| > 0 && task.stage == Choosing ==>
          SnapshotAccounted(w, queue[0], 0) && (queue[0].row.status == READY ==> queue[0].row.retrytimes == 0))
    && (|queue| > 0 && (task.stage == Rechecking || task.stage == SavingCompensate) ==>
          SnapshotAccounted(w, queue[0], 1))
    && (|queue| > 0 && task.stage == SavingCompensate ==> queue[0].row.status == COMPENSATE)
    && (|queue| > 0 && task.stage == Resending ==>
          queue[0].id in w.recorded && Spent(w, queue[0].id) + 1 <= MAX_RESENDS + Count(w.unsaved, queue[0].id))
  }

  ghost predicate OneCompensator(w: World) {
    forall t, u :: t in w.tasks && u in w.tasks && w.tasks[t].Compensator? && w.tasks[u].Compensator? ==> t == u
  }

  ghost predicate Accounted(w: World) {
    && OneCompensator(w)
    && w.process.Keys <= w.recorded
    && (forall id :: id in w.process ==> RowAccounted(w, id))
    && (forall t :: t in w.tasks && w.tasks[t].Compensator? ==> QueueAccounted(w, w.tasks[t]))
    && (forall id :: Spent(w, id) <= MAX_RESENDS + Count(w.unsaved, id))
    && (forall id :: id !in w.recorded ==> Spent(w, id) == 0 && Count(w.unsaved, id) == 0)
  }

  // ----- clients and callbacks leave the accounts alone

  /** Everything but statuses, rows of unrecorded messages and rows gone is as before. */
  ghost predicate OnlyStatuses(w: World, w': World) {
    && w'.resends == w.resends && w'.unsent == w.unsent && w'.unsaved == w.unsaved
    && w.recorded <= w'.recorded && w'.process.Keys <= w'.recorded
    && (forall t :: t in w'.tasks && w'.tasks[t].Compensator? ==> t in w.tasks && w'.tasks[t] == w.tasks[t])
    && (forall t :: t in w.tasks && w.tasks[t].Compensator? ==> t in w'.tasks && w'.tasks[t] == w.tasks[t])
    && (forall id :: id in w'.process ==>
          if id in w.process
          then w'.process[id].retrytimes == w.process[id].retrytimes
            && (w'.process[id].status == READY ==> w.process[id].status == READY)
          else id !in w.recorded && w'.process[id].retrytimes == 0)
  }

  lemma SameResends(w: World, w': World)
    requires OnlyStatuses(w, w')
    ensures forall id :: AboutToResend(w', id) <==> AboutToResend(w, id)
  {
    forall id ensures AboutToResend(w', id) <==> AboutToResend(w, id) {
      if AboutToResend(w', id) {
        var t :| t in w'.tasks && ResendingHead(w'.tasks[t], id);
        assert t in w.tasks && ResendingHead(w.tasks[t], id);
      }
      if AboutToResend(w, id) {
        var t :| t in w.tasks && ResendingHead(w.tasks[t], id);
        assert t in w'.tasks && ResendingHead(w'.tasks[t], id);
      }
    }
  }

  lemma OthersKeepAccounts(w: World, w': World)
    requires Accounted(w) && OnlyStatuses(w, w')
    ensures Accounted(w')
  {
    SameResends(w, w');
    forall id | id in w'.process ensures RowAccounted(w', id) {
      if id in w.process {
        assert RowAccounted(w, id);
      }
    }
    forall t | t in w'.tasks && w'.tasks[t].Compensator? ensures QueueAccounted(w', w'.tasks[t]) {
      assert QueueAccounted(w, w.tasks[t]);
    }
  }

  /** Only task t moved, and it is not a compensator. */
  ghost predicate OnlyTask(w: World, w': World, t: TaskId) {
    && (t in w.tasks ==> !w.tasks[t].Compensator?)
    && (t in w'.tasks ==> !w'.tasks[t].Compensator?)
    && (forall u :: u != t ==> (u in w.tasks <==> u in w'.tasks))
    && (forall u :: u != t && u in w.tasks ==> w'.tasks[u] == w.tasks[u])
  }

  ghost predicate SameCounts(w: World, w': World) {
    w'.resends == w.resends && w'.unsent == w.unsent && w'.unsaved == w.unsaved
  }

  /** Rows were deleted or changed their status, but not to READY. */
  ghost predicate SameRetries(p: map<Id, Row>, p': map<Id, Row>) {
    && p'.Keys <= p.Keys
    && (forall id :: id in p' ==> p'[id].retrytimes == p[id].retrytimes)
    && (forall id :: id in p' && p'[id].status == READY ==> p[id].status == READY)
  }

  lemma UpdatesAndDeletes(p: map<Id, Row>, id: Id, status: Status, landed: bool)
    ensures SameRetries(p, p) && SameRetries(p, Deleted(p, id, landed))
    ensures status != READY ==> SameRetries(p, Updated(p, id, status, landed))
  {
  }

  lemma StatusKeepsAccounts(w: World, w': World, t: TaskId)
    requires Accounted(w) && OnlyTask(w, w', t) && SameCounts(w, w')
    requires w'.recorded == w.recorded + w'.process.Keys && SameRetries(w.process, w'.process)
    ensures Accounted(w')
  {
    OthersKeepAccounts(w, w');
  }

  lemma SaveKeepsAccounts(w: World, t: TaskId, id: Id, createtime: int, landed: bool, reported: bool)
    requires Accounted(w) && t !in w.tasks && (landed ==> id !in w.recorded)
    ensures Accounted(SaveEffect(w, t, id, createtime, landed, reported))
  {
    OthersKeepAccounts(w, SaveEffect(w, t, id, createtime, landed, reported));
  }

  lemma SaveAgainKeepsAccounts(w: World, t: TaskId, landed: bool)
    requires Accounted(w) && AtClient(w, t, Marked) && (landed ==> w.tasks[t].id !in w.recorded)
    ensures Accounted(SaveAgainEffect(w, t, landed))
  {
    OthersKeepAccounts(w, SaveAgainEffect(w, t, landed));
  }

  lemma SendKeepsAccounts(w: World, t: TaskId, delivered: bool, failed: bool)
    requires Accounted(w) && AtClient(w, t, Saved)
    ensures Accounted(SendEffect(w, t, delivered, failed))
  {
    OthersKeepAccounts(w, SendEffect(w, t, delivered, failed));
  }

  lemma MarkFailKeepsAccounts(w: World, t: TaskId, landed: bool)
    requires Accounted(w) && AtClient(w, t, Sent)
    ensures Accounted(MarkFailEffect(w, t, landed))
  {
    UpdatesAndDeletes(w.process, w.tasks[t].id, FAIL, landed);
    StatusKeepsAccounts(w, MarkFailEffect(w, t, landed), t);
  }

  lemma DeleteKeepsAccounts(w: World, t: TaskId, landed: bool, reported: bool)
    requires Accounted(w) && AtCallback(w, t, Deleting)
    ensures Accounted(DeleteEffect(w, t, landed, reported))
  {
    UpdatesAndDeletes(w.process, w.tasks[t].id, NORMAL, landed);
    StatusKeepsAccounts(w, DeleteEffect(w, t, landed, reported), t);
  }

  lemma MarkNormalKeepsAccounts(w: World, t: TaskId, landed: bool, thrown: bool)
    requires Accounted(w) && AtCallback(w, t, MarkingNormal)
    ensures Accounted(MarkNormalEffect(w, t, landed, thrown))
  {
    UpdatesAndDeletes(w.process, w.tasks[t].id, NORMAL, landed);
    StatusKeepsAccounts(w, MarkNormalEffect(w, t, landed, thrown), t);
  }

  lemma MarkFailedKeepsAccounts(w: World, t: TaskId, landed: bool)
    requires Accounted(w) && AtCallback(w, t, MarkingFail)
    ensures Accounted(MarkFailedEffect(w, t, landed))
  {
    UpdatesAndDeletes(w.process, w.tasks[t].id, FAIL, landed);
    StatusKeepsAccounts(w, MarkFailedEffect(w, t, landed), t);
  }

  lemma ClientKeepsAccounts(w: World, t: TaskId, m: ClientMove)
    requires Accounted(w) && ClientEnabled(w, t, m) && Disciplined(w, ByClient(t, m))
    ensures Accounted(ClientEffect(w, t, m))
  {
    match m
    case Save(id, createtime, landed, reported) => SaveKeepsAccounts(w, t, id, createtime, landed, reported);
    case Send(delivered, failed) => SendKeepsAccounts(w, t, delivered, failed);
    case MarkFail(landed) => MarkFailKeepsAccounts(w, t, landed);
    case SaveAgain(landed) => SaveAgainKeepsAccounts(w, t, landed);
  }

  lemma CallbackKeepsAccounts(w: World, t: TaskId, m: CallbackMove)
    requires Accounted(w) && CallbackEnabled(w, t, m)
    ensures Accounted(CallbackEffect(w, t, m))
  {
    match m
    case StartSuccess(_) => OthersKeepAccounts(w, CallbackEffect(w, t, m));
    case StartFailure(_) => OthersKeepAccounts(w, CallbackEffect(w, t, m));
    case Delete(landed, reported) => DeleteKeepsAccounts(w, t, landed, reported);
    case MarkNormal(landed, thrown) => MarkNormalKeepsAccounts(w, t, landed, thrown);
    case SaveFull(_) => OthersKeepAccounts(w, CallbackEffect(w, t, m));
    case MarkFailed(landed) => MarkFailedKeepsAccounts(w, t, landed);
  }

  // ----- the compensator

  lemma SoleCompensator(w: World, t: TaskId, id: Id)
    requires OneCompensator(w) && t in w.tasks && w.tasks[t].Compensator?
    ensures AboutToResend(w, id) <==> ResendingHead(w.tasks[t], id)
  {
    if ResendingHead(w.tasks[t], id) {
      assert AboutToResend(w, id);
    }
  }

  /** The compensator moves on without storing or resending; rows may only disappear. */
  ghost predicate MovesOn(w: World, w': World, t: TaskId) {
    && t in w.tasks && w.tasks[t].Compensator? && w.tasks[t].stage != Resending
    && t in w'.tasks && w'.tasks[t].Compensator? && w'.tasks[t].stage != Resending
    && w'.resends == w.resends && w'.unsent == w.unsent && w'.unsaved == w.unsaved
    && w.recorded <= w'.recorded
    && w'.tasks == w.tasks[t := w'.tasks[t]]
    && w'.process.Keys <= w.process.Keys
    && (forall id :: id in w'.process ==> w'.process[id] == w.process[id])
  }

  lemma MovingOnKeepsAccounts(w: World, w': World, t: TaskId)
    requires Accounted(w) && MovesOn(w, w', t) && QueueAccounted(w', w'.tasks[t])
    ensures Accounted(w')
  {
    assert OneCompensator(w');
    forall id ensures !AboutToResend(w', id) && !AboutToResend(w, id) {
      SoleCompensator(w, t, id);
      SoleCompensator(w', t, id);
    }
    forall id | id in w'.process ensures RowAccounted(w', id) {
      assert RowAccounted(w, id);
    }
    forall u | u in w'.tasks && w'.tasks[u].Compensator? ensures QueueAccounted(w', w'.tasks[u]) {
      assert u == t;
    }
  }

  lemma LoadingKeepsAccounts(w: World, t: TaskId, page: seq<Id>)
    requires Accounted(w) && CompensatorEnabled(w, t, LoadPage(page))
    ensures Accounted(LoadEffect(w, t, page))
  {
    var w' := LoadEffect(w, t, page);
    assert QueueAccounted(w, w.tasks[t]);
    forall id ensures !ResendingHead(w.tasks[t], id) {}
    forall i | 0 <= i < |page|
      ensures SnapshotAccounted(w', w'.tasks[t].queue[i], 0)
      ensures w'.tasks[t].queue[i].row.status == READY ==> w'.tasks[t].queue[i].row.retrytimes == 0
    {
      assert RowAccounted(w, page[i]);
      SoleCompensator(w, t, page[i]);
    }
    LoadedKeepsAccounts(w, w', t);
  }

  lemma LoadedKeepsAccounts(w: World, w': World, t: TaskId)
    requires Accounted(w) && t in w.tasks && w.tasks[t].Compensator? && w.tasks[t].queue == []
    requires t in w'.tasks && w'.tasks[t].Compensator? && w'.tasks[t].stage == Choosing
    requires w' == w.(tasks := w.tasks[t := w'.tasks[t]]) && QueueAccounted(w', w'.tasks[t])
    ensures Accounted(w')
  {
    forall id ensures !AboutToResend(w', id) && !AboutToResend(w, id) {
      SoleCompensator(w, t, id);
      SoleCompensator(w', t, id);
    }
    forall id | id in w'.process ensures RowAccounted(w', id) {
      assert RowAccounted(w, id);
    }
  }

  lemma StartingKeepsAccounts(w: World, t: TaskId)
    requires Accounted(w) && t !in w.tasks && Disciplined(w, ByCompensator(t, Start))
    ensures Accounted(WithTask(w, t, Compensator(Choosing, [], 0)))
  {
    var w' := WithTask(w, t, Compensator(Choosing, [], 0));
    forall id ensures !AboutToResend(w', id) && !AboutToResend(w, id) {}
    forall id | id in w'.process ensures RowAccounted(w', id) {
      assert RowAccounted(w, id);
    }
  }

  /** The queue's accounts depend on the history only. */
  lemma SameHistory(w: World, w': World, task: Task)
    requires task.Compensator? && QueueAccounted(w, task)
    requires w'.resends == w.resends && w'.unsent == w.unsent && w'.unsaved == w.unsaved && w.recorded <= w'.recorded
    ensures QueueAccounted(w', task)
  {
  }

  lemma NextRowAccounted(w: World, c: Task)
    requires c.Compensator? && |c.queue| > 0 && QueueAccounted(w, c)
    ensures QueueAccounted(w, NextRow(c))
  {
  }

  /** Stages after the resend ask nothing of the first row. */
  lemma LaterStageAccounted(w: World, c: Task, stage: CompensatorStage, row: Row)
    requires c.Compensator? && |c.queue| > 0 && QueueAccounted(w, c)
    requires stage == Judging || stage == SavingDead || stage == SavingNormal || stage == Removing
    ensures QueueAccounted(w, WithHead(Go(c, stage), row)) && QueueAccounted(w, Go(c, stage))
  {
  }

  lemma ChosenAccounted(w: World, c: Task, now: int, parsed: bool)
    requires c.Compensator? && |c.queue| > 0 && c.stage == Choosing && QueueAccounted(w, c)
    ensures QueueAccounted(w, Chosen(c, now, parsed)) && Chosen(c, now, parsed).stage != Resending
  {
    var row := c.queue[0].row;
    if Pending(row.status) && ShouldReSend(row, now) && parsed {
      assert SnapshotAccounted(w, Snapshot(c.queue[0].id, row.(retrytimes := row.retrytimes + 1)), 1);
    } else {
      LaterStageAccounted(w, c, Judging, row);
      LaterStageAccounted(w, c, SavingDead, row);
      LaterStageAccounted(w, c, SavingNormal, row);
    }
  }

  lemma ChoosingKeepsAccounts(w: World, t: TaskId, parsed: bool)
    requires Accounted(w) && At(w, t, Choosing)
    ensures Accounted(WithTask(w, t, Chosen(w.tasks[t], w.now, parsed)))
  {
    var w' := WithTask(w, t, Chosen(w.tasks[t], w.now, parsed));
    ChosenAccounted(w, w.tasks[t], w.now, parsed);
    SameHistory(w, w', w'.tasks[t]);
    MovingOnKeepsAccounts(w, w', t);
  }

  lemma ReadyToSave(w: World, c: Task)
    requires c.Compensator? && |c.queue| > 0 && c.stage == Rechecking && QueueAccounted(w, c)
    ensures QueueAccounted(w, Go(WithHead(c, c.queue[0].row.(status := COMPENSATE)), SavingCompensate))
  {
  }

  lemma RetaskKeepsAccounts(w: World, t: TaskId, task: Task)
    requires Accounted(w) && t in w.tasks && w.tasks[t].Compensator? && w.tasks[t].stage != Resending
    requires task.Compensator? && task.stage != Resending && QueueAccounted(w, task)
    ensures Accounted(WithTask(w, t, task))
  {
    var w' := WithTask(w, t, task);
    SameHistory(w, w', task);
    MovingOnKeepsAccounts(w, w', t);
  }

  lemma RecheckingKeepsAccounts(w: World, t: TaskId, thrown: bool)
    requires Accounted(w) && At(w, t, Rechecking)
    ensures Accounted(RecheckEffect(w, t, thrown))
  {
    var c := w.tasks[t];
    assert QueueAccounted(w, c);
    LaterStageAccounted(w, c, Judging, c.queue[0].row);
    ReadyToSave(w, c);
    var save := Go(WithHead(c, c.queue[0].row.(status := COMPENSATE)), SavingCompensate);
    RetaskKeepsAccounts(w, t, Go(c, Judging));
    RetaskKeepsAccounts(w, t, save);
  }

  lemma JudgingKeepsAccounts(w: World, t: TaskId)
    requires Accounted(w) && At(w, t, Judging)
    ensures Accounted(JudgeEffect(w, t))
  {
    var w', c := JudgeEffect(w, t), w.tasks[t];
    LaterStageAccounted(w, c, SavingDead, c.queue[0].row);
    NextRowAccounted(w, c);
    SameHistory(w, w', w'.tasks[t]);
    MovingOnKeepsAccounts(w, w', t);
  }

  lemma SaveDeadKeepsAccounts(w: World, t: TaskId, landed: bool, reported: bool)
    requires Accounted(w) && At(w, t, SavingDead)
    ensures Accounted(SaveDeadEffect(w, t, landed, reported))
  {
    var w', c := SaveDeadEffect(w, t, landed, reported), w.tasks[t];
    LaterStageAccounted(w, c, Removing, c.queue[0].row.(status := DEAD));
    NextRowAccounted(w, c);
    SameHistory(w, w', w'.tasks[t]);
    MovingOnKeepsAccounts(w, w', t);
  }

  lemma SaveNormalKeepsAccounts(w: World, t: TaskId, landed: bool, reported: bool)
    requires Accounted(w) && At(w, t, SavingNormal)
    ensures Accounted(SaveNormalEffect(w, t, landed, reported))
  {
    var w', c := SaveNormalEffect(w, t, landed, reported), w.tasks[t];
    LaterStageAccounted(w, c, Removing, c.queue[0].row);
    NextRowAccounted(w, c);
    SameHistory(w, w', w'.tasks[t]);
    MovingOnKeepsAccounts(w, w', t);
  }

  lemma RemoveKeepsAccounts(w: World, t: TaskId, landed: bool)
    requires Accounted(w) && At(w, t, Removing)
    ensures Accounted(RemoveEffect(w, t, landed))
  {
    var w', c := RemoveEffect(w, t, landed), w.tasks[t];
    NextRowAccounted(w, c);
    SameHistory(w, w', w'.tasks[t]);
    MovingOnKeepsAccounts(w, w', t);
  }

  lemma CountBump(m: map<Id, nat>, id: Id, other: Id)
    ensures Count(Bump(m, id), other) == Count(m, other) + if id == other then 1 else 0
  {
  }

  /** The history of another message is untouched, and so are its snapshots' accounts. */
  lemma OtherSnapshots(w: World, w': World, c: Task, c': Task)
    requires c.Compensator? && c'.Compensator? && |c.queue| > 0 && QueueAccounted(w, c)
    requires c'.queue == c.queue && w.recorded <= w'.recorded
    requires forall id :: id != c.queue[0].id ==>
      Spent(w', id) == Spent(w, id) && Count(w'.unsaved, id) == Count(w.unsaved, id)
    requires c'.stage == Judging || (c'.stage == Resending && c.queue[0].id in w'.recorded
      && Spent(w', c.queue[0].id) + 1 <= MAX_RESENDS + Count(w'.unsaved, c.queue[0].id))
    ensures QueueAccounted(w', c')
  {
    forall i | 1 <= i < |c.queue| ensures SnapshotAccounted(w', c.queue[i], 0) {
      assert SnapshotAccounted(w, c.queue[i], 0) && c.queue[i].id != c.queue[0].id;
    }
  }

  lemma StoringCharges(w: World, t: TaskId, landed: bool, id: Id)
    requires OneCompensator(w) && At(w, t, SavingCompensate)
    ensures var w', head := SaveCompensateEffect(w, t, landed), w.tasks[t].queue[0];
      && !AboutToResend(w, id) && (AboutToResend(w', id) <==> id == head.id)
      && Spent(w', id) == Spent(w, id)
      && Count(w'.unsaved, id) == Count(w.unsaved, id) + if id == head.id && !landed then 1 else 0
  {
    var w' := SaveCompensateEffect(w, t, landed);
    SoleCompensator(w, t, id);
    SoleCompensator(w', t, id);
    CountBump(w.unsaved, w.tasks[t].queue[0].id, id);
  }

  /** Storing the new retry count charges one resend in advance; so does failing to store it. */
  lemma StoringKeepsAccounts(w: World, t: TaskId, landed: bool)
    requires Accounted(w) && At(w, t, SavingCompensate)
    ensures Accounted(SaveCompensateEffect(w, t, landed))
  {
    var w', c := SaveCompensateEffect(w, t, landed), w.tasks[t];
    var head := c.queue[0];
    assert QueueAccounted(w, c) && SnapshotAccounted(w, head, 1);
    forall id {
      StoringCharges(w, t, landed, id);
    }
    forall id | id in w'.process ensures RowAccounted(w', id) {
      if id in w.process {
        assert RowAccounted(w, id);
      }
    }
    OtherSnapshots(w, w', c, w'.tasks[t]);
  }

  /** The resend, or its failure, spends the charge. */
  lemma ResendingKeepsAccounts(w: World, t: TaskId, delivered: bool)
    requires Accounted(w) && At(w, t, Resending)
    ensures Accounted(ResendEffect(w, t, delivered))
  {
    var w', c := ResendEffect(w, t, delivered), w.tasks[t];
    var head := c.queue[0];
    assert QueueAccounted(w, c);
    forall id
      ensures !AboutToResend(w', id) && (AboutToResend(w, id) <==> id == head.id)
      ensures Spent(w', id) == Spent(w, id) + if id == head.id then 1 else 0
    {
      SoleCompensator(w, t, id);
      SoleCompensator(w', t, id);
      CountBump(w.resends, head.id, id);
      CountBump(w.unsent, head.id, id);
    }
    forall id | id in w'.process ensures RowAccounted(w', id) {
      assert RowAccounted(w, id);
    }
    OtherSnapshots(w, w', c, w'.tasks[t]);
  }

  lemma CompensatorCrashKeepsAccounts(w: World, t: TaskId)
    requires Accounted(w) && t in w.tasks && w.tasks[t].Compensator?
    ensures Accounted(CrashEffect(w, t))
  {
    var w' := CrashEffect(w, t);
    assert QueueAccounted(w, w.tasks[t]);
    forall id
      ensures !AboutToResend(w', id) && (AboutToResend(w, id) <==> ResendingHead(w.tasks[t], id))
      ensures Spent(w', id) == Spent(w, id) + if ResendingHead(w.tasks[t], id) then 1 else 0
    {
      SoleCompensator(w, t, id);
      if At(w, t, Resending) { CountBump(w.unsent, w.tasks[t].queue[0].id, id); }
    }
    forall id | id in w'.process ensures RowAccounted(w', id) {
      assert RowAccounted(w, id);
    }
  }

  lemma CrashKeepsAccounts(w: World, t: TaskId)
    requires Accounted(w) && t in w.tasks
    ensures Accounted(CrashEffect(w, t))
  {
    if w.tasks[t].Compensator? {
      CompensatorCrashKeepsAccounts(w, t);
    } else {
      OthersKeepAccounts(w, CrashEffect(w, t));
    }
  }

  lemma StepKeepsAccounts(w: World, s: Step)
    requires Accounted(w) && Enabled(w, s) && Disciplined(w, s)
    ensures Accounted(Apply(w, s))
  {
    match s
    case Tick(_) => OthersKeepAccounts(w, Apply(w, s));
    case BrokerAck(_) => OthersKeepAccounts(w, Apply(w, s));
    case ByClient(t, m) => ClientKeepsAccounts(w, t, m);
    case ByCallback(t, m) => CallbackKeepsAccounts(w, t, m);
    case Crash(t) => CrashKeepsAccounts(w, t);
    case ByCompensator(t, m) =>
      match m
      case Start => StartingKeepsAccounts(w, t);
      case LoadPage(page) => LoadingKeepsAccounts(w, t, page);
      case SaveCompensate(landed) => StoringKeepsAccounts(w, t, landed);
      case Resend(delivered) => ResendingKeepsAccounts(w, t, delivered);
      case Choose(parsed) => ChoosingKeepsAccounts(w, t, parsed);
      case Recheck(thrown) => RecheckingKeepsAccounts(w, t, thrown);
      case Judge => JudgingKeepsAccounts(w, t);
      case SaveDead(landed, reported) => SaveDeadKeepsAccounts(w, t, landed, reported);
      case SaveNormal(landed, reported) => SaveNormalKeepsAccounts(w, t, landed, reported);
      case Remove(landed) => RemoveKeepsAccounts(w, t, landed);
  }

  lemma {:induction false} RunKeepsAccounts(w: World, run: seq<Step>)
    requires Accounted(w) && Orderly(w, run)
    ensures Feasible(w, run) && Accounted(After(w, run))
    decreases |run|
  {
    if |run| > 0 {
      StepKeepsAccounts(w, run[0]);
      RunKeepsAccounts(Apply(w, run[0]), run[1..]);
    }
  }

  /** The stored retry count is the number of resends, corrected for counts that were not stored
      and for stored counts whose resend did not go out. */
  lemma RetrytimesCountResends(w: World, run: seq<Step>, id: Id)
    requires Initial(w) && Orderly(w, run)
    ensures Feasible(w, run)
    ensures var end := After(w, run);
      id in end.process && !AboutToResend(end, id) ==>
      end.process[id].retrytimes + Count(end.unsaved, id) == Count(end.resends, id) + Count(end.unsent, id)
  {
    RunKeepsAccounts(w, run);
    var end := After(w, run);
    if id in end.process {
      assert RowAccounted(end, id);
    }
  }

  /** No message is resent more than six times, save for resends whose count was not stored. */
  lemma ResendsBounded(w: World, run: seq<Step>, id: Id)
    requires Initial(w) && Orderly(w, run)
    ensures Feasible(w, run)
    ensures Count(After(w, run).resends, id) <= 6 + Count(After(w, run).unsaved, id)
  {
    RunKeepsAccounts(w, run);
    assert Spent(After(w, run), id) <= MAX_RESENDS + Count(After(w, run).unsaved, id);
  }

  predicate LosesCount(s: Step) {
    s.ByCompensator? && s.compensator.SaveCompensate? && !s.compensator.landed
  }

  lemma CompensatorKeepsCounts(w: World, t: TaskId, m: CompensatorMove)
    requires CompensatorEnabled(w, t, m) && !(m.SaveCompensate? && !m.landed)
    ensures CompensatorEffect(w, t, m).unsaved == w.unsaved
  {
  }

  lemma OnlyFailedSavesLoseCounts(w: World, s: Step)
    requires Enabled(w, s) && !LosesCount(s)
    ensures Apply(w, s).unsaved == w.unsaved
  {
    match s
    case ByClient(t, m) => assert ClientEffect(w, t, m).unsaved == w.unsaved;
    case ByCallback(t, m) => assert CallbackEffect(w, t, m).unsaved == w.unsaved;
    case ByCompensator(t, m) => CompensatorKeepsCounts(w, t, m);
    case _ =>
  }

  lemma {:induction false} SavedCountsStay(w: World, run: seq<Step>)
    requires Feasible(w, run) && forall i :: 0 <= i < |run| ==> !LosesCount(run[i])
    ensures After(w, run).unsaved == w.unsaved
    decreases |run|
  {
    if |run| > 0 {
      OnlyFailedSavesLoseCounts(w, run[0]);
      SavedCountsStay(Apply(w, run[0]), run[1..]);
    }
  }

  /** With the compensator's saves succeeding the stored count is the number of resends, but for
      those stored whose resend did not go out, and no message is resent more than six times. */
  lemma SixResendsAtMost(w: World, run: seq<Step>, id: Id)
    requires Initial(w) && Orderly(w, run) && forall i :: 0 <= i < |run| ==> !LosesCount(run[i])
    ensures Feasible(w, run)
    ensures var end := After(w, run);
      && Count(end.resends, id) <= 6
      && (id in end.process && !AboutToResend(end, id) ==>
            end.process[id].retrytimes == Count(end.resends, id) + Count(end.unsent, id))
  {
    ResendsBounded(w, run, id);
    RetrytimesCountResends(w, run, id);
    SavedCountsStay(w, run);
  }

  // ----- no resend is decided late

  ghost predicate DecidedInTime(w: World, task: Task) {
    task.Compensator? && |task.queue| > 0
      && (task.stage == Rechecking || task.stage == SavingCompensate || task.stage == Resending) ==>
    task.decidedAt <= w.now && task.decidedAt <= task.queue[0].row.createtime + DEAD_AFTER
  }

  ghost predicate AllInTime(w: World) {
    forall t :: t in w.tasks ==> DecidedInTime(w, w.tasks[t])
  }

  lemma RetaskedInTime(w: World, w': World, t: TaskId)
    requires AllInTime(w) && w'.now == w.now && t in w'.tasks && DecidedInTime(w', w'.tasks[t])
    requires forall u :: u in w'.tasks && u != t ==> u in w.tasks && w'.tasks[u] == w.tasks[u]
    ensures AllInTime(w')
  {
    forall u | u in w'.tasks ensures DecidedInTime(w', w'.tasks[u]) {
      if u != t { assert DecidedInTime(w, w.tasks[u]); }
    }
  }

  lemma CompensatorInTime(w: World, t: TaskId, m: CompensatorMove)
    requires AllInTime(w) && CompensatorEnabled(w, t, m)
    ensures AllInTime(CompensatorEffect(w, t, m))
  {
    assert t in w.tasks ==> DecidedInTime(w, w.tasks[t]);
    RetaskedInTime(w, CompensatorEffect(w, t, m), t);
  }

  lemma OthersInTime(w: World, w': World)
    requires AllInTime(w) && w.now <= w'.now
    requires forall t :: t in w'.tasks ==> !w'.tasks[t].Compensator? || (t in w.tasks && w'.tasks[t] == w.tasks[t])
    ensures AllInTime(w')
  {
    forall t | t in w'.tasks ensures DecidedInTime(w', w'.tasks[t]) {
      if t in w.tasks { assert DecidedInTime(w, w.tasks[t]); }
    }
  }

  lemma ClientInTime(w: World, t: TaskId, m: ClientMove)
    requires AllInTime(w) && ClientEnabled(w, t, m)
    ensures AllInTime(ClientEffect(w, t, m))
  {
    OthersInTime(w, ClientEffect(w, t, m));
  }

  lemma CallbackInTime(w: World, t: TaskId, m: CallbackMove)
    requires AllInTime(w) && CallbackEnabled(w, t, m)
    ensures AllInTime(CallbackEffect(w, t, m))
  {
    OthersInTime(w, CallbackEffect(w, t, m));
  }

  lemma StepInTime(w: World, s: Step)
    requires AllInTime(w) && Enabled(w, s)
    ensures AllInTime(Apply(w, s))
  {
    match s
    case Tick(_) => OthersInTime(w, Apply(w, s));
    case BrokerAck(_) => OthersInTime(w, Apply(w, s));
    case ByClient(t, m) => ClientInTime(w, t, m);
    case ByCallback(t, m) => CallbackInTime(w, t, m);
    case ByCompensator(t, m) => CompensatorInTime(w, t, m);
    case Crash(t) => OthersInTime(w, Apply(w, s));
  }

  lemma {:induction false} RunInTime(w: World, run: seq<Step>)
    requires AllInTime(w) && Feasible(w, run)
    ensures AllInTime(After(w, run))
    decreases |run|
  {
    if |run| > 0 {
      StepInTime(w, run[0]);
      RunInTime(Apply(w, run[0]), run[1..]);
    }
  }

  /** Whenever a compensator is about to resend, it decided so within 15 minutes of the message's
      creation, by whatever interleaving it came there. */
  lemma ResendDecidedInTime(w: World, run: seq<Step>, t: TaskId)
    requires Initial(w) && Feasible(w, run) && At(After(w, run), t, Resending)
    ensures var c := After(w, run).tasks[t];
      c.decidedAt <= c.queue[0].row.createtime + 15 * 60 * 1000
  {
    RunInTime(w, run);
    assert DecidedInTime(After(w, run), After(w, run).tasks[t]);
  }
}
