/** The producer's compensation protocol: clients, broker callbacks and the compensation task
    work on the process table, the full log and the dead log, interleaved at the granularity of
    single store operations. Every store operation may fail, and may even land but report failure. */
module ProducerProtocol {
  import opened Counting
  import opened CompensationRules

  type Id = string
  type TaskId = nat

  datatype Snapshot = Snapshot(id: Id, row: Row)

  datatype ClientStage = Saved | Sent | Marked
  datatype CallbackStage = Deleting | MarkingNormal | SavingFull | MarkingFail
  datatype CompensatorStage =
    | Choosing
    | Rechecking
    | SavingCompensate
    | Resending
    | Judging
    | SavingDead
    | SavingNormal
    | Removing

  /** An activity in flight, with its local variables. The compensator works on queue[0]. */
  datatype Task =
    | Client(client: ClientStage, id: Id, createtime: int, saved: bool)
    | Callback(callback: CallbackStage, id: Id)
    | Compensator(stage: CompensatorStage, queue: seq<Snapshot>, decidedAt: int)

  /** The stores, the activities, and the history: what was ever recorded, handed to the broker
      and acknowledged; how often a message was resent; how often its retry count was stored
      without a resend following, and how often a resend went out without it being stored. */
  datatype World = World(
    process: map<Id, Row>,
    full: set<Id>,
    dead: set<Id>,
    tasks: map<TaskId, Task>,
    now: int,
    recorded: set<Id>,
    sent: set<Id>,
    acked: set<Id>,
    resends: map<Id, nat>,
    unsent: map<Id, nat>,
    unsaved: map<Id, nat>)

  datatype ClientMove =
    | Save(id: Id, createtime: int, landed: bool, reported: bool)
    | Send(delivered: bool, failed: bool)
    | MarkFail(landed: bool)
    | SaveAgain(landed: bool)

  datatype CallbackMove =
    | StartSuccess(id: Id)
    | StartFailure(id: Id)
    | Delete(landed: bool, reported: bool)
    | MarkNormal(landed: bool, thrown: bool)
    | SaveFull(landed: bool)
    | MarkFailed(landed: bool)

  datatype CompensatorMove =
    | Start
    | LoadPage(page: seq<Id>)
    | Choose(parsed: bool)
    | Recheck(thrown: bool)
    | SaveCompensate(landed: bool)
    | Resend(delivered: bool)
    | Judge
    | SaveDead(landed: bool, reported: bool)
    | SaveNormal(landed: bool, reported: bool)
    | Remove(landed: bool)

  /** One step of the whole system: time, the broker, or one store operation of a task. */
  datatype Step =
    | Tick(ms: nat)
    | BrokerAck(acked: Id)
    | ByClient(t: TaskId, client: ClientMove)
    | ByCallback(t: TaskId, callback: CallbackMove)
    | ByCompensator(t: TaskId, compensator: CompensatorMove)
    | Crash(t: TaskId)

  // ----- store operations

  /** save: insert or replace. */
  function Stored(p: map<Id, Row>, id: Id, row: Row, landed: bool): map<Id, Row> {
    if landed then p[id := row] else p
  }

  /** updateById: only a row that is there. */
  function Updated(p: map<Id, Row>, id: Id, status: Status, landed: bool): map<Id, Row> {
    if landed && id in p then p[id := p[id].(status := status)] else p
  }

  function Deleted(p: map<Id, Row>, id: Id, landed: bool): map<Id, Row> {
    if landed then p - {id} else p
  }

  /** A new process table; every row ever in it counts as recorded. */
  function WithProcess(w: World, p: map<Id, Row>): World {
    w.(process := p, recorded := w.recorded + p.Keys)
  }

  function WithTask(w: World, t: TaskId, task: Task): World {
    w.(tasks := w.tasks[t := task])
  }

  function WithoutTask(w: World, t: TaskId): World {
    w.(tasks := w.tasks - {t})
  }

  function Go(c: Task, stage: CompensatorStage): Task
    requires c.Compensator?
  {
    c.(stage := stage)
  }

  /** The compensator is done with its first row. */
  function NextRow(c: Task): Task
    requires c.Compensator? && |c.queue| > 0
  {
    c.(stage := Choosing, queue := c.queue[1..])
  }

  function WithHead(c: Task, row: Row): Task
    requires c.Compensator? && |c.queue| > 0
  {
    c.(queue := c.queue[0 := Snapshot(c.queue[0].id, row)])
  }

  // ----- enabled steps and their effects

  predicate At(w: World, t: TaskId, stage: CompensatorStage) {
    t in w.tasks && w.tasks[t].Compensator? && w.tasks[t].stage == stage && |w.tasks[t].queue| > 0
  }

  predicate AtCallback(w: World, t: TaskId, stage: CallbackStage) {
    t in w.tasks && w.tasks[t].Callback? && w.tasks[t].callback == stage
  }

  predicate AtClient(w: World, t: TaskId, stage: ClientStage) {
    t in w.tasks && w.tasks[t].Client? && w.tasks[t].client == stage
  }

  predicate NoRepeats(page: seq<Id>) {
    forall i, j :: 0 <= i < j < |page| ==> page[i] != page[j]
  }

  predicate ClientEnabled(w: World, t: TaskId, m: ClientMove) {
    match m
    case Save(_, _, landed, reported) => t !in w.tasks && (reported ==> landed)
    case Send(_, _) => AtClient(w, t, Saved)
    case MarkFail(_) => AtClient(w, t, Sent)
    case SaveAgain(_) => AtClient(w, t, Marked)
  }

  predicate CallbackEnabled(w: World, t: TaskId, m: CallbackMove) {
    match m
    case StartSuccess(id) => t !in w.tasks && id in w.acked
    case StartFailure(id) => t !in w.tasks && id in w.sent
    case Delete(landed, reported) => AtCallback(w, t, Deleting) && (reported ==> landed)
    case MarkNormal(_, _) => AtCallback(w, t, MarkingNormal)
    case SaveFull(_) => AtCallback(w, t, SavingFull)
    case MarkFailed(_) => AtCallback(w, t, MarkingFail)
  }

  predicate CompensatorEnabled(w: World, t: TaskId, m: CompensatorMove) {
    match m
    case Start => t !in w.tasks
    case LoadPage(page) =>
      && t in w.tasks && w.tasks[t].Compensator? && w.tasks[t].queue == []
      && NoRepeats(page) && forall i :: 0 <= i < |page| ==> page[i] in w.process
    case Choose(_) => At(w, t, Choosing)
    case Recheck(_) => At(w, t, Rechecking)
    case SaveCompensate(_) => At(w, t, SavingCompensate)
    case Resend(_) => At(w, t, Resending)
    case Judge => At(w, t, Judging)
    case SaveDead(landed, reported) => At(w, t, SavingDead) && (reported ==> landed)
    case SaveNormal(landed, reported) => At(w, t, SavingNormal) && (reported ==> landed)
    case Remove(_) => At(w, t, Removing)
  }

  predicate Enabled(w: World, s: Step) {
    match s
    case Tick(_) => true
    case BrokerAck(id) => id in w.sent
    case ByClient(t, m) => ClientEnabled(w, t, m)
    case ByCallback(t, m) => CallbackEnabled(w, t, m)
    case ByCompensator(t, m) => CompensatorEnabled(w, t, m)
    case Crash(t) => t in w.tasks
  }

  function Snapshots(p: map<Id, Row>, page: seq<Id>): seq<Snapshot>
    requires forall i :: 0 <= i < |page| ==> page[i] in p
  {
    seq(|page|, i requires 0 <= i < |page| => Snapshot(page[i], p[page[i]]))
  }

  /** What the compensator does first with a row, by its status at the time of the query. */
  function Chosen(c: Task, now: int, parsed: bool): Task
    requires c.Compensator? && |c.queue| > 0
  {
    var row := c.queue[0].row;
    if Pending(row.status) then
      if ShouldReSend(row, now) && parsed
      then WithHead(Go(c, Rechecking), row.(retrytimes := row.retrytimes + 1)).(decidedAt := now)
      else Go(c, Judging)
    else if row.status == DEAD then Go(c, SavingDead)
    else Go(c, SavingNormal)
  }

  // KafkaMQClientIntercepter.doAround, store by store

  function SaveEffect(w: World, t: TaskId, id: Id, createtime: int, landed: bool, reported: bool): World {
    WithTask(WithProcess(w, Stored(w.process, id, Row(READY, 0, createtime), landed)),
             t, Client(Saved, id, createtime, reported))
  }

  function SendEffect(w: World, t: TaskId, delivered: bool, failed: bool): World
    requires AtClient(w, t, Saved)
  {
    var c := w.tasks[t];
    var w' := if delivered then w.(sent := w.sent + {c.id}) else w;
    if failed then WithTask(w', t, c.(client := Sent)) else WithoutTask(w', t)
  }

  function MarkFailEffect(w: World, t: TaskId, landed: bool): World
    requires AtClient(w, t, Sent)
  {
    var c := w.tasks[t];
    var p := if c.id in w.process && w.process[c.id].status != NORMAL
             then Updated(w.process, c.id, FAIL, landed) else w.process;
    if c.saved then WithoutTask(WithProcess(w, p), t)
    else WithTask(WithProcess(w, p), t, c.(client := Marked))
  }

  function SaveAgainEffect(w: World, t: TaskId, landed: bool): World
    requires AtClient(w, t, Marked)
  {
    var c := w.tasks[t];
    WithoutTask(WithProcess(w, Stored(w.process, c.id, Row(FAIL, 0, c.createtime), landed)), t)
  }

  function ClientEffect(w: World, t: TaskId, m: ClientMove): World
    requires ClientEnabled(w, t, m)
  {
    match m
    case Save(id, createtime, landed, reported) => SaveEffect(w, t, id, createtime, landed, reported)
    case Send(delivered, failed) => SendEffect(w, t, delivered, failed)
    case MarkFail(landed) => MarkFailEffect(w, t, landed)
    case SaveAgain(landed) => SaveAgainEffect(w, t, landed)
  }

  // SenderCallback.handle4MessageLog, store by store

  function DeleteEffect(w: World, t: TaskId, landed: bool, reported: bool): World
    requires AtCallback(w, t, Deleting)
  {
    var c := w.tasks[t];
    var deleted := reported && c.id in w.process;
    WithTask(WithProcess(w, Deleted(w.process, c.id, landed)), t,
             c.(callback := if deleted then SavingFull else MarkingNormal))
  }

  function MarkNormalEffect(w: World, t: TaskId, landed: bool, thrown: bool): World
    requires AtCallback(w, t, MarkingNormal)
  {
    var c := w.tasks[t];
    var w' := WithProcess(w, Updated(w.process, c.id, NORMAL, landed));
    if thrown then WithoutTask(w', t) else WithTask(w', t, c.(callback := SavingFull))
  }

  function SaveFullEffect(w: World, t: TaskId, landed: bool): World
    requires AtCallback(w, t, SavingFull)
  {
    WithoutTask(if landed then w.(full := w.full + {w.tasks[t].id}) else w, t)
  }

  function MarkFailedEffect(w: World, t: TaskId, landed: bool): World
    requires AtCallback(w, t, MarkingFail)
  {
    WithoutTask(WithProcess(w, Updated(w.process, w.tasks[t].id, FAIL, landed)), t)
  }

  function CallbackEffect(w: World, t: TaskId, m: CallbackMove): World
    requires CallbackEnabled(w, t, m)
  {
    match m
    case StartSuccess(id) => WithTask(w, t, Callback(Deleting, id))
    case StartFailure(id) => WithTask(w, t, Callback(MarkingFail, id))
    case Delete(landed, reported) => DeleteEffect(w, t, landed, reported)
    case MarkNormal(landed, thrown) => MarkNormalEffect(w, t, landed, thrown)
    case SaveFull(landed) => SaveFullEffect(w, t, landed)
    case MarkFailed(landed) => MarkFailedEffect(w, t, landed)
  }

  // KakaMQMessageTask.handeMsgLog for the first row of the queue, store by store

  function LoadEffect(w: World, t: TaskId, page: seq<Id>): World
    requires CompensatorEnabled(w, t, LoadPage(page))
  {
    WithTask(w, t, Compensator(Choosing, Snapshots(w.process, page), 0))
  }

  function RecheckEffect(w: World, t: TaskId, thrown: bool): World
    requires At(w, t, Rechecking)
  {
    var c := w.tasks[t];
    var id, row := c.queue[0].id, c.queue[0].row;
    if thrown || id !in w.process || w.process[id].status == NORMAL then WithTask(w, t, Go(c, Judging))
    else WithTask(w, t, Go(WithHead(c, row.(status := COMPENSATE)), SavingCompensate))
  }

  function SaveCompensateEffect(w: World, t: TaskId, landed: bool): World
    requires At(w, t, SavingCompensate)
  {
    var c := w.tasks[t];
    var id, row := c.queue[0].id, c.queue[0].row;
    var w' := WithProcess(w, Stored(w.process, id, row, landed));
    WithTask(if landed then w' else w'.(unsaved := Bump(w'.unsaved, id)), t, Go(c, Resending))
  }

  function ResendEffect(w: World, t: TaskId, delivered: bool): World
    requires At(w, t, Resending)
  {
    var c := w.tasks[t];
    var id := c.queue[0].id;
    WithTask(if delivered then w.(sent := w.sent + {id}, resends := Bump(w.resends, id))
             else w.(unsent := Bump(w.unsent, id)),
             t, Go(c, Judging))
  }

  function JudgeEffect(w: World, t: TaskId): World
    requires At(w, t, Judging)
  {
    var c := w.tasks[t];
    WithTask(w, t, if CheckMessageDeaded(c.queue[0].row, w.now) then Go(c, SavingDead) else NextRow(c))
  }

  function SaveDeadEffect(w: World, t: TaskId, landed: bool, reported: bool): World
    requires At(w, t, SavingDead)
  {
    var c := w.tasks[t];
    var row := c.queue[0].row.(status := DEAD);
    WithTask(if landed then w.(dead := w.dead + {c.queue[0].id}) else w, t,
             if reported then Go(WithHead(c, row), Removing) else NextRow(c))
  }

  function SaveNormalEffect(w: World, t: TaskId, landed: bool, reported: bool): World
    requires At(w, t, SavingNormal)
  {
    var c := w.tasks[t];
    WithTask(if landed then w.(full := w.full + {c.queue[0].id}) else w, t,
             if reported then Go(c, Removing) else NextRow(c))
  }

  function RemoveEffect(w: World, t: TaskId, landed: bool): World
    requires At(w, t, Removing)
  {
    var c := w.tasks[t];
    WithTask(WithProcess(w, Deleted(w.process, c.queue[0].id, landed)), t, NextRow(c))
  }

  function CompensatorEffect(w: World, t: TaskId, m: CompensatorMove): World
    requires CompensatorEnabled(w, t, m)
  {
    match m
    case Start => WithTask(w, t, Compensator(Choosing, [], 0))
    case LoadPage(page) => LoadEffect(w, t, page)
    case Choose(parsed) => WithTask(w, t, Chosen(w.tasks[t], w.now, parsed))
    case Recheck(thrown) => RecheckEffect(w, t, thrown)
    case SaveCompensate(landed) => SaveCompensateEffect(w, t, landed)
    case Resend(delivered) => ResendEffect(w, t, delivered)
    case Judge => JudgeEffect(w, t)
    case SaveDead(landed, reported) => SaveDeadEffect(w, t, landed, reported)
    case SaveNormal(landed, reported) => SaveNormalEffect(w, t, landed, reported)
    case Remove(landed) => RemoveEffect(w, t, landed)
  }

  /** A crash loses a task's local state; a compensator about to resend has then stored the new
      retry count for nothing. */
  function CrashEffect(w: World, t: TaskId): World
    requires t in w.tasks
  {
    WithoutTask(if At(w, t, Resending) then w.(unsent := Bump(w.unsent, w.tasks[t].queue[0].id)) else w, t)
  }

  function Apply(w: World, s: Step): World
    requires Enabled(w, s)
  {
    match s
    case Tick(ms) => w.(now := w.now + ms)
    case BrokerAck(id) => w.(acked := w.acked + {id})
    case ByClient(t, m) => ClientEffect(w, t, m)
    case ByCallback(t, m) => CallbackEffect(w, t, m)
    case ByCompensator(t, m) => CompensatorEffect(w, t, m)
    case Crash(t) => CrashEffect(w, t)
  }

  predicate Initial(w: World) {
    && w.process == map[] && w.full == {} && w.dead == {} && w.tasks == map[]
    && w.recorded == {} && w.sent == {} && w.acked == {}
    && w.resends == map[] && w.unsent == map[] && w.unsaved == map[]
  }

  /** A run: each step enabled in the world the earlier ones led to. */
  predicate Feasible(w: World, run: seq<Step>)
    decreases |run|
  {
    |run| == 0 || (Enabled(w, run[0]) && Feasible(Apply(w, run[0]), run[1..]))
  }

  function After(w: World, run: seq<Step>): World
    requires Feasible(w, run)
    decreases |run|
  {
    if |run| == 0 then w else After(Apply(w, run[0]), run[1..])
  }

  // ----- nothing recorded is lost

  /** A message once recorded is in the process table, in the dead log, or acknowledged by Kafka. */
  ghost predicate NothingLost(w: World) {
    forall id :: id in w.recorded ==> id in w.process || id in w.dead || id in w.acked
  }

  /** NORMAL rows and full log entries belong to messages that Kafka has acknowledged. */
  ghost predicate NormalMeansAcked(w: World) {
    && (forall id :: id in w.process && w.process[id].status == NORMAL ==> id in w.acked)
    && w.full <= w.acked
  }

  ghost predicate TaskSound(w: World, task: Task) {
    match task
    case Client(_, _, _, _) => true
    case Callback(stage, id) => stage == MarkingFail || id in w.acked
    case Compensator(stage, queue, _) =>
      && (forall k :: 0 <= k < |queue| && queue[k].row.status == NORMAL ==> queue[k].id in w.acked)
      && (|queue| > 0 && stage == SavingNormal ==> queue[0].id in w.acked)
      && (|queue| > 0 && stage == Removing ==> queue[0].id in w.acked || queue[0].id in w.dead)
  }

  ghost predicate Sound(w: World) {
    && NothingLost(w)
    && NormalMeansAcked(w)
    && forall t :: t in w.tasks ==> TaskSound(w, w.tasks[t])
  }

  /** A step that moves task t and otherwise only adds acknowledgements and dead log entries. */
  lemma SoundAfter(w: World, w': World, t: TaskId)
    requires Sound(w)
    requires w.acked <= w'.acked && w.dead <= w'.dead
    requires forall u :: u in w'.tasks && u != t ==> u in w.tasks && w'.tasks[u] == w.tasks[u]
    requires t in w'.tasks ==> TaskSound(w', w'.tasks[t])
    requires NothingLost(w') && NormalMeansAcked(w')
    ensures Sound(w')
  {
  }

  lemma SaveKeepsSound(w: World, t: TaskId, id: Id, createtime: int, landed: bool, reported: bool)
    requires Sound(w) && t !in w.tasks
    ensures Sound(SaveEffect(w, t, id, createtime, landed, reported))
  {
    SoundAfter(w, SaveEffect(w, t, id, createtime, landed, reported), t);
  }

  lemma SendKeepsSound(w: World, t: TaskId, delivered: bool, failed: bool)
    requires Sound(w) && AtClient(w, t, Saved)
    ensures Sound(SendEffect(w, t, delivered, failed))
  {
    SoundAfter(w, SendEffect(w, t, delivered, failed), t);
  }

  lemma MarkFailKeepsSound(w: World, t: TaskId, landed: bool)
    requires Sound(w) && AtClient(w, t, Sent)
    ensures Sound(MarkFailEffect(w, t, landed))
  {
    SoundAfter(w, MarkFailEffect(w, t, landed), t);
  }

  lemma SaveAgainKeepsSound(w: World, t: TaskId, landed: bool)
    requires Sound(w) && AtClient(w, t, Marked)
    ensures Sound(SaveAgainEffect(w, t, landed))
  {
    SoundAfter(w, SaveAgainEffect(w, t, landed), t);
  }

  lemma DeleteKeepsSound(w: World, t: TaskId, landed: bool, reported: bool)
    requires Sound(w) && AtCallback(w, t, Deleting)
    ensures Sound(DeleteEffect(w, t, landed, reported))
  {
    SoundAfter(w, DeleteEffect(w, t, landed, reported), t);
  }

  lemma MarkNormalKeepsSound(w: World, t: TaskId, landed: bool, thrown: bool)
    requires Sound(w) && AtCallback(w, t, MarkingNormal)
    ensures Sound(MarkNormalEffect(w, t, landed, thrown))
  {
    SoundAfter(w, MarkNormalEffect(w, t, landed, thrown), t);
  }

  lemma SaveFullKeepsSound(w: World, t: TaskId, landed: bool)
    requires Sound(w) && AtCallback(w, t, SavingFull)
    ensures Sound(SaveFullEffect(w, t, landed))
  {
    SoundAfter(w, SaveFullEffect(w, t, landed), t);
  }

  lemma MarkFailedKeepsSound(w: World, t: TaskId, landed: bool)
    requires Sound(w) && AtCallback(w, t, MarkingFail)
    ensures Sound(MarkFailedEffect(w, t, landed))
  {
    SoundAfter(w, MarkFailedEffect(w, t, landed), t);
  }

  lemma LoadKeepsSound(w: World, t: TaskId, page: seq<Id>)
    requires Sound(w) && CompensatorEnabled(w, t, LoadPage(page))
    ensures Sound(LoadEffect(w, t, page))
  {
    SoundAfter(w, LoadEffect(w, t, page), t);
  }

  lemma ChooseKeepsSound(w: World, t: TaskId, parsed: bool)
    requires Sound(w) && At(w, t, Choosing)
    ensures Sound(WithTask(w, t, Chosen(w.tasks[t], w.now, parsed)))
  {
    SoundAfter(w, WithTask(w, t, Chosen(w.tasks[t], w.now, parsed)), t);
  }

  lemma RecheckKeepsSound(w: World, t: TaskId, thrown: bool)
    requires Sound(w) && At(w, t, Rechecking)
    ensures Sound(RecheckEffect(w, t, thrown))
  {
    SoundAfter(w, RecheckEffect(w, t, thrown), t);
  }

  lemma SaveCompensateKeepsSound(w: World, t: TaskId, landed: bool)
    requires Sound(w) && At(w, t, SavingCompensate)
    ensures Sound(SaveCompensateEffect(w, t, landed))
  {
    SoundAfter(w, SaveCompensateEffect(w, t, landed), t);
  }

  lemma ResendKeepsSound(w: World, t: TaskId, delivered: bool)
    requires Sound(w) && At(w, t, Resending)
    ensures Sound(ResendEffect(w, t, delivered))
  {
    SoundAfter(w, ResendEffect(w, t, delivered), t);
  }

  lemma JudgeKeepsSound(w: World, t: TaskId)
    requires Sound(w) && At(w, t, Judging)
    ensures Sound(JudgeEffect(w, t))
  {
    SoundAfter(w, JudgeEffect(w, t), t);
  }

  lemma SaveDeadKeepsSound(w: World, t: TaskId, landed: bool, reported: bool)
    requires Sound(w) && At(w, t, SavingDead) && (reported ==> landed)
    ensures Sound(SaveDeadEffect(w, t, landed, reported))
  {
    SoundAfter(w, SaveDeadEffect(w, t, landed, reported), t);
  }

  lemma SaveNormalKeepsSound(w: World, t: TaskId, landed: bool, reported: bool)
    requires Sound(w) && At(w, t, SavingNormal) && (reported ==> landed)
    ensures Sound(SaveNormalEffect(w, t, landed, reported))
  {
    SoundAfter(w, SaveNormalEffect(w, t, landed, reported), t);
  }

  lemma RemoveKeepsSound(w: World, t: TaskId, landed: bool)
    requires Sound(w) && At(w, t, Removing)
    ensures Sound(RemoveEffect(w, t, landed))
  {
    SoundAfter(w, RemoveEffect(w, t, landed), t);
  }

  lemma ClientKeepsSound(w: World, t: TaskId, m: ClientMove)
    requires Sound(w) && ClientEnabled(w, t, m)
    ensures Sound(ClientEffect(w, t, m))
  {
    match m
    case Save(id, createtime, landed, reported) => SaveKeepsSound(w, t, id, createtime, landed, reported);
    case Send(delivered, failed) => SendKeepsSound(w, t, delivered, failed);
    case MarkFail(landed) => MarkFailKeepsSound(w, t, landed);
    case SaveAgain(landed) => SaveAgainKeepsSound(w, t, landed);
  }

  lemma CallbackKeepsSound(w: World, t: TaskId, m: CallbackMove)
    requires Sound(w) && CallbackEnabled(w, t, m)
    ensures Sound(CallbackEffect(w, t, m))
  {
    match m
    case StartSuccess(_) => SoundAfter(w, CallbackEffect(w, t, m), t);
    case StartFailure(_) => SoundAfter(w, CallbackEffect(w, t, m), t);
    case Delete(landed, reported) => DeleteKeepsSound(w, t, landed, reported);
    case MarkNormal(landed, thrown) => MarkNormalKeepsSound(w, t, landed, thrown);
    case SaveFull(landed) => SaveFullKeepsSound(w, t, landed);
    case MarkFailed(landed) => MarkFailedKeepsSound(w, t, landed);
  }

  lemma CompensatorKeepsSound(w: World, t: TaskId, m: CompensatorMove)
    requires Sound(w) && CompensatorEnabled(w, t, m)
    ensures Sound(CompensatorEffect(w, t, m))
  {
    match m
    case Start => SoundAfter(w, CompensatorEffect(w, t, m), t);
    case LoadPage(page) => LoadKeepsSound(w, t, page);
    case Choose(parsed) => ChooseKeepsSound(w, t, parsed);
    case Recheck(thrown) => RecheckKeepsSound(w, t, thrown);
    case SaveCompensate(landed) => SaveCompensateKeepsSound(w, t, landed);
    case Resend(delivered) => ResendKeepsSound(w, t, delivered);
    case Judge => JudgeKeepsSound(w, t);
    case SaveDead(landed, reported) => SaveDeadKeepsSound(w, t, landed, reported);
    case SaveNormal(landed, reported) => SaveNormalKeepsSound(w, t, landed, reported);
    case Remove(landed) => RemoveKeepsSound(w, t, landed);
  }

  lemma CrashKeepsSound(w: World, t: TaskId)
    requires Sound(w) && t in w.tasks
    ensures Sound(CrashEffect(w, t))
  {
    SoundAfter(w, CrashEffect(w, t), t);
  }

  lemma StepKeepsSound(w: World, s: Step)
    requires Sound(w) && Enabled(w, s)
    ensures Sound(Apply(w, s))
  {
    match s
    case Tick(_) =>
    case BrokerAck(_) =>
    case ByClient(t, m) => ClientKeepsSound(w, t, m);
    case ByCallback(t, m) => CallbackKeepsSound(w, t, m);
    case ByCompensator(t, m) => CompensatorKeepsSound(w, t, m);
    case Crash(t) => CrashKeepsSound(w, t);
  }

  lemma {:induction false} RunKeepsSound(w: World, run: seq<Step>)
    requires Sound(w) && Feasible(w, run)
    ensures Sound(After(w, run))
    decreases |run|
  {
    if |run| > 0 {
      StepKeepsSound(w, run[0]);
      RunKeepsSound(Apply(w, run[0]), run[1..]);
    }
  }

  lemma {:induction false} RunsCompose(w: World, a: seq<Step>, b: seq<Step>)
    requires Feasible(w, a + b)
    ensures Feasible(w, a) && Feasible(After(w, a), b) && After(w, a + b) == After(After(w, a), b)
    decreases |a|
  {
    if |a| == 0 {
      assert a + b == b;
    } else {
      assert (a + b)[1..] == a[1..] + b;
      RunsCompose(Apply(w, a[0]), a[1..], b);
    }
  }

  lemma {:induction false} HistoryGrows(w: World, run: seq<Step>)
    requires Feasible(w, run)
    ensures Extends(w, After(w, run))
    decreases |run|
  {
    if |run| > 0 {
      StepHistory(w, run[0]);
      HistoryGrows(Apply(w, run[0]), run[1..]);
    }
  }

  /** The history of w' extends that of w. */
  ghost predicate Extends(w: World, w': World) {
    w.recorded <= w'.recorded && (w.process.Keys <= w.recorded ==> w'.process.Keys <= w'.recorded)
  }

  lemma ClientExtends(w: World, t: TaskId, m: ClientMove)
    requires ClientEnabled(w, t, m)
    ensures Extends(w, ClientEffect(w, t, m))
  {
  }

  lemma CallbackExtends(w: World, t: TaskId, m: CallbackMove)
    requires CallbackEnabled(w, t, m)
    ensures Extends(w, CallbackEffect(w, t, m))
  {
  }

  lemma CompensatorExtends(w: World, t: TaskId, m: CompensatorMove)
    requires CompensatorEnabled(w, t, m)
    ensures Extends(w, CompensatorEffect(w, t, m))
  {
  }

  lemma StepHistory(w: World, s: Step)
    requires Enabled(w, s)
    ensures Extends(w, Apply(w, s))
  {
    match s
    case Tick(_) =>
    case BrokerAck(_) =>
    case ByClient(t, m) => ClientExtends(w, t, m);
    case ByCallback(t, m) => CallbackExtends(w, t, m);
    case ByCompensator(t, m) => CompensatorExtends(w, t, m);
    case Crash(_) =>
  }

  /** No recorded message is lost: a message that was in the process table at any moment of a run
      is, at every later point between single store operations by any number of clients, callbacks
      and compensators, still there, in the dead log, or acknowledged by Kafka. */
  lemma NoRecordedMessageLost(w: World, earlier: seq<Step>, later: seq<Step>, id: Id)
    requires Initial(w) && Feasible(w, earlier + later)
    ensures Feasible(w, earlier)
    ensures id in After(w, earlier).process ==>
      var end := After(w, earlier + later);
      id in end.process || id in end.dead || id in end.acked
  {
    RunsCompose(w, earlier, later);
    HistoryGrows(w, earlier);
    HistoryGrows(After(w, earlier), later);
    RunKeepsSound(w, earlier + later);
  }

  /** What the tables say was sent, Kafka has acknowledged. */
  lemma LoggedImpliesDelivered(w: World, run: seq<Step>)
    requires Initial(w) && Feasible(w, run)
    ensures NormalMeansAcked(After(w, run))
  {
    RunKeepsSound(w, run);
  }

  // ----- a row seen NORMAL is not resent

  /** The compensator is past resending the row it has with n rows to go, or past that row. */
  predicate PastResend(w: World, t: TaskId, n: nat) {
    t in w.tasks && w.tasks[t].Compensator? && |w.tasks[t].queue| >= n ==>
      |w.tasks[t].queue| == n && w.tasks[t].stage in {Judging, SavingDead, SavingNormal, Removing}
  }

  lemma ClientStaysPast(w: World, u: TaskId, m: ClientMove, t: TaskId, n: nat)
    requires ClientEnabled(w, u, m) && PastResend(w, t, n)
    ensures PastResend(ClientEffect(w, u, m), t, n)
  {
  }

  lemma CallbackStaysPast(w: World, u: TaskId, m: CallbackMove, t: TaskId, n: nat)
    requires CallbackEnabled(w, u, m) && PastResend(w, t, n)
    ensures PastResend(CallbackEffect(w, u, m), t, n)
  {
  }

  lemma StaysPastResend(w: World, s: Step, t: TaskId, n: nat)
    requires Enabled(w, s) && n > 0 && PastResend(w, t, n)
    requires !(s.ByCompensator? && s.t == t && s.compensator.LoadPage?)
    ensures PastResend(Apply(w, s), t, n)
  {
    match s
    case Tick(_) =>
    case BrokerAck(_) =>
    case ByClient(u, m) => ClientStaysPast(w, u, m, t, n);
    case ByCallback(u, m) => CallbackStaysPast(w, u, m, t, n);
    case ByCompensator(u, m) => CompensatorStaysPast(w, u, m, t, n);
    case Crash(_) =>
  }

  lemma CompensatorStaysPast(w: World, u: TaskId, m: CompensatorMove, t: TaskId, n: nat)
    requires CompensatorEnabled(w, u, m) && n > 0 && PastResend(w, t, n) && !(u == t && m.LoadPage?)
    ensures PastResend(CompensatorEffect(w, u, m), t, n)
  {
  }

  lemma {:induction false} RunStaysPastResend(w: World, run: seq<Step>, t: TaskId, n: nat)
    requires Feasible(w, run) && n > 0 && PastResend(w, t, n)
    requires forall i :: 0 <= i < |run| ==> !(run[i].ByCompensator? && run[i].t == t && run[i].compensator.LoadPage?)
    ensures PastResend(After(w, run), t, n)
    decreases |run|
  {
    if |run| > 0 {
      StaysPastResend(w, run[0], t, n);
      RunStaysPastResend(Apply(w, run[0]), run[1..], t, n);
    }
  }

  /** A row found NORMAL, or gone, at the last look is not resent by this page of the compensator: over
      every run that follows the look, until it loads another page, it is never about to resend it. */
  lemma SeenNormalIsNotResent(w: World, t: TaskId, thrown: bool, run: seq<Step>)
    requires At(w, t, Rechecking)
    requires var id := w.tasks[t].queue[0].id; id !in w.process || w.process[id].status == NORMAL
    requires Feasible(RecheckEffect(w, t, thrown), run)
    requires forall i :: 0 <= i < |run| ==> !(run[i].ByCompensator? && run[i].t == t && run[i].compensator.LoadPage?)
    ensures var end := After(RecheckEffect(w, t, thrown), run);
      At(end, t, Resending) ==> |end.tasks[t].queue| < |w.tasks[t].queue|
  {
    RunStaysPastResend(RecheckEffect(w, t, thrown), run, t, |w.tasks[t].queue|);
  }

  // ----- what the protocol does not give

  lemma OneStep(w: World, s: Step)
    requires Enabled(w, s)
    ensures Feasible(w, [s]) && After(w, [s]) == Apply(w, s)
  {
    assert [s][1..] == [];
  }

  lemma TakesFirst(w: World, s: Step, rest: seq<Step>)
    requires Enabled(w, s) && Feasible(Apply(w, s), rest)
    ensures Feasible(w, [s] + rest) && After(w, [s] + rest) == After(Apply(w, s), rest)
  {
    assert ([s] + rest)[1..] == rest;
  }

  lemma {:induction false} OneMoreStep(w: World, run: seq<Step>, s: Step)
    requires Feasible(w, run) && Enabled(After(w, run), s)
    ensures Feasible(w, run + [s]) && After(w, run + [s]) == Apply(After(w, run), s)
    decreases |run|
  {
    if |run| == 0 {
      assert run + [s] == [s];
      OneStep(w, s);
    } else {
      OneMoreStep(Apply(w, run[0]), run[1..], s);
      assert (run + [s])[1..] == run[1..] + [s];
    }
  }

  /** The success callback of an acknowledged message, none of whose calls to the process table land. */
  function LateCallback(t: TaskId, id: Id): seq<Step> {
    [ByCallback(t, StartSuccess(id))] + ([ByCallback(t, Delete(false, false))]
      + ([ByCallback(t, MarkNormal(false, false))] + [ByCallback(t, SaveFull(true))]))
  }

  lemma LateCallbackSaves(w: World, t: TaskId, id: Id)
    requires id in w.acked && t !in w.tasks
    ensures Feasible(w, LateCallback(t, id))
    ensures var end := After(w, LateCallback(t, id)); id in end.full && end.dead == w.dead
  {
    var start, delete := ByCallback(t, StartSuccess(id)), ByCallback(t, Delete(false, false));
    var mark, save := ByCallback(t, MarkNormal(false, false)), ByCallback(t, SaveFull(true));
    var w1 := Apply(w, start);
    var w2 := Apply(w1, delete);
    var w3 := Apply(w2, mark);
    OneStep(w3, save);
    TakesFirst(w2, mark, [save]);
    TakesFirst(w1, delete, [mark] + [save]);
    TakesFirst(w, start, [delete] + ([mark] + [save]));
  }

  lemma {:induction false} OnlyBrokerAcknowledges(w: World, run: seq<Step>, id: Id)
    requires Feasible(w, run) && forall i :: 0 <= i < |run| ==> run[i] != BrokerAck(id)
    ensures id in After(w, run).acked <==> id in w.acked
    decreases |run|
  {
    if |run| > 0 {
      AcknowledgedBy(w, run[0], id);
      OnlyBrokerAcknowledges(Apply(w, run[0]), run[1..], id);
    }
  }

  lemma ClientLeavesAcknowledged(w: World, t: TaskId, m: ClientMove)
    requires ClientEnabled(w, t, m)
    ensures ClientEffect(w, t, m).acked == w.acked
  {}

  lemma CallbackLeavesAcknowledged(w: World, t: TaskId, m: CallbackMove)
    requires CallbackEnabled(w, t, m)
    ensures CallbackEffect(w, t, m).acked == w.acked
  {}

  lemma CompensatorLeavesAcknowledged(w: World, t: TaskId, m: CompensatorMove)
    requires CompensatorEnabled(w, t, m)
    ensures CompensatorEffect(w, t, m).acked == w.acked
  {}

  lemma AcknowledgedBy(w: World, s: Step, id: Id)
    requires Enabled(w, s) && s != BrokerAck(id)
    ensures id in Apply(w, s).acked <==> id in w.acked
  {
    match s
    case ByClient(t, m) => ClientLeavesAcknowledged(w, t, m);
    case ByCallback(t, m) => CallbackLeavesAcknowledged(w, t, m);
    case ByCompensator(t, m) => CompensatorLeavesAcknowledged(w, t, m);
    case _ =>
  }

  lemma FullNeedsAcknowledgement(w: World, run: seq<Step>, id: Id)
    requires Sound(w) && Feasible(w, run) && forall i :: 0 <= i < |run| ==> run[i] != BrokerAck(id)
    ensures id in After(w, run).full ==> id in w.acked
  {
    RunKeepsSound(w, run);
    OnlyBrokerAcknowledges(w, run, id);
  }

  /** A run without an acknowledgement of the message that leaves it in both logs. */
  ghost predicate EndsInBothLogs(w: World, run: seq<Step>, id: Id) {
    && Feasible(w, run) && (forall i :: 0 <= i < |run| ==> run[i] != BrokerAck(id))
    && id in After(w, run).dead && id in After(w, run).full
  }

  /** In any reachable state a dead-lettered message can still come into the full log, without a
      further acknowledgement, exactly when Kafka has acknowledged it. */
  lemma DeadJoinsFullExactlyWhenAcked(initial: World, before: seq<Step>, t: TaskId, id: Id)
    requires Initial(initial) && Feasible(initial, before)
    requires id in After(initial, before).dead && t !in After(initial, before).tasks
    ensures (exists run :: EndsInBothLogs(After(initial, before), run, id)) <==> id in After(initial, before).acked
  {
    var w := After(initial, before);
    RunKeepsSound(initial, before);
    if id in w.acked {
      LateCallbackSaves(w, t, id);
      assert EndsInBothLogs(w, LateCallback(t, id), id);
    }
    if run :| EndsInBothLogs(w, run, id) {
      FullNeedsAcknowledgement(w, run, id);
    }
  }

  const NOTHING := World(map[], {}, {}, map[], 0, {}, {}, {}, map[], map[], map[])

  /** A message is sent, stays unacknowledged for sixteen minutes and is dead-lettered. */
  function BuriedInFlight(id: Id): seq<Step> {
    [ByClient(0, Save(id, 0, true, true)), ByClient(0, Send(true, false)), Tick(16 * 60 * 1000),
     ByCompensator(1, Start), ByCompensator(1, LoadPage([id])), ByCompensator(1, Choose(true)),
     ByCompensator(1, Judge), ByCompensator(1, SaveDead(true, true)), ByCompensator(1, Remove(true))]
  }

  /** The world once the message has been sent, sixteen minutes have passed, and with these tasks. */
  function Waiting(id: Id, tasks: map<TaskId, Task>): World {
    NOTHING.(process := map[id := Row(READY, 0, 0)], recorded := {id}, sent := {id}, now := 16 * 60 * 1000,
             tasks := tasks)
  }

  lemma SentAndGone(id: Id)
    ensures var run := BuriedInFlight(id)[..2];
      Feasible(NOTHING, run) && After(NOTHING, run) == Waiting(id, map[]).(now := 0)
  {
    var steps := BuriedInFlight(id);
    OneStep(NOTHING, steps[0]);
    OneMoreStep(NOTHING, [steps[0]], steps[1]);
    assert steps[..2] == [steps[0]] + [steps[1]];
    assert After(NOTHING, steps[..2]).tasks == map[];
  }

  lemma SentAndWaiting(id: Id)
    ensures var run := BuriedInFlight(id)[..4];
      Feasible(NOTHING, run) && After(NOTHING, run) == Waiting(id, map[1 := Compensator(Choosing, [], 0)])
  {
    var steps := BuriedInFlight(id);
    SentAndGone(id);
    var run := steps[..2];
    OneMoreStep(NOTHING, run, steps[2]);
    OneMoreStep(NOTHING, run + [steps[2]], steps[3]);
    assert steps[..4] == run + [steps[2]] + [steps[3]];
  }

  lemma WaitingIsLoaded(id: Id)
    ensures var run, queue := BuriedInFlight(id)[..5], [Snapshot(id, Row(READY, 0, 0))];
      Feasible(NOTHING, run) && After(NOTHING, run) == Waiting(id, map[1 := Compensator(Choosing, queue, 0)])
  {
    var steps := BuriedInFlight(id);
    SentAndWaiting(id);
    var run := steps[..4];
    assert Snapshots(After(NOTHING, run).process, [id]) == [Snapshot(id, Row(READY, 0, 0))];
    OneMoreStep(NOTHING, run, steps[4]);
    assert steps[..5] == run + [steps[4]];
  }

  lemma WaitingIsJudged(id: Id)
    ensures var run, queue := BuriedInFlight(id)[..7], [Snapshot(id, Row(READY, 0, 0))];
      Feasible(NOTHING, run) && After(NOTHING, run) == Waiting(id, map[1 := Compensator(SavingDead, queue, 0)])
  {
    var steps, queue := BuriedInFlight(id), [Snapshot(id, Row(READY, 0, 0))];
    WaitingIsLoaded(id);
    var run := steps[..5];
    OneMoreStep(NOTHING, run, steps[5]);
    assert After(NOTHING, run + [steps[5]]) == Waiting(id, map[1 := Compensator(Judging, queue, 0)]);
    OneMoreStep(NOTHING, run + [steps[5]], steps[6]);
    assert steps[..7] == run + [steps[5]] + [steps[6]];
  }

  lemma WaitingIsBuried(id: Id)
    ensures var run := BuriedInFlight(id);
      && Feasible(NOTHING, run)
      && id in After(NOTHING, run).dead && id in After(NOTHING, run).sent && 0 !in After(NOTHING, run).tasks
  {
    var steps := BuriedInFlight(id);
    WaitingIsJudged(id);
    var run := steps[..7];
    OneMoreStep(NOTHING, run, steps[7]);
    OneMoreStep(NOTHING, run + [steps[7]], steps[8]);
    assert steps == run + [steps[7]] + [steps[8]];
  }

  /** So the dead log and the full log are not disjoint: from nothing at all a run leads to a message
      that is in both, its acknowledgement having come late. */
  lemma DeadAndDelivered(id: Id)
    ensures Initial(NOTHING)
    ensures exists run :: Feasible(NOTHING, run) && id in After(NOTHING, run).dead && id in After(NOTHING, run).full
  {
    var run := BuriedInFlight(id);
    WaitingIsBuried(id);
    OneMoreStep(NOTHING, run, BrokerAck(id));
    var w := After(NOTHING, run + [BrokerAck(id)]);
    LateCallbackSaves(w, 0, id);
    RunsJoin(NOTHING, run + [BrokerAck(id)], LateCallback(0, id));
  }

  lemma {:induction false} RunsJoin(w: World, a: seq<Step>, b: seq<Step>)
    requires Feasible(w, a) && Feasible(After(w, a), b)
    ensures Feasible(w, a + b) && After(w, a + b) == After(After(w, a), b)
    decreases |a|
  {
    if |a| == 0 {
      assert a + b == b;
    } else {
      RunsJoin(Apply(w, a[0]), a[1..], b);
      assert (a + b)[1..] == a[1..] + b;
    }
  }
}
