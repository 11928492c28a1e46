/** The Redis lock: threads of any number of processes, each with one thread-local token, semaphores
    in front of Redis, scripts that run late or get no answer, expiry, and unlocks by non-holders. */
module RedisLock {
  import opened LockScripts

  type Thread = nat

  /** A lock object: in a process, for a key; a key may get a new one after cleanup. */
  datatype Lock = Lock(process: nat, key: Key, generation: nat)

  /** Where a token came from: the thread that generated it, and the key it asks for. */
  datatype Origin = Origin(thread: Thread, key: Key)

  /** A script sent to Redis and not yet run. */
  datatype Call = AcquireCall(key: Key, token: Token) | UnlockCall(key: Key, token: Token)

  /** What a thread is in the middle of: an attempt, or an unlock before, or in, its synchronized block. */
  datatype Phase = Waiting(lock: Lock, token: Token) | Finishing(lock: Lock) | Inside(lock: Lock, releasing: bool)

  datatype World = World(
    store: map<Key, Token>, issued: map<Token, Origin>, calls: set<Call>, granted: set<Token>,
    holders: map<Thread, Token>, phases: map<Thread, Phase>, permits: map<Lock, int>)

  datatype Step =
    | Acquire(lock: Lock)
    | Try(t: Thread, lock: Lock, token: Token)
    | Granted(t: Thread)
    | Refused(t: Thread)
    | Unlock(t: Thread, lock: Lock)
    | Enter(t: Thread)
    | Leave(t: Thread)
    | Run(call: Call)
    | Drop(call: Call)
    | Expire(key: Key)

  function Permits(w: World, lock: Lock): int {
    if lock in w.permits then w.permits[lock] else MAX_PERMITS
  }

  predicate Occupied(w: World, lock: Lock) {
    exists t :: t in w.phases && w.phases[t].Inside? && w.phases[t].lock == lock
  }

  predicate Enabled(w: World, s: Step) {
    match s
    case Acquire(lock) => Permits(w, lock) > 0
    case Try(t, _, token) => t !in w.phases && token !in w.issued
    case Granted(t) => t in w.phases && w.phases[t].Waiting? && w.phases[t].token in w.granted
    case Refused(t) => t in w.phases && w.phases[t].Waiting?
    case Unlock(t, _) => t !in w.phases
    case Enter(t) => t in w.phases && w.phases[t].Finishing? && !Occupied(w, w.phases[t].lock)
    case Leave(t) => t in w.phases && w.phases[t].Inside?
    case Run(call) => call in w.calls
    case Drop(call) => call in w.calls
    case Expire(_) => true
  }

  /** A script runs, whether or not its answer will arrive. */
  function RunEffect(w: World, call: Call): World {
    match call
    case AcquireCall(key, token) =>
      w.(calls := w.calls - {call}, store := AfterAcquire(w.store, key, token),
         granted := if key in w.store then w.granted else w.granted + {token})
    case UnlockCall(key, token) =>
      w.(calls := w.calls - {call}, store := AfterUnlock(w.store, key, token))
  }

  function TryEffect(w: World, t: Thread, lock: Lock, token: Token): World {
    w.(issued := w.issued[token := Origin(t, lock.key)],
       calls := w.calls + {AcquireCall(lock.key, token)},
       phases := w.phases[t := Waiting(lock, token)])
  }

  /** unlock sends the script only if the thread has a token; the cleanup task's thread has none. */
  function UnlockEffect(w: World, t: Thread, lock: Lock): World {
    var w' := w.(phases := w.phases[t := Finishing(lock)]);
    if t in w.holders then w'.(calls := w.calls + {UnlockCall(lock.key, w.holders[t])}) else w'
  }

  function EnterEffect(w: World, t: Thread): World
    requires t in w.phases && w.phases[t].Finishing?
  {
    var lock := w.phases[t].lock;
    w.(phases := w.phases[t := Inside(lock, Permits(w, lock) < MAX_PERMITS)])
  }

  function LeaveEffect(w: World, t: Thread): World
    requires t in w.phases && w.phases[t].Inside?
  {
    var lock := w.phases[t].lock;
    w.(permits := if w.phases[t].releasing then w.permits[lock := Permits(w, lock) + 1] else w.permits,
       phases := w.phases - {t},
       holders := w.holders - {t})
  }

  function Next(w: World, s: Step): World
    requires Enabled(w, s)
  {
    match s
    case Acquire(lock) => w.(permits := w.permits[lock := Permits(w, lock) - 1])
    case Try(t, lock, token) => TryEffect(w, t, lock, token)
    case Granted(t) => w.(holders := w.holders[t := w.phases[t].token], phases := w.phases - {t})
    case Refused(t) => w.(phases := w.phases - {t})
    case Unlock(t, lock) => UnlockEffect(w, t, lock)
    case Enter(t) => EnterEffect(w, t)
    case Leave(t) => LeaveEffect(w, t)
    case Run(call) => RunEffect(w, call)
    case Drop(call) => w.(calls := w.calls - {call})
    case Expire(key) => w.(store := w.store - {key})
  }

  const EMPTY := World(map[], map[], {}, {}, map[], map[], map[])

  ghost predicate Feasible(w: World, run: seq<Step>)
    decreases |run|, 0
  {
    |run| > 0 ==> Feasible(w, run[..|run| - 1]) && Enabled(After(w, run[..|run| - 1]), run[|run| - 1])
  }

  ghost function After(w: World, run: seq<Step>): World
    requires Feasible(w, run)
    decreases |run|, 1
  {
    if |run| == 0 then w else Next(After(w, run[..|run| - 1]), run[|run| - 1])
  }

  // ----- whose tokens are where

  predicate From(w: World, token: Token, t: Thread) {
    token in w.issued && w.issued[token].thread == t
  }

  /** A token lies only under the key it was generated for, with the thread that generated it. */
  predicate TokensInPlace(w: World) {
    && (forall key :: key in w.store ==> w.store[key] in w.issued && w.issued[w.store[key]].key == key)
    && (forall t :: t in w.holders ==> From(w, w.holders[t], t))
    && (forall t :: t in w.phases && w.phases[t].Waiting? ==> From(w, w.phases[t].token, t))
    && (forall c :: c in w.calls ==> c.token in w.issued && (c.AcquireCall? ==> w.issued[c.token].key == c.key))
  }

  /** Both threads are in the synchronized block of the same semaphore. */
  predicate InsideOf(w: World, t: Thread, u: Thread) {
    && t in w.phases && u in w.phases && w.phases[t].Inside? && w.phases[u].Inside?
    && w.phases[t].lock == w.phases[u].lock
  }

  /** A semaphore has zero or one permit; who is about to release it found it at zero, alone. */
  ghost predicate PermitsInRange(w: World) {
    && (forall lock :: lock in w.permits ==> 0 <= w.permits[lock] <= MAX_PERMITS)
    && (forall t :: t in w.phases && w.phases[t].Inside? && w.phases[t].releasing ==> Permits(w, w.phases[t].lock) == 0)
    && (forall t, u :: InsideOf(w, t, u) ==> t == u)
  }

  lemma RunKeepsTokens(w: World, call: Call)
    requires TokensInPlace(w) && call in w.calls
    ensures TokensInPlace(RunEffect(w, call))
  {}

  lemma TryKeepsTokens(w: World, t: Thread, lock: Lock, token: Token)
    requires TokensInPlace(w) && token !in w.issued
    ensures TokensInPlace(TryEffect(w, t, lock, token))
  {}

  lemma UnlockKeepsTokens(w: World, t: Thread, lock: Lock)
    requires TokensInPlace(w) && t !in w.phases
    ensures TokensInPlace(UnlockEffect(w, t, lock))
  {}

  lemma StepKeepsTokens(w: World, s: Step)
    requires TokensInPlace(w) && Enabled(w, s)
    ensures TokensInPlace(Next(w, s))
  {
    match s
    case Run(call) => RunKeepsTokens(w, call);
    case Try(t, lock, token) => TryKeepsTokens(w, t, lock, token);
    case Unlock(t, lock) => UnlockKeepsTokens(w, t, lock);
    case _ =>
  }

  lemma EnterKeepsPermits(w: World, t: Thread)
    requires PermitsInRange(w) && t in w.phases && w.phases[t].Finishing? && !Occupied(w, w.phases[t].lock)
    ensures PermitsInRange(EnterEffect(w, t))
  {
    var w' := EnterEffect(w, t);
    forall u, v | InsideOf(w', u, v) ensures u == v {
      assert u != t && v != t ==> InsideOf(w, u, v);
    }
  }

  lemma LeaveKeepsPermits(w: World, t: Thread)
    requires PermitsInRange(w) && t in w.phases && w.phases[t].Inside?
    ensures PermitsInRange(LeaveEffect(w, t))
  {
    var w' := LeaveEffect(w, t);
    forall u, v | InsideOf(w', u, v) ensures u == v {
      assert InsideOf(w, u, v);
    }
    forall u | u in w'.phases && w'.phases[u].Inside? && w'.phases[u].releasing
      ensures Permits(w', w'.phases[u].lock) == 0
    {
      assert w.phases[u].lock == w.phases[t].lock ==> InsideOf(w, u, t);
    }
  }

  /** Steps that leave permits and synchronized blocks alone. */
  lemma PermitsStay(w: World, w': World)
    requires PermitsInRange(w) && w'.permits == w.permits
    requires forall t :: t in w'.phases && w'.phases[t].Inside? ==> t in w.phases && w.phases[t] == w'.phases[t]
    ensures PermitsInRange(w')
  {
    forall u, v | InsideOf(w', u, v) ensures u == v {
      assert InsideOf(w, u, v);
    }
  }

  lemma StepKeepsPermits(w: World, s: Step)
    requires PermitsInRange(w) && Enabled(w, s)
    ensures PermitsInRange(Next(w, s))
  {
    match s
    case Acquire(lock) =>
      var w' := Next(w, s);
      assert forall t, u :: InsideOf(w', t, u) ==> InsideOf(w, t, u);
    case Enter(t) => EnterKeepsPermits(w, t);
    case Leave(t) => LeaveKeepsPermits(w, t);
    case _ => PermitsStay(w, Next(w, s));
  }

  /** Over all interleavings, also with unlocks by threads that hold nothing. */
  lemma {:induction false} SemaphoreStaysBinary(run: seq<Step>)
    requires Feasible(EMPTY, run)
    ensures PermitsInRange(After(EMPTY, run))
    ensures forall lock :: 0 <= Permits(After(EMPTY, run), lock) <= MAX_PERMITS
    decreases |run|
  {
    if |run| > 0 {
      SemaphoreStaysBinary(run[..|run| - 1]);
      StepKeepsPermits(After(EMPTY, run[..|run| - 1]), run[|run| - 1]);
    }
  }

  lemma {:induction false} TokensStayInPlace(run: seq<Step>)
    requires Feasible(EMPTY, run)
    ensures TokensInPlace(After(EMPTY, run))
    decreases |run|
  {
    if |run| > 0 {
      TokensStayInPlace(run[..|run| - 1]);
      StepKeepsTokens(After(EMPTY, run[..|run| - 1]), run[|run| - 1]);
    }
  }

  // ----- safety

  predicate Owns(w: World, t: Thread, key: Key) {
    t in w.holders && key in w.store && w.store[key] == w.holders[t]
  }

  /** In every reachable state at most one thread owns a key, and a thread owns at most one key. */
  lemma AtMostOneOwner(run: seq<Step>, t: Thread, u: Thread, key: Key, other: Key)
    requires Feasible(EMPTY, run)
    ensures var w := After(EMPTY, run);
      && (Owns(w, t, key) && Owns(w, u, key) ==> t == u)
      && (Owns(w, t, key) && Owns(w, t, other) ==> key == other)
  {
    TokensStayInPlace(run);
  }

  /** A step ends a tenure exactly when the key expires or a script runs that carries the very token. */
  lemma TenureEndsExactlyBy(w: World, s: Step, key: Key)
    requires Enabled(w, s) && key in w.store
    ensures (key in Next(w, s).store && Next(w, s).store[key] == w.store[key])
      <==> s != Expire(key) && s != Run(UnlockCall(key, w.store[key]))
  {}

  /** And that script was sent by the thread that generated the token, while it held it. */
  lemma OnlyOwnTokenIsSent(run: seq<Step>, s: Step, call: Call)
    requires Feasible(EMPTY, run) && Enabled(After(EMPTY, run), s)
    requires call.UnlockCall? && call in Next(After(EMPTY, run), s).calls && call !in After(EMPTY, run).calls
    ensures var w := After(EMPTY, run);
      s.Unlock? && s.lock.key == call.key && s.t in w.holders && w.holders[s.t] == call.token && From(w, call.token, s.t)
  {
    TokensStayInPlace(run);
  }

  /** The tenure of thread t at the key: its token lies there, and no unlock with it has been sent. */
  predicate Tenure(w: World, t: Thread, key: Key, token: Token) {
    && key in w.store && w.store[key] == token && UnlockCall(key, token) !in w.calls
    && From(w, token, t)
  }

  lemma TenureSurvives(w: World, s: Step, t: Thread, key: Key, token: Token)
    requires Enabled(w, s) && TokensInPlace(w) && Tenure(w, t, key, token)
    requires s != Expire(key) && !(s.Unlock? && s.t == t)
    ensures Tenure(Next(w, s), t, key, token)
  {
    TenureEndsExactlyBy(w, s, key);
  }

  lemma {:induction false} TokensStayInPlaceFrom(w: World, run: seq<Step>)
    requires TokensInPlace(w) && Feasible(w, run)
    ensures TokensInPlace(After(w, run))
    decreases |run|
  {
    if |run| > 0 {
      TokensStayInPlaceFrom(w, run[..|run| - 1]);
      StepKeepsTokens(After(w, run[..|run| - 1]), run[|run| - 1]);
    }
  }

  /** A thread that owns a key keeps it as long as the key does not expire and it does not itself
      unlock, whatever all other threads do: lock, tryLock, unlock any lock, clean up, in any order
      and with scripts that run late. */
  lemma {:induction false} OwnerKeepsKey(w: World, run: seq<Step>, t: Thread, key: Key)
    requires TokensInPlace(w) && Owns(w, t, key) && UnlockCall(key, w.store[key]) !in w.calls && Feasible(w, run)
    requires forall i :: 0 <= i < |run| ==> run[i] != Expire(key) && !(run[i].Unlock? && run[i].t == t)
    ensures Tenure(After(w, run), t, key, w.store[key])
    decreases |run|
  {
    if |run| > 0 {
      OwnerKeepsKey(w, run[..|run| - 1], t, key);
      TokensStayInPlaceFrom(w, run[..|run| - 1]);
      TenureSurvives(After(w, run[..|run| - 1]), run[|run| - 1], t, key, w.store[key]);
    }
  }

  lemma {:induction false} RunsJoin(w: World, a: seq<Step>, b: seq<Step>)
    requires Feasible(w, a + b)
    ensures Feasible(w, a) && Feasible(After(w, a), b) && After(w, a + b) == After(After(w, a), b)
    decreases |b|
  {
    if |b| == 0 {
      assert a + b == a;
    } else {
      assert (a + b)[..|a + b| - 1] == a + b[..|b| - 1];
      RunsJoin(w, a, b[..|b| - 1]);
    }
  }

  /** So between any two moments of a run at which t owns a key and no unlock of its own is pending,
      and at which another thread owns it, the key has expired or t has unlocked. */
  lemma OwnershipPassesOnlyBy(earlier: seq<Step>, later: seq<Step>, t: Thread, u: Thread, key: Key)
    requires Feasible(EMPTY, earlier + later) && t != u
    requires Feasible(EMPTY, earlier)
    requires var w := After(EMPTY, earlier); Owns(w, t, key) && UnlockCall(key, w.store[key]) !in w.calls
    requires Owns(After(EMPTY, earlier + later), u, key)
    ensures exists i :: 0 <= i < |later| && (later[i] == Expire(key) || (later[i].Unlock? && later[i].t == t))
  {
    var w := After(EMPTY, earlier);
    RunsJoin(EMPTY, earlier, later);
    TokensStayInPlace(earlier);
    TokensStayInPlace(earlier + later);
    if forall i :: 0 <= i < |later| ==> later[i] != Expire(key) && !(later[i].Unlock? && later[i].t == t) {
      OwnerKeepsKey(w, later, t, key);
    }
  }

  // ----- who can still be freed

  /** Someone can still send, or has sent, an unlock with this token. */
  predicate Releasable(w: World, key: Key, token: Token) {
    || (exists t :: t in w.holders && w.holders[t] == token)
    || (exists t :: t in w.phases && w.phases[t].Waiting? && w.phases[t].token == token)
    || UnlockCall(key, token) in w.calls
  }

  lemma StaysUnreleasable(w: World, s: Step, key: Key, token: Token)
    requires Enabled(w, s) && token in w.issued && !Releasable(w, key, token)
    ensures token in Next(w, s).issued && !Releasable(Next(w, s), key, token)
  {}

  /** A token that no thread remembers, as when a second lock has overwritten it or the answer to the
      attempt was lost, keeps its key locked until expiry. */
  lemma {:induction false} ForgottenUntilExpiry(w: World, run: seq<Step>, key: Key)
    requires Feasible(w, run) && key in w.store && w.store[key] in w.issued && !Releasable(w, key, w.store[key])
    requires forall i :: 0 <= i < |run| ==> run[i] != Expire(key)
    ensures key in After(w, run).store && After(w, run).store[key] == w.store[key]
    ensures w.store[key] in After(w, run).issued && !Releasable(After(w, run), key, w.store[key])
    decreases |run|
  {
    if |run| > 0 {
      ForgottenUntilExpiry(w, run[..|run| - 1], key);
      StaysUnreleasable(After(w, run[..|run| - 1]), run[|run| - 1], key, w.store[key]);
      TenureEndsExactlyBy(After(w, run[..|run| - 1]), run[|run| - 1], key);
    }
  }

  lemma Extend(w: World, run: seq<Step>, s: Step)
    requires Feasible(w, run) && Enabled(After(w, run), s)
    ensures Feasible(w, run + [s]) && After(w, run + [s]) == Next(After(w, run), s)
  {
    assert (run + [s])[..|run + [s]| - 1] == run;
  }

  /** A thread that holds a token and unlocks frees the key exactly when the key still carries it. */
  lemma UnlockFreesExactlyOwn(w: World, t: Thread, lock: Lock)
    requires t !in w.phases && t in w.holders && lock.key in w.store
    ensures var run := [Unlock(t, lock), Run(UnlockCall(lock.key, w.holders[t]))];
      && Feasible(w, run)
      && (lock.key !in After(w, run).store <==> Owns(w, t, lock.key))
      && (lock.key in After(w, run).store ==> After(w, run).store[lock.key] == w.store[lock.key])
  {
    var unlock, call := Unlock(t, lock), Run(UnlockCall(lock.key, w.holders[t]));
    Extend(w, [], unlock);
    assert [] + [unlock] == [unlock];
    Extend(w, [unlock], call);
    assert [unlock] + [call] == [unlock, call];
  }

  /** An attempt whose script runs and is answered takes the key exactly when it is free. */
  lemma AttemptTakesExactlyFree(w: World, t: Thread, lock: Lock, token: Token)
    requires t !in w.phases && token !in w.issued && token !in w.granted
    ensures var try, script := Try(t, lock, token), Run(AcquireCall(lock.key, token));
      && Feasible(w, [try, script])
      && (Enabled(After(w, [try, script]), Granted(t)) <==> lock.key !in w.store)
      && (lock.key !in w.store ==> Owns(Next(After(w, [try, script]), Granted(t)), t, lock.key))
  {
    var try, script := Try(t, lock, token), Run(AcquireCall(lock.key, token));
    Extend(w, [], try);
    assert [] + [try] == [try];
    Extend(w, [try], script);
    assert [try] + [script] == [try, script];
  }

  /** Taking a second lock forgets the first: its key stays locked until expiry, whatever is unlocked. */
  lemma NestedLockLeaks(w: World, t: Thread, run: seq<Step>, key: Key)
    requires TokensInPlace(w) && Owns(w, t, key) && UnlockCall(key, w.store[key]) !in w.calls
    requires t in w.phases && w.phases[t].Waiting? && w.phases[t].token in w.granted
    requires w.phases[t].token != w.holders[t]
    requires Feasible(Next(w, Granted(t)), run) && forall i :: 0 <= i < |run| ==> run[i] != Expire(key)
    ensures key in After(Next(w, Granted(t)), run).store
  {
    ForgottenUntilExpiry(Next(w, Granted(t)), run, key);
  }

  lemma ThreeSteps(w: World, a: Step, b: Step, c: Step)
    requires Enabled(w, a) && Enabled(Next(w, a), b) && Enabled(Next(Next(w, a), b), c)
    ensures Feasible(w, [a, b, c]) && After(w, [a, b, c]) == Next(Next(Next(w, a), b), c)
  {
    Extend(w, [], a);
    assert [] + [a] == [a];
    Extend(w, [a], b);
    assert [a] + [b] == [a, b];
    Extend(w, [a, b], c);
    assert [a, b] + [c] == [a, b, c];
  }

  lemma UnlockedWithoutToken(w: World, t: Thread, lock: Lock)
    requires t !in w.phases && t !in w.holders && PermitsInRange(w) && !Occupied(w, lock)
    ensures var w' := LeaveEffect(EnterEffect(UnlockEffect(w, t, lock), t), t);
      && w'.(permits := w.permits) == w
      && w'.permits == if Permits(w, lock) < MAX_PERMITS then w.permits[lock := Permits(w, lock) + 1] else w.permits
  {
    var w' := LeaveEffect(EnterEffect(UnlockEffect(w, t, lock), t), t);
    assert w'.phases == w.phases && w'.holders == w.holders;
  }

  lemma OnePermitBack(w: World, w': World, lock: Lock)
    requires PermitsInRange(w)
    requires w'.permits == if Permits(w, lock) < MAX_PERMITS then w.permits[lock := Permits(w, lock) + 1] else w.permits
    ensures Permits(w', lock) == MAX_PERMITS
    ensures forall other :: other != lock ==> Permits(w', other) == Permits(w, other)
  {}

  /** An unlock by a thread without a token, after a failed tryLock or from the cleanup task, sends
      Redis nothing: all it does is bring the semaphore back to its one permit. */
  lemma UnlockWithoutTokenIsLocal(w: World, t: Thread, lock: Lock)
    requires t !in w.phases && t !in w.holders && !Occupied(w, lock) && PermitsInRange(w)
    ensures var run := [Unlock(t, lock), Enter(t), Leave(t)];
      && Feasible(w, run)
      && After(w, run).(permits := w.permits) == w
      && Permits(After(w, run), lock) == MAX_PERMITS
      && forall other :: other != lock ==> Permits(After(w, run), other) == Permits(w, other)
  {
    UnlockUnoccupied(w, t, lock);
    ThreeSteps(w, Unlock(t, lock), Enter(t), Leave(t));
    UnlockedWithoutToken(w, t, lock);
    OnePermitBack(w, LeaveEffect(EnterEffect(UnlockEffect(w, t, lock), t), t), lock);
  }

  lemma UnlockUnoccupied(w: World, t: Thread, lock: Lock)
    requires t !in w.phases && !Occupied(w, lock)
    ensures !Occupied(UnlockEffect(w, t, lock), lock)
  {}

  /** An unlock in the usual finally after a failed tryLock on another lock forgets the token that the
      thread holds: the key of the lock it does hold stays locked until expiry. */
  lemma FailedTryForgetsHeldLock(w: World, t: Thread, other: Lock, key: Key, run: seq<Step>)
    requires TokensInPlace(w) && Owns(w, t, key) && UnlockCall(key, w.store[key]) !in w.calls
    requires t !in w.phases && other.key != key && !Occupied(w, other)
    ensures var bracket := [Unlock(t, other), Enter(t), Leave(t)];
      && Feasible(w, bracket)
      && (Feasible(After(w, bracket), run) && (forall i :: 0 <= i < |run| ==> run[i] != Expire(key)) ==>
            key in After(After(w, bracket), run).store)
  {
    var bracket := [Unlock(t, other), Enter(t), Leave(t)];
    var w1 := UnlockEffect(w, t, other);
    assert !Occupied(w1, other);
    ThreeSteps(w, Unlock(t, other), Enter(t), Leave(t));
    var w' := After(w, bracket);
    ForgottenByLeaving(w, t, other, key);
    if Feasible(w', run) && forall i :: 0 <= i < |run| ==> run[i] != Expire(key) {
      ForgottenUntilExpiry(w', run, key);
    }
  }

  lemma ForgottenByLeaving(w: World, t: Thread, other: Lock, key: Key)
    requires TokensInPlace(w) && Owns(w, t, key) && UnlockCall(key, w.store[key]) !in w.calls
    requires t !in w.phases && other.key != key
    ensures var w' := LeaveEffect(EnterEffect(UnlockEffect(w, t, other), t), t);
      && key in w'.store && w'.store[key] == w.store[key] && w.store[key] in w'.issued
      && !Releasable(w', key, w.store[key])
  {
    var w' := LeaveEffect(EnterEffect(UnlockEffect(w, t, other), t), t);
    assert From(w, w.store[key], t);
    assert forall u :: u in w'.holders ==> u in w.holders && u != t && w'.holders[u] == w.holders[u];
    assert forall u :: u in w'.phases ==> u in w.phases && u != t && w'.phases[u] == w.phases[u];
  }
}
