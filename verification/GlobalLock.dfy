/** One lock object as one thread uses it: the two scripts, tryLock with its counter, and unlock. */
module GlobalLock {
  import opened Options
  import opened LockScripts
  import opened LockTiming

  /** What becomes of one script call: it may run without its answer arriving, or not run at all. */
  datatype Fate = Fate(runs: bool, answered: bool)

  class Lock {
    const globalKey: Key
    /** Redis, as long as nobody else changes it. */
    var store: map<Key, Token>
    var permits: int
    /** The calling thread's GlobalLockValue. */
    var holder: Option<Token>

    constructor (key: Key, store: map<Key, Token>)
      ensures globalKey == key && this.store == store && permits == MAX_PERMITS && holder == None
    {
      globalKey, this.store, permits, holder := key, store, MAX_PERMITS, None;
    }

    ghost predicate Valid()
      reads this
    {
      0 <= permits <= MAX_PERMITS
    }

    /** acquireLock: whether the script ran, found the key free, and the answer came back. */
    method AcquireScript(token: Token, fate: Fate) returns (result: bool)
      modifies this`store
      ensures store == if fate.runs then AfterAcquire(old(store), globalKey, token) else old(store)
      ensures result <==> fate.runs && fate.answered && globalKey !in old(store)
    {
      result := false;
      if fate.runs {
        var isFree := globalKey !in store;
        if isFree {
          store := store[globalKey := token];
        }
        result := isFree && fate.answered;
      }
    }

    method UnlockScript(token: Token, fate: Fate)
      modifies this`store
      ensures store == if fate.runs then AfterUnlock(old(store), globalKey, token) else old(store)
    {
      if fate.runs && globalKey in store && store[globalKey] == token {
        store := store - {globalKey};
      }
    }

    /** tryLock, with the tokens it would generate, the fates of its calls, and whether a sleep is
        interrupted. It succeeds if and only if it gets the permit, the key is free, and the first
        attempt that reaches Redis is answered, comes within the timeout and follows no interruption;
        then its own token is under the key. When it fails, the key holds what it held or the token of
        the first attempt that reached Redis, whose answer was lost. It waits a period, or a shorter
        timeout, between attempts, and gives up on an interruption or with the timeout used up. */
    method TryLock(timeout: int, period: int, tokens: nat -> Token, fates: nat -> Fate, interrupted: nat -> bool)
      returns (result: bool, attempts: nat, slept: nat)
      requires Valid() && period > 0 && 0 < timeout && timeout + Wait(period, timeout) <= MAX_INT
      modifies this
      ensures Valid() && permits == 0
      ensures Wait(period, timeout) == if timeout < period then timeout else period
      ensures slept <= timeout && attempts * Wait(period, timeout) <= timeout
      ensures result <==> (old(permits) > 0 && globalKey !in old(store)
                           && CanWin(timeout, Wait(period, timeout), fates, interrupted))
      ensures old(permits) > 0 && globalKey !in old(store) && fates(0).runs && fates(0).answered ==>
                result && attempts == 1 && slept == 0
      ensures result ==> (attempts > 0 && Wins(attempts - 1, timeout, Wait(period, timeout), fates, interrupted)
                          && slept == (attempts - 1) * Wait(period, timeout))
      ensures result ==> holder == Some(tokens(attempts - 1)) && store == old(store)[globalKey := tokens(attempts - 1)]
      ensures !result ==> holder == old(holder)
      ensures !result ==> Untaken(old(store), store, globalKey, tokens, fates, attempts)
      ensures old(permits) == 0 ==> attempts == 0 && slept == 0
      ensures !result && old(permits) > 0 && Uninterrupted(interrupted, attempts) ==>
                timeout < (attempts + 1) * Wait(period, timeout) && slept == attempts * Wait(period, timeout)
      ensures !result && !Uninterrupted(interrupted, attempts) ==>
                (attempts > 0 && interrupted(attempts - 1) && Uninterrupted(interrupted, attempts - 1)
                 && slept == (attempts - 1) * Wait(period, timeout))
    {
      result, attempts, slept := false, 0, 0;
      if permits == 0 {
        return;
      }
      permits := permits - 1;
      var wait := Wait(period, timeout);
      var count := Narrow(0 + wait);
      while count <= timeout
        invariant count == (attempts + 1) * wait && slept == attempts * wait <= timeout
        invariant permits == 0 && holder == old(holder)
        invariant Uninterrupted(interrupted, attempts)
        invariant globalKey !in old(store) ==> NoneWon(fates, attempts)
        invariant Untaken(old(store), store, globalKey, tokens, fates, attempts)
        decreases timeout - count
      {
        var token := tokens(attempts);
        attempts := attempts + 1;
        ghost var before := store;
        var rs := AcquireScript(token, fates(attempts - 1));
        if rs {
          KeyGotByFirst(old(store), before, globalKey, tokens, fates, attempts - 1);
          assert Wins(attempts - 1, timeout, wait, fates, interrupted);
          holder := Some(token);
          return true, attempts, slept;
        }
        OneMoreUntaken(old(store), before, store, globalKey, tokens, fates, attempts - 1);
        if interrupted(attempts - 1) {
          NoLaterWins(attempts, timeout, wait, fates, interrupted);
          return;
        }
        slept := slept + wait;
        assert (attempts + 1) * wait == attempts * wait + wait;
        count := Narrow(count + wait);
      }
      NoneWinsInTime(attempts, timeout, wait, fates, interrupted);
    }

    /** unlock: frees the key only if it carries this thread's token; in any case the semaphore is
        back at its one permit and the thread's token forgotten. */
    method Unlock(fate: Fate)
      requires Valid()
      modifies this
      ensures Valid() && permits == MAX_PERMITS && holder == None
      ensures store == if old(holder).Some? && fate.runs then AfterUnlock(old(store), globalKey, old(holder).value)
                       else old(store)
      ensures globalKey in old(store) && globalKey !in store
         <==> fate.runs && globalKey in old(store) && old(holder) == Some(old(store)[globalKey])
    {
      if holder.Some? {
        UnlockScript(holder.value, fate);
      }
      if permits < MAX_PERMITS {
        permits := permits + 1;
      }
      holder := None;
    }

    /** The usual bracket: the work is done if and only if the lock is got; after the unlock in a finally
        a foreign lock is untouched, and the own one is released if the unlock script runs. */
    method Bracket(timeout: int, period: int, tokens: nat -> Token, fates: nat -> Fate, interrupted: nat -> bool,
        fate: Fate)
      returns (worked: bool)
      requires Valid() && period > 0 && 0 < timeout && timeout + Wait(period, timeout) <= MAX_INT && holder == None
      modifies this
      ensures Valid() && permits == MAX_PERMITS && holder == None
      ensures worked <==> (old(permits) > 0 && globalKey !in old(store)
                           && CanWin(timeout, Wait(period, timeout), fates, interrupted))
      ensures old(permits) > 0 && globalKey !in old(store) && fates(0).runs && fates(0).answered ==> worked
      ensures globalKey in old(store) ==> !worked && store == old(store)
      ensures worked && fate.runs ==> store == old(store)
      ensures worked && !fate.runs ==> globalKey in store
    {
      var attempts, slept;
      worked, attempts, slept := TryLock(timeout, period, tokens, fates, interrupted);
      Unlock(fate);
    }
  }

  // ----- the attempts of one tryLock, counted from zero

  predicate FirstToRun(fates: nat -> Fate, i: nat) {
    forall j: nat :: j < i ==> !fates(j).runs
  }

  predicate Uninterrupted(interrupted: nat -> bool, n: nat) {
    forall j: nat :: j < n ==> !interrupted(j)
  }

  /** Attempt i gets a key that was free at the start: it is the first to reach Redis, and is answered. */
  predicate GetsKey(fates: nat -> Fate, i: nat) {
    fates(i).runs && fates(i).answered && FirstToRun(fates, i)
  }

  predicate NoneWon(fates: nat -> Fate, n: nat) {
    forall i: nat :: i < n ==> !GetsKey(fates, i)
  }

  /** And it is made: it comes within the timeout and after no interruption. */
  predicate Wins(i: nat, timeout: int, wait: int, fates: nat -> Fate, interrupted: nat -> bool) {
    (i + 1) * wait <= timeout && Uninterrupted(interrupted, i) && GetsKey(fates, i)
  }

  ghost predicate CanWin(timeout: int, wait: int, fates: nat -> Fate, interrupted: nat -> bool) {
    exists i: nat :: Wins(i, timeout, wait, fates, interrupted)
  }

  lemma NoneWinsInTime(n: nat, timeout: int, wait: nat, fates: nat -> Fate, interrupted: nat -> bool)
    requires timeout < (n + 1) * wait
    ensures NoneWon(fates, n) ==> !CanWin(timeout, wait, fates, interrupted)
  {
    if i: nat :| Wins(i, timeout, wait, fates, interrupted) && i >= n {
      Monotone(n + 1, i + 1, wait);
    }
  }

  lemma NoLaterWins(n: nat, timeout: int, wait: nat, fates: nat -> Fate, interrupted: nat -> bool)
    requires n > 0 && interrupted(n - 1)
    ensures NoneWon(fates, n) ==> !CanWin(timeout, wait, fates, interrupted)
  {}

  /** Without success the store is as it was, unless the key was free and an attempt has reached Redis:
      then it holds the token of the first one, whose answer was lost. */
  predicate Untaken(before: map<Key, Token>, after: map<Key, Token>, key: Key, tokens: nat -> Token,
      fates: nat -> Fate, n: nat) {
    if key in before || FirstToRun(fates, n) then after == before
    else LeftBehind(before, after, key, tokens, fates, n)
  }

  predicate LeftBehind(before: map<Key, Token>, after: map<Key, Token>, key: Key, tokens: nat -> Token,
      fates: nat -> Fate, n: nat) {
    exists i: nat :: Lost(fates, i) && i < n && after == before[key := tokens(i)]
  }

  predicate Lost(fates: nat -> Fate, i: nat) {
    fates(i).runs && !fates(i).answered && FirstToRun(fates, i)
  }

  lemma KeyGotByFirst(before: map<Key, Token>, store: map<Key, Token>, key: Key, tokens: nat -> Token,
      fates: nat -> Fate, n: nat)
    requires Untaken(before, store, key, tokens, fates, n) && key !in store
    ensures FirstToRun(fates, n) && key !in before && store == before
  {}

  /** One more attempt that does not learn of any success. */
  lemma OneMoreUntaken(before: map<Key, Token>, store: map<Key, Token>, store': map<Key, Token>, key: Key,
      tokens: nat -> Token, fates: nat -> Fate, n: nat)
    requires Untaken(before, store, key, tokens, fates, n)
    requires store' == if fates(n).runs then AfterAcquire(store, key, tokens(n)) else store
    requires !(fates(n).runs && fates(n).answered && key !in store)
    ensures Untaken(before, store', key, tokens, fates, n + 1)
    ensures key !in before && NoneWon(fates, n) ==> NoneWon(fates, n + 1)
  {
    if key !in before && FirstToRun(fates, n) && fates(n).runs {
      assert Lost(fates, n);
    } else if key !in before && !FirstToRun(fates, n) {
      var i: nat :| Lost(fates, i) && i < n && store == before[key := tokens(i)];
      assert store' == store;
    }
  }
}
