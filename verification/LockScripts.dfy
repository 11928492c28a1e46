/** The two scripts of the Redis lock, as they change the store. */
module LockScripts {
  type Key = string
  type Token = int

  /** A lock object's semaphore admits one thread at a time. */
  const MAX_PERMITS := 1

  /** setnx. */
  function AfterAcquire(store: map<Key, Token>, key: Key, token: Token): map<Key, Token> {
    if key in store then store else store[key := token]
  }

  /** Delete if the value is the caller's. */
  function AfterUnlock(store: map<Key, Token>, key: Key, token: Token): map<Key, Token> {
    if key in store && store[key] == token then store - {key} else store
  }
}
