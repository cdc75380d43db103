/** Values shared by the models of the locking primitives of `gevent.lock`. */
module Common {

  /** Identity of a greenlet, as `getcurrent()` gives it; only compared for identity. */
  type TaskId = nat

  /** Identity of an OS thread, as the unpatched `get_ident()` gives it. */
  type ThreadId = nat

  datatype Option<+T> = None | Some(value: T)

  /** The exceptions the primitives raise. */
  datatype LockError = RuntimeError(message: string)

  /** Outcome of an operation that returns a value or raises. */
  datatype Result<+T> = Ok(value: T) | Err(error: LockError)

  /** Outcome of an operation that returns nothing or raises. */
  datatype Outcome = Pass | Fail(error: LockError)

  /**
   * The ownership record both RLock and _OwnedLock keep: `_owner`,
   * the nesting depth `_count`, and whether their `_block` is held.
   */
  datatype Hold = Hold(owner: Option<nat>, count: int, held: bool)

  /** Nobody owns the lock and the block is free (the state `__init__` sets up). */
  const Free := Hold(None, 0, false)

  /** The record invariant: a positive depth, an owner and a held block go together. */
  predicate Consistent(h: Hold) {
    h.count >= 0 && (h.count > 0 <==> h.owner.Some?) && (h.owner.Some? <==> h.held)
  }

  predicate OwnedBy(h: Hold, me: nat) {
    h.owner == Some(me)
  }
}
