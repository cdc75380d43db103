/**
 * The lock object a primitive keeps in its `_block` slot: the `Semaphore(1)`
 * of an RLock, or the raw thread lock of an _OwnedLock. Both are abstracted
 * to whether they are held, with a try-acquire that reports success.
 */
module Blocks {
  import opened Common

  class Block {
    var held: bool

    constructor ()
      ensures !held
    {
      held := false;
    }

    /**
     * Takes the block if it is free. The blocking flag and the timeout are
     * accepted as the source's callers pass them; the model does not wait,
     * so a held block is reported as not acquired and stays held.
     */
    method Acquire(blocking: bool, timeout: Option<real>) returns (acquired: bool)
      modifies this
      ensures acquired == !old(held)
      ensures held
    {
      acquired := !held;
      held := true;
    }

    /** Frees the block. */
    method Release()
      modifies this
      ensures !held
    {
      held := false;
    }
  }
}
