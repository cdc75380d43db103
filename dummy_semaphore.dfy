/**
 * DummySemaphore: an object with the Semaphore API and an "infinite" initial
 * value, used where no real limit or mutual exclusion is needed. It has no
 * state, so it is a value with a single constructor.
 */
module DummySemaphore {
  import opened Common

  datatype DummySemaphore = DummySemaphore {

    /** Never locked. */
    function Locked(): (r: bool)
      ensures !r
    {
      false
    }

    /** Always ready: the opposite of `Locked`. */
    function Ready(): (r: bool)
      ensures r && r == !Locked()
    {
      true
    }

    /** Waiting returns at once with the value 1. */
    function Wait(timeout: Option<real>): (r: int)
      ensures r == 1
    {
      1
    }

    /** Can always be acquired at once; both arguments are ignored. */
    function Acquire(blocking: bool, timeout: Option<real>): (r: bool)
      ensures r && r == Ready()
    {
      true
    }

    /** Releasing does nothing: the semaphore after the call is the one before it. */
    function Release(): (r: DummySemaphore)
      ensures r == this && !r.Locked()
    {
      this
    }
  }

  /** The constructor accepts an initial value and ignores it. */
  function Create(value: Option<int>): (r: DummySemaphore)
    ensures r.Ready() && !r.Locked()
  {
    DummySemaphore
  }
}
