/**
 * RLock: a mutex that the greenlet holding it may acquire again. Its state is
 * the owning greenlet `_owner`, the nesting depth `_count` and a `Semaphore(1)`
 * kept in `_block`, which is held exactly while some greenlet owns the lock.
 *
 * The transitions are first given as functions on `Hold` values (the owner,
 * the depth and whether the block is held); the class `RLock` performs them
 * step by step on its fields and is proved to agree with them.
 */
module RLock {
  import opened Common
  import opened Blocks

  /** The message of the RuntimeError raised by a release from a non-owner. */
  const NotOwnerMessage := "cannot release un-acquired lock"

  /** What `acquire` leaves behind and whether it reports success. */
  datatype Acquired = Acquired(state: Hold, acquired: bool)

  /** The `(count, owner)` pair that `_release_save` hands to a condition variable. */
  datatype Saved = Saved(count: int, owner: Option<TaskId>)

  /** What `_release_save` leaves behind and what it returns. */
  datatype SaveResult = SaveResult(state: Hold, saved: Saved)

  /**
   * `acquire` by greenlet `me`: the owner only deepens its hold and never
   * touches the block; anyone else gets the lock exactly when the block can
   * be taken, and a failed attempt changes nothing.
   */
  function AcquireStep(s: Hold, me: TaskId): (r: Acquired)
    ensures r.acquired <==> OwnedBy(s, me) || !s.held
    ensures r.acquired ==> OwnedBy(r.state, me)
    ensures r.acquired ==> r.state.count == (if OwnedBy(s, me) then s.count else 0) + 1
    ensures OwnedBy(s, me) ==> r.state.held == s.held
    ensures r.acquired && !OwnedBy(s, me) ==> r.state.held
    ensures !r.acquired ==> r.state == s
    ensures Consistent(s) ==> Consistent(r.state)
  {
    if s.owner == Some(me) then
      Acquired(s.(count := s.count + 1), true)
    else if !s.held then
      Acquired(Hold(Some(me), 1, true), true)
    else
      Acquired(s, false)
  }

  /**
   * `release` by greenlet `me`: a non-owner gets the RuntimeError and the
   * state is left alone; the owner drops one level, and only the level that
   * reaches depth 0 clears the owner and frees the block.
   */
  function ReleaseStep(s: Hold, me: TaskId): (r: Result<Hold>)
    ensures r.Err? <==> !OwnedBy(s, me)
    ensures r.Err? ==> r.error == RuntimeError(NotOwnerMessage)
    ensures r.Ok? ==> r.value.count == s.count - 1
    ensures r.Ok? && s.count == 1 ==> r.value == Free
    ensures r.Ok? && s.count != 1 ==> r.value.owner == s.owner && r.value.held == s.held
    ensures Consistent(s) && r.Ok? ==> Consistent(r.value)
  {
    if s.owner != Some(me) then
      Err(RuntimeError(NotOwnerMessage))
    else
      var count := s.count - 1;
      if count == 0 then Ok(Hold(None, count, false)) else Ok(s.(count := count))
  }

  /**
   * `_release_save`: gives up the whole nested hold at once and returns the
   * depth and owner it had.
   */
  function ReleaseSaveStep(s: Hold): (r: SaveResult)
    ensures r.saved.count == s.count && r.saved.owner == s.owner
    ensures r.state == Free
  {
    SaveResult(Hold(None, 0, false), Saved(s.count, s.owner))
  }

  /**
   * `_acquire_restore`: takes the block again and reinstates the saved depth
   * and owner; the result is a consistent hold when the saved pair came from
   * an owned lock.
   */
  function AcquireRestoreStep(saved: Saved): (r: Hold)
    ensures r.count == saved.count && r.owner == saved.owner && r.held
    ensures saved.count > 0 && saved.owner.Some? ==> Consistent(r)
  {
    Hold(saved.owner, saved.count, true)
  }

  /**
   * The condition-variable round trip: saving and then restoring gives back
   * the depth and the owner, and the very same state when the lock was held.
   */
  lemma SaveRestoreRoundTrip(s: Hold)
    ensures AcquireRestoreStep(ReleaseSaveStep(s).saved).count == s.count
    ensures AcquireRestoreStep(ReleaseSaveStep(s).saved).owner == s.owner
    ensures s.held ==> AcquireRestoreStep(ReleaseSaveStep(s).saved) == s
  {
  }

  /** One call of `acquire` or `release`, made by the greenlet `who`. */
  datatype Call = AcquireCall(who: TaskId) | ReleaseCall(who: TaskId)

  /** The state after one call; a release that raises leaves the state alone. */
  function Apply(s: Hold, c: Call): (r: Hold)
    ensures c.ReleaseCall? && !OwnedBy(s, c.who) ==> r == s
    ensures Consistent(s) ==> Consistent(r)
  {
    match c
    case AcquireCall(who) => AcquireStep(s, who).state
    case ReleaseCall(who) =>
      match ReleaseStep(s, who)
      case Ok(t) => t
      case Err(_) => s
  }

  /** The state after a sequence of calls, by any greenlets, in order. */
  function Run(s: Hold, calls: seq<Call>): Hold
    decreases |calls|
  {
    if calls == [] then s else Run(Apply(s, calls[0]), calls[1..])
  }

  /** Every interleaving of acquires and releases keeps the record invariant. */
  lemma {:induction false} RunPreservesConsistent(s: Hold, calls: seq<Call>)
    requires Consistent(s)
    ensures Consistent(Run(s, calls))
    decreases |calls|
  {
    if calls != [] {
      RunPreservesConsistent(Apply(s, calls[0]), calls[1..]);
    }
  }

  /** The state of a lock that `me` holds at the given depth (free at depth 0). */
  function HeldBy(me: TaskId, depth: nat): (s: Hold)
    ensures Consistent(s) && s.count == depth
    ensures OwnedBy(s, me) <==> depth > 0
  {
    if depth == 0 then Free else Hold(Some(me), depth, true)
  }

  /**
   * The number of acquires not yet matched by a release, starting from
   * `depth`; a release at depth 0 is the error case and matches nothing.
   */
  function Depth(depth: nat, calls: seq<Call>): nat
    decreases |calls|
  {
    if calls == [] then depth
    else
      var next := match calls[0]
        case AcquireCall(_) => depth + 1
        case ReleaseCall(_) => if depth == 0 then 0 else depth - 1;
      Depth(next, calls[1..])
  }

  predicate AllBy(calls: seq<Call>, me: TaskId) {
    forall i :: 0 <= i < |calls| ==> calls[i].who == me
  }

  /**
   * For calls made by one greenlet only, the depth of the lock is the number
   * of unmatched acquires, and the greenlet owns the lock exactly when that
   * number is positive.
   */
  lemma {:induction false} SingleTaskDepth(me: TaskId, depth: nat, calls: seq<Call>)
    requires AllBy(calls, me)
    ensures Run(HeldBy(me, depth), calls) == HeldBy(me, Depth(depth, calls))
    decreases |calls|
  {
    if calls != [] {
      assert AllBy(calls[1..], me) by {
        forall i | 0 <= i < |calls[1..]| ensures calls[1..][i].who == me {
          assert calls[1..][i] == calls[i + 1];
        }
      }
      var next := match calls[0]
        case AcquireCall(_) => depth + 1
        case ReleaseCall(_) => if depth == 0 then 0 else depth - 1;
      assert Apply(HeldBy(me, depth), calls[0]) == HeldBy(me, next);
      SingleTaskDepth(me, next, calls[1..]);
    }
  }

  /** `n` copies of one call. */
  function Repeat(c: Call, n: nat): (r: seq<Call>)
    ensures |r| == n
    ensures forall i :: 0 <= i < n ==> r[i] == c
  {
    if n == 0 then [] else [c] + Repeat(c, n - 1)
  }

  lemma {:induction false} DepthOfAcquires(me: TaskId, depth: nat, n: nat)
    ensures Depth(depth, Repeat(AcquireCall(me), n)) == depth + n
    decreases n
  {
    if n > 0 {
      var calls := Repeat(AcquireCall(me), n);
      assert calls[1..] == Repeat(AcquireCall(me), n - 1);
      DepthOfAcquires(me, depth + 1, n - 1);
    }
  }

  lemma {:induction false} DepthOfReleases(me: TaskId, depth: nat, n: nat)
    requires n <= depth
    ensures Depth(depth, Repeat(ReleaseCall(me), n)) == depth - n
    decreases n
  {
    if n > 0 {
      var calls := Repeat(ReleaseCall(me), n);
      assert calls[1..] == Repeat(ReleaseCall(me), n - 1);
      DepthOfReleases(me, depth - 1, n - 1);
    }
  }

  /**
   * Each acquire must be paired with a release: after `n` acquires by one
   * greenlet on a free lock it holds the lock at depth `n`, after `j <= n`
   * releases at depth `n - j`, so the block is freed by the `n`-th release
   * and by no earlier one.
   */
  lemma NestedAcquireRelease(me: TaskId, n: nat, j: nat)
    requires j <= n
    ensures Run(Free, Repeat(AcquireCall(me), n)) == HeldBy(me, n)
    ensures Run(HeldBy(me, n), Repeat(ReleaseCall(me), j)) == HeldBy(me, n - j)
    ensures Run(HeldBy(me, n), Repeat(ReleaseCall(me), j)).held <==> j < n
  {
    assert HeldBy(me, 0) == Free;
    SingleTaskDepth(me, 0, Repeat(AcquireCall(me), n));
    DepthOfAcquires(me, 0, n);
    SingleTaskDepth(me, n, Repeat(ReleaseCall(me), j));
    DepthOfReleases(me, n, j);
  }

  class RLock {
    var owner: Option<TaskId>
    var count: int
    const block: Block

    /** The abstract state: owner, depth, and whether the block is held. */
    function State(): Hold
      reads this, block
    {
      Hold(owner, count, block.held)
    }

    predicate Valid()
      reads this, block
    {
      Consistent(State())
    }

    constructor ()
      ensures State() == Free && Valid()
      ensures fresh(block)
    {
      block := new Block();
      owner := None;
      count := 0;
    }

    /** Acquires the lock for `me`; see `AcquireStep`. */
    method Acquire(me: TaskId, blocking: bool, timeout: Option<real>) returns (acquired: bool)
      modifies this, block
      ensures Acquired(State(), acquired) == AcquireStep(old(State()), me)
      ensures old(owner) == Some(me) ==> unchanged(block)
      ensures old(Valid()) ==> Valid()
    {
      if owner == Some(me) {
        count := count + 1;
        return true;
      }
      var rc := block.Acquire(blocking, timeout);
      if rc {
        owner := Some(me);
        count := 1;
      }
      acquired := rc;
    }

    /** Releases one level of `me`'s hold, or fails when `me` is not the owner; see `ReleaseStep`. */
    method Release(me: TaskId) returns (r: Outcome)
      modifies this, block
      ensures r.Fail? <==> old(owner) != Some(me)
      ensures r.Fail? ==> r.error == RuntimeError(NotOwnerMessage) && unchanged(this, block)
      ensures r.Pass? ==> ReleaseStep(old(State()), me) == Ok(State())
      ensures old(Valid()) ==> Valid()
    {
      if owner != Some(me) {
        return Fail(RuntimeError(NotOwnerMessage));
      }
      count := count - 1;
      if count == 0 {
        owner := None;
        block.Release();
      }
      r := Pass;
    }

    /** Gives up the whole hold for a condition variable; see `ReleaseSaveStep`. */
    method ReleaseSave() returns (saved: Saved)
      modifies this, block
      ensures SaveResult(State(), saved) == ReleaseSaveStep(old(State()))
      ensures Valid()
    {
      var c := count;
      count := 0;
      var o := owner;
      owner := None;
      block.Release();
      saved := Saved(c, o);
    }

    /**
     * Takes the block again and reinstates a saved hold; see
     * `AcquireRestoreStep`. The result of the block's acquire is ignored, as
     * in the source: the state described is the one on return.
     */
    method AcquireRestore(saved: Saved)
      modifies this, block
      ensures State() == AcquireRestoreStep(saved)
      ensures saved.count > 0 && saved.owner.Some? ==> Valid()
    {
      var ignored := block.Acquire(true, None);
      count := saved.count;
      owner := saved.owner;
    }

    /** Whether `me` owns the lock; in a valid state the owner holds the block at a positive depth. */
    function IsOwned(me: TaskId): (r: bool)
      reads this, block
      ensures r <==> OwnedBy(State(), me)
      ensures Valid() && r ==> count > 0 && block.held
    {
      owner == Some(me)
    }
  }

  /** Greenlet `a` acquires three times and releases three times; then `b` gets the lock. */
  method NestingScenario(a: TaskId, b: TaskId)
    requires a != b
  {
    var lock := new RLock();
    var ok := lock.Acquire(a, true, None);
    assert ok && lock.count == 1;
    ok := lock.Acquire(a, true, None);
    assert ok && lock.count == 2;
    ok := lock.Acquire(a, true, None);
    assert ok && lock.count == 3;
    ok := lock.Acquire(b, false, None);
    assert !ok && lock.count == 3 && lock.owner == Some(a);
    var r := lock.Release(b);
    assert r.Fail? && lock.count == 3;
    r := lock.Release(a);
    assert r.Pass? && lock.count == 2 && lock.block.held;
    r := lock.Release(a);
    assert r.Pass? && lock.count == 1 && lock.block.held;
    r := lock.Release(a);
    assert r.Pass? && lock.owner == None && !lock.block.held;
    ok := lock.Acquire(b, true, None);
    assert ok && lock.owner == Some(b);
  }

  /**
   * An acquire by another greenlet while `a` holds the lock is a failed poll:
   * it reports false and changes nothing. The model does not wait, so the
   * timeout passed here plays no part in the outcome.
   */
  method HeldPollScenario(a: TaskId, b: TaskId)
    requires a != b
  {
    var lock := new RLock();
    var ok := lock.Acquire(a, true, None);
    ok := lock.Acquire(b, true, Some(0.0));
    assert !ok && lock.owner == Some(a) && lock.count == 1;
  }

  /**
   * A hold of depth 2 by `a` is saved, `b` uses the lock in between, and the
   * restore gives `a` its depth-2 hold back.
   */
  method SaveRestoreScenario(a: TaskId, b: TaskId)
    requires a != b
  {
    var lock := new RLock();
    var ok := lock.Acquire(a, true, None);
    ok := lock.Acquire(a, true, None);
    var saved := lock.ReleaseSave();
    assert saved == Saved(2, Some(a)) && lock.owner == None && !lock.block.held;
    ok := lock.Acquire(b, true, None);
    assert ok && lock.owner == Some(b);
    var r := lock.Release(b);
    assert r.Pass? && !lock.block.held;
    lock.AcquireRestore(saved);
    assert lock.owner == Some(a) && lock.count == 2 && lock.Valid();
  }
}
