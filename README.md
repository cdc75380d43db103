# Locking primitives of gevent.lock, modelled in Dafny

This project models the sequential bookkeeping of three primitives in
`gevent.lock`:

- **RLock** is a mutex that the greenlet holding it may acquire again. Its state is the owning
  greenlet `_owner`, the nesting depth `_count`, and a `Semaphore(1)` in `_block`. `acquire` and
  `release` form a depth-counting state machine. A release by a non-owner raises
  `RuntimeError("cannot release un-acquired lock")`. `_release_save` and `_acquire_restore` give a
  condition variable the whole nested hold and later take it back.
- **_OwnedLock** is the gate for the pure-Python semaphore. It has an owning thread, a depth, a
  raw thread lock, and a per-thread entry counter `_locking`. The purpose of `__begin`/`__end` is to use that
  counter to refuse re-entry into `acquire` and `release` from the same thread. As written they
  refuse every entry (see Findings).
- **DummySemaphore** is a stateless stand-in with the Semaphore API. Every one of its methods
  returns a constant.

Modules follow the source:

- `Common` holds the identities, `Option`, the error values and the ownership record `Hold`. A
  `Hold` is an owner, a depth and whether the block is held. `Consistent` is its invariant: a
  positive depth, an owner and a held block always go together.
- `Blocks` is the abstract `_block`.
- `RLock`, `OwnedLock` and `DummySemaphore` model the three primitives.

Each primitive's transitions are written twice:

- as functions on values, which the lemmas are about;
- as a class whose methods update the fields step by step, with `ensures` clauses that tie each
  method to its function.

Identities are explicit parameters. `getcurrent()` becomes a `TaskId` and `get_ident()` becomes a
`ThreadId`. The lock behind `_block` (the `Semaphore(1)` of an RLock, or the
`allocate_lock()` lock of an _OwnedLock) is a held flag. Its try-acquire reports whether it
succeeded.

The comment above `__begin` (src/gevent/lock.py:57-62) says that a re-entry from the same
thread is skipped, and that a call should otherwise proceed. Proceeding would run the branches at
src/gevent/lock.py:88-94: the owner re-entering deepens its hold, and any other thread takes the
raw lock. The code does not get there, and the model follows the code. `__begin` returns
`(me, count)` only when the raised count is 0, and the raised count is never 0. So `acquire` and
`release` never get past `__begin`, and `__end(None, None)` never takes an entry back (see
Findings). One smaller detail is also modelled as the code has it: in those branches the gate
sets `_owner` before it takes the raw lock.

## Model

| member | source | states |
|---|---|---|
| Blocks.Block.constructor | src/gevent/lock.py:261 | a new block is free |
| Blocks.Block.Acquire | src/gevent/lock.py:287-288 | a free block is taken and the result is true; a held block stays held and the result is false |
| Blocks.Block.Release | src/gevent/lock.py:308 | the block is free afterwards |
| RLock.AcquireStep | src/gevent/lock.py:283-291 | the owner always succeeds, deepens its hold by one and leaves the block as it was; another greenlet succeeds exactly when the block is free and then owns the lock at depth 1 with the block held; a failed attempt changes nothing; the invariant is kept |
| RLock.ReleaseStep | src/gevent/lock.py:303-308 | the error is raised exactly when the caller is not the owner; the owner drops one level; the owner is cleared and the block freed exactly when depth 1 is released, and otherwise both stay; the invariant is kept |
| RLock.ReleaseSaveStep | src/gevent/lock.py:321-327 | returns the prior depth and owner and leaves the lock free with depth 0 and no owner |
| RLock.AcquireRestoreStep | src/gevent/lock.py:315-319 | reinstates the saved depth and owner with the block held; the invariant holds when the pair came from an owned lock |
| RLock.SaveRestoreRoundTrip | src/gevent/lock.py:315-327 | save then restore gives back the same depth and owner, and the very same state when the lock was held |
| RLock.Apply | src/gevent/lock.py:283-308 | one acquire or release call by any greenlet keeps the invariant, and a raising release leaves the state alone |
| RLock.RunPreservesConsistent | src/gevent/lock.py:260-308 | every interleaving of acquire and release calls by any greenlets, started from a consistent state, keeps the invariant |
| RLock.HeldBy | src/gevent/lock.py:243-245 | a lock held at depth d by one greenlet is consistent and owned by it exactly when d > 0 |
| RLock.SingleTaskDepth | src/gevent/lock.py:243-248 | for calls by one greenlet only, the depth afterwards is the number of unmatched acquires; the greenlet owns the lock exactly when that number is positive; an unmatched release is refused and changes nothing |
| RLock.DepthOfAcquires | src/gevent/lock.py:283-286 | n acquires by one greenlet add n to the depth |
| RLock.DepthOfReleases | src/gevent/lock.py:305-308 | n releases by the holder of a depth-d hold, n ≤ d, take n off |
| RLock.NestedAcquireRelease | src/gevent/lock.py:244-245 | after n acquires on a free lock, one greenlet holds it at depth n; after j ≤ n releases it holds it at depth n - j; the block is held exactly while j < n, so the n-th release frees it and no earlier one does |
| RLock.RLock.constructor | src/gevent/lock.py:260-263 | a new RLock is free, with no owner and depth 0 |
| RLock.RLock.Acquire | src/gevent/lock.py:273-291 | performs AcquireStep on the fields; the owner's branch leaves the block untouched; the invariant is kept |
| RLock.RLock.Release | src/gevent/lock.py:296-308 | fails with the RuntimeError exactly when the caller is not the owner, and then nothing changes; otherwise performs ReleaseStep; the invariant is kept |
| RLock.RLock.ReleaseSave | src/gevent/lock.py:321-327 | performs ReleaseSaveStep, returning the prior depth and owner and leaving a valid free lock |
| RLock.RLock.AcquireRestore | src/gevent/lock.py:315-319 | performs AcquireRestoreStep; valid afterwards when the pair came from an owned lock |
| RLock.RLock.IsOwned | src/gevent/lock.py:329-330 | true exactly when the caller is the owner; in a valid state the owner holds the block at a positive depth |
| OwnedLock.Decide | src/gevent/lock.py:71 | a ticket to proceed always carries the caller and the count; as written it is issued exactly when the count is 0; with the intended rule, exactly when the count is 1 |
| OwnedLock.BeginStep | src/gevent/lock.py:60-71 | raises the caller's entry counter by one, from absent to 1; leaves every other counter and the ownership record alone; as written it always returns the skip ticket once every stored counter is at least 1 |
| OwnedLock.EndStep | src/gevent/lock.py:73-80 | a skip ticket changes nothing; a proceed ticket sets the caller's counter to count - 1 and deletes it exactly when that is 0 |
| OwnedLock.TakeStep | src/gevent/lock.py:88-94 | the caller owns the gate afterwards; the owner deepens its hold without touching the raw lock; another thread takes the raw lock at depth 1; the invariant is kept |
| OwnedLock.DropStep | src/gevent/lock.py:109-112 | one level less; releasing depth 1 frees the raw lock and clears the owner, and other depths leave both; the invariant is kept while the depth was positive |
| OwnedLock.EnterStep | src/gevent/lock.py:82-96 | as written, from any state whose counters are at least 1, leaves owner, depth and raw lock unchanged and only raises the caller's entry counter |
| OwnedLock.ReleaseStep | src/gevent/lock.py:103-114 | as written, from any state whose counters are at least 1, leaves owner, depth and raw lock unchanged and only raises the caller's entry counter |
| OwnedLock.AsWrittenFirstEntrySkips | src/gevent/lock.py:64-71 | on a fresh gate the first acquire by thread 1 gets the skip ticket, leaves the raw lock free, and leaves `_locking` as {1: 1} |
| OwnedLock.AsWrittenEntriesOnlyGrow | src/gevent/lock.py:60-114 | as written, no sequence of acquire and release calls by any threads changes the owner, the depth or the raw lock, and each thread's entry counter grows by the number of calls it made |
| OwnedLock.IntendedOutermostEnter | src/gevent/lock.py:57-96 | with the intended rule, an outermost acquire does the body of `__enter__` and leaves `_locking` as it was |
| OwnedLock.IntendedNestedEnter | src/gevent/lock.py:57-71 | with the intended rule, a nested acquire from the same thread leaves the ownership record alone and only records the entry |
| OwnedLock.IntendedOutermostRelease | src/gevent/lock.py:103-114 | with the intended rule, an outermost release does the body of `release` and leaves `_locking` as it was |
| OwnedLock.IntendedNestedRelease | src/gevent/lock.py:57-71 | with the intended rule, a nested release from the same thread leaves the ownership record alone and only records the entry |
| OwnedLock.IntendedPairRestores | src/gevent/lock.py:57-114 | with the intended rule, an outermost acquire by a thread that owns the gate or finds it free leaves that thread owning it with the raw lock held; the matching release restores the whole state, entry counters included |
| OwnedLock.OwnedLock.constructor | src/gevent/lock.py:51-55 | a new gate has no owner, depth 0, a free raw lock and no entry counters |
| OwnedLock.OwnedLock.Begin | src/gevent/lock.py:60-71 | performs BeginStep as written; from a valid state it returns the skip ticket |
| OwnedLock.OwnedLock.End | src/gevent/lock.py:73-80 | performs EndStep |
| OwnedLock.OwnedLock.Enter | src/gevent/lock.py:82-101 | performs EnterStep as written; from a valid state owner, depth and raw lock are unchanged |
| OwnedLock.OwnedLock.Release | src/gevent/lock.py:103-114 | performs ReleaseStep as written; from a valid state owner, depth and raw lock are unchanged |
| DummySemaphore.DummySemaphore.Locked | src/gevent/lock.py:199-201 | never locked |
| DummySemaphore.DummySemaphore.Ready | src/gevent/lock.py:203-205 | always ready, the opposite of Locked |
| DummySemaphore.DummySemaphore.Wait | src/gevent/lock.py:217-219 | returns 1 at once |
| DummySemaphore.DummySemaphore.Acquire | src/gevent/lock.py:221-230 | always succeeds, whatever the arguments |
| DummySemaphore.DummySemaphore.Release | src/gevent/lock.py:207-208 | does nothing: the semaphore afterwards is the same one |
| DummySemaphore.Create | src/gevent/lock.py:190-194 | accepts an initial value and ignores it; the result is ready and never locked |

The client methods `RLock.NestingScenario`, `RLock.HeldPollScenario` and
`RLock.SaveRestoreScenario` use only the class contracts. They show three traces:

- three nested acquires and three releases, after which another greenlet gets the lock;
- an acquire by another greenlet while the lock is held, which is a failed poll: it reports false and changes nothing;
- a save at depth 2, use of the lock by another greenlet in between, and a restore to depth 2.

## Left out

- `_AtomicSemaphore` (src/gevent/lock.py:117-153) is not modelled. It wraps the base `Semaphore`, and `gevent._semaphore` is not part of this model. What the wrapper adds is releasing and re-acquiring the gate around a wait that suspends, and that is concurrency, not sequential bookkeeping.
- The base `Semaphore` and `BoundedSemaphore` are not modelled: their counters, waiter queues, FIFO wake-up, timeouts and bound checks. The `_block` they provide is abstracted as `Blocks.Block`.
- Blocks.Block.Acquire never waits. A blocking acquire of a held block is modelled as a failed poll. The `blocking` and `timeout` arguments are passed along but do not change the outcome.
- Blocks.Block.Release leaves a free block free. A real `Semaphore(1)` would count up to 2 here, and a raw thread lock would raise `RuntimeError`.
- RLock.AcquireRestoreStep does not claim the invariant for a pair saved from an unowned lock. Because of the binary flag, restoring such a pair leaves the model's block held with no owner, where the source's semaphore counter would be back at 1.
- RLock.RLock.AcquireRestore gives the state on return. The suspension until the block is free, and other greenlets' use of the lock meanwhile, are not modelled. The same holds where the gate's `__enter__` takes its raw lock.
- RLock.AcquireStep reports the owner's re-entry as `true`, where the source returns the integer `1`.
- `getcurrent`, `get_ident`, `allocate_lock` and `monkey.get_original` (src/gevent/lock.py:12, 37-40) are runtime calls. They are replaced by identity parameters and `Blocks.Block`.
- The `PURE_PYTHON` rebinding of `Semaphore` (src/gevent/lock.py:157-158) is not modelled. It is configuration.
- `__repr__` and `__str__` are not modelled. They are formatting only.
- The context-manager methods `RLock.__enter__`/`__exit__` and `_OwnedLock.__exit__` are not modelled, because each only delegates to `acquire` or `release`. The same goes for the `_py3k_acquire` alias.
- `DummySemaphore.__enter__` and `__exit__` (src/gevent/lock.py:232-236) are not modelled. They do nothing.
- `DummySemaphore.rawlink` and `unlink` are not modelled. They do nothing.
- Re-entry through a `sys.settrace` hook is not modelled as such. It appears only as a state in which the calling thread already has an entry counter, as in the nested-entry lemmas.
- Real blocking, greenlet suspension, wall-clock timeouts and contention between OS threads are not modelled.
- OwnedLock.OwnedLock keeps the decision rule as written. The intended rule exists only in the functions and lemmas, because nothing else in this model uses the gate.

## Findings

| source | as written | input that shows it | evidently intended | confidence | as-written member | corrected member |
|---|---|---|---|---|---|---|
| src/gevent/lock.py:71 | `(me, count) if not count else (None, None)` proceeds only when the entry count just raised is 0. That count is always at least 1, so every `acquire` and `release` returns at src/gevent/lock.py:85-86 or 106-107. `__end(None, None)` then never takes the entry back. | A fresh gate, and thread 1 calls `acquire`: the count becomes 1, `__begin` returns `(None, None)`, the raw lock stays free and `_locking` stays `{1: 1}`. A second thread's `acquire` is not excluded either. | Proceed on the outermost entry, when the raised count is 1, and skip only nested entries. The matching `__end` then deletes the entry. | medium; not executed | OwnedLock.AsWrittenEntriesOnlyGrow | OwnedLock.IntendedPairRestores |
