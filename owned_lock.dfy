/**
 * _OwnedLock: the gate that brackets the operations of the pure-Python
 * semaphore. It keeps an owning thread `_owner`, a depth `_count`, a raw
 * thread lock `_block`, and a per-thread entry counter `_locking`. The purpose
 * of `__begin`/`__end` is to refuse re-entry into `acquire` and `release` from
 * the same thread (as a `sys.settrace` hook could cause); as written they
 * refuse every entry.
 *
 * `__begin` decides whether the call proceeds. The class below does what the
 * code does; the functions take the decision rule as a `Policy`, so that the
 * rule as written and the rule its comment describes can be compared.
 */
module OwnedLock {
  import opened Common
  import opened Blocks

  /** What `__begin` returns: `(me, count)` to go ahead, or `(None, None)` to skip the body. */
  datatype Ticket = Proceed(me: ThreadId, count: int) | Skip

  /**
   * The rule by which `__begin` turns the raised entry count into a ticket:
   * `AsWritten` is the source's `if not count`; `Intended` goes ahead on the
   * outermost entry only, as the comment on `__begin` describes.
   */
  datatype Policy = AsWritten | Intended

  /** The state of the gate: the ownership record and the entry counters. */
  datatype GateState = GateState(hold: Hold, locking: map<ThreadId, int>)

  /** What `__begin` leaves behind and the ticket it returns. */
  datatype Begun = Begun(state: GateState, ticket: Ticket)

  /** Thread `me`'s entry counter, 0 when it has none. */
  function Entries(locking: map<ThreadId, int>, me: ThreadId): int {
    if me in locking then locking[me] else 0
  }

  /** Every stored entry counter is at least 1 (`__begin` stores 1 or more, `__end` deletes at 0). */
  predicate EntryCounts(locking: map<ThreadId, int>) {
    forall k :: k in locking ==> locking[k] >= 1
  }

  function Decide(p: Policy, me: ThreadId, count: int): (t: Ticket)
    ensures t.Proceed? ==> t == Proceed(me, count)
    ensures p == AsWritten ==> (t.Proceed? <==> count == 0)
    ensures p == Intended ==> (t.Proceed? <==> count == 1)
  {
    match p
    case AsWritten => if count == 0 then Proceed(me, count) else Skip
    case Intended => if count == 1 then Proceed(me, count) else Skip
  }

  /**
   * `__begin` for thread `me`: raises its entry counter by one (from absent
   * to 1), touches nothing else, and hands out the ticket for the raised
   * count. As written, the ticket is always `Skip` once every stored counter
   * is at least 1.
   */
  function BeginStep(p: Policy, s: GateState, me: ThreadId): (r: Begun)
    ensures r.state.hold == s.hold
    ensures r.state.locking == s.locking[me := Entries(s.locking, me) + 1]
    ensures me in r.state.locking && r.state.locking[me] == Entries(s.locking, me) + 1
    ensures forall k :: k != me ==> Entries(r.state.locking, k) == Entries(s.locking, k)
    ensures r.ticket == Decide(p, me, Entries(s.locking, me) + 1)
    ensures EntryCounts(s.locking) ==> EntryCounts(r.state.locking)
    ensures EntryCounts(s.locking) && p == AsWritten ==> r.ticket == Skip
  {
    var count := Entries(s.locking, me) + 1;
    Begun(GateState(s.hold, s.locking[me := count]), Decide(p, me, count))
  }

  /**
   * `__end`: a `Skip` ticket changes nothing; a `Proceed(me, count)` ticket
   * sets `me`'s counter to `count - 1`, deleting it at 0.
   */
  function EndStep(s: GateState, t: Ticket): (r: GateState)
    ensures r.hold == s.hold
    ensures t.Skip? ==> r == s
    ensures t.Proceed? ==> Entries(r.locking, t.me) == t.count - 1
    ensures t.Proceed? ==> (t.me in r.locking <==> t.count != 1)
    ensures t.Proceed? ==> forall k :: k != t.me ==> Entries(r.locking, k) == Entries(s.locking, k)
  {
    match t
    case Skip => s
    case Proceed(me, count) =>
      var remaining := count - 1;
      if remaining == 0 then GateState(s.hold, s.locking - {me})
      else GateState(s.hold, s.locking[me := remaining])
  }

  /**
   * The body of `__enter__` once it goes ahead: the owning thread deepens its
   * hold; any other thread becomes the owner and takes the raw lock (whose
   * result is not looked at: the state is the one on return).
   */
  function TakeStep(h: Hold, me: ThreadId): (r: Hold)
    ensures OwnedBy(r, me)
    ensures r.count == (if OwnedBy(h, me) then h.count else 0) + 1
    ensures OwnedBy(h, me) ==> r.held == h.held
    ensures !OwnedBy(h, me) ==> r.held
    ensures Consistent(h) ==> Consistent(r)
  {
    if h.owner == Some(me) then h.(count := h.count + 1) else Hold(Some(me), 1, true)
  }

  /**
   * The body of `release` once it goes ahead: one level less, and at depth 0
   * the raw lock is freed and the owner cleared. Which thread calls is not
   * checked.
   */
  function DropStep(h: Hold): (r: Hold)
    ensures r.count == h.count - 1
    ensures h.count == 1 ==> r == Free
    ensures h.count != 1 ==> r.owner == h.owner && r.held == h.held
    ensures Consistent(h) && h.count > 0 ==> Consistent(r)
  {
    var count := h.count - 1;
    if count == 0 then Hold(None, count, false) else h.(count := count)
  }

  /**
   * `__enter__` (also bound as `acquire`) by thread `me`. As written, from any
   * state whose counters are at least 1, the ownership record is untouched
   * and only `me`'s entry counter grows.
   */
  function EnterStep(p: Policy, s: GateState, me: ThreadId): (r: GateState)
    ensures p == AsWritten && EntryCounts(s.locking) ==>
      r.hold == s.hold && r.locking == s.locking[me := Entries(s.locking, me) + 1]
  {
    var b := BeginStep(p, s, me);
    var body := if b.ticket.Proceed? then GateState(TakeStep(b.state.hold, me), b.state.locking) else b.state;
    EndStep(body, b.ticket)
  }

  /**
   * `release` by thread `me`. As written, from any state whose counters are at
   * least 1, the ownership record is untouched and only `me`'s entry counter
   * grows.
   */
  function ReleaseStep(p: Policy, s: GateState, me: ThreadId): (r: GateState)
    ensures p == AsWritten && EntryCounts(s.locking) ==>
      r.hold == s.hold && r.locking == s.locking[me := Entries(s.locking, me) + 1]
  {
    var b := BeginStep(p, s, me);
    var body := if b.ticket.Proceed? then GateState(DropStep(b.state.hold), b.state.locking) else b.state;
    EndStep(body, b.ticket)
  }

  /**
   * The discrepancy at its smallest: on a fresh gate the first `__begin` of
   * thread 1 already skips, so `__enter__` leaves the raw lock free and only
   * records an entry that no `__end` takes back.
   */
  lemma AsWrittenFirstEntrySkips()
    ensures BeginStep(AsWritten, GateState(Free, map[]), 1).ticket == Skip
    ensures EnterStep(AsWritten, GateState(Free, map[]), 1) == GateState(Free, map[1 := 1])
    ensures !EnterStep(AsWritten, GateState(Free, map[]), 1).hold.held
  {
  }

  /** One call of `acquire` or `release` on the gate, made by thread `who`. */
  datatype GateCall = EnterCall(who: ThreadId) | ReleaseCall(who: ThreadId)

  function ApplyGate(p: Policy, s: GateState, c: GateCall): GateState {
    match c
    case EnterCall(who) => EnterStep(p, s, who)
    case ReleaseCall(who) => ReleaseStep(p, s, who)
  }

  function RunGate(p: Policy, s: GateState, calls: seq<GateCall>): GateState
    decreases |calls|
  {
    if calls == [] then s else RunGate(p, ApplyGate(p, s, calls[0]), calls[1..])
  }

  /** How many of the calls thread `k` made. */
  function CallsBy(calls: seq<GateCall>, k: ThreadId): nat
    decreases |calls|
  {
    if calls == [] then 0 else (if calls[0].who == k then 1 else 0) + CallsBy(calls[1..], k)
  }

  /**
   * As written, no sequence of `acquire` and `release` calls by any threads
   * ever changes the owner, the depth or the raw lock, and every thread's
   * entry counter ends up raised by the number of calls it made: `_locking`
   * only grows.
   */
  lemma {:induction false} AsWrittenEntriesOnlyGrow(s: GateState, calls: seq<GateCall>)
    requires EntryCounts(s.locking)
    ensures RunGate(AsWritten, s, calls).hold == s.hold
    ensures forall k :: Entries(RunGate(AsWritten, s, calls).locking, k) == Entries(s.locking, k) + CallsBy(calls, k)
    decreases |calls|
  {
    if calls != [] {
      var c := calls[0];
      var next := ApplyGate(AsWritten, s, c);
      assert next == GateState(s.hold, s.locking[c.who := Entries(s.locking, c.who) + 1]);
      assert EntryCounts(next.locking);
      AsWrittenEntriesOnlyGrow(next, calls[1..]);
    }
  }

  /** With the intended rule, the outermost `acquire` of `me` does the work and restores `_locking`. */
  lemma IntendedOutermostEnter(s: GateState, me: ThreadId)
    requires me !in s.locking
    ensures EnterStep(Intended, s, me) == GateState(TakeStep(s.hold, me), s.locking)
  {
  }

  /** With the intended rule, a nested `acquire` from the same thread only records the entry. */
  lemma IntendedNestedEnter(s: GateState, me: ThreadId)
    requires EntryCounts(s.locking) && me in s.locking
    ensures EnterStep(Intended, s, me) == GateState(s.hold, s.locking[me := s.locking[me] + 1])
  {
  }

  /** With the intended rule, the outermost `release` of `me` does the work and restores `_locking`. */
  lemma IntendedOutermostRelease(s: GateState, me: ThreadId)
    requires me !in s.locking
    ensures ReleaseStep(Intended, s, me) == GateState(DropStep(s.hold), s.locking)
  {
  }

  /** With the intended rule, a nested `release` from the same thread only records the entry. */
  lemma IntendedNestedRelease(s: GateState, me: ThreadId)
    requires EntryCounts(s.locking) && me in s.locking
    ensures ReleaseStep(Intended, s, me) == GateState(s.hold, s.locking[me := s.locking[me] + 1])
  {
  }

  /**
   * With the intended rule the gate is a bracket: an outermost `acquire` by a
   * thread that owns the gate or finds it free leaves that thread owning it
   * with the raw lock held, and the matching `release` restores the whole
   * state, entry counters included.
   */
  lemma IntendedPairRestores(s: GateState, me: ThreadId)
    requires Consistent(s.hold) && me !in s.locking
    requires s.hold.owner == None || OwnedBy(s.hold, me)
    ensures OwnedBy(EnterStep(Intended, s, me).hold, me) && EnterStep(Intended, s, me).hold.held
    ensures ReleaseStep(Intended, EnterStep(Intended, s, me), me) == s
  {
  }

  class OwnedLock {
    var owner: Option<ThreadId>
    const block: Block
    var locking: map<ThreadId, int>
    var count: int

    function State(): GateState
      reads this, block
    {
      GateState(Hold(owner, count, block.held), locking)
    }

    predicate Valid()
      reads this
    {
      EntryCounts(locking)
    }

    constructor ()
      ensures State() == GateState(Free, map[]) && Valid()
      ensures fresh(block)
    {
      owner := None;
      block := new Block();
      locking := map[];
      count := 0;
    }

    /** `__begin`, with the decision exactly as written; see `BeginStep`. */
    method Begin(me: ThreadId) returns (t: Ticket)
      modifies this
      ensures Begun(State(), t) == BeginStep(AsWritten, old(State()), me)
      ensures old(Valid()) ==> Valid() && t == Skip
    {
      var entries: int;
      if me in locking {
        entries := locking[me] + 1;
      } else {
        entries := 1;
      }
      locking := locking[me := entries];
      t := if entries == 0 then Proceed(me, entries) else Skip;
    }

    /** `__end`; see `EndStep`. */
    method End(t: Ticket)
      modifies this
      ensures State() == EndStep(old(State()), t)
    {
      match t
      case Skip =>
        return;
      case Proceed(me, entries) =>
        var remaining := entries - 1;
        if remaining == 0 {
          locking := locking - {me};
        } else {
          locking := locking[me := remaining];
        }
    }

    /** `__enter__`, also bound as `acquire`; see `EnterStep`. */
    method Enter(me: ThreadId)
      modifies this, block
      ensures State() == EnterStep(AsWritten, old(State()), me)
      ensures old(Valid()) ==> Valid()
      ensures old(Valid()) ==> owner == old(owner) && count == old(count) && block.held == old(block.held)
    {
      var t := Begin(me);
      if t.Proceed? {
        if owner == Some(me) {
          count := count + 1;
        } else {
          owner := Some(me);
          var ignored := block.Acquire(true, None);
          count := 1;
        }
      }
      End(t);
    }

    /** `release`; see `ReleaseStep`. */
    method Release(me: ThreadId)
      modifies this, block
      ensures State() == ReleaseStep(AsWritten, old(State()), me)
      ensures old(Valid()) ==> Valid()
      ensures old(Valid()) ==> owner == old(owner) && count == old(count) && block.held == old(block.held)
    {
      var t := Begin(me);
      if t.Proceed? {
        count := count - 1;
        if count == 0 {
          block.Release();
          owner := None;
        }
      }
      End(t);
    }
  }
}
