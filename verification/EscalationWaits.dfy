/** How long an escalation waits and how long its holder lives. The clock is real-valued milliseconds and never runs
  * backwards; budgets are whole milliseconds, so every measured time is rounded up. */
module EscalationWaits {
  import opened Wrappers

  const SMALLEST_LOCK_TIMEOUT_MS := 1

  const HOLDER_TIMEOUT_GRACE_MS := 30000

  const ROLLBACK_LEAD_MS := 100

  type Time = real

  function Ceil(x: real): (n: int)
    ensures (n - 1) as real < x <= n as real
  {
    -((-x).Floor)
  }

  function Max(a: int, b: int): (m: int)
    ensures m >= a && m >= b && (m == a || m == b)
  {
    if a < b then b else a
  }

  function Min(a: int, b: int): (m: int)
    ensures m <= a && m <= b && (m == a || m == b)
  {
    if a < b then a else b
  }

  // ---- Deadlines ---------------------------------------------------------------------------

  datatype Deadline = NoDeadline | Until(endsAt: Time)

  // A budget of milliseconds, or none.
  datatype Budget = Unlimited | Milliseconds(ms: int)

  function RemainingMs(deadline: Deadline, now: Time): Budget {
    match deadline
    case NoDeadline => Unlimited
    case Until(endsAt) => Milliseconds(Max(Ceil(endsAt - now), 0))
  }

  predicate HasPassed(deadline: Deadline, now: Time) {
    RemainingMs(deadline, now) == Milliseconds(0)
  }

  datatype Failure = Fenced | DeadlineExceeded | Other(code: nat)

  datatype WaitLimit = WaitLimit(waitMs: int, cutShort: bool)

  // A wait the deadline cut short fails as the deadline's failure, every other failure stays what it is.
  function FailureOf(limit: WaitLimit, failure: Failure): Failure {
    if limit.cutShort && failure == Fenced then DeadlineExceeded else failure
  }

  function BoundedByDeadline(deadline: Deadline, waitMs: int, now: Time): WaitLimit {
    match RemainingMs(deadline, now)
    case Unlimited => WaitLimit(waitMs, false)
    case Milliseconds(remaining) =>
      if waitMs <= remaining then WaitLimit(waitMs, false) else WaitLimit(remaining, true)
  }

  // ---- The budgets of one escalation -------------------------------------------------------

  class EscalationWaits {
    const startedAt: Time
    const waitLimitMs: int
    const timeout: Budget
    const deadline: Deadline
    var fenceWaitSpentMs: int

    constructor (waitLimitMs: int, timeout: Budget, deadline: Deadline, now: Time)
      ensures startedAt == now && this.waitLimitMs == waitLimitMs && this.timeout == timeout
         && this.deadline == deadline
      ensures fenceWaitSpentMs == 0
    {
      startedAt := now;
      this.waitLimitMs := waitLimitMs;
      this.timeout := timeout;
      this.deadline := deadline;
      fenceWaitSpentMs := 0;
    }

    function ForSlot(now: Time): WaitLimit {
      BoundedByDeadline(deadline, waitLimitMs, now)
    }

    method SlotTaken(now: Time) returns (r: Option<Failure>)
      modifies this
      ensures fenceWaitSpentMs == Ceil(now - startedAt)
      ensures r == (if HasPassed(deadline, now) then Some(DeadlineExceeded) else None)
    {
      fenceWaitSpentMs := Ceil(now - startedAt);
      r := RefuseIfDeadlinePassed(now);
    }

    method RefuseIfDeadlinePassed(now: Time) returns (r: Option<Failure>)
      ensures r == (if HasPassed(deadline, now) then Some(DeadlineExceeded) else None)
    {
      if RemainingMs(deadline, now) == Milliseconds(0) {
        return Some(DeadlineExceeded);
      }
      r := None;
    }

    function ForFence(now: Time): WaitLimit
      reads this
    {
      BoundedByDeadline(deadline, waitLimitMs - fenceWaitSpentMs, now)
    }

    function AttemptTimeoutMs(now: Time): Budget
      reads this
    {
      AttemptTimeout(timeout, fenceWaitSpentMs, RemainingMs(deadline, now))
    }
  }

  function AttemptTimeout(timeout: Budget, spentMs: int, remaining: Budget): Budget {
    match timeout
    case Unlimited => remaining
    case Milliseconds(ms) =>
      if remaining.Unlimited? then Milliseconds(ms - spentMs) else Milliseconds(Min(ms - spentMs, remaining.ms))
  }

  // ---- Waiting for the lock ----------------------------------------------------------------

  // The native wait limit: half of the transaction timeout, rounded up.
  function WaitLimitOf(transactionTimeoutMs: nat): (limit: nat)
    ensures transactionTimeoutMs <= 2 * limit <= transactionTimeoutMs + 1
  {
    (transactionTimeoutMs + 1) / 2
  }

  function LockTimeout(waitMs: int): (ms: int)
    ensures ms >= SMALLEST_LOCK_TIMEOUT_MS
  {
    Max(waitMs, SMALLEST_LOCK_TIMEOUT_MS)
  }

  // A database session: its lock_timeout, and the fence locks of its transaction.
  class Session {
    var lockTimeout: int
    var locks: set<nat>
    var aborted: bool

    constructor (lockTimeout: int)
      ensures this.lockTimeout == lockTimeout && locks == {} && !aborted
    {
      this.lockTimeout := lockTimeout;
      locks, aborted := {}, false;
    }

    // `busyMs` is how long other sessions keep the lock; a statement that times out aborts the transaction.
    method LockWithinWaitLimit(key: nat, waitMs: int, busyMs: real) returns (r: Option<Failure>)
      requires !aborted
      modifies this
      ensures r == (if busyMs <= LockTimeout(waitMs) as real then None else Some(Fenced))
      ensures r.None? ==> locks == old(locks) + {key} && lockTimeout == old(lockTimeout) && !aborted
      ensures r.Some? ==> locks == old(locks) && aborted
    {
      var previous := lockTimeout;
      lockTimeout := LockTimeout(waitMs);
      if busyMs > lockTimeout as real {
        aborted := true;
        return Some(Fenced);
      }
      locks := locks + {key};
      lockTimeout := previous;
      r := None;
    }
  }

  // ---- Bounds ------------------------------------------------------------------------------

  // A wait that ended in time: granted or expired no later than its limit.
  predicate EndsInTime(from: Time, to: Time, waitMs: int) {
    from <= to <= from + waitMs as real
  }

  // Without a deadline: the waits for the slot and for the lock exceed the limit by at most one millisecond, and only
  // if the slot wait used it up; the attempt keeps half of its timeout but one millisecond for the write itself.
  lemma WaitsShareTheLimit(timeoutMs: nat, startedAt: Time, slotAt: Time, lockFrom: Time, lockAt: Time)
    requires var limit := WaitLimitOf(timeoutMs);
      && EndsInTime(startedAt, slotAt, BoundedByDeadline(NoDeadline, limit, startedAt).waitMs)
      && EndsInTime(lockFrom, lockAt,
                    LockTimeout(BoundedByDeadline(NoDeadline, limit - Ceil(slotAt - startedAt), lockFrom).waitMs))
    ensures var limit, spent := WaitLimitOf(timeoutMs), Ceil(slotAt - startedAt);
      var waited := (slotAt - startedAt) + (lockAt - lockFrom);
      && waited <= (limit + 1) as real
      && (waited > limit as real ==> spent == limit)
      && AttemptTimeout(Milliseconds(timeoutMs), spent, Unlimited) == Milliseconds(timeoutMs - spent)
      && (timeoutMs - spent) as real - (lockAt - lockFrom) >= (timeoutMs / 2 - 1) as real
  {
  }

  // With a deadline: an attempt, given its timeout at its look-up, ends less than a millisecond after the deadline, and
  // where its timeout is the time left since the start, the wait for the slot is taken from it.
  lemma AttemptEndsWithDeadline(endsAt: Time, at: Time, spentMs: nat, lookedUpAt: Time)
    requires at <= lookedUpAt < endsAt
    ensures var attempt := AttemptTimeout(RemainingMs(Until(endsAt), at), spentMs,
                                          RemainingMs(Until(endsAt), lookedUpAt));
      && attempt.Milliseconds?
      && lookedUpAt + attempt.ms as real < endsAt + 1.0
      && at + (spentMs + attempt.ms) as real < endsAt + 1.0
  {
  }

  function HolderTimeoutMs(attemptTimeoutMs: int): int {
    attemptTimeoutMs + HOLDER_TIMEOUT_GRACE_MS
  }

  // With a deadline: whenever the escalation started, got its slot, looked up its branch and opened its holder, the
  // holder lives past the deadline by more than its grace but one millisecond.
  lemma HolderOutlivesTheDeadline(endsAt: Time, at: Time, startedAt: Time, slotAt: Time, lookedUpAt: Time,
                                  openedAt: Time)
    requires at <= startedAt <= slotAt <= lookedUpAt <= openedAt
    requires !HasPassed(Until(endsAt), lookedUpAt)
    ensures var attempt := AttemptTimeout(RemainingMs(Until(endsAt), at), Ceil(slotAt - startedAt),
                                          RemainingMs(Until(endsAt), lookedUpAt));
      attempt.Milliseconds? && openedAt + HolderTimeoutMs(attempt.ms) as real > endsAt + 29999.0
  {
  }

  // No larger bound holds: a slot wait of any part of a millisecond brings the holder's end that close to it.
  lemma HolderBoundIsTight(slotWait: real)
    requires 0.0 < slotWait <= 1.0
    ensures var attempt := AttemptTimeout(RemainingMs(Until(10.0), 0.0), Ceil(slotWait),
                                          RemainingMs(Until(10.0), slotWait));
      attempt.Milliseconds? && slotWait + HolderTimeoutMs(attempt.ms) as real == 10.0 + 29999.0 + slotWait
  {
  }

  // A bounded wait never outlasts the deadline by a millisecond, and only a wait the deadline cut short fails as it.
  lemma BoundedWaitEndsWithDeadline(endsAt: Time, waitMs: int, now: Time, to: Time, failure: Failure)
    requires now <= endsAt && EndsInTime(now, to, BoundedByDeadline(Until(endsAt), waitMs, now).waitMs)
    ensures to < endsAt + 1.0
    ensures FailureOf(BoundedByDeadline(Until(endsAt), waitMs, now), failure) == DeadlineExceeded
       <==> failure == DeadlineExceeded || (failure == Fenced && waitMs > Ceil(endsAt - now))
  {
  }

  // ---- One escalation in time --------------------------------------------------------------

  // How long each stage takes; the slot and the lock are busy until then.
  datatype Script = Script(startedAt: Time, slotBusy: real, lookup: real, begin: real, connect: real, lockBusy: real)

  datatype Outcome =
    | SlotRefused(failure: Failure)
    | Refused(failure: Failure)
    | FenceRefused(failure: Failure)
    | UnderHolder(slotAt: Time, begunAt: Time, timeout: Budget, openedAt: Time, snapshotAt: Time)

  predicate InTime(s: Script) {
    s.slotBusy >= 0.0 && s.lookup >= 0.0 && s.begin >= 0.0 && s.connect >= 0.0 && s.lockBusy >= 0.0
  }

  // The attempt itself, from its look-up on: its own transaction may run for `timeout` from `begunAt`, and its holder
  // waits for the lock for what the wait for the slot left.
  method AttemptUnderHolder(waits: EscalationWaits, s: Script, slotAt: Time) returns (o: Outcome)
    requires InTime(s)
    ensures
      var begunAt := slotAt + s.lookup + s.begin;
      var forFence := BoundedByDeadline(waits.deadline, waits.waitLimitMs - waits.fenceWaitSpentMs, begunAt);
      if s.lockBusy > LockTimeout(forFence.waitMs) as real then
        o == FenceRefused(if forFence.cutShort then DeadlineExceeded else Fenced)
      else
        o == UnderHolder(slotAt, begunAt,
                         AttemptTimeout(waits.timeout, waits.fenceWaitSpentMs,
                                        RemainingMs(waits.deadline, slotAt + s.lookup)),
                         begunAt + s.connect, begunAt + s.connect + s.lockBusy)
  {
    var attemptTimeout := waits.AttemptTimeoutMs(slotAt + s.lookup);
    var begunAt := slotAt + s.lookup + s.begin;
    var forFence := waits.ForFence(begunAt);
    var openedAt := begunAt + s.connect;
    var holder := new Session(0);
    var failure := holder.LockWithinWaitLimit(0, forFence.waitMs, s.lockBusy);
    if failure.Some? {
      return FenceRefused(FailureOf(forFence, failure.value));
    }
    o := UnderHolder(slotAt, begunAt, attemptTimeout, openedAt, openedAt + s.lockBusy);
  }

  // The stages of an escalated attempt up to its snapshot: the wait for the slot, the deadline, and the attempt.
  method Escalate(waitLimitMs: int, timeout: Budget, deadline: Deadline, s: Script) returns (o: Outcome)
    requires InTime(s)
    ensures
      var forSlot := BoundedByDeadline(deadline, waitLimitMs, s.startedAt);
      var slotAt := s.startedAt + s.slotBusy;
      var begunAt := slotAt + s.lookup + s.begin;
      var forFence := BoundedByDeadline(deadline, waitLimitMs - Ceil(s.slotBusy), begunAt);
      if s.slotBusy > forSlot.waitMs as real then
        o == SlotRefused(if forSlot.cutShort then DeadlineExceeded else Fenced)
      else if deadline.Until? && slotAt + s.lookup >= deadline.endsAt then
        o == Refused(DeadlineExceeded)
      else if s.lockBusy > LockTimeout(forFence.waitMs) as real then
        o == FenceRefused(if forFence.cutShort then DeadlineExceeded else Fenced)
      else
        o == UnderHolder(slotAt, begunAt,
                         AttemptTimeout(timeout, Ceil(s.slotBusy), RemainingMs(deadline, slotAt + s.lookup)),
                         begunAt + s.connect, begunAt + s.connect + s.lockBusy)
    ensures deadline == NoDeadline && !o.UnderHolder? ==> o.failure == Fenced
    ensures
      o.UnderHolder? && timeout.Milliseconds? && timeout.ms >= 0 && deadline == NoDeadline
      && waitLimitMs == WaitLimitOf(timeout.ms) ==>
      && (o.slotAt - s.startedAt) + s.lockBusy <= (waitLimitMs + 1) as real
      && o.timeout.Milliseconds?
      && o.timeout.ms as real - (o.snapshotAt - o.openedAt) >= (timeout.ms / 2 - 1) as real
    ensures forall at: Time ::
      o.UnderHolder? && deadline.Until? && at <= s.startedAt && timeout == RemainingMs(deadline, at) ==>
      && o.timeout.Milliseconds?
      && o.openedAt + HolderTimeoutMs(o.timeout.ms) as real > deadline.endsAt + 29999.0
  {
    PassedMeans(deadline, s.startedAt + s.slotBusy);
    PassedMeans(deadline, s.startedAt + s.slotBusy + s.lookup);
    assert forall waitMs, now :: !BoundedByDeadline(NoDeadline, waitMs, now).cutShort;
    hide RemainingMs, HasPassed, Ceil, LockTimeout, AttemptTimeout, WaitLimitOf, HolderTimeoutMs, BoundedByDeadline;
    var waits := new EscalationWaits(waitLimitMs, timeout, deadline, s.startedAt);
    var forSlot := waits.ForSlot(s.startedAt);
    if s.slotBusy > forSlot.waitMs as real {
      return SlotRefused(FailureOf(forSlot, Fenced));
    }
    var slotAt := s.startedAt + s.slotBusy;
    assert slotAt - s.startedAt == s.slotBusy;
    var refusal := waits.SlotTaken(slotAt);
    if refusal.Some? {
      return Refused(refusal.value);
    }
    refusal := waits.RefuseIfDeadlinePassed(slotAt + s.lookup);
    if refusal.Some? {
      return Refused(refusal.value);
    }
    o := AttemptUnderHolder(waits, s, slotAt);
    if o.UnderHolder? {
      OutcomeBounds(waitLimitMs, timeout, deadline, s, o);
    }
  }

  lemma PassedMeans(deadline: Deadline, now: Time)
    ensures HasPassed(deadline, now) <==> deadline.Until? && now >= deadline.endsAt
  {
  }

  // What the exact outcome means for the two limits.
  lemma OutcomeBounds(waitLimitMs: int, timeout: Budget, deadline: Deadline, s: Script, o: Outcome)
    requires InTime(s) && o.UnderHolder?
    requires s.slotBusy <= BoundedByDeadline(deadline, waitLimitMs, s.startedAt).waitMs as real
    requires !HasPassed(deadline, o.slotAt + s.lookup)
    requires s.lockBusy
       <= LockTimeout(BoundedByDeadline(deadline, waitLimitMs - Ceil(s.slotBusy), o.begunAt).waitMs) as real
    requires o == UnderHolder(s.startedAt + s.slotBusy, o.slotAt + s.lookup + s.begin,
                              AttemptTimeout(timeout, Ceil(s.slotBusy), RemainingMs(deadline, o.slotAt + s.lookup)),
                              o.begunAt + s.connect, o.openedAt + s.lockBusy)
    ensures
      timeout.Milliseconds? && timeout.ms >= 0 && deadline == NoDeadline && waitLimitMs == WaitLimitOf(timeout.ms) ==>
      && (o.slotAt - s.startedAt) + s.lockBusy <= (waitLimitMs + 1) as real
      && o.timeout.Milliseconds?
      && o.timeout.ms as real - (o.snapshotAt - o.openedAt) >= (timeout.ms / 2 - 1) as real
    ensures forall at: Time ::
      deadline.Until? && at <= s.startedAt && timeout == RemainingMs(deadline, at) ==>
      && o.timeout.Milliseconds?
      && o.openedAt + HolderTimeoutMs(o.timeout.ms) as real > deadline.endsAt + 29999.0
  {
    assert o.slotAt - s.startedAt == s.slotBusy;
    if timeout.Milliseconds? && timeout.ms >= 0 && deadline == NoDeadline && waitLimitMs == WaitLimitOf(timeout.ms) {
      WaitsShareTheLimit(timeout.ms, s.startedAt, o.slotAt, o.openedAt, o.openedAt + s.lockBusy);
    }
    forall at: Time | deadline.Until? && at <= s.startedAt && timeout == RemainingMs(deadline, at)
      ensures o.timeout.Milliseconds? && o.openedAt + HolderTimeoutMs(o.timeout.ms) as real > deadline.endsAt + 29999.0
    {
      HolderOutlivesTheDeadline(deadline.endsAt, at, s.startedAt, o.slotAt, o.slotAt + s.lookup, o.openedAt);
    }
  }

  // ---- Settling before the deadline --------------------------------------------------------

  function SettlesAt(endsAt: Time, now: Time): Time {
    now + Max(Max(Ceil(endsAt - now), 0) - ROLLBACK_LEAD_MS, 0) as real
  }

  lemma RoundedBothWays(up: int, down: int, x: real)
    requires (up - 1) as real < x <= up as real && down as real <= x < (down + 1) as real
    ensures up as real <= x <==> down as real == x
  {
    assert (up - 1) as real < (down + 1) as real;
    assert down as real <= up as real;
    if up == down {
      assert x == up as real;
    } else {
      assert up - 1 == down;
    }
  }

  lemma CeilOfWhole(x: real)
    ensures Ceil(x) as real <= x <==> x.Floor as real == x
  {
    hide Ceil;
    RoundedBothWays(Ceil(x), x.Floor, x);
  }

  // The lead before the deadline is shortened by the rounding: it is the full 100 ms exactly when the time left is
  // a whole number of at least 100 milliseconds. With less than 100 ms left the body settles at once, so the lead is
  // what is left.
  lemma RollbackLead(endsAt: Time, now: Time)
    requires now < endsAt
    ensures endsAt - now >= 100.0 ==> 99.0 < endsAt - SettlesAt(endsAt, now) <= 100.0
    ensures endsAt - now < 100.0 ==> SettlesAt(endsAt, now) == now
    ensures endsAt - SettlesAt(endsAt, now) >= 100.0
       <==> endsAt - now >= 100.0 && (endsAt - now).Floor as real == endsAt - now
  {
    var left := endsAt - now;
    CeilOfWhole(left);
    var n := Ceil(left);
    hide Ceil;
    assert n >= 1;
    if left >= 100.0 {
      assert n >= 100;
      assert SettlesAt(endsAt, now) == now + (n - 100) as real;
    } else {
      assert n <= 100;
      assert SettlesAt(endsAt, now) == now;
    }
  }

  // A lead of less than the promised 100 ms: half a millisecond is lost.
  lemma RollbackLeadIsCut()
    ensures 1000.5 - SettlesAt(1000.5, 0.0) == 99.5
  {
    assert Ceil(1000.5) == 1001;
  }
}
