/** The promises of the fence read off the events of a run from the start alone: who was admitted, who took a snapshot,
  * who ended. The locks and phases of the states do not occur in them. */
module FenceLaws {
  import opened EscalationSlots
  import opened FenceProtocol
  import opened FenceProperties
  import opened FenceGuarantees

  // ---- What the events say -----------------------------------------------------------------

  // The branches of the escalations, in the order in which they arrive; tickets are the positions.
  function Arrivals(events: seq<Event>): seq<Branch> {
    if events == [] then []
    else
      var last := events[|events| - 1];
      Arrivals(events[..|events| - 1]) + (if last.Arrive? then [last.branch] else [])
  }

  predicate ArrivedOn(events: seq<Event>, t: Ticket, branch: Branch) {
    t < |Arrivals(events)| && Arrivals(events)[t] == branch
  }

  predicate TimedOut(events: seq<Event>, t: Ticket) {
    EndHolder(t, true) in events
  }

  // ---- The states remember the events ------------------------------------------------------

  predicate HolderClosed(events: seq<Event>, t: Ticket) {
    EndHolder(t, true) in events || EndHolder(t, false) in events
  }

  ghost predicate Remembers(attempt: Attempt, past: seq<Event>, t: Ticket) {
    && ArrivedOn(past, t, attempt.branch)
    && (attempt.timedOut <==> TimedOut(past, t))
    && (EndAttempt(t) in past <==> attempt.phase == Ended || attempt.phase == Done)
    && (attempt.phase == Writing <==> TakeSnapshot(t) in past && EndAttempt(t) !in past)
    && (attempt.holder == Holding <==> LockHolder(t) in past && !HolderClosed(past, t))
    && (HolderClosed(past, t) ==> attempt.holder == Closed)
  }

  ghost predicate Unknown(past: seq<Event>, t: Ticket) {
    && TakeSnapshot(t) !in past && EndAttempt(t) !in past && LockHolder(t) !in past && !HolderClosed(past, t)
  }

  ghost predicate Records(s: State, past: seq<Event>) {
    && s.slots.next == |Arrivals(past)|
    && (forall t | t in s.attempts :: Remembers(s.attempts[t], past, t))
    && (forall t: Ticket | t !in s.attempts :: Unknown(past, t))
  }

  lemma OneMoreEvent(past: seq<Event>, e: Event)
    ensures Arrivals(past + [e]) == Arrivals(past) + (if e.Arrive? then [e.branch] else [])
    ensures forall f :: f in past + [e] <==> f in past || f == e
  {
    assert (past + [e])[..|past|] == past;
  }

  // The events of an escalation that its memory is about.
  predicate Tells(e: Event, t: Ticket) {
    || e == TakeSnapshot(t) || e == EndAttempt(t)
    || e == LockHolder(t) || e == EndHolder(t, true) || e == EndHolder(t, false)
  }

  lemma SameMemory(attempt: Attempt, past: seq<Event>, e: Event, t: Ticket)
    requires !Tells(e, t)
    ensures Remembers(attempt, past, t) ==> Remembers(attempt, past + [e], t)
    ensures Unknown(past, t) ==> Unknown(past + [e], t)
  {
    OneMoreEvent(past, e);
    hide Arrivals;
  }

  lemma UnconcernedRemembers(s: State, poolSize: nat, e: Event, past: seq<Event>, t: Ticket)
    requires Inv(s, poolSize) && Enabled(s, poolSize, e) && !Concerns(s, e, t)
    requires t in s.attempts ==> Remembers(s.attempts[t], past, t)
    requires t !in s.attempts ==> Unknown(past, t)
    ensures t in Step(s, poolSize, e).attempts ==> Remembers(Step(s, poolSize, e).attempts[t], past + [e], t)
    ensures t !in Step(s, poolSize, e).attempts ==> Unknown(past + [e], t)
  {
    OtherViewStays(s, poolSize, e, t);
    assert !Tells(e, t);
    hide *;
    if t in s.attempts {
      SameMemory(s.attempts[t], past, e, t);
    } else {
      SameMemory(Attempt(0, Queued, NoHolder, false), past, e, t);
    }
  }

  lemma ArrivalIsRemembered(s: State, poolSize: nat, past: seq<Event>, branch: Branch)
    requires Inv(s, poolSize) && s.slots.next == |Arrivals(past)| && Unknown(past, s.slots.next)
    ensures var next := Step(s, poolSize, Arrive(branch));
      s.slots.next in next.attempts && Remembers(next.attempts[s.slots.next], past + [Arrive(branch)], s.slots.next)
  {
    OneMoreEvent(past, Arrive(branch));
    hide Inv, Arrivals;
  }

  predicate MovesTheHolder(e: Event) {
    e.OpenHolder? || e.ConnectHolder? || e.LockHolder? || e.FailHolder? || e.EndHolder?
  }

  // One attempt moves on: its phase and holder follow the event that tells of it.
  lemma HolderMovesAreRemembered(s: State, poolSize: nat, e: Event, past: seq<Event>, t: Ticket)
    requires Enabled(s, poolSize, e) && Concerns(s, e, t) && t in s.attempts && Fits(ViewOf(s, t))
    requires MovesTheHolder(e) && Remembers(s.attempts[t], past, t)
    ensures t in Step(s, poolSize, e).attempts && Remembers(Step(s, poolSize, e).attempts[t], past + [e], t)
  {
    OneMoreEvent(past, e);
    hide Arrivals, SharedOn, HasRoom;
  }

  lemma SlotIsRemembered(s: State, poolSize: nat, u: Ticket, past: seq<Event>, t: Ticket)
    requires Enabled(s, poolSize, GiveSlotBack(u)) && Concerns(s, GiveSlotBack(u), t)
    requires t in s.attempts && (t != u ==> s.attempts[t].phase == Queued) && Remembers(s.attempts[t], past, t)
    ensures var next := Step(s, poolSize, GiveSlotBack(u));
      t in next.attempts && Remembers(next.attempts[t], past + [GiveSlotBack(u)], t)
  {
    OneMoreEvent(past, GiveSlotBack(u));
    hide Arrivals, SharedOn, HasRoom;
  }

  lemma MovesAreRemembered(s: State, poolSize: nat, e: Event, past: seq<Event>, t: Ticket)
    requires Enabled(s, poolSize, e) && Concerns(s, e, t) && t in s.attempts && Fits(ViewOf(s, t))
    requires !e.Arrive? && !MovesTheHolder(e) && !e.GiveSlotBack? && Remembers(s.attempts[t], past, t)
    ensures t in Step(s, poolSize, e).attempts && Remembers(Step(s, poolSize, e).attempts[t], past + [e], t)
  {
    OneMoreEvent(past, e);
    hide Arrivals, SharedOn, HasRoom;
  }

  lemma FirstWaitingIsQueued(s: State, poolSize: nat)
    requires Inv(s, poolSize) && s.slots.waiting != []
    ensures s.slots.waiting[0] in s.attempts && s.attempts[s.slots.waiting[0]].phase == Queued
  {
    assert Fits(ViewOf(s, s.slots.waiting[0]));
  }

  lemma ConcernedExists(s: State, poolSize: nat, e: Event, t: Ticket)
    requires Inv(s, poolSize) && Enabled(s, poolSize, e) && Concerns(s, e, t)
    ensures Fits(ViewOf(s, t))
    ensures !e.Arrive? ==> t in s.attempts
    ensures e.Arrive? ==> t == s.slots.next && t !in s.attempts
    ensures e.GiveSlotBack? && t != e.ticket ==> s.attempts[t].phase == Queued
  {
    if e.GiveSlotBack? && s.slots.waiting != [] {
      FirstWaitingIsQueued(s, poolSize);
    }
  }

  lemma RemembersStep(s: State, poolSize: nat, e: Event, past: seq<Event>, t: Ticket)
    requires Inv(s, poolSize) && Enabled(s, poolSize, e) && s.slots.next == |Arrivals(past)|
    requires t in s.attempts ==> Remembers(s.attempts[t], past, t)
    requires t !in s.attempts ==> Unknown(past, t)
    ensures t in Step(s, poolSize, e).attempts ==> Remembers(Step(s, poolSize, e).attempts[t], past + [e], t)
    ensures t !in Step(s, poolSize, e).attempts ==> Unknown(past + [e], t)
  {
    hide *;
    if !Concerns(s, e, t) {
      UnconcernedRemembers(s, poolSize, e, past, t);
    } else {
      ConcernedExists(s, poolSize, e, t);
      if e.Arrive? {
        ArrivalIsRemembered(s, poolSize, past, e.branch);
      } else if e.GiveSlotBack? {
        SlotIsRemembered(s, poolSize, e.ticket, past, t);
      } else if MovesTheHolder(e) {
        HolderMovesAreRemembered(s, poolSize, e, past, t);
      } else {
        MovesAreRemembered(s, poolSize, e, past, t);
      }
    }
  }

  lemma NextTicket(s: State, poolSize: nat, e: Event)
    requires Enabled(s, poolSize, e)
    ensures Step(s, poolSize, e).slots.next == s.slots.next + (if e.Arrive? then 1 else 0)
  {
  }

  lemma RecordsStep(s: State, poolSize: nat, e: Event, past: seq<Event>)
    requires Inv(s, poolSize) && Enabled(s, poolSize, e) && Records(s, past)
    ensures Records(Step(s, poolSize, e), past + [e])
  {
    OneMoreEvent(past, e);
    NextTicket(s, poolSize, e);
    hide Inv, Enabled, Step, Arrivals, Remembers, Unknown;
    forall t: Ticket
      ensures t in Step(s, poolSize, e).attempts ==> Remembers(Step(s, poolSize, e).attempts[t], past + [e], t)
      ensures t !in Step(s, poolSize, e).attempts ==> Unknown(past + [e], t)
    {
      RemembersStep(s, poolSize, e, past, t);
    }
  }

  lemma {:induction false} RunIsRecorded(s: State, poolSize: nat, past: seq<Event>, events: seq<Event>)
    requires Inv(s, poolSize) && Records(s, past) && CanTake(s, poolSize, events)
    ensures Inv(Taken(s, poolSize, events), poolSize) && Records(Taken(s, poolSize, events), past + events)
    decreases |events|
  {
    hide Inv, Enabled, Step, Records;
    if events == [] {
      assert past + [] == past;
    } else {
      var e, rest := events[0], events[1..];
      InvIsKept(s, poolSize, e);
      RecordsStep(s, poolSize, e, past);
      RunIsRecorded(Step(s, poolSize, e), poolSize, past + [e], rest);
      assert past + [e] + rest == past + events;
    }
  }

  lemma StartIsRecorded(poolSize: nat)
    ensures Inv(Start(poolSize), poolSize) && Records(Start(poolSize), [])
  {
    StartFits(poolSize);
  }

  // ---- Runs, cut at one event --------------------------------------------------------------

  lemma {:induction false} RunInTwo(s: State, poolSize: nat, events: seq<Event>, i: nat)
    requires i <= |events| && CanTake(s, poolSize, events)
    ensures CanTake(s, poolSize, events[..i]) && CanTake(Taken(s, poolSize, events[..i]), poolSize, events[i..])
    ensures Taken(Taken(s, poolSize, events[..i]), poolSize, events[i..]) == Taken(s, poolSize, events)
    decreases |events|
  {
    hide Enabled, Step;
    if i == 0 {
      assert events[..0] == [] && events[0..] == events;
    } else {
      var e, rest := events[0], events[1..];
      RunInTwo(Step(s, poolSize, e), poolSize, rest, i - 1);
      assert events[..i] == [e] + rest[..i - 1] && events[i..] == rest[i - 1..];
      OneStep(s, poolSize, e, rest[..i - 1]);
    }
  }

  // The state before the event at position i, and what is known of it.
  ghost function Before(poolSize: nat, events: seq<Event>, i: nat): State
    requires i <= |events| && CanTake(Start(poolSize), poolSize, events)
  {
    RunInTwo(Start(poolSize), poolSize, events, i);
    Taken(Start(poolSize), poolSize, events[..i])
  }

  lemma FirstTaken(s: State, poolSize: nat, events: seq<Event>)
    requires events != [] && CanTake(s, poolSize, events)
    ensures Enabled(s, poolSize, events[0])
    ensures CanTake(Step(s, poolSize, events[0]), poolSize, events[1..])
  {
    hide Enabled, Step;
  }

  lemma BeforeIsKnown(poolSize: nat, events: seq<Event>, i: nat)
    requires i <= |events| && CanTake(Start(poolSize), poolSize, events)
    ensures Inv(Before(poolSize, events, i), poolSize) && Records(Before(poolSize, events, i), events[..i])
    ensures i < |events| ==> Enabled(Before(poolSize, events, i), poolSize, events[i])
  {
    hide *;
    BeforeIs(poolSize, events, i);
    RunInTwo(Start(poolSize), poolSize, events, i);
    StartIsRecorded(poolSize);
    RunIsRecorded(Start(poolSize), poolSize, [], events[..i]);
    assert [] + events[..i] == events[..i];
    if i < |events| {
      FirstTaken(Before(poolSize, events, i), poolSize, events[i..]);
      assert events[i..][0] == events[i];
    }
  }

  lemma BeforeIs(poolSize: nat, events: seq<Event>, i: nat)
    requires i <= |events| && CanTake(Start(poolSize), poolSize, events)
    ensures CanTake(Start(poolSize), poolSize, events[..i])
    ensures Before(poolSize, events, i) == Taken(Start(poolSize), poolSize, events[..i])
  {
    RunInTwo(Start(poolSize), poolSize, events, i);
  }

  lemma BetweenTwo(poolSize: nat, events: seq<Event>, i: nat, k: nat)
    requires i < k <= |events| && CanTake(Start(poolSize), poolSize, events)
    ensures Enabled(Before(poolSize, events, i), poolSize, events[i])
    ensures var next := Step(Before(poolSize, events, i), poolSize, events[i]);
      && CanTake(next, poolSize, events[i + 1..k])
      && Taken(next, poolSize, events[i + 1..k]) == Before(poolSize, events, k)
  {
    hide *;
    BeforeIsKnown(poolSize, events, i);
    BeforeIs(poolSize, events, i);
    BeforeIs(poolSize, events, k);
    RunInTwo(Start(poolSize), poolSize, events[..k], i);
    assert events[..k][..i] == events[..i] && events[..k][i..] == [events[i]] + events[i + 1..k];
    FirstOfTwo(Before(poolSize, events, i), poolSize, events[i], events[i + 1..k]);
  }

  lemma FirstOfTwo(s: State, poolSize: nat, e: Event, rest: seq<Event>)
    requires CanTake(s, poolSize, [e] + rest) && Enabled(s, poolSize, e)
    ensures CanTake(Step(s, poolSize, e), poolSize, rest)
    ensures Taken(s, poolSize, [e] + rest) == Taken(Step(s, poolSize, e), poolSize, rest)
  {
    hide Enabled, Step;
    assert ([e] + rest)[1..] == rest;
  }

  // ---- The laws ----------------------------------------------------------------------------

  lemma SnapshotTaker(s: State, poolSize: nat, past: seq<Event>, t: Ticket, branch: Branch)
    requires Inv(s, poolSize) && Records(s, past) && Enabled(s, poolSize, TakeSnapshot(t))
    requires ArrivedOn(past, t, branch) && !TimedOut(past, t)
    ensures t in s.attempts && s.attempts[t].branch == branch
    ensures !SharedOn(s, branch) && branch in s.exclusive && s.exclusive[branch] == t
  {
    assert Remembers(s.attempts[t], past, t);
    assert Fits(ViewOf(s, t));
    hide Records, Arrivals, TimedOut;
  }

  lemma LockIsSeen(s: State, lock: SharedLock)
    requires lock in s.shared
    ensures SharedOn(s, lock.branch)
  {
  }

  lemma WriterLocks(s: State, poolSize: nat, w: Writer, branch: Branch)
    requires Enabled(s, poolSize, AdmitWriter(w, branch))
    ensures SharedLock(ByWriter(w), branch) in Step(s, poolSize, AdmitWriter(w, branch)).shared
  {
  }

  lemma OtherAttemptLocks(s: State, poolSize: nat, past: seq<Event>, u: Ticket, branch: Branch)
    requires Records(s, past) && Enabled(s, poolSize, EnterOwn(u, branch)) && !ArrivedOn(past, u, branch)
    ensures SharedLock(ByAttempt(u), branch) in Step(s, poolSize, EnterOwn(u, branch)).shared
  {
    assert Remembers(s.attempts[u], past, u);
    hide Arrivals;
  }

  // Between taking a shared lock and the snapshot of the branch's exclusive holder lies the end of who took it.
  lemma LockEndsBefore(poolSize: nat, events: seq<Event>, i: nat, k: nat, who: Who, t: Ticket, branch: Branch)
    requires CanTake(Start(poolSize), poolSize, events) && i < k < |events|
    requires Enabled(Before(poolSize, events, i), poolSize, events[i])
    requires SharedLock(who, branch) in Step(Before(poolSize, events, i), poolSize, events[i]).shared
    requires events[k] == TakeSnapshot(t) && ArrivedOn(events[..k], t, branch) && !TimedOut(events[..k], t)
    ensures EndOf(who) in events[i + 1..k]
  {
    hide *;
    BeforeIsKnown(poolSize, events, k);
    SnapshotTaker(Before(poolSize, events, k), poolSize, events[..k], t, branch);
    BetweenTwo(poolSize, events, i, k);
    if EndOf(who) !in events[i + 1..k] {
      OnlyItsEndUnlocks(Step(Before(poolSize, events, i), poolSize, events[i]), poolSize, events[i + 1..k],
                        SharedLock(who, branch));
      LockIsSeen(Before(poolSize, events, k), SharedLock(who, branch));
    }
  }

  // A writer admitted to a branch has ended before an attempt takes the snapshot of an escalation on that branch whose
  // holder has not timed out.
  lemma WritersEndBeforeSnapshot(poolSize: nat, events: seq<Event>, i: nat, k: nat, w: Writer, t: Ticket,
                                 branch: Branch)
    requires CanTake(Start(poolSize), poolSize, events) && i < k < |events|
    requires events[i] == AdmitWriter(w, branch)
    requires events[k] == TakeSnapshot(t) && ArrivedOn(events[..k], t, branch) && !TimedOut(events[..k], t)
    ensures EndWriter(w) in events[i + 1..k]
  {
    assert EndOf(ByWriter(w)) == EndWriter(w);
    hide *;
    BeforeIsKnown(poolSize, events, i);
    WriterLocks(Before(poolSize, events, i), poolSize, w, branch);
    LockEndsBefore(poolSize, events, i, k, ByWriter(w), t, branch);
  }

  // So has an escalated attempt of another branch that entered this one.
  lemma AttemptsEndBeforeSnapshot(poolSize: nat, events: seq<Event>, i: nat, k: nat, u: Ticket, t: Ticket,
                                  branch: Branch)
    requires CanTake(Start(poolSize), poolSize, events) && i < k < |events|
    requires events[i] == EnterOwn(u, branch) && !ArrivedOn(events[..i], u, branch)
    requires events[k] == TakeSnapshot(t) && ArrivedOn(events[..k], t, branch) && !TimedOut(events[..k], t)
    ensures EndAttempt(u) in events[i + 1..k]
  {
    assert EndOf(ByAttempt(u)) == EndAttempt(u);
    hide *;
    BeforeIsKnown(poolSize, events, i);
    OtherAttemptLocks(Before(poolSize, events, i), poolSize, events[..i], u, branch);
    LockEndsBefore(poolSize, events, i, k, ByAttempt(u), t, branch);
  }

  lemma WritingIsProtected(s: State, poolSize: nat, past: seq<Event>, t: Ticket, branch: Branch)
    requires Inv(s, poolSize) && Records(s, past) && ArrivedOn(past, t, branch) && !TimedOut(past, t)
    requires TakeSnapshot(t) in past && EndAttempt(t) !in past
    ensures t in s.attempts && Protected(s, t) && s.attempts[t].branch == branch
  {
    if t in s.attempts {
      assert Remembers(s.attempts[t], past, t);
    }
    hide Inv, Arrivals;
  }

  lemma NothingEnters(s: State, poolSize: nat, past: seq<Event>, e: Event, t: Ticket, branch: Branch)
    requires Inv(s, poolSize) && Records(s, past) && Enabled(s, poolSize, e)
    requires Protected(s, t) && s.attempts[t].branch == branch
    ensures forall w :: e != AdmitWriter(w, branch)
    ensures forall u: Ticket | u != t && (e == EnterOwn(u, branch) || e == TakeSnapshot(u))
       && ArrivedOn(past, u, branch) ::
      TimedOut(past, u)
    ensures forall u: Ticket | u != t && e == EnterOwn(u, branch) :: ArrivedOn(past, u, branch)
  {
    ProtectedExcludes(s, poolSize, t);
    forall u: Ticket | u != t && (e == EnterOwn(u, branch) || e == TakeSnapshot(u))
      ensures e == EnterOwn(u, branch) ==> ArrivedOn(past, u, branch)
      ensures ArrivedOn(past, u, branch) ==> TimedOut(past, u)
    {
      assert Remembers(s.attempts[u], past, u);
      assert Fits(ViewOf(s, u));
    }
  }

  lemma EarlierEvents(events: seq<Event>, k: nat, j: nat)
    requires k < j <= |events|
    ensures events[k] in events[..j]
    ensures forall e | e in events[..k] :: e in events[..j]
    ensures forall e | e in events[..j] :: e in events[..k] || e == events[k] || e in events[k + 1..j]
  {
    assert events[..j] == events[..k] + [events[k]] + events[k + 1..j];
  }

  lemma ArrivalStays(events: seq<Event>, k: nat, j: nat, t: Ticket, branch: Branch)
    requires k <= j <= |events| && ArrivedOn(events[..k], t, branch)
    ensures ArrivedOn(events[..j], t, branch)
    decreases j - k
  {
    if k < j {
      ArrivalStays(events, k, j - 1, t, branch);
      OneMoreEvent(events[..j - 1], events[j - 1]);
      assert events[..j] == events[..j - 1] + [events[j - 1]];
    }
  }

  lemma NotEndedBefore(s: State, poolSize: nat, past: seq<Event>, t: Ticket)
    requires Records(s, past) && Enabled(s, poolSize, TakeSnapshot(t))
    ensures EndAttempt(t) !in past
  {
    assert Remembers(s.attempts[t], past, t);
    hide Arrivals;
  }

  // From that snapshot until the attempt ends or its holder times out no writer is admitted to the branch; another
  // escalated attempt enters it, or takes a snapshot of its own of it, only if its own holder of the branch timed out.
  lemma NothingEntersUntilTheEnd(poolSize: nat, events: seq<Event>, k: nat, j: nat, t: Ticket, branch: Branch)
    requires CanTake(Start(poolSize), poolSize, events) && k < j < |events|
    requires events[k] == TakeSnapshot(t) && ArrivedOn(events[..k], t, branch)
    requires !TimedOut(events[..j], t) && EndAttempt(t) !in events[k + 1..j]
    ensures forall w :: events[j] != AdmitWriter(w, branch)
    ensures forall u: Ticket | u != t && events[j] == EnterOwn(u, branch) ::
      ArrivedOn(events[..j], u, branch) && TimedOut(events[..j], u)
    ensures forall u: Ticket | u != t && events[j] == TakeSnapshot(u) && ArrivedOn(events[..j], u, branch) ::
      TimedOut(events[..j], u)
  {
    assert EndAttempt(t) != TakeSnapshot(t);
    hide *;
    BeforeIsKnown(poolSize, events, k);
    BeforeIsKnown(poolSize, events, j);
    NotEndedBefore(Before(poolSize, events, k), poolSize, events[..k], t);
    EarlierEvents(events, k, j);
    ArrivalStays(events, k, j, t, branch);
    WritingIsProtected(Before(poolSize, events, j), poolSize, events[..j], t, branch);
    NothingEnters(Before(poolSize, events, j), poolSize, events[..j], events[j], t, branch);
  }

  // ---- Who gave up or failed never writes --------------------------------------------------

  // The escalation is refused, or its holder failed before its snapshot.
  predicate IsOut(s: State, t: Ticket, refused: bool) {
    && t in s.attempts
    && (if refused then s.attempts[t].phase == Refused
        else s.attempts[t].holder == Closed && !s.attempts[t].timedOut && s.attempts[t].phase != Writing)
  }

  // The events by which an escalation gets to write: its lock, its snapshot, its entries; a refused one does not begin.
  predicate GetsOn(e: Event, t: Ticket, refused: bool) {
    || e == LockHolder(t) || e == TakeSnapshot(t) || (e.EnterOwn? && e.ticket == t) || (refused && e == Begin(t))
  }

  lemma GoesOut(s: State, poolSize: nat, t: Ticket, e: Event)
    requires Inv(s, poolSize) && Enabled(s, poolSize, e) && (e == GiveUpQueueing(t) || e == FailHolder(t))
    ensures IsOut(Step(s, poolSize, e), t, e.GiveUpQueueing?)
  {
    assert Fits(ViewOf(s, t));
  }

  lemma MovesStayOut(s: State, poolSize: nat, e: Event, t: Ticket, refused: bool)
    requires Enabled(s, poolSize, e) && Concerns(s, e, t) && !e.Arrive?
    requires IsOut(s, t, refused) && Fits(ViewOf(s, t))
    requires e.GiveSlotBack? && t != e.ticket ==> s.attempts[t].phase == Queued
    ensures !GetsOn(e, t, refused) && IsOut(Step(s, poolSize, e), t, refused)
  {
    hide SharedOn, HasRoom;
  }

  lemma SameIsOut(a: State, b: State, t: Ticket, refused: bool)
    requires IsOut(a, t, refused) && t in a.attempts ==> t in b.attempts && b.attempts[t] == a.attempts[t]
    ensures IsOut(a, t, refused) ==> t in a.attempts && IsOut(b, t, refused)
  {
  }

  lemma StaysOut(s: State, poolSize: nat, e: Event, t: Ticket, refused: bool)
    requires Inv(s, poolSize) && Enabled(s, poolSize, e) && IsOut(s, t, refused)
    ensures !GetsOn(e, t, refused) && IsOut(Step(s, poolSize, e), t, refused)
  {
    assert GetsOn(e, t, refused) ==> Concerns(s, e, t);
    assert t in s.attempts;
    hide *;
    if Concerns(s, e, t) {
      ConcernedExists(s, poolSize, e, t);
      MovesStayOut(s, poolSize, e, t, refused);
    } else {
      OtherViewStays(s, poolSize, e, t);
      SameIsOut(s, Step(s, poolSize, e), t, refused);
    }
  }

  lemma {:induction false} NeverGetsOn(s: State, poolSize: nat, events: seq<Event>, t: Ticket, refused: bool, j: nat)
    requires Inv(s, poolSize) && CanTake(s, poolSize, events) && j < |events| && IsOut(s, t, refused)
    ensures !GetsOn(events[j], t, refused)
    decreases |events|
  {
    hide *;
    FirstTaken(s, poolSize, events);
    StaysOut(s, poolSize, events[0], t, refused);
    if j > 0 {
      InvIsKept(s, poolSize, events[0]);
      NeverGetsOn(Step(s, poolSize, events[0]), poolSize, events[1..], t, refused, j - 1);
      assert events[1..][j - 1] == events[j];
    }
  }

  lemma OutLater(poolSize: nat, events: seq<Event>, i: nat, j: nat, t: Ticket)
    requires CanTake(Start(poolSize), poolSize, events) && i < j < |events|
    requires events[i] == GiveUpQueueing(t) || events[i] == FailHolder(t)
    ensures !GetsOn(events[j], t, events[i].GiveUpQueueing?)
  {
    hide *;
    var s, e := Before(poolSize, events, i), events[i];
    BeforeIsKnown(poolSize, events, i);
    BetweenTwo(poolSize, events, i, |events|);
    GoesOut(s, poolSize, t, e);
    InvIsKept(s, poolSize, e);
    NeverGetsOn(Step(s, poolSize, e), poolSize, events[i + 1..|events|], t, e.GiveUpQueueing?, j - i - 1);
    assert events[i + 1..|events|][j - i - 1] == events[j];
  }

  // An escalation that gave up waiting for its slot never begins; one whose holder failed takes no snapshot and enters
  // no branch.
  lemma GivenUpNeverWrites(poolSize: nat, events: seq<Event>, i: nat, j: nat, t: Ticket)
    requires CanTake(Start(poolSize), poolSize, events) && i < j < |events|
    requires events[i] == GiveUpQueueing(t) || events[i] == FailHolder(t)
    ensures events[j] != LockHolder(t) && events[j] != TakeSnapshot(t)
    ensures !(events[j].EnterOwn? && events[j].ticket == t)
    ensures events[i] == GiveUpQueueing(t) ==> events[j] != Begin(t)
  {
    hide CanTake, Start;
    OutLater(poolSize, events, i, j, t);
  }

  // ---- Nothing waits without a reason ------------------------------------------------------

  // A writer with a connection is kept out of a branch only by an escalation of that branch whose holder has locked it
  // and has not ended.
  lemma OnlyHoldersKeepWritersOut(poolSize: nat, events: seq<Event>, w: Writer, branch: Branch)
    requires CanTake(Start(poolSize), poolSize, events)
    requires var s := Taken(Start(poolSize), poolSize, events);
      OfWriter(w) in s.connections && !Enabled(s, poolSize, AdmitWriter(w, branch))
    ensures exists t :: ArrivedOn(events, t, branch) && LockHolder(t) in events && !HolderClosed(events, t)
  {
    var s := Taken(Start(poolSize), poolSize, events);
    BeforeIsKnown(poolSize, events, |events|);
    assert events[..|events|] == events;
    assert s == Before(poolSize, events, |events|);
    HolderOf(s, poolSize, events, branch);
  }

  lemma HolderOf(s: State, poolSize: nat, past: seq<Event>, branch: Branch)
    requires Inv(s, poolSize) && Records(s, past) && branch in s.exclusive
    ensures exists t :: ArrivedOn(past, t, branch) && LockHolder(t) in past && !HolderClosed(past, t)
  {
    var t := s.exclusive[branch];
    assert t in s.attempts && s.attempts[t].branch == branch;
    assert Fits(ViewOf(s, t));
    assert Remembers(s.attempts[t], past, t);
    hide Records, Arrivals, Inv;
    assert ArrivedOn(past, t, branch);
  }

  // ---- Such runs exist ---------------------------------------------------------------------

  ghost predicate Leads(s: State, events: seq<Event>, next: State) {
    CanTake(s, 3, events) && Taken(s, 3, events) == next
  }

  lemma {:induction false} LeadsOn(s: State, first: seq<Event>, middle: State, second: seq<Event>, last: State)
    requires Leads(s, first, middle) && Leads(middle, second, last)
    ensures Leads(s, first + second, last)
    decreases |first|
  {
    hide Enabled, Step;
    if first == [] {
      assert first + second == second;
    } else {
      LeadsOn(Step(s, 3, first[0]), first[1..], middle, second, last);
      assert (first + second)[1..] == first[1..] + second;
    }
  }

  // The only escalation, of branch 7, with its slot.
  function With(phase: Phase, holder: Holder, connections: set<Connection>, shared: set<SharedLock>,
                exclusive: map<Branch, Ticket>): State {
    State(Slots(0, [], 1, {0}, {}), map[0 := Attempt(7, phase, holder, false)], connections, shared, exclusive, [])
  }

  const WRITER_LOCK := SharedLock(ByWriter(0), 7)

  lemma WriterEnters()
    ensures Leads(Start(3), [BeginWriter(0), AdmitWriter(0, 7)],
                  Start(3).(connections := {OfWriter(0)}, shared := {WRITER_LOCK}))
  {
    var one := Step(Start(3), 3, BeginWriter(0));
    assert one == Start(3).(connections := {OfWriter(0)});
    assert Step(one, 3, AdmitWriter(0, 7)) == one.(shared := {WRITER_LOCK});
    assert [BeginWriter(0), AdmitWriter(0, 7)][1..] == [AdmitWriter(0, 7)] && [AdmitWriter(0, 7)][1..] == [];
  }

  lemma Arrives()
    ensures Leads(Start(3).(connections := {OfWriter(0)}, shared := {WRITER_LOCK}), [Arrive(7)],
                  With(Slotted, NoHolder, {OfWriter(0)}, {WRITER_LOCK}, map[]))
  {
    assert [Arrive(7)][1..] == [];
  }

  lemma Escalates()
    ensures Leads(With(Slotted, NoHolder, {OfWriter(0)}, {WRITER_LOCK}, map[]),
                  [Begin(0), OpenHolder(0), ConnectHolder(0)],
                  With(Begun, Requesting, {OfWriter(0), Own(0), OfHolder(0)}, {WRITER_LOCK}, map[]))
  {
    var s := With(Slotted, NoHolder, {OfWriter(0)}, {WRITER_LOCK}, map[]);
    var one := With(Begun, NoHolder, {OfWriter(0), Own(0)}, {WRITER_LOCK}, map[]);
    assert Step(s, 3, Begin(0)) == one;
    var two := With(Begun, Opening, {OfWriter(0), Own(0)}, {WRITER_LOCK}, map[]);
    assert Step(one, 3, OpenHolder(0)) == two;
    assert Step(two, 3, ConnectHolder(0))
        == With(Begun, Requesting, {OfWriter(0), Own(0), OfHolder(0)}, {WRITER_LOCK}, map[]);
    assert [Begin(0), OpenHolder(0), ConnectHolder(0)][1..] == [OpenHolder(0), ConnectHolder(0)];
    assert [OpenHolder(0), ConnectHolder(0)][1..] == [ConnectHolder(0)] && [ConnectHolder(0)][1..] == [];
  }

  lemma WaitsForTheWriter()
    ensures !Enabled(With(Begun, Requesting, {OfWriter(0), Own(0), OfHolder(0)}, {WRITER_LOCK}, map[]), 3,
                     LockHolder(0))
    ensures Leads(With(Begun, Requesting, {OfWriter(0), Own(0), OfHolder(0)}, {WRITER_LOCK}, map[]),
                  [EndWriter(0), LockHolder(0), TakeSnapshot(0)],
                  With(Writing, Holding, {Own(0), OfHolder(0)}, {}, map[7 := 0]))
  {
    var s := With(Begun, Requesting, {OfWriter(0), Own(0), OfHolder(0)}, {WRITER_LOCK}, map[]);
    assert WRITER_LOCK in s.shared;
    var one := With(Begun, Requesting, {Own(0), OfHolder(0)}, {}, map[]);
    assert Step(s, 3, EndWriter(0)) == one;
    var two := With(Begun, Holding, {Own(0), OfHolder(0)}, {}, map[7 := 0]);
    assert Step(one, 3, LockHolder(0)) == two;
    assert Step(two, 3, TakeSnapshot(0)) == With(Writing, Holding, {Own(0), OfHolder(0)}, {}, map[7 := 0]);
    assert [EndWriter(0), LockHolder(0), TakeSnapshot(0)][1..] == [LockHolder(0), TakeSnapshot(0)];
    assert [LockHolder(0), TakeSnapshot(0)][1..] == [TakeSnapshot(0)] && [TakeSnapshot(0)][1..] == [];
  }

  lemma Writes()
    ensures Leads(With(Writing, Holding, {Own(0), OfHolder(0)}, {}, map[7 := 0]), [EnterOwn(0, 7), EnterOwn(0, 8)],
                  With(Writing, Holding, {Own(0), OfHolder(0)}, {SharedLock(ByAttempt(0), 8)}, map[7 := 0]))
  {
    var s := With(Writing, Holding, {Own(0), OfHolder(0)}, {}, map[7 := 0]);
    var one := With(Writing, Holding, {Own(0), OfHolder(0)}, {SharedLock(ByAttempt(0), 8)}, map[7 := 0]);
    assert Step(s, 3, EnterOwn(0, 7)) == s && Step(s, 3, EnterOwn(0, 8)) == one;
    assert [EnterOwn(0, 7), EnterOwn(0, 8)][1..] == [EnterOwn(0, 8)] && [EnterOwn(0, 8)][1..] == [];
  }

  lemma Ends()
    ensures Leads(With(Writing, Holding, {Own(0), OfHolder(0)}, {SharedLock(ByAttempt(0), 8)}, map[7 := 0]),
                  [EndAttempt(0)], With(Ended, Holding, {OfHolder(0)}, {}, map[7 := 0]))
  {
    assert [EndAttempt(0)][1..] == [];
  }

  lemma GivesBack()
    ensures Leads(With(Ended, Holding, {OfHolder(0)}, {}, map[7 := 0]), [EndHolder(0, false), GiveSlotBack(0)],
                  State(Slots(1, [], 1, {}, {}), map[0 := Attempt(7, Done, Closed, false)], {}, {}, map[], [0]))
  {
    var s := With(Ended, Holding, {OfHolder(0)}, {}, map[7 := 0]);
    var one := With(Ended, Closed, {}, {}, map[]);
    assert Step(s, 3, EndHolder(0, false)) == one;
    assert Step(one, 3, GiveSlotBack(0))
        == State(Slots(1, [], 1, {}, {}), map[0 := Attempt(7, Done, Closed, false)], {}, {}, map[], [0]);
    assert [EndHolder(0, false), GiveSlotBack(0)][1..] == [GiveSlotBack(0)] && [GiveSlotBack(0)][1..] == [];
  }

  // A writer enters branch 7; an escalation of that branch waits for it, takes its snapshot, enters its own branch and
  // another, ends, and leaves every lock, connection and slot free.
  lemma WholeRunExists()
    ensures Leads(Start(3),
                  [BeginWriter(0), AdmitWriter(0, 7)] + [Arrive(7)] + [Begin(0), OpenHolder(0), ConnectHolder(0)]
                  + [EndWriter(0), LockHolder(0), TakeSnapshot(0)] + [EnterOwn(0, 7), EnterOwn(0, 8)] + [EndAttempt(0)]
                  + [EndHolder(0, false), GiveSlotBack(0)],
                  State(Slots(1, [], 1, {}, {}), map[0 := Attempt(7, Done, Closed, false)], {}, {}, map[], [0]))
  {
    hide *;
    WriterEnters();
    Arrives();
    Escalates();
    WaitsForTheWriter();
    Writes();
    Ends();
    GivesBack();
    var s0, e0 := Start(3).(connections := {OfWriter(0)}, shared := {WRITER_LOCK}), [BeginWriter(0), AdmitWriter(0, 7)];
    var s1, e1 := With(Slotted, NoHolder, {OfWriter(0)}, {WRITER_LOCK}, map[]), e0 + [Arrive(7)];
    var s2, e2 := With(Begun, Requesting, {OfWriter(0), Own(0), OfHolder(0)}, {WRITER_LOCK}, map[]),
                  e1 + [Begin(0), OpenHolder(0), ConnectHolder(0)];
    var s3, e3 := With(Writing, Holding, {Own(0), OfHolder(0)}, {}, map[7 := 0]),
                  e2 + [EndWriter(0), LockHolder(0), TakeSnapshot(0)];
    var s4, e4 := With(Writing, Holding, {Own(0), OfHolder(0)}, {SharedLock(ByAttempt(0), 8)}, map[7 := 0]),
                  e3 + [EnterOwn(0, 7), EnterOwn(0, 8)];
    var s5, e5 := With(Ended, Holding, {OfHolder(0)}, {}, map[7 := 0]), e4 + [EndAttempt(0)];
    var s6 := State(Slots(1, [], 1, {}, {}), map[0 := Attempt(7, Done, Closed, false)], {}, {}, map[], [0]);
    LeadsOn(Start(3), e0, s0, [Arrive(7)], s1);
    LeadsOn(Start(3), e1, s1, [Begin(0), OpenHolder(0), ConnectHolder(0)], s2);
    LeadsOn(Start(3), e2, s2, [EndWriter(0), LockHolder(0), TakeSnapshot(0)], s3);
    LeadsOn(Start(3), e3, s3, [EnterOwn(0, 7), EnterOwn(0, 8)], s4);
    LeadsOn(Start(3), e4, s4, [EndAttempt(0)], s5);
    LeadsOn(Start(3), e5, s5, [EndHolder(0, false), GiveSlotBack(0)], s6);
  }
}
