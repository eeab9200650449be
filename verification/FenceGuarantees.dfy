/** The guarantees of the fence over every run: exclusion from snapshot to end, no waiting on one's own holder,
  * slots given back once, and a pool that escalations cannot exhaust. */
module FenceGuarantees {
  import opened Wrappers
  import opened EscalationSlots
  import opened FenceProtocol
  import opened FenceProperties

  // ---- Runs --------------------------------------------------------------------------------

  ghost predicate CanTake(s: State, poolSize: nat, events: seq<Event>)
    decreases |events|
  {
    events == [] || (Enabled(s, poolSize, events[0]) && CanTake(Step(s, poolSize, events[0]), poolSize, events[1..]))
  }

  ghost function Taken(s: State, poolSize: nat, events: seq<Event>): State
    requires CanTake(s, poolSize, events)
    decreases |events|
  {
    if events == [] then s else Taken(Step(s, poolSize, events[0]), poolSize, events[1..])
  }

  lemma {:induction false} EveryRunKeepsInv(s: State, poolSize: nat, events: seq<Event>)
    requires Inv(s, poolSize) && CanTake(s, poolSize, events)
    ensures Inv(Taken(s, poolSize, events), poolSize)
    decreases |events|
  {
    hide Inv, Step, Enabled;
    if events != [] {
      InvIsKept(s, poolSize, events[0]);
      EveryRunKeepsInv(Step(s, poolSize, events[0]), poolSize, events[1..]);
    }
  }

  // ---- Exclusion ---------------------------------------------------------------------------

  // Between its snapshot and its end, under a holder that has not timed out.
  predicate Protected(s: State, t: Ticket) {
    InPhase(s, t, Writing) && !s.attempts[t].timedOut
  }

  // The only entry that remains is the lock-free one of an attempt whose own holder of that branch timed out.
  predicate LostItsHolder(s: State, u: Ticket, branch: Branch) {
    u in s.attempts && s.attempts[u].branch == branch && s.attempts[u].timedOut
  }

  lemma ProtectedExcludes(s: State, poolSize: nat, t: Ticket)
    requires Inv(s, poolSize) && Protected(s, t)
    ensures var branch := s.attempts[t].branch;
      && branch in s.exclusive && s.exclusive[branch] == t
      && !SharedOn(s, branch)
      && (forall w :: !Enabled(s, poolSize, AdmitWriter(w, branch)))
      && (forall u: Ticket | u != t ::
            Enabled(s, poolSize, EnterOwn(u, branch)) <==> InPhase(s, u, Writing) && LostItsHolder(s, u, branch))
      && (forall u: Ticket | u != t && Protected(s, u) :: s.attempts[u].branch != branch)
  {
    assert Fits(ViewOf(s, t));
    forall u: Ticket | u != t && InPhase(s, u, Writing) && s.attempts[u].branch == s.attempts[t].branch
      ensures s.attempts[u].timedOut
    {
      assert Fits(ViewOf(s, u));
    }
  }

  // An attempt enters the fence of its own branch without a lock, and no entry of its waits on its own holder.
  lemma NeverWaitsOnItself(s: State, poolSize: nat, t: Ticket, branch: Branch)
    requires Inv(s, poolSize) && InPhase(s, t, Writing)
    ensures var entry := EnterShared(Some(s.attempts[t].branch), branch);
      && (branch == s.attempts[t].branch ==> entry == Admitted && Enabled(s, poolSize, EnterOwn(t, branch)))
      && (EntryWaits(s, entry) ==> s.exclusive[branch] != t)
  {
  }

  // The event that ends the transaction of a writer or of an escalated attempt.
  function EndOf(who: Who): Event {
    match who
    case ByWriter(w) => EndWriter(w)
    case ByAttempt(u) => EndAttempt(u)
  }

  lemma StaysLocked(s: State, poolSize: nat, e: Event, lock: SharedLock)
    requires Enabled(s, poolSize, e) && lock in s.shared && e != EndOf(lock.who)
    ensures lock in Step(s, poolSize, e).shared
  {
  }

  lemma {:induction false} OnlyItsEndUnlocks(s: State, poolSize: nat, events: seq<Event>, lock: SharedLock)
    requires CanTake(s, poolSize, events) && lock in s.shared && EndOf(lock.who) !in events
    ensures lock in Taken(s, poolSize, events).shared
    decreases |events|
  {
    hide Enabled, Step;
    if events != [] {
      StaysLocked(s, poolSize, events[0], lock);
      OnlyItsEndUnlocks(Step(s, poolSize, events[0]), poolSize, events[1..], lock);
    }
  }

  // Every shared entry that was in flight on the branch, of a writer or of another escalated attempt, ended before an
  // attempt that is protected took its snapshot.
  lemma EarlierWritesEndedBeforeSnapshot(s: State, poolSize: nat, before: seq<Event>, t: Ticket, who: Who,
                                         branch: Branch)
    requires Inv(s, poolSize) && SharedLock(who, branch) in s.shared
    requires CanTake(s, poolSize, before + [TakeSnapshot(t)])
    requires var after := Taken(s, poolSize, before + [TakeSnapshot(t)]);
      Protected(after, t) && after.attempts[t].branch == branch
    ensures EndOf(who) in before
  {
    var events := before + [TakeSnapshot(t)];
    var after := Taken(s, poolSize, events);
    assert EndOf(who) != TakeSnapshot(t);
    hide Inv, Enabled, Step, CanTake, Taken;
    EveryRunKeepsInv(s, poolSize, events);
    ProtectedExcludes(after, poolSize, t);
    if EndOf(who) !in before {
      OnlyItsEndUnlocks(s, poolSize, events, SharedLock(who, branch));
    }
  }

  predicate IsOver(s: State, t: Ticket) {
    InPhase(s, t, Ended) || InPhase(s, t, Done) || InPhase(s, t, Refused) || (t in s.attempts && s.attempts[t].timedOut)
  }

  lemma OtherViewStays(s: State, poolSize: nat, e: Event, t: Ticket)
    requires Inv(s, poolSize) && Enabled(s, poolSize, e) && !Concerns(s, e, t)
    ensures t in s.attempts <==> t in Step(s, poolSize, e).attempts
    ensures t in s.attempts ==> Step(s, poolSize, e).attempts[t] == s.attempts[t]
  {
    if IsSlotEvent(e) {
      SlotEventsKeepViews(s, poolSize, e);
    } else if IsAttemptEvent(e) {
      AttemptEventsKeepViews(s, poolSize, e);
    } else if IsHolderEvent(e) {
      HolderEventsKeepViews(s, poolSize, e);
    }
    hide Inv, Enabled;
    if !IsWriterEvent(e) {
      assert ViewOf(Step(s, poolSize, e), t) == ViewOf(s, t);
    }
  }

  lemma ConcernedStaysOver(s: State, poolSize: nat, e: Event, t: Ticket)
    requires Inv(s, poolSize) && Enabled(s, poolSize, e) && IsOver(s, t) && Concerns(s, e, t)
    ensures IsOver(Step(s, poolSize, e), t)
  {
    assert Fits(ViewOf(s, t));
    assert e.Arrive? ==> t !in s.attempts;
    hide Inv;
  }

  lemma OverStaysOver(s: State, poolSize: nat, e: Event, t: Ticket)
    requires Inv(s, poolSize) && Enabled(s, poolSize, e) && IsOver(s, t)
    ensures IsOver(Step(s, poolSize, e), t)
  {
    hide Inv, Enabled, Step, Concerns;
    if Concerns(s, e, t) {
      ConcernedStaysOver(s, poolSize, e, t);
    } else {
      OtherViewStays(s, poolSize, e, t);
    }
  }

  lemma {:induction false} OverForever(s: State, poolSize: nat, events: seq<Event>, t: Ticket)
    requires Inv(s, poolSize) && CanTake(s, poolSize, events) && IsOver(s, t)
    ensures IsOver(Taken(s, poolSize, events), t)
    decreases |events|
  {
    hide Inv, Step, Enabled, IsOver;
    if events != [] {
      OverStaysOver(s, poolSize, events[0], t);
      InvIsKept(s, poolSize, events[0]);
      OverForever(Step(s, poolSize, events[0]), poolSize, events[1..], t);
    }
  }

  lemma ProtectedOrOver(s: State, poolSize: nat, e: Event, t: Ticket)
    requires Inv(s, poolSize) && Enabled(s, poolSize, e) && Protected(s, t)
    ensures Protected(Step(s, poolSize, e), t) || IsOver(Step(s, poolSize, e), t)
    ensures t in Step(s, poolSize, e).attempts && Step(s, poolSize, e).attempts[t].branch == s.attempts[t].branch
  {
    assert Fits(ViewOf(s, t));
  }

  lemma LostForOneStep(s: State, poolSize: nat, e: Event, u: Ticket, branch: Branch)
    requires Inv(s, poolSize) && Enabled(s, poolSize, e) && LostItsHolder(s, u, branch)
    ensures LostItsHolder(Step(s, poolSize, e), u, branch)
  {
    assert Fits(ViewOf(s, u));
  }

  lemma {:induction false} LostForever(s: State, poolSize: nat, events: seq<Event>, u: Ticket, branch: Branch)
    requires Inv(s, poolSize) && CanTake(s, poolSize, events) && LostItsHolder(s, u, branch)
    ensures LostItsHolder(Taken(s, poolSize, events), u, branch)
    decreases |events|
  {
    hide Inv, Step, Enabled, LostItsHolder;
    if events != [] {
      LostForOneStep(s, poolSize, events[0], u, branch);
      InvIsKept(s, poolSize, events[0]);
      LostForever(Step(s, poolSize, events[0]), poolSize, events[1..], u, branch);
    }
  }

  // From its snapshot to its end no shared write enters the branch of a protected attempt, and no other escalated
  // attempt does unless its own holder of that branch timed out, however steps interleave.
  lemma {:induction false} NoWriteEntersWhileProtected(s: State, poolSize: nat, events: seq<Event>, t: Ticket)
    requires Inv(s, poolSize) && CanTake(s, poolSize, events)
    requires Protected(s, t) && Protected(Taken(s, poolSize, events), t)
    ensures forall w :: AdmitWriter(w, s.attempts[t].branch) !in events
    ensures forall u: Ticket | u != t && EnterOwn(u, s.attempts[t].branch) in events ::
      LostItsHolder(Taken(s, poolSize, events), u, s.attempts[t].branch)
    decreases |events|
  {
    var branch := s.attempts[t].branch;
    if events != [] {
      var next := Step(s, poolSize, events[0]);
      ProtectedOrOver(s, poolSize, events[0], t);
      hide *;
      InvIsKept(s, poolSize, events[0]);
      StillProtected(s, poolSize, events, t);
      NoWriteEntersWhileProtected(next, poolSize, events[1..], t);
      NoAdmissionNow(s, poolSize, events[0], t);
      assert forall e | e in events :: e == events[0] || e in events[1..];
      forall u: Ticket | u != t && events[0] == EnterOwn(u, branch)
        ensures LostItsHolder(Taken(s, poolSize, events), u, branch)
      {
        LostForOneStep(s, poolSize, events[0], u, branch);
        LostForever(next, poolSize, events[1..], u, branch);
      }
    }
  }

  lemma NoAdmissionNow(s: State, poolSize: nat, e: Event, t: Ticket)
    requires Inv(s, poolSize) && Enabled(s, poolSize, e) && Protected(s, t)
    ensures t in s.attempts
    ensures forall w :: e != AdmitWriter(w, s.attempts[t].branch)
    ensures forall u: Ticket | u != t && e == EnterOwn(u, s.attempts[t].branch) ::
      LostItsHolder(s, u, s.attempts[t].branch)
  {
    ProtectedExcludes(s, poolSize, t);
  }

  lemma StillProtected(s: State, poolSize: nat, events: seq<Event>, t: Ticket)
    requires Inv(s, poolSize) && events != [] && CanTake(s, poolSize, events)
    requires Protected(s, t) && Protected(Taken(s, poolSize, events), t)
    ensures CanTake(Step(s, poolSize, events[0]), poolSize, events[1..])
    ensures Protected(Step(s, poolSize, events[0]), t)
    ensures Taken(s, poolSize, events) == Taken(Step(s, poolSize, events[0]), poolSize, events[1..])
  {
    var next := Step(s, poolSize, events[0]);
    ProtectedOrOver(s, poolSize, events[0], t);
    InvIsKept(s, poolSize, events[0]);
    if IsOver(next, t) {
      OverForever(next, poolSize, events[1..], t);
    }
  }

  // ---- Slots -------------------------------------------------------------------------------

  // Each escalation gives its slot back exactly once if it got one and is done, and never otherwise.
  lemma SlotGivenBackOnce(s: State, poolSize: nat, t: Ticket)
    requires Inv(s, poolSize)
    ensures t in s.released <==> InPhase(s, t, Done)
    ensures forall i, j | 0 <= i < |s.released| && 0 <= j < |s.released| && s.released[i] == t == s.released[j] ::
      i == j
    ensures InPhase(s, t, Refused) ==> t !in s.slots.holders && t !in s.released
  {
    assert Fits(ViewOf(s, t));
  }

  // When every escalation is over, all slots are free again.
  lemma AllSlotsComeBack(s: State, poolSize: nat)
    requires Inv(s, poolSize) && forall t: Ticket | t in s.attempts :: InPhase(s, t, Done) || InPhase(s, t, Refused)
    ensures s.slots.free == Capacity(poolSize) && s.slots.waiting == []
  {
    forall t: Ticket
      ensures t !in s.slots.holders && t !in s.slots.waiting
    {
      assert Fits(ViewOf(s, t));
    }
    assert s.slots.holders == {};
  }

  // ---- The pool ----------------------------------------------------------------------------

  // The connections of attempts that may still need a second one.
  function OwnConnections(s: State): set<Ticket> {
    set c | c in s.connections && c.Own? :: c.ticket
  }

  lemma {:induction false} SmallerSet(small: set<Ticket>, big: set<Ticket>)
    requires small <= big
    ensures |small| <= |big|
    decreases small
  {
    if small != {} {
      var t :| t in small;
      SmallerSet(small - {t}, big - {t});
    }
  }

  lemma OwnConnectionsHoldSlots(s: State, poolSize: nat)
    requires Inv(s, poolSize)
    ensures OwnConnections(s) <= s.slots.holders && |OwnConnections(s)| <= Capacity(poolSize)
  {
    forall t | t in OwnConnections(s)
      ensures t in s.slots.holders
    {
      assert Fits(ViewOf(s, t));
    }
    SmallerSet(OwnConnections(s), s.slots.holders);
  }

  lemma {:induction false} AllOwn(connections: set<Connection>, tickets: set<Ticket>)
    requires forall c | c in connections :: c.Own? && c.ticket in tickets
    ensures |connections| <= |tickets|
    decreases connections
  {
    if connections != {} {
      var c :| c in connections;
      assert forall d | d in connections - {c} :: d.ticket != c.ticket;
      AllOwn(connections - {c}, tickets - {c.ticket});
    }
  }

  // With at least two connections, escalations take at most half of the pool for themselves: some connection is
  // free or belongs to a holder or to other work, neither of which needs a further one.
  lemma PoolIsNeverExhausted(s: State, poolSize: nat)
    requires poolSize >= 2 && Inv(s, poolSize)
    ensures 2 * |OwnConnections(s)| <= poolSize
    ensures HasRoom(s, poolSize) || exists c :: c in s.connections && !c.Own?
  {
    OwnConnectionsHoldSlots(s, poolSize);
    if forall c | c in s.connections :: c.Own? {
      assert forall c | c in s.connections :: c.ticket in OwnConnections(s);
      AllOwn(s.connections, OwnConnections(s));
    }
  }

  lemma OneStep(s: State, poolSize: nat, e: Event, rest: seq<Event>)
    requires Enabled(s, poolSize, e) && CanTake(Step(s, poolSize, e), poolSize, rest)
    ensures CanTake(s, poolSize, [e] + rest)
    ensures Taken(s, poolSize, [e] + rest) == Taken(Step(s, poolSize, e), poolSize, rest)
  {
  }

  lemma NothingTaken(s: State, poolSize: nat)
    ensures CanTake(s, poolSize, []) && Taken(s, poolSize, []) == s
  {
  }

  // The state of one escalation that has its own connection and opens its holder.
  function Starved(): State {
    Start(1).(slots := Arrived(Initial(1)), attempts := map[0 := Attempt(0, Begun, Opening, false)],
              connections := {Own(0)})
  }

  lemma StepsToStarved()
    ensures Enabled(Start(1), 1, Arrive(0))
    ensures Enabled(Step(Start(1), 1, Arrive(0)), 1, Begin(0))
    ensures Enabled(Step(Step(Start(1), 1, Arrive(0)), 1, Begin(0)), 1, OpenHolder(0))
    ensures Step(Step(Step(Start(1), 1, Arrive(0)), 1, Begin(0)), 1, OpenHolder(0)) == Starved()
  {
  }

  // With a pool of one connection the only escalation waits for a connection that only its own end would free.
  lemma SingleConnectionStarves()
    ensures CanTake(Start(1), 1, [Arrive(0), Begin(0), OpenHolder(0)])
    ensures var s := Taken(Start(1), 1, [Arrive(0), Begin(0), OpenHolder(0)]);
      && WithHolder(s, 0, Opening) && !HasRoom(s, 1) && s.connections == {Own(0)}
      && !Enabled(s, 1, ConnectHolder(0)) && !Enabled(s, 1, EndAttempt(0))
  {
    hide *;
    StepsToStarved();
    NothingTaken(Starved(), 1);
    StarvedState();
    var one := Step(Start(1), 1, Arrive(0));
    assert [OpenHolder(0)] + [] == [OpenHolder(0)] && [Begin(0)] + [OpenHolder(0)] == [Begin(0), OpenHolder(0)];
    assert [Arrive(0)] + [Begin(0), OpenHolder(0)] == [Arrive(0), Begin(0), OpenHolder(0)];
    OneStep(Step(one, 1, Begin(0)), 1, OpenHolder(0), []);
    OneStep(one, 1, Begin(0), [OpenHolder(0)]);
    OneStep(Start(1), 1, Arrive(0), [Begin(0), OpenHolder(0)]);
  }

  lemma StarvedState()
    ensures WithHolder(Starved(), 0, Opening) && !HasRoom(Starved(), 1) && Starved().connections == {Own(0)}
    ensures !Enabled(Starved(), 1, ConnectHolder(0)) && !Enabled(Starved(), 1, EndAttempt(0))
  {
  }
}
