/** What holds in every interleaving of the fence protocol. */
module FenceProperties {
  import opened EscalationSlots
  import opened FenceProtocol

  // ---- The invariant is kept, one group of steps at a time ---------------------------------

  predicate IsSlotEvent(e: Event) {
    e.Arrive? || e.GiveUpQueueing? || e.GiveSlotBack?
  }

  predicate IsAttemptEvent(e: Event) {
    e.Begin? || e.TakeSnapshot? || e.EnterOwn? || e.EndAttempt?
  }

  predicate IsHolderEvent(e: Event) {
    e.OpenHolder? || e.ConnectHolder? || e.LockHolder? || e.FailHolder? || e.EndHolder?
  }

  predicate IsWriterEvent(e: Event) {
    e.BeginWriter? || e.AdmitWriter? || e.EndWriter?
  }

  // The escalations whose view a step can change.
  predicate Concerns(s: State, e: Event, t: Ticket) {
    match e
    case Arrive(_) => t == s.slots.next
    case GiveSlotBack(u) => t == u || (s.slots.waiting != [] && t == s.slots.waiting[0])
    case BeginWriter(_) => false
    case AdmitWriter(_, _) => false
    case EndWriter(_) => false
    case _ => t == e.ticket
  }

  ghost predicate OthersStay(s: State, poolSize: nat, e: Event)
    requires Enabled(s, poolSize, e)
  {
    forall u: Ticket | !Concerns(s, e, u) :: ViewOf(Step(s, poolSize, e), u) == ViewOf(s, u)
  }

  lemma SlotEventsKeepViews(s: State, poolSize: nat, e: Event)
    requires Inv(s, poolSize) && Enabled(s, poolSize, e) && IsSlotEvent(e)
    ensures OthersStay(s, poolSize, e)
  {
    if e.GiveUpQueueing? {
      WithoutRemoves(s.slots.waiting, e.ticket);
    }
  }

  lemma ConcernedFit(s: State, poolSize: nat, e: Event)
    requires AllFit(s) && Enabled(s, poolSize, e) && OthersStay(s, poolSize, e)
    requires forall t: Ticket | Concerns(s, e, t) :: Fits(ViewOf(Step(s, poolSize, e), t))
    ensures AllFit(Step(s, poolSize, e))
  {
  }

  lemma ArrivalFits(s: State, poolSize: nat, branch: Branch)
    requires Inv(s, poolSize)
    ensures Fits(ViewOf(Step(s, poolSize, Arrive(branch)), s.slots.next))
  {
    assert Fits(ViewOf(s, s.slots.next));
  }

  lemma RefusalFits(s: State, poolSize: nat, t: Ticket)
    requires Inv(s, poolSize) && Enabled(s, poolSize, GiveUpQueueing(t))
    ensures Fits(ViewOf(Step(s, poolSize, GiveUpQueueing(t)), t))
  {
    WithoutRemoves(s.slots.waiting, t);
    assert Fits(ViewOf(s, t));
  }

  lemma GivenBackFits(s: State, poolSize: nat, t: Ticket)
    requires Inv(s, poolSize) && Enabled(s, poolSize, GiveSlotBack(t))
    ensures Fits(ViewOf(Step(s, poolSize, GiveSlotBack(t)), t))
  {
    assert Fits(ViewOf(s, t));
  }

  lemma SlotEventsFit(s: State, poolSize: nat, e: Event)
    requires Inv(s, poolSize) && Enabled(s, poolSize, e) && IsSlotEvent(e) && OthersStay(s, poolSize, e)
    ensures AllFit(Step(s, poolSize, e))
  {
    hide Step, Fits, ViewOf, OthersStay, LocksFit, ResourcesFit, AllFit;
    forall t: Ticket | Concerns(s, e, t)
      ensures Fits(ViewOf(Step(s, poolSize, e), t))
    {
      match e {
        case Arrive(branch) => ArrivalFits(s, poolSize, branch);
        case GiveUpQueueing(u) => RefusalFits(s, poolSize, u);
        case GiveSlotBack(u) =>
          if t == u {
            GivenBackFits(s, poolSize, u);
          } else {
            HandOverFits(s, poolSize, u);
          }
      }
    }
    ConcernedFit(s, poolSize, e);
  }

  lemma HandOverFits(s: State, poolSize: nat, t: Ticket)
    requires Inv(s, poolSize) && Enabled(s, poolSize, GiveSlotBack(t)) && s.slots.waiting != []
    ensures var u := s.slots.waiting[0];
      u != t && u in s.attempts && Fits(ViewOf(Step(s, poolSize, GiveSlotBack(t)), u))
  {
    var u := s.slots.waiting[0];
    assert Fits(ViewOf(s, u)) && Fits(ViewOf(s, t));
  }

  lemma AttemptEventsKeepViews(s: State, poolSize: nat, e: Event)
    requires Inv(s, poolSize) && Enabled(s, poolSize, e) && IsAttemptEvent(e)
    ensures OthersStay(s, poolSize, e)
  {
  }

  lemma AttemptEventsFit(s: State, poolSize: nat, e: Event)
    requires Inv(s, poolSize) && Enabled(s, poolSize, e) && IsAttemptEvent(e) && OthersStay(s, poolSize, e)
    ensures AllFit(Step(s, poolSize, e))
  {
    assert Fits(ViewOf(s, e.ticket));
    assert Fits(ViewOf(Step(s, poolSize, e), e.ticket));
  }

  lemma HolderEventsKeepViews(s: State, poolSize: nat, e: Event)
    requires Inv(s, poolSize) && Enabled(s, poolSize, e) && IsHolderEvent(e)
    ensures OthersStay(s, poolSize, e)
  {
    assert Fits(ViewOf(s, e.ticket));
    hide Inv, SharedOn;
    forall u: Ticket | !Concerns(s, e, u)
      ensures ViewOf(Step(s, poolSize, e), u) == ViewOf(s, u)
    {
      OneViewStays(s, poolSize, e, u);
    }
  }

  lemma OneViewStays(s: State, poolSize: nat, e: Event, u: Ticket)
    requires Enabled(s, poolSize, e) && IsHolderEvent(e) && Fits(ViewOf(s, e.ticket)) && u != e.ticket
    ensures ViewOf(Step(s, poolSize, e), u) == ViewOf(s, u)
  {
    hide SharedOn;
  }

  lemma HolderEventsFit(s: State, poolSize: nat, e: Event)
    requires Inv(s, poolSize) && Enabled(s, poolSize, e) && IsHolderEvent(e) && OthersStay(s, poolSize, e)
    ensures AllFit(Step(s, poolSize, e))
  {
    assert Fits(ViewOf(s, e.ticket));
    assert Fits(ViewOf(Step(s, poolSize, e), e.ticket));
  }

  lemma WriterEventsFit(s: State, poolSize: nat, e: Event)
    requires Inv(s, poolSize) && Enabled(s, poolSize, e) && IsWriterEvent(e)
    ensures AllFit(Step(s, poolSize, e))
  {
    forall t: Ticket
      ensures ViewOf(Step(s, poolSize, e), t) == ViewOf(s, t) && Fits(ViewOf(s, t))
    {
    }
  }

  lemma SlotEventsKeepLocks(s: State, poolSize: nat, e: Event)
    requires Inv(s, poolSize) && Enabled(s, poolSize, e) && IsSlotEvent(e)
    ensures LocksFit(Step(s, poolSize, e))
  {
    hide Conserved;
    match e {
      case Arrive(_) =>
        assert Fits(ViewOf(s, s.slots.next));
      case GiveUpQueueing(t) =>
        assert Fits(ViewOf(s, t));
      case GiveSlotBack(t) =>
        assert Fits(ViewOf(s, t));
        if s.slots.waiting != [] {
          assert Fits(ViewOf(s, s.slots.waiting[0]));
        }
    }
  }

  lemma AttemptEventsKeepLocks(s: State, poolSize: nat, e: Event)
    requires Inv(s, poolSize) && Enabled(s, poolSize, e) && IsAttemptEvent(e)
    ensures LocksFit(Step(s, poolSize, e))
  {
    hide Conserved;
    assert Fits(ViewOf(s, e.ticket));
    if e.EndAttempt? {
      EndKeepsLocks(s, poolSize, e.ticket);
    }
  }

  lemma EndKeepsLocks(s: State, poolSize: nat, t: Ticket)
    requires Inv(s, poolSize) && Enabled(s, poolSize, EndAttempt(t))
    ensures LocksFit(Step(s, poolSize, EndAttempt(t)))
  {
    assert Fits(ViewOf(s, t));
    hide AllFit, ResourcesFit;
  }

  lemma HolderEventsKeepLocks(s: State, poolSize: nat, e: Event)
    requires Inv(s, poolSize) && Enabled(s, poolSize, e) && IsHolderEvent(e)
    ensures LocksFit(Step(s, poolSize, e))
  {
    assert Fits(ViewOf(s, e.ticket));
  }

  lemma WriterEventsKeepLocks(s: State, poolSize: nat, e: Event)
    requires Inv(s, poolSize) && Enabled(s, poolSize, e) && IsWriterEvent(e)
    ensures LocksFit(Step(s, poolSize, e))
  {
  }

  lemma SlotsConserved(s: State, poolSize: nat, e: Event)
    requires Inv(s, poolSize) && Enabled(s, poolSize, e) && IsSlotEvent(e)
    ensures Conserved(Step(s, poolSize, e).slots, Capacity(poolSize))
  {
    match e {
      case Arrive(_) => ArrivalConserves(s.slots, Capacity(poolSize));
      case GiveUpQueueing(t) => ExpiryConserves(s.slots, Capacity(poolSize), t);
      case GiveSlotBack(t) =>
        assert Fits(ViewOf(s, t));
        ReleaseConserves(s.slots, Capacity(poolSize), t);
    }
  }

  lemma TicketsStay(s: State, poolSize: nat, e: Event)
    requires Inv(s, poolSize) && Enabled(s, poolSize, e) && IsSlotEvent(e)
    ensures forall t: Ticket :: t in Step(s, poolSize, e).attempts <==> t < Step(s, poolSize, e).slots.next
    ensures Step(s, poolSize, e).connections == s.connections
  {
    hide AllFit, LocksFit, Conserved;
    assert forall t :: Released(s.slots, t).next == s.slots.next && Expired(s.slots, t).next == s.slots.next;
  }

  lemma ReleasesStayDistinct(s: State, poolSize: nat, e: Event)
    requires Inv(s, poolSize) && Enabled(s, poolSize, e) && IsSlotEvent(e)
    ensures var released := Step(s, poolSize, e).released;
      forall i, j | 0 <= i < j < |released| :: released[i] != released[j]
  {
    if e.GiveSlotBack? {
      assert Fits(ViewOf(s, e.ticket));
      assert e.ticket !in s.released;
    }
    hide AllFit, LocksFit, Conserved;
  }

  lemma SlotEventsKeepResources(s: State, poolSize: nat, e: Event)
    requires Inv(s, poolSize) && Enabled(s, poolSize, e) && IsSlotEvent(e)
    ensures ResourcesFit(Step(s, poolSize, e), poolSize)
  {
    SlotsConserved(s, poolSize, e);
    TicketsStay(s, poolSize, e);
    ReleasesStayDistinct(s, poolSize, e);
    hide Step, AllFit, LocksFit, Conserved, Enabled;
  }

  lemma ConnectionsStayBounded(s: State, poolSize: nat, e: Event)
    requires |s.connections| <= poolSize && Enabled(s, poolSize, e) && !IsSlotEvent(e)
    ensures |Step(s, poolSize, e).connections| <= poolSize
  {
  }

  lemma OtherEventsKeepResources(s: State, poolSize: nat, e: Event)
    requires Inv(s, poolSize) && Enabled(s, poolSize, e) && !IsSlotEvent(e)
    ensures ResourcesFit(Step(s, poolSize, e), poolSize)
  {
    ConnectionsStayBounded(s, poolSize, e);
    OtherEventsKeepSlots(s, poolSize, e);
    hide Step, AllFit, LocksFit, Conserved, Enabled;
  }

  lemma OtherEventsKeepSlots(s: State, poolSize: nat, e: Event)
    requires Enabled(s, poolSize, e) && !IsSlotEvent(e)
    ensures Step(s, poolSize, e).slots == s.slots && Step(s, poolSize, e).released == s.released
    ensures Step(s, poolSize, e).attempts.Keys == s.attempts.Keys
  {
  }

  lemma InvIsKept(s: State, poolSize: nat, e: Event)
    requires Inv(s, poolSize) && Enabled(s, poolSize, e)
    ensures Inv(Step(s, poolSize, e), poolSize)
  {
    hide Inv, Enabled, Step, OthersStay;
    if IsSlotEvent(e) {
      SlotEventsKeepResources(s, poolSize, e);
      SlotEventsKeepViews(s, poolSize, e);
      SlotEventsFit(s, poolSize, e);
      SlotEventsKeepLocks(s, poolSize, e);
    } else if IsAttemptEvent(e) {
      OtherEventsKeepResources(s, poolSize, e);
      AttemptEventsKeepViews(s, poolSize, e);
      AttemptEventsFit(s, poolSize, e);
      AttemptEventsKeepLocks(s, poolSize, e);
    } else if IsHolderEvent(e) {
      OtherEventsKeepResources(s, poolSize, e);
      HolderEventsKeepViews(s, poolSize, e);
      HolderEventsFit(s, poolSize, e);
      HolderEventsKeepLocks(s, poolSize, e);
    } else {
      OtherEventsKeepResources(s, poolSize, e);
      WriterEventsFit(s, poolSize, e);
      WriterEventsKeepLocks(s, poolSize, e);
    }
    AllPartsFit(Step(s, poolSize, e), poolSize);
  }

  lemma AllPartsFit(s: State, poolSize: nat)
    requires AllFit(s) && LocksFit(s) && ResourcesFit(s, poolSize)
    ensures Inv(s, poolSize)
  {
  }

  // The protocol starts well, whatever the size of the pool.
  lemma StartFits(poolSize: nat)
    ensures Inv(Start(poolSize), poolSize)
  {
  }
}
