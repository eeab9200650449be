/** The counting semaphore of escalations: free slots, a queue in arrival order, hand-over on release, expiry. */
module EscalationSlots {
  import opened Wrappers

  const CONNECTIONS_PER_ESCALATION := 2

  const MIN_SLOTS := 1

  // Tickets number the escalations in the order in which they arrive.
  type Ticket = nat

  function Capacity(poolSize: nat): (slots: nat)
    ensures slots >= 1
    ensures poolSize >= 2 ==> 2 * slots <= poolSize < 2 * slots + 2
  {
    var half := poolSize / CONNECTIONS_PER_ESCALATION;
    if half < MIN_SLOTS then MIN_SLOTS else half
  }

  // ---- The semaphore as a value ------------------------------------------------------------

  // `holders` and `expired` only record what happened: who holds a slot and who gave up waiting.
  datatype Slots = Slots(free: nat, waiting: seq<Ticket>, next: Ticket, holders: set<Ticket>, expired: set<Ticket>)

  function Initial(capacity: nat): Slots {
    Slots(capacity, [], 0, {}, {})
  }

  function Arrived(s: Slots): Slots {
    if s.free > 0 then
      s.(free := s.free - 1, next := s.next + 1, holders := s.holders + {s.next})
    else
      s.(waiting := s.waiting + [s.next], next := s.next + 1)
  }

  function Released(s: Slots, ticket: Ticket): Slots {
    if s.waiting != [] then
      s.(waiting := s.waiting[1..], holders := s.holders - {ticket} + {s.waiting[0]})
    else
      s.(free := s.free + 1, holders := s.holders - {ticket})
  }

  function Without(waiting: seq<Ticket>, ticket: Ticket): (rest: seq<Ticket>)
    ensures ticket !in waiting ==> rest == waiting
  {
    if waiting == [] then []
    else if waiting[0] == ticket then waiting[1..]
    else [waiting[0]] + Without(waiting[1..], ticket)
  }

  function Expired(s: Slots, ticket: Ticket): Slots {
    s.(waiting := Without(s.waiting, ticket),
       expired := if ticket in s.waiting then s.expired + {ticket} else s.expired)
  }

  ghost predicate InArrivalOrder(waiting: seq<Ticket>) {
    forall i, j | 0 <= i < j < |waiting| :: waiting[i] < waiting[j]
  }

  ghost predicate Conserved(s: Slots, capacity: nat) {
    && s.free + |s.holders| == capacity
    && (s.free > 0 ==> s.waiting == [])
    && InArrivalOrder(s.waiting)
    && (forall t | t in s.waiting || t in s.holders || t in s.expired :: t < s.next)
    && (forall t | t in s.waiting :: t !in s.holders && t !in s.expired)
    && s.holders !! s.expired
  }

  // ---- The service -------------------------------------------------------------------------

  class EscalationSlots {
    var free: nat
    var waiting: seq<Ticket>
    ghost var next: Ticket
    ghost var holders: set<Ticket>
    ghost var expired: set<Ticket>

    ghost function Value(): Slots
      reads this
    {
      Slots(free, waiting, next, holders, expired)
    }

    constructor (poolSize: nat)
      ensures Value() == Initial(Capacity(poolSize))
    {
      var half := poolSize / CONNECTIONS_PER_ESCALATION;
      free := if half < MIN_SLOTS then MIN_SLOTS else half;
      waiting := [];
      next, holders, expired := 0, {}, {};
    }

    // Answers whether the slot was free; otherwise the caller waits for a hand-over or its expiry.
    method Acquire(ticket: Ticket) returns (granted: bool)
      requires ticket == next
      modifies this
      ensures Value() == Arrived(old(Value()))
      ensures granted == (old(free) > 0)
    {
      if free > 0 {
        free := free - 1;
        holders := holders + {ticket};
        granted := true;
      } else {
        waiting := waiting + [ticket];
        granted := false;
      }
      next := next + 1;
    }

    method Release(ghost ticket: Ticket) returns (handedTo: Option<Ticket>)
      modifies this
      ensures Value() == Released(old(Value()), ticket)
      ensures handedTo == (if old(waiting) != [] then Some(old(waiting)[0]) else None)
    {
      holders := holders - {ticket};
      if waiting != [] {
        handedTo := Some(waiting[0]);
        holders := holders + {waiting[0]};
        waiting := waiting[1..];
        return;
      }
      free := free + 1;
      handedTo := None;
    }

    method StopWaiting(ticket: Ticket)
      modifies this
      ensures Value() == Expired(old(Value()), ticket)
    {
      if ticket in waiting {
        expired := expired + {ticket};
      }
      var index := IndexOf(ticket);
      if index < |waiting| {
        WithoutIsSplice(waiting, ticket, index);
        waiting := waiting[..index] + waiting[index + 1..];
      }
    }

    // The length of the queue stands for "not found".
    method IndexOf(ticket: Ticket) returns (index: nat)
      ensures index <= |waiting|
      ensures ticket !in waiting[..index]
      ensures index < |waiting| ==> waiting[index] == ticket
    {
      index := 0;
      while index < |waiting| && waiting[index] != ticket
        invariant index <= |waiting|
        invariant ticket !in waiting[..index]
      {
        index := index + 1;
      }
    }
  }

  lemma {:induction false} WithoutIsSplice(waiting: seq<Ticket>, ticket: Ticket, index: nat)
    requires index < |waiting| && waiting[index] == ticket && ticket !in waiting[..index]
    ensures Without(waiting, ticket) == waiting[..index] + waiting[index + 1..]
  {
    if index > 0 {
      assert waiting[0] == waiting[..index][0];
      assert waiting[1..][..index - 1] == waiting[..index][1..];
      WithoutIsSplice(waiting[1..], ticket, index - 1);
    }
  }

  // ---- What every step keeps ---------------------------------------------------------------

  lemma {:induction false} WithoutRemoves(waiting: seq<Ticket>, ticket: Ticket)
    requires InArrivalOrder(waiting)
    ensures forall t :: t in Without(waiting, ticket) <==> t in waiting && t != ticket
  {
    if waiting != [] {
      assert forall t | t in waiting[1..] :: waiting[0] < t;
      assert InArrivalOrder(waiting[1..]);
      WithoutRemoves(waiting[1..], ticket);
      assert forall t :: t in waiting <==> t == waiting[0] || t in waiting[1..];
    }
  }

  lemma FirstThenRest(first: Ticket, rest: seq<Ticket>)
    requires InArrivalOrder(rest) && forall t | t in rest :: first < t
    ensures InArrivalOrder([first] + rest)
  {
    assert forall i | 0 <= i < |rest| :: rest[i] in rest;
  }

  lemma {:induction false} WithoutKeepsOrder(waiting: seq<Ticket>, ticket: Ticket)
    requires InArrivalOrder(waiting)
    ensures InArrivalOrder(Without(waiting, ticket))
  {
    if waiting != [] {
      assert forall t | t in waiting[1..] :: waiting[0] < t;
      WithoutKeepsOrder(waiting[1..], ticket);
      WithoutRemoves(waiting[1..], ticket);
      FirstThenRest(waiting[0], Without(waiting[1..], ticket));
    }
  }

  lemma ArrivalConserves(s: Slots, capacity: nat)
    requires Conserved(s, capacity)
    ensures Conserved(Arrived(s), capacity)
  {
    assert forall i | 0 <= i < |s.waiting| :: s.waiting[i] in s.waiting;
  }

  // The slot goes to whoever arrived first among those still waiting; expired ones are not among them.
  lemma ReleaseConserves(s: Slots, capacity: nat, ticket: Ticket)
    requires Conserved(s, capacity) && ticket in s.holders
    ensures Conserved(Released(s, ticket), capacity)
    ensures forall t | t in Released(s, ticket).holders && t !in s.holders ::
      && t in s.waiting && t !in s.expired
      && (forall u | u in Released(s, ticket).waiting :: t < u)
    ensures s.waiting != [] ==> Released(s, ticket).free == s.free
  {
    if s.waiting != [] {
      assert |s.holders - {ticket} + {s.waiting[0]}| == |s.holders|;
    }
  }

  lemma ExpiryConserves(s: Slots, capacity: nat, ticket: Ticket)
    requires Conserved(s, capacity)
    ensures Conserved(Expired(s, ticket), capacity)
    ensures Expired(s, ticket).holders == s.holders && ticket !in Expired(s, ticket).waiting
  {
    WithoutKeepsOrder(s.waiting, ticket);
    WithoutRemoves(s.waiting, ticket);
  }

  // ---- Runs --------------------------------------------------------------------------------

  datatype SlotEvent = Arrival | Release(ticket: Ticket) | Expiry(ticket: Ticket)

  // Only who holds a slot releases it.
  ghost predicate CanHappen(s: Slots, e: SlotEvent) {
    e.Release? ==> e.ticket in s.holders
  }

  ghost function Happened(s: Slots, e: SlotEvent): Slots {
    match e
    case Arrival => Arrived(s)
    case Release(ticket) => Released(s, ticket)
    case Expiry(ticket) => Expired(s, ticket)
  }

  ghost predicate CanRun(s: Slots, events: seq<SlotEvent>)
    decreases |events|
  {
    events == [] || (CanHappen(s, events[0]) && CanRun(Happened(s, events[0]), events[1..]))
  }

  ghost function After(s: Slots, events: seq<SlotEvent>): Slots
    decreases |events|
  {
    if events == [] then s else After(Happened(s, events[0]), events[1..])
  }

  // In every reachable state held and free slots add up to the capacity, slots are free only while nobody waits,
  // and whoever expired in the past holds no slot, now or later.
  lemma {:induction false} SlotsAreConserved(s: Slots, capacity: nat, events: seq<SlotEvent>)
    requires Conserved(s, capacity) && CanRun(s, events)
    ensures Conserved(After(s, events), capacity)
    ensures s.expired <= After(s, events).expired
    ensures After(s, events).holders !! s.expired
    decreases |events|
  {
    if events != [] {
      match events[0] {
        case Arrival => ArrivalConserves(s, capacity);
        case Release(ticket) => ReleaseConserves(s, capacity, ticket);
        case Expiry(ticket) => ExpiryConserves(s, capacity, ticket);
      }
      SlotsAreConserved(Happened(s, events[0]), capacity, events[1..]);
    }
  }

  // While two escalations both wait, the one that arrived first stays in front of the other over any run.
  lemma {:induction false} FirstComeFirstServed(s: Slots, capacity: nat, events: seq<SlotEvent>, t: Ticket, u: Ticket)
    requires Conserved(s, capacity) && CanRun(s, events)
    requires t < u && t in s.waiting && t in After(s, events).waiting && u !in s.holders
    ensures u !in After(s, events).holders
    decreases |events|
  {
    if events != [] {
      SlotsAreConserved(Happened(s, events[0]), capacity, []) by {
        match events[0] {
          case Arrival => ArrivalConserves(s, capacity);
          case Release(ticket) => ReleaseConserves(s, capacity, ticket);
          case Expiry(ticket) => ExpiryConserves(s, capacity, ticket);
        }
      }
      StillWaiting(Happened(s, events[0]), capacity, events[1..], t);
      FirstComeFirstServed(Happened(s, events[0]), capacity, events[1..], t, u);
    }
  }

  // Nobody joins the queue a second time.
  lemma {:induction false} StillWaiting(s: Slots, capacity: nat, events: seq<SlotEvent>, t: Ticket)
    requires Conserved(s, capacity) && CanRun(s, events)
    requires t < s.next && t in After(s, events).waiting
    ensures t in s.waiting
    decreases |events|
  {
    if events != [] {
      match events[0] {
        case Arrival => ArrivalConserves(s, capacity);
        case Release(ticket) => ReleaseConserves(s, capacity, ticket);
        case Expiry(ticket) =>
          ExpiryConserves(s, capacity, ticket);
          WithoutRemoves(s.waiting, ticket);
      }
      StillWaiting(Happened(s, events[0]), capacity, events[1..], t);
    }
  }
}
