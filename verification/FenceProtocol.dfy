/** The branch write fence and its escalation as interleaved steps: shared writers, escalated attempts with an own
  * connection and an exclusive holder on a second one, advisory locks per branch, slots and the connection pool. */
module FenceProtocol {
  import opened Wrappers
  import opened EscalationSlots

  type Branch = nat

  // Work that takes one connection and no other: a shared write, or any query that enters no fence.
  type Writer = nat

  // Queued for a slot; with a slot; own transaction begun; after its first statement; ended; slot given back.
  datatype Phase = Queued | Slotted | Begun | Writing | Ended | Done | Refused

  datatype Holder = NoHolder | Opening | Requesting | Holding | Closed

  datatype Attempt = Attempt(branch: Branch, phase: Phase, holder: Holder, timedOut: bool)

  datatype Who = ByWriter(writer: Writer) | ByAttempt(ticket: Ticket)

  datatype SharedLock = SharedLock(who: Who, branch: Branch)

  datatype Connection = Own(ticket: Ticket) | OfHolder(ticket: Ticket) | OfWriter(writer: Writer)

  datatype State = State(
    slots: Slots, attempts: map<Ticket, Attempt>, connections: set<Connection>,
    shared: set<SharedLock>, exclusive: map<Branch, Ticket>, released: seq<Ticket>)

  function Start(poolSize: nat): State {
    State(Initial(Capacity(poolSize)), map[], {}, {}, map[], [])
  }

  // ---- Admission ---------------------------------------------------------------------------

  // What entering the fence for a revision does: nothing under the attempt's own holder, else a shared lock.
  datatype Entry = Admitted | NeedsSharedLock(branch: Branch)

  function EnterShared(exclusiveHeldBranch: Option<Branch>, branchOfRevision: Branch): Entry {
    if exclusiveHeldBranch == Some(branchOfRevision) then Admitted else NeedsSharedLock(branchOfRevision)
  }

  // An entry waits while another session holds the branch exclusively.
  predicate EntryWaits(s: State, entry: Entry) {
    entry.NeedsSharedLock? && entry.branch in s.exclusive
  }

  predicate SharedOn(s: State, branch: Branch) {
    exists l :: l in s.shared && l.branch == branch
  }

  // ---- Steps -------------------------------------------------------------------------------

  datatype Event =
    | Arrive(branch: Branch)
    | GiveUpQueueing(ticket: Ticket)
    | Begin(ticket: Ticket)
    | OpenHolder(ticket: Ticket)
    | ConnectHolder(ticket: Ticket)
    | LockHolder(ticket: Ticket)
    | FailHolder(ticket: Ticket)
    | TakeSnapshot(ticket: Ticket)
    | EnterOwn(ticket: Ticket, branch: Branch)
    | EndAttempt(ticket: Ticket)
    | EndHolder(ticket: Ticket, timedOut: bool)
    | GiveSlotBack(ticket: Ticket)
    | BeginWriter(writer: Writer)
    | AdmitWriter(writer: Writer, branch: Branch)
    | EndWriter(writer: Writer)

  predicate InPhase(s: State, t: Ticket, phase: Phase) {
    t in s.attempts && s.attempts[t].phase == phase
  }

  predicate WithHolder(s: State, t: Ticket, holder: Holder) {
    t in s.attempts && s.attempts[t].holder == holder
  }

  predicate HasRoom(s: State, poolSize: nat) {
    |s.connections| < poolSize
  }

  predicate Enabled(s: State, poolSize: nat, e: Event) {
    match e
    case Arrive(_) => true
    case GiveUpQueueing(t) => InPhase(s, t, Queued)
    case Begin(t) => InPhase(s, t, Slotted) && HasRoom(s, poolSize)
    case OpenHolder(t) => InPhase(s, t, Begun) && WithHolder(s, t, NoHolder)
    case ConnectHolder(t) => WithHolder(s, t, Opening) && HasRoom(s, poolSize)
    case LockHolder(t) =>
      WithHolder(s, t, Requesting) && s.attempts[t].branch !in s.exclusive && !SharedOn(s, s.attempts[t].branch)
    case FailHolder(t) => WithHolder(s, t, Opening) || WithHolder(s, t, Requesting)
    case TakeSnapshot(t) => InPhase(s, t, Begun) && (WithHolder(s, t, Holding) || s.attempts[t].timedOut)
    case EnterOwn(t, branch) =>
      InPhase(s, t, Writing) && !EntryWaits(s, EnterShared(Some(s.attempts[t].branch), branch))
    case EndAttempt(t) =>
      && (InPhase(s, t, Slotted) || InPhase(s, t, Begun) || InPhase(s, t, Writing))
      && !WithHolder(s, t, Opening) && !WithHolder(s, t, Requesting)
    case EndHolder(t, timedOut) => WithHolder(s, t, Holding) && (timedOut || InPhase(s, t, Ended))
    case GiveSlotBack(t) => InPhase(s, t, Ended) && (WithHolder(s, t, NoHolder) || WithHolder(s, t, Closed))
    case BeginWriter(w) => OfWriter(w) !in s.connections && HasRoom(s, poolSize)
    case AdmitWriter(w, branch) => OfWriter(w) in s.connections && !EntryWaits(s, EnterShared(None, branch))
    case EndWriter(w) => OfWriter(w) in s.connections
  }

  function WithAttempt(s: State, t: Ticket, attempt: Attempt): State {
    s.(attempts := s.attempts[t := attempt])
  }

  function WithPhase(s: State, t: Ticket, phase: Phase): State
    requires t in s.attempts
  {
    WithAttempt(s, t, s.attempts[t].(phase := phase))
  }

  function HolderIn(s: State, t: Ticket, holder: Holder): State
    requires t in s.attempts
  {
    WithAttempt(s, t, s.attempts[t].(holder := holder))
  }

  function WithoutShared(shared: set<SharedLock>, who: Who): set<SharedLock> {
    set l | l in shared && l.who != who
  }

  // The end of the holder's transaction: its lock and its connection are free again.
  function HolderEnded(s: State, t: Ticket): State
    requires t in s.attempts
  {
    HolderIn(s.(exclusive := s.exclusive - {s.attempts[t].branch}, connections := s.connections - {OfHolder(t)}),
             t, Closed)
  }

  function Step(s: State, poolSize: nat, e: Event): State
    requires Enabled(s, poolSize, e)
  {
    match e
    case Arrive(branch) =>
      var phase := if s.slots.free > 0 then Slotted else Queued;
      WithAttempt(s.(slots := Arrived(s.slots)), s.slots.next, Attempt(branch, phase, NoHolder, false))
    case GiveUpQueueing(t) => WithPhase(s.(slots := Expired(s.slots, t)), t, Refused)
    case Begin(t) => WithPhase(s.(connections := s.connections + {Own(t)}), t, Begun)
    case OpenHolder(t) => HolderIn(s, t, Opening)
    case ConnectHolder(t) => HolderIn(s.(connections := s.connections + {OfHolder(t)}), t, Requesting)
    case LockHolder(t) => HolderIn(s.(exclusive := s.exclusive[s.attempts[t].branch := t]), t, Holding)
    case FailHolder(t) => HolderIn(s.(connections := s.connections - {OfHolder(t)}), t, Closed)
    case TakeSnapshot(t) => WithPhase(s, t, Writing)
    case EnterOwn(t, branch) =>
      if EnterShared(Some(s.attempts[t].branch), branch) == Admitted then s
      else s.(shared := s.shared + {SharedLock(ByAttempt(t), branch)})
    case EndAttempt(t) =>
      WithPhase(s.(connections := s.connections - {Own(t)}, shared := WithoutShared(s.shared, ByAttempt(t))), t, Ended)
    case EndHolder(t, timedOut) =>
      var ended := HolderEnded(s, t);
      WithAttempt(ended, t, ended.attempts[t].(timedOut := timedOut))
    case GiveSlotBack(t) =>
      var slots := Released(s.slots, t);
      var handed := if s.slots.waiting != [] && s.slots.waiting[0] in s.attempts
                    then WithPhase(s, s.slots.waiting[0], Slotted) else s;
      WithAttempt(handed.(slots := slots, released := s.released + [t]), t, s.attempts[t].(phase := Done))
    case BeginWriter(w) => s.(connections := s.connections + {OfWriter(w)})
    case AdmitWriter(w, branch) => s.(shared := s.shared + {SharedLock(ByWriter(w), branch)})
    case EndWriter(w) =>
      s.(connections := s.connections - {OfWriter(w)}, shared := WithoutShared(s.shared, ByWriter(w)))
  }

  // ---- The invariant -----------------------------------------------------------------------

  predicate IsActive(phase: Phase) {
    phase == Slotted || phase == Begun || phase == Writing || phase == Ended
  }

  predicate OwnsTransaction(phase: Phase) {
    phase == Begun || phase == Writing
  }

  // What the state says of one escalation.
  datatype View = View(
    attempt: Option<Attempt>, own: bool, second: bool, locked: bool, holdsSlot: bool, waits: bool, done: bool)

  ghost function ViewOf(s: State, t: Ticket): View {
    View(if t in s.attempts then Some(s.attempts[t]) else None,
         Own(t) in s.connections, OfHolder(t) in s.connections,
         t in s.attempts && s.attempts[t].branch in s.exclusive && s.exclusive[s.attempts[t].branch] == t,
         t in s.slots.holders, t in s.slots.waiting, t in s.released)
  }

  // Its connections, lock and slot match its phase; it writes under its holder, which only a timeout ends earlier.
  predicate Fits(v: View) {
    match v.attempt
    case None => !v.own && !v.second && !v.locked && !v.holdsSlot && !v.waits && !v.done
    case Some(Attempt(_, phase, holder, timedOut)) =>
      && (v.own <==> OwnsTransaction(phase))
      && (v.second <==> holder == Requesting || holder == Holding)
      && (v.locked <==> holder == Holding)
      && (v.holdsSlot <==> IsActive(phase))
      && (v.waits <==> phase == Queued)
      && (v.done <==> phase == Done)
      && (phase == Writing ==> holder == Holding || timedOut)
      && (timedOut ==> holder == Closed)
      && (holder == Opening || holder == Requesting ==> phase == Begun)
      && (holder == Holding ==> OwnsTransaction(phase) || phase == Ended)
      && (phase == Queued || phase == Slotted || phase == Refused ==> holder == NoHolder)
  }

  ghost predicate AllFit(s: State) {
    forall t: Ticket {:trigger ViewOf(s, t)} :: Fits(ViewOf(s, t))
  }

  // Nobody shares a branch that is held exclusively, and no attempt shares its own branch.
  ghost predicate LocksFit(s: State) {
    && (forall b | b in s.exclusive :: s.exclusive[b] in s.attempts && s.attempts[s.exclusive[b]].branch == b)
    && (forall l | l in s.shared :: l.branch !in s.exclusive)
    && (forall l | l in s.shared && l.who.ByAttempt? ::
          InPhase(s, l.who.ticket, Writing) && s.attempts[l.who.ticket].branch != l.branch)
    && (forall l | l in s.shared && l.who.ByWriter? :: OfWriter(l.who.writer) in s.connections)
  }

  ghost predicate ResourcesFit(s: State, poolSize: nat) {
    && |s.connections| <= poolSize
    && Conserved(s.slots, Capacity(poolSize))
    && (forall t: Ticket :: t in s.attempts <==> t < s.slots.next)
    && (forall i, j | 0 <= i < j < |s.released| :: s.released[i] != s.released[j])
  }

  ghost predicate Inv(s: State, poolSize: nat) {
    AllFit(s) && LocksFit(s) && ResourcesFit(s, poolSize)
  }
}
