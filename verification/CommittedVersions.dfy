/** All writes of the version store as events, and what holds over every run of them: everything committed stays
  * committed, readonly and unchanged, and each branch keeps one Head, one Draft and one line. Runs in which every
  * removal and every plan fits also keep one version per table and an exact flag. */
module CommittedVersions {
  import opened Wrappers
  import opened VersionStore
  import opened StoreShape
  import opened DraftWrites
  import opened DraftWriteEffects
  import opened DraftRemovals
  import opened RevertByPublicId
  import opened NativeCommit
  import opened TargetPlans
  import opened TargetCommit
  import opened TargetCommitProperties
  import opened TargetRevert
  import opened TargetRevertProperties
  import opened Branching
  import opened Cleanup

  datatype Event =
    | TableCreated(draft: Id, id: string, system: bool, createdAt: int)
    | TableRenamed(draft: Id, table: Id, id: string)
    | RowsCreated(draft: Id, table: Id, newRows: seq<RowColumns>)
    | RowUpdated(draft: Id, table: Id, row: Id, columns: RowColumns)
    | RowsRemoved(draft: Id, table: Id, rows: set<Id>, named: Option<Id>)
    | TableRemoved(draft: Id, table: Id)
    | DraftReverted(draft: Id)
    | DraftCommitted(head: Id, draft: Id)
    | PartCommitted(head: Id, draft: Id, plans: seq<TablePlan>)
    | PartReverted(head: Id, draft: Id, plans: seq<TablePlan>)
    | BranchOpened(source: Id)
    | OrphansCleaned

  ghost predicate Admissible(db: Db, e: Event) {
    match e
    case TableCreated(d, _, _, _) => IsDraft(db, d)
    case TableRenamed(d, t, _) => InDraft(db, d, t)
    case RowsCreated(d, t, _) => InDraft(db, d, t)
    case RowUpdated(d, t, x, _) => InDraft(db, d, t) && RowLink(x, t) in db.rowLinks
    case RowsRemoved(d, t, rows, named) => CanRemoveRows(db, d, t, rows, named)
    case TableRemoved(d, t) => InDraft(db, d, t)
    case DraftReverted(d) => IsDraft(db, d) && db.revisions[d].hasChanges
    case DraftCommitted(h, d) => ReadyToCommit(db, h, d) && db.revisions[d].hasChanges
    case PartCommitted(h, d, plans) => CommitPlansFit(db, h, d, plans)
    case PartReverted(h, d, plans) => RevertPlansFit(db, h, d, plans)
    case BranchOpened(source) => source in db.revisions && !db.revisions[source].isDraft
    case OrphansCleaned => true
  }

  // Removing rows where going back to Head's table of that name gives no table twice.
  ghost predicate RemovalFits(db: Db, d: Id, t: Id, rows: set<Id>, named: Option<Id>)
    requires CanRemoveRows(db, d, t, rows, named)
  {
    RowsGoneIsOpened(db, d, t, rows, named);
    var b, v := RowsGone(db, d, t, rows), TouchedTable(db, t);
    assert LinksExist(b) && b.revisions[d].parent.Some?;
    Reverts(b, d, v, named) ==> FitsDraft(b, d, v, named.value)
  }

  // The events that leave at most one version of each table in a revision: all but some removals and some plans.
  ghost predicate Orderly(db: Db, e: Event) {
    match e
    case RowsRemoved(d, t, rows, named) => CanRemoveRows(db, d, t, rows, named) && RemovalFits(db, d, t, rows, named)
    case PartCommitted(h, d, plans) => CommitFits(db, h, d, plans)
    case PartReverted(h, d, plans) => RevertFits(db, h, d, plans)
    case _ => true
  }

  // ---- One event ---------------------------------------------------------------------------

  ghost predicate Kept(db: Db, e: Event, after: Db) {
    Guarded(after) && KeepsCommitted(db, after) && (Consistent(db) && Orderly(db, e) ==> Consistent(after))
  }

  lemma KeptOf(db: Db, e: Event, after: Db)
    requires Guarded(after) && KeepsCommitted(db, after)
    requires Consistent(db) && Orderly(db, e) ==> Consistent(after)
    ensures Kept(db, e, after)
  {
  }

  lemma OrderlyPlans(db: Db, head: Id, draft: Id, plans: seq<TablePlan>)
    ensures Orderly(db, PartCommitted(head, draft, plans)) <==> CommitFits(db, head, draft, plans)
    ensures Orderly(db, PartReverted(head, draft, plans)) <==> RevertFits(db, head, draft, plans)
  {
  }

  lemma PartCommitIsKept(db: Db, head: Id, draft: Id, plans: seq<TablePlan>)
    requires CommitPlansFit(db, head, draft, plans)
    ensures LinksExist(db) && TablesCommitted(db, plans).Success?
    ensures CanAdvanceWritten(TablesCommitted(db, plans).value, head, draft)
    ensures Kept(db, PartCommitted(head, draft, plans), TargetCommitted(TablesCommitted(db, plans).value, head, draft))
  {
    hide *;
    CommitPlansMean(db, head, draft, plans);
    CommittableParts(db, head, draft);
    OrderlyPlans(db, head, draft, plans);
    TargetCommitIsGuarded(db, head, draft, plans);
    if CommitFits(db, head, draft, plans) {
      TargetCommitIsConsistent(db, head, draft, plans);
    }
    KeptOf(db, PartCommitted(head, draft, plans), TargetCommitted(TablesCommitted(db, plans).value, head, draft));
  }

  lemma PartRevertIsKept(db: Db, head: Id, draft: Id, plans: seq<TablePlan>)
    requires RevertPlansFit(db, head, draft, plans)
    ensures LinksExist(db) && TablesReverted(db, plans).Success?
    ensures CanRelink(TablesReverted(db, plans).value, draft)
    ensures Kept(db, PartReverted(head, draft, plans), TargetReverted(TablesReverted(db, plans).value, head, draft))
  {
    hide *;
    OrderlyPlans(db, head, draft, plans);
    TargetRevertIsGuarded(db, head, draft, plans);
    if RevertFits(db, head, draft, plans) {
      TargetRevertIsConsistent(db, head, draft, plans);
    }
    KeptOf(db, PartReverted(head, draft, plans), TargetReverted(TablesReverted(db, plans).value, head, draft));
  }

  lemma RemovalIsKept(db: Db, d: Id, t: Id, rows: set<Id>, named: Option<Id>)
    requires CanRemoveRows(db, d, t, rows, named)
    ensures Kept(db, RowsRemoved(d, t, rows, named), RemoveRows(db, d, t, rows, named))
  {
    hide Guarded, Consistent, KeepsCommitted, CanRemoveRows, RemoveRows, Reverts, FitsDraft;
    RemoveRowsIsSound(db, d, t, rows, named);
  }

  lemma SoundIsKept(db: Db, e: Event, after: Db)
    requires Admissible(db, e) && Sound(db, after)
    ensures Kept(db, e, after)
  {
  }

  ghost function AfterSoundWrite(db: Db, e: Event): (after: Db)
    requires Guarded(db) && Admissible(db, e) && !e.RowsRemoved? && !e.PartCommitted? && !e.PartReverted?
    ensures Sound(db, after)
  {
    hide Sound, Guarded, Consistent;
    match e
    case TableCreated(d, id, system, createdAt) =>
      CreateTableIsSound(db, d, id, system, createdAt);
      CreateTable(db, d, id, system, createdAt)
    case TableRenamed(d, t, id) =>
      RenameTableIsSound(db, d, t, id);
      RenameTable(db, d, t, id)
    case RowsCreated(d, t, newRows) =>
      CreateRowsIsSound(db, d, t, newRows);
      CreateRows(db, d, t, newRows)
    case RowUpdated(d, t, x, columns) =>
      UpdateRowColumnsIsSound(db, d, t, x, columns);
      UpdateRowColumns(db, d, t, x, columns)
    case TableRemoved(d, t) =>
      RemoveTableIsSound(db, d, t);
      RemoveTable(db, d, t)
    case DraftReverted(d) =>
      RevertDraftIsSound(db, d);
      RevertDraft(db, d)
    case DraftCommitted(h, d) =>
      CommitIsSound(db, h, d);
      Committed(db, h, d)
    case BranchOpened(source) =>
      BranchIsSound(db, source);
      BranchCreated(db, source)
    case OrphansCleaned =>
      CleanupIsSound(db);
      Cleaned(db)
  }

  ghost function After(db: Db, e: Event): (after: Db)
    requires Guarded(db) && Admissible(db, e)
    ensures Kept(db, e, after)
  {
    hide Sound, Kept, Guarded, Consistent;
    match e
    case RowsRemoved(d, t, rows, named) =>
      RemovalIsKept(db, d, t, rows, named);
      RemoveRows(db, d, t, rows, named)
    case PartCommitted(h, d, plans) =>
      PartCommitIsKept(db, h, d, plans);
      TargetCommitted(TablesCommitted(db, plans).value, h, d)
    case PartReverted(h, d, plans) =>
      PartRevertIsKept(db, h, d, plans);
      TargetReverted(TablesReverted(db, plans).value, h, d)
    case _ =>
      var after := AfterSoundWrite(db, e);
      SoundIsKept(db, e, after);
      after
  }

  // Each event is the write it is named after.
  lemma DraftEventIsItsWrite(db: Db, e: Event)
    requires Guarded(db) && Admissible(db, e)
    ensures e.TableCreated? ==> After(db, e) == CreateTable(db, e.draft, e.id, e.system, e.createdAt)
    ensures e.TableRenamed? ==> After(db, e) == RenameTable(db, e.draft, e.table, e.id)
    ensures e.RowsCreated? ==> After(db, e) == CreateRows(db, e.draft, e.table, e.newRows)
    ensures e.RowUpdated? ==>
      e.row in db.rows && After(db, e) == UpdateRowColumns(db, e.draft, e.table, e.row, e.columns)
  {
    GuardedParts(db);
    hide Guarded;
  }

  lemma RemovalEventIsItsWrite(db: Db, e: Event)
    requires Guarded(db) && Admissible(db, e)
    ensures e.TableRemoved? ==> After(db, e) == RemoveTable(db, e.draft, e.table)
    ensures e.OrphansCleaned? ==> After(db, e) == Cleaned(db)
  {
    hide Guarded, Sound, Kept;
  }

  lemma RemovalAfter(db: Db, d: Id, t: Id, rows: set<Id>, named: Option<Id>)
    requires Guarded(db) && CanRemoveRows(db, d, t, rows, named)
    ensures Admissible(db, RowsRemoved(d, t, rows, named))
    ensures After(db, RowsRemoved(d, t, rows, named)) == RemoveRows(db, d, t, rows, named)
  {
    hide Guarded, CanRemoveRows, RemoveRows;
  }

  lemma RevertEventIsItsWrite(db: Db, d: Id)
    requires Guarded(db) && Admissible(db, DraftReverted(d))
    ensures db.revisions[d].parent.Some? && After(db, DraftReverted(d)) == RevertDraft(db, d)
  {
    GuardedParts(db);
    DraftHasParent(db, d);
    hide Guarded, Sound, Kept, History;
  }

  lemma CommitEventIsItsWrite(db: Db, e: Event)
    requires Guarded(db) && Admissible(db, e)
    ensures e.DraftCommitted? ==>
      e.head in db.revisions && e.draft in db.revisions && After(db, e) == Committed(db, e.head, e.draft)
    ensures e.BranchOpened? ==> After(db, e) == BranchCreated(db, e.source)
  {
    hide Guarded;
    if e.DraftCommitted? {
      CommitIsSound(db, e.head, e.draft);
    }
  }

  lemma PartEventIsItsWrite(db: Db, e: Event)
    requires Guarded(db) && Admissible(db, e)
    ensures e.PartCommitted? ==>
      && LinksExist(db) && TablesCommitted(db, e.plans).Success?
      && CanAdvanceWritten(TablesCommitted(db, e.plans).value, e.head, e.draft)
      && After(db, e) == TargetCommitted(TablesCommitted(db, e.plans).value, e.head, e.draft)
    ensures e.PartReverted? ==>
      && LinksExist(db) && TablesReverted(db, e.plans).Success? && CanRelink(TablesReverted(db, e.plans).value, e.draft)
      && After(db, e) == TargetReverted(TablesReverted(db, e.plans).value, e.head, e.draft)
  {
    hide Guarded;
    if e.PartCommitted? {
      PartCommitIsKept(db, e.head, e.draft, e.plans);
    } else if e.PartReverted? {
      PartRevertIsKept(db, e.head, e.draft, e.plans);
    }
  }

  // ---- Runs --------------------------------------------------------------------------------

  ghost predicate CanRun(db: Db, events: seq<Event>)
    requires Guarded(db)
    decreases |events|
  {
    events == [] || (Admissible(db, events[0]) && CanRun(After(db, events[0]), events[1..]))
  }

  ghost function StateAfter(db: Db, events: seq<Event>): (after: Db)
    requires Guarded(db) && CanRun(db, events)
    ensures Guarded(after)
    decreases |events|
  {
    if events == [] then db else StateAfter(After(db, events[0]), events[1..])
  }

  // Every event of the run is orderly when it happens.
  ghost predicate OrderlyRun(db: Db, events: seq<Event>)
    requires Guarded(db) && CanRun(db, events)
    decreases |events|
  {
    events == [] || (Orderly(db, events[0]) && OrderlyRun(After(db, events[0]), events[1..]))
  }

  lemma SameKeepsCommitted(db: Db)
    requires Guarded(db)
    ensures KeepsCommitted(db, db)
  {
    CommittedIsReadonly(db);
  }

  lemma FirstStep(db: Db, events: seq<Event>)
    requires Guarded(db) && CanRun(db, events) && events != []
    ensures Admissible(db, events[0])
    ensures var next := After(db, events[0]);
      && Guarded(next) && KeepsCommitted(db, next) && CanRun(next, events[1..])
      && StateAfter(db, events) == StateAfter(next, events[1..])
      && (OrderlyRun(db, events) <==> Orderly(db, events[0]) && OrderlyRun(next, events[1..]))
      && (Consistent(db) && Orderly(db, events[0]) ==> Consistent(next))
  {
    hide After, Admissible, Guarded, Orderly, KeepsCommitted, Consistent;
  }

  lemma EmptyRun(db: Db)
    requires Guarded(db)
    ensures CanRun(db, []) && StateAfter(db, []) == db && OrderlyRun(db, [])
  {
  }

  lemma {:induction false} RunKeepsCommitted(db: Db, events: seq<Event>)
    requires Guarded(db) && CanRun(db, events)
    ensures KeepsCommitted(db, StateAfter(db, events))
    decreases |events|
  {
    hide *;
    if events == [] {
      EmptyRun(db);
      SameKeepsCommitted(db);
    } else {
      FirstStep(db, events);
      RunKeepsCommitted(After(db, events[0]), events[1..]);
      KeepsIsTransitive(db, After(db, events[0]), StateAfter(db, events));
    }
  }

  lemma OneStep(db: Db, e: Event, rest: seq<Event>)
    requires Guarded(db) && Admissible(db, e) && Guarded(After(db, e)) && CanRun(After(db, e), rest)
    ensures CanRun(db, [e] + rest) && StateAfter(db, [e] + rest) == StateAfter(After(db, e), rest)
    ensures OrderlyRun(db, [e] + rest) <==> Orderly(db, e) && OrderlyRun(After(db, e), rest)
  {
    hide After, Admissible, Guarded, Kept, Orderly;
    assert ([e] + rest)[1..] == rest;
  }

  lemma {:induction false} RunInTwoParts(db: Db, events: seq<Event>, i: nat)
    requires Guarded(db) && i <= |events| && CanRun(db, events)
    ensures CanRun(db, events[..i]) && Guarded(StateAfter(db, events[..i]))
    ensures CanRun(StateAfter(db, events[..i]), events[i..])
    ensures StateAfter(StateAfter(db, events[..i]), events[i..]) == StateAfter(db, events)
    decreases |events|
  {
    hide *;
    if i == 0 {
      assert events[..0] == [] && events[0..] == events;
      EmptyRun(db);
    } else {
      var e, rest := events[0], events[1..];
      FirstStep(db, events);
      RunInTwoParts(After(db, e), rest, i - 1);
      assert events[..i] == [e] + rest[..i - 1] && events[i..] == rest[i - 1..];
      OneStep(db, e, rest[..i - 1]);
    }
  }

  // What the repository's guard observes of a committed revision, table version and row version.
  ghost predicate Preserved(a: Db, b: Db) {
    && (forall r | CommittedRevision(a, r) :: CommittedRevision(b, r) && TablesOf(b, r) == TablesOf(a, r))
    && (forall t | CommittedTable(a, t) ::
          && CommittedTable(b, t)
          && t in a.tables && t in b.tables && b.tables[t].readonly && b.tables[t] == a.tables[t]
             && RowsOf(b, t) == RowsOf(a, t))
    && (forall x | CommittedRow(a, x) ::
          && CommittedRow(b, x)
          && x in a.rows && x in b.rows && b.rows[x].readonly && b.rows[x] == a.rows[x])
  }

  lemma KeptIsPreserved(a: Db, b: Db)
    requires Safe(a) && Safe(b) && KeepsCommitted(a, b)
    ensures Preserved(a, b)
  {
    CommittedIsReadonly(a);
    forall t | CommittedTable(a, t)
      ensures CommittedTable(b, t)
    {
      var r :| TableLink(r, t) in a.tableLinks && CommittedRevision(a, r);
      assert t in TablesOf(a, r);
    }
    forall x | CommittedRow(a, x)
      ensures CommittedRow(b, x)
    {
      var t :| RowLink(x, t) in a.rowLinks && CommittedTable(a, t);
      assert x in RowsOf(a, t);
    }
  }

  // Main result: between any two states of any run, everything committed in the first is, in the second, still
  // committed, readonly, and the same column by column and link by link.
  lemma CommittedVersionsNeverChange(db: Db, events: seq<Event>, i: nat, j: nat)
    requires Guarded(db) && i <= j <= |events| && CanRun(db, events)
    ensures CanRun(db, events[..i]) && CanRun(db, events[..j])
    ensures Preserved(StateAfter(db, events[..i]), StateAfter(db, events[..j]))
  {
    assert events[..j][..i] == events[..i];
    hide *;
    RunInTwoParts(db, events, j);
    RunInTwoParts(db, events[..j], i);
    var a := StateAfter(db, events[..i]);
    RunKeepsCommitted(a, events[..j][i..]);
    GuardedParts(a);
    GuardedParts(StateAfter(db, events[..j]));
    KeptIsPreserved(a, StateAfter(db, events[..j]));
  }

  // ---- The history after any run -----------------------------------------------------------

  ghost predicate OneHeadOneDraft(db: Db, branch: Id) {
    exists head: Id, draft: Id ::
      && PlaysIn(db, head, branch, Role.Head) && PlaysIn(db, draft, branch, Role.Draft)
      && db.revisions[draft].parent == Some(head)
      && (forall r | r in db.revisions && db.revisions[r].branch == branch ::
            (db.revisions[r].isHead <==> r == head) && (db.revisions[r].isDraft <==> r == draft))
  }

  lemma BranchHasOneOfEach(db: Db, r: Id)
    requires History(db.revisions) && r in db.revisions
    ensures OneHeadOneDraft(db, db.revisions[r].branch)
  {
    var revisions, branch := db.revisions, db.revisions[r].branch;
    var draft := Player(revisions, r, Role.Draft);
    assert WellPlaced(revisions, draft);
    var head := revisions[draft].parent.value;
    assert Plays(revisions[head], Role.Head) && Plays(revisions[draft], Role.Draft);
    forall s | s in revisions && revisions[s].branch == branch
      ensures (revisions[s].isHead <==> s == head) && (revisions[s].isDraft <==> s == draft)
    {
      assert Plays(revisions[s], Role.Head) <==> revisions[s].isHead;
      assert Plays(revisions[s], Role.Draft) <==> revisions[s].isDraft;
    }
    assert PlaysIn(db, head, branch, Role.Head) && PlaysIn(db, draft, branch, Role.Draft);
  }

  // In every state of every run each branch has exactly one Head and one Draft, the Draft continues Head, and all
  // revisions of the branch lie on one chain from its start to its Draft.
  lemma EveryRunKeepsTheHistory(db: Db, events: seq<Event>, i: nat, r: Id, draft: Id)
    requires Guarded(db) && i <= |events| && CanRun(db, events)
    ensures CanRun(db, events[..i])
    ensures var state := StateAfter(db, events[..i]);
      && History(state.revisions)
      && (r in state.revisions ==> OneHeadOneDraft(state, state.revisions[r].branch))
      && (r in state.revisions && PlaysIn(state, draft, state.revisions[r].branch, Role.Draft) ==>
            && IsChain(state.revisions, ChainOf(state.revisions, draft))
            && r in ChainOf(state.revisions, draft))
  {
    RunInTwoParts(db, events, i);
    var state := StateAfter(db, events[..i]);
    assert History(state.revisions);
    hide Guarded, History, OneHeadOneDraft, StateAfter, CanRun;
    if r in state.revisions {
      BranchHasOneOfEach(state, r);
      if PlaysIn(state, draft, state.revisions[r].branch, Role.Draft) {
        ChainLeadsToStart(state.revisions, draft);
        ChainOfDraftHasAll(state.revisions, draft, r);
      }
    }
  }

  // ---- What orderly runs keep besides ------------------------------------------------------

  lemma {:induction false} OrderlyRunIsConsistent(db: Db, events: seq<Event>)
    requires Consistent(db) && Guarded(db) && CanRun(db, events) && OrderlyRun(db, events)
    ensures Consistent(StateAfter(db, events))
    decreases |events|
  {
    hide *;
    if events == [] {
      EmptyRun(db);
    } else {
      FirstStep(db, events);
      OrderlyRunIsConsistent(After(db, events[0]), events[1..]);
    }
  }

  lemma {:induction false} OrderlyPrefix(db: Db, events: seq<Event>, i: nat)
    requires Guarded(db) && i <= |events| && CanRun(db, events) && OrderlyRun(db, events)
    ensures CanRun(db, events[..i]) && OrderlyRun(db, events[..i])
    decreases |events|
  {
    hide *;
    if i == 0 {
      assert events[..0] == [];
      EmptyRun(db);
    } else {
      var e, rest := events[0], events[1..];
      FirstStep(db, events);
      OrderlyPrefix(After(db, e), rest, i - 1);
      assert events[..i] == [e] + rest[..i - 1];
      OneStep(db, e, rest[..i - 1]);
    }
  }

  // In every state of a run of orderly events every revision links at most one version of a table, and the flag of
  // every Draft says exactly whether it links other versions than its Head.
  lemma OrderlyRunsKeepTheFlag(db: Db, events: seq<Event>, i: nat, draft: Id)
    requires Consistent(db) && Guarded(db) && i <= |events| && CanRun(db, events) && OrderlyRun(db, events)
    ensures CanRun(db, events[..i])
    ensures var state := StateAfter(db, events[..i]);
      && LinksExist(state) && TableIdentities(state)
      && (IsDraft(state, draft) ==>
            && state.revisions[draft].parent.Some?
            && (state.revisions[draft].hasChanges <==>
                  TablesOf(state, draft) != TablesOf(state, state.revisions[draft].parent.value)))
  {
    hide *;
    OrderlyPrefix(db, events, i);
    OrderlyRunIsConsistent(db, events[..i]);
    ConsistentDraft(StateAfter(db, events[..i]), draft);
  }

  lemma ConsistentDraft(db: Db, draft: Id)
    requires Consistent(db)
    ensures LinksExist(db) && TableIdentities(db)
    ensures IsDraft(db, draft) ==>
      && db.revisions[draft].parent.Some?
      && (db.revisions[draft].hasChanges <==> TablesOf(db, draft) != TablesOf(db, db.revisions[draft].parent.value))
  {
    if IsDraft(db, draft) {
      DraftHasParent(db, draft);
    }
  }

  // ---- Runs exist --------------------------------------------------------------------------

  lemma OneEvent(db: Db, e: Event)
    requires Guarded(db) && Admissible(db, e)
    ensures Guarded(After(db, e))
    ensures CanRun(db, [e]) && StateAfter(db, [e]) == After(db, e)
    ensures OrderlyRun(db, [e]) <==> Orderly(db, e)
  {
    AfterIsGuarded(db, e);
    hide *;
    EmptyRun(After(db, e));
    OneStep(db, e, []);
    assert [e] + [] == [e];
  }

  lemma AfterIsGuarded(db: Db, e: Event)
    requires Guarded(db) && Admissible(db, e)
    ensures Guarded(After(db, e))
  {
    hide After, Admissible, Guarded;
  }

  lemma RenamedInTurnCanCommit()
    requires Guarded(RenamedInTurn())
    ensures Admissible(RenamedInTurn(), DraftCommitted(0, 1)) && Orderly(RenamedInTurn(), DraftCommitted(0, 1))
  {
    hide Guarded;
  }

  // The Draft of a store where two tables were renamed in turn can be committed.
  lemma SomeRunExists()
    ensures Guarded(RenamedInTurn()) && CanRun(RenamedInTurn(), [DraftCommitted(0, 1)])
    ensures OrderlyRun(RenamedInTurn(), [DraftCommitted(0, 1)])
  {
    hide *;
    RenamedInTurnIsConsistent();
    ConsistentParts(RenamedInTurn());
    RenamedInTurnCanCommit();
    OneEvent(RenamedInTurn(), DraftCommitted(0, 1));
  }

  lemma RemovesNothing(db: Db, t: Id)
    requires t in db.tables && !db.tables[t].readonly
    ensures TouchedTable(db, t) == t && RowsGone(db, 1, t, {}) == db
  {
    assert DeleteRows(db, {}) == db && UnlinkRows(db, t, {}) == db;
  }

  lemma RenamedInTurnCanRemove()
    requires Guarded(RenamedInTurn())
    ensures CanRemoveRows(RenamedInTurn(), 1, 5, {}, Some(2))
    ensures 5 in RenamedInTurn().tables && !RenamedInTurn().tables[5].readonly
    ensures Admissible(RenamedInTurn(), RowsRemoved(1, 5, {}, Some(2)))
  {
    hide Guarded;
    RenamedInTurnReverts();
  }

  lemma RemovalDoesNotFit(db: Db, d: Id, t: Id, named: Id)
    requires CanRemoveRows(db, d, t, {}, Some(named)) && RowsGone(db, d, t, {}) == db && TouchedTable(db, t) == t
    requires LinksExist(db) && named in db.tables && d in db.revisions && db.revisions[d].parent.Some? && t in db.tables
    requires Reverts(db, d, t, Some(named)) && !FitsDraft(db, d, t, named)
    ensures Admissible(db, RowsRemoved(d, t, {}, Some(named))) && !Orderly(db, RowsRemoved(d, t, {}, Some(named)))
    ensures Consistent(db) ==> !Consistent(RemoveRows(db, d, t, {}, Some(named)))
  {
    hide Consistent, Guarded, CanRemoveRows, RowsGone, TouchedTable, Reverts, FitsDraft, RemoveRows, KeepsCommitted;
    RemoveRowsIsSound(db, d, t, {}, Some(named));
  }

  lemma InDraftMeans(db: Db, d: Id, t: Id)
    requires History(db.revisions) && InDraft(db, d, t)
    ensures d in db.revisions && db.revisions[d].parent.Some? && t in db.tables
  {
    DraftHasParent(db, d);
  }

  // A run need not be orderly: there, removing no rows leaves two versions of one table, and nothing committed changes.
  lemma SomeRunIsNotOrderly()
    ensures Consistent(RenamedInTurn()) && Guarded(RenamedInTurn())
    ensures CanRun(RenamedInTurn(), [RowsRemoved(1, 5, {}, Some(2))])
    ensures !OrderlyRun(RenamedInTurn(), [RowsRemoved(1, 5, {}, Some(2))])
    ensures !Consistent(StateAfter(RenamedInTurn(), [RowsRemoved(1, 5, {}, Some(2))]))
    ensures KeepsCommitted(RenamedInTurn(), StateAfter(RenamedInTurn(), [RowsRemoved(1, 5, {}, Some(2))]))
  {
    var db := RenamedInTurn();
    hide *;
    RenamedInTurnIsConsistent();
    ConsistentParts(db);
    GuardedParts(db);
    RenamedInTurnCanRemove();
    RenamedInTurnReverts();
    RenamedInTurnDoesNotFit();
    InDraftMeans(db, 1, 5);
    RemovesNothing(db, 5);
    RemovalDoesNotFit(db, 1, 5, 2);
    RemovalAfter(db, 1, 5, {}, Some(2));
    OneEvent(db, RowsRemoved(1, 5, {}, Some(2)));
    RunKeepsCommitted(db, [RowsRemoved(1, 5, {}, Some(2))]);
  }
}
