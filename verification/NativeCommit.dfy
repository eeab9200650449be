/** The native commit of a branch: advance its revisions, then lock what the Draft owned.
  * Locking last ends in the state that locking first would have reached, so nothing mutable is ever committed. */
module NativeCommit {
  import opened Wrappers
  import opened VersionStore
  import opened StatementSafety
  import opened StoreShape
  import opened ContentDiff
  import opened VersionWriter
  import opened DraftWrites
  import opened DraftWriteEffects
  import opened Transition

  // ---- What the commit promises ------------------------------------------------------------

  function OpenTables(db: Db, draft: Id): set<Id> {
    set t | t in TablesOf(db, draft) && t in db.tables && !db.tables[t].readonly
  }

  function HeadCounterparts(db: Db, draft: Id, head: Id): set<Id> {
    set t | t in TablesOf(db, head) && t in db.tables && db.tables[t].readonly
            && exists s :: s in OpenTables(db, draft) && db.tables[s].createdId == db.tables[t].createdId
  }

  predicate LinkedByAny(db: Db, x: Id, tables: set<Id>) {
    exists t :: t in tables && RowLink(x, t) in db.rowLinks
  }

  // The rows that only the Draft's own table versions hold.
  function DraftOwnedRows(db: Db, draft: Id, head: Id): set<Id> {
    set l | l in db.rowLinks && l.table in OpenTables(db, draft) && l.row in db.rows && !db.rows[l.row].readonly
            && !LinkedByAny(db, l.row, HeadCounterparts(db, draft, head)) :: l.row
  }

  function DraftLocked(db: Db, draft: Id, head: Id): Db {
    LockTables(LockRows(db, DraftOwnedRows(db, draft, head)), TablesOf(db, draft))
  }

  function Committed(db: Db, head: Id, draft: Id): Db
    requires head in db.revisions && draft in db.revisions
  {
    var tables := TablesOf(db, draft);
    var advanced := Advance(db, head, draft, None, tables);
    if tables == {} then
      advanced
    else
      LockTables(LockRows(advanced, DraftOwnedRows(advanced, draft, head)), tables)
  }

  predicate PlaysIn(db: Db, r: Id, branch: Id, role: Role) {
    r in db.revisions && Plays(db.revisions[r], role) && db.revisions[r].branch == branch
  }

  predicate InBranch(db: Db, branch: Id, role: Role) {
    exists r :: r in db.revisions && PlaysIn(db, r, branch, role)
  }

  datatype CommitResult = CommitResult(previousHead: Id, previousDraft: Id, nextDraft: Id)

  // ---- The handler -------------------------------------------------------------------------

  class DraftRevisionCommitHandler {
    const transaction: Transaction
    const transition: CommitTransition

    constructor (transition: CommitTransition)
      ensures this.transition == transition && this.transaction == transition.transaction
    {
      this.transition := transition;
      this.transaction := transition.transaction;
    }

    method FindInBranch(branch: Id, role: Role) returns (r: Option<Id>)
      ensures r.Some? <==> InBranch(transaction.db, branch, role)
      ensures r.Some? ==> PlaysIn(transaction.db, r.value, branch, role)
    {
      if id :| id in transaction.db.revisions && PlaysIn(transaction.db, id, branch, role) {
        r := Some(id);
      } else {
        r := None;
      }
    }

    method Execute(branch: Id) returns (r: Result<CommitResult, TransitionError>)
      requires transition.transaction == transaction && LinksExist(transaction.db)
      modifies transaction
      ensures var db := old(transaction.db);
        && (r == Failure(NoHead) <==> !InBranch(db, branch, Role.Head))
        && (r == Failure(NoDraft) <==> InBranch(db, branch, Role.Head) && !InBranch(db, branch, Role.Draft))
        && (r.Failure? && r.error != NoHead && r.error != NoDraft ==>
              r.error == NoChanges && exists d ::
                d in db.revisions && PlaysIn(db, d, branch, Role.Draft) && !db.revisions[d].hasChanges)
        && (r.Success? ==>
              && PlaysIn(db, r.value.previousHead, branch, Role.Head)
              && PlaysIn(db, r.value.previousDraft, branch, Role.Draft)
              && db.revisions[r.value.previousDraft].hasChanges
              && r.value.nextDraft == db.nextId
              && transaction.db == Committed(db, r.value.previousHead, r.value.previousDraft))
      ensures r.Failure? ==> transaction.db == old(transaction.db)
    {
      ghost var db := transaction.db;
      var head := FindInBranch(branch, Role.Head);
      if head.None? {
        return Failure(NoHead);
      }
      var draft := FindInBranch(branch, Role.Draft);
      if draft.None? {
        return Failure(NoDraft);
      }
      if !transaction.db.revisions[draft.value].hasChanges {
        return Failure(NoChanges);
      }
      var tables := TablesOf(transaction.db, draft.value);
      TablesExist(db, draft.value);
      var retired := transition.RetireHead(head.value);
      var promoted := transition.PromoteDraftToHead(draft.value, None);
      var next := transition.OpenNextDraft(branch, draft.value, tables);
      assert transaction.db == Advance(db, head.value, draft.value, None, tables);
      if tables != {} {
        transaction.db := LockRows(transaction.db, DraftOwnedRows(transaction.db, draft.value, head.value));
        transaction.db := LockTables(transaction.db, tables);
      }
      r := Success(CommitResult(head.value, draft.value, next.value));
    }
  }

  // ---- Locking last is locking first -------------------------------------------------------

  ghost predicate ReadyToCommit(db: Db, head: Id, draft: Id) {
    Guarded(db) && IsDraft(db, draft) && db.revisions[draft].parent == Some(head)
  }

  lemma AdvanceWithSameTables(db: Db, head: Id, draft: Id, nextTables: set<Id>)
    requires head in db.revisions && draft in db.revisions
    ensures Advance(db, head, draft, None, nextTables)
         == Advance(db, head, draft, Some(TablesOf(db, draft)), nextTables)
  {
  }

  // Which rows the Draft owns depends on its tables, on Head's, and on the versions.
  lemma SameOwnedRows(a: Db, b: Db, draft: Id, head: Id)
    requires a.tables == b.tables && a.rows == b.rows && a.rowLinks == b.rowLinks
    requires TablesOf(a, draft) == TablesOf(b, draft) && TablesOf(a, head) == TablesOf(b, head)
    ensures DraftOwnedRows(a, draft, head) == DraftOwnedRows(b, draft, head)
  {
    hide TablesOf;
    assert OpenTables(a, draft) == OpenTables(b, draft);
    assert HeadCounterparts(a, draft, head) == HeadCounterparts(b, draft, head);
    hide OpenTables, HeadCounterparts;
    assert forall x, tables :: LinkedByAny(a, x, tables) <==> LinkedByAny(b, x, tables);
  }

  lemma OwnedRowsAfterAdvance(db: Db, head: Id, draft: Id)
    requires head in db.revisions && draft in db.revisions && head < db.nextId && draft < db.nextId
    ensures DraftOwnedRows(Advance(db, head, draft, None, TablesOf(db, draft)), draft, head)
         == DraftOwnedRows(db, draft, head)
  {
    var advanced := Advance(db, head, draft, None, TablesOf(db, draft));
    SameLinksBefore(db, head, draft, TablesOf(db, draft));
    assert advanced.tables == db.tables && advanced.rows == db.rows && advanced.rowLinks == db.rowLinks;
    hide *;
    SameOwnedRows(advanced, db, draft, head);
  }

  lemma SameLinksBefore(db: Db, head: Id, draft: Id, tables: set<Id>)
    requires head in db.revisions && draft in db.revisions && head < db.nextId && draft < db.nextId
    ensures TablesOf(Advance(db, head, draft, None, tables), draft) == TablesOf(db, draft)
    ensures TablesOf(Advance(db, head, draft, None, tables), head) == TablesOf(db, head)
  {
  }

  lemma LockNothing(db: Db)
    ensures LockTables(LockRows(db, {}), {}) == db
  {
  }

  // The commit, seen as a lock followed by the transition.
  lemma LockedLastIsLockedFirst(db: Db, head: Id, draft: Id)
    requires ReadyToCommit(db, head, draft)
    ensures head in db.revisions
    ensures Committed(db, head, draft)
         == Advance(DraftLocked(db, draft, head), head, draft, Some(TablesOf(db, draft)), TablesOf(db, draft))
  {
    var tables := TablesOf(db, draft);
    HeadIsPlaced(db.revisions, head, draft, db.nextId);
    OwnedRowsAfterAdvance(db, head, draft);
    AdvanceWithSameTables(db, head, draft, tables);
    LockCommutes(db, head, draft, DraftOwnedRows(db, draft, head), tables);
    if tables == {} {
      assert OpenTables(db, draft) == {};
      assert DraftOwnedRows(db, draft, head) == {};
      LockNothing(db);
    }
  }

  lemma LockCommutes(db: Db, head: Id, draft: Id, rows: set<Id>, tables: set<Id>)
    requires head in db.revisions && draft in db.revisions
    ensures LockTables(LockRows(Advance(db, head, draft, Some(tables), tables), rows), tables)
         == Advance(LockTables(LockRows(db, rows), tables), head, draft, Some(tables), tables)
  {
  }

  // ---- The lock is enough ------------------------------------------------------------------

  lemma DraftLockIsEnough(db: Db, head: Id, draft: Id)
    requires Safe(db) && TablesOf(db, draft) <= db.tables.Keys
    ensures var locked := LockRows(db, DraftOwnedRows(db, draft, head));
      forall l | l in locked.rowLinks && l.table in TablesOf(db, draft) ::
        l.row in locked.rows && locked.rows[l.row].readonly
  {
  }

  lemma DraftLockIsSafe(db: Db, head: Id, draft: Id)
    requires Safe(db)
    ensures Safe(DraftLocked(db, draft, head)) && KeepsCommitted(db, DraftLocked(db, draft, head))
  {
    TablesExist(db, draft);
    DraftLockIsEnough(db, head, draft);
    var rows := DraftOwnedRows(db, draft, head);
    var one := LockRows(db, rows);
    LockRowsIsSafe(db, rows);
    hide Safe, KeepsCommitted, DraftOwnedRows, LockRows;
    LockTablesIsSafe(one, TablesOf(db, draft));
    KeepsIsTransitive(db, one, LockTables(one, TablesOf(db, draft)));
  }

  lemma LockedTables(db: Db, rows: set<Id>, tables: set<Id>)
    requires LinksExist(db) && tables <= db.tables.Keys
    ensures var locked := LockTables(LockRows(db, rows), tables);
      && LinksExist(locked)
      && locked.revisions == db.revisions && locked.tableLinks == db.tableLinks && locked.tables.Keys == db.tables.Keys
      && (forall t | t in db.tables :: locked.tables[t].createdId == db.tables[t].createdId)
      && (forall t | t in tables :: locked.tables[t].readonly)
      && (forall r :: TablesOf(locked, r) == TablesOf(db, r))
  {
  }

  lemma LockKeepsRowsAndOwners(db: Db, rows: set<Id>, tables: set<Id>)
    requires LinksExist(db) && RowIdentities(db) && MutableIsOwned(db)
    requires LinksExist(LockTables(LockRows(db, rows), tables))
    ensures var locked := LockTables(LockRows(db, rows), tables); RowIdentities(locked) && MutableIsOwned(locked)
  {
  }

  lemma LockKeepsTablesAndFlags(db: Db, locked: Db)
    requires LinksExist(db) && TableIdentities(db) && FlagsExact(db) && LinksExist(locked)
    requires locked.revisions == db.revisions && locked.tableLinks == db.tableLinks
       && locked.tables.Keys == db.tables.Keys
    requires forall t | t in db.tables :: locked.tables[t].createdId == db.tables[t].createdId
    requires forall r :: TablesOf(locked, r) == TablesOf(db, r)
    ensures TableIdentities(locked) && FlagsExact(locked)
  {
    hide TablesOf;
  }

  lemma LockedIsReady(db: Db, head: Id, draft: Id)
    requires ReadyToCommit(db, head, draft)
    ensures head in db.revisions && draft in db.revisions
    ensures var locked, tables := DraftLocked(db, draft, head), TablesOf(db, draft);
      && KeepsCommitted(db, locked)
      && CanAdvanceTo(locked, head, draft, tables, tables)
      && locked.revisions == db.revisions
      && LinksExist(locked) && RowIdentities(locked) && MutableIsOwned(locked) && HandedOver(locked, draft, tables)
      && (Consistent(db) ==> Shaped(locked) && FlagsExact(locked) && DistinctIdentities(locked, tables))
  {
    var locked, tables := DraftLocked(db, draft, head), TablesOf(db, draft);
    var rows := DraftOwnedRows(db, draft, head);
    assert Guarded(db) && locked == LockTables(LockRows(db, rows), tables);
    hide *;
    GuardedParts(db);
    TablesExist(db, draft);
    DraftLockIsSafe(db, head, draft);
    LockedTables(db, rows, tables);
    LockKeepsRowsAndOwners(db, rows, tables);
    CommitReadiness(db, locked, head, draft, tables);
    if Consistent(db) {
      ConsistentParts(db);
      LockKeepsTablesAndFlags(db, locked);
      ShapedOf(locked);
      TablesAreDistinct(locked, draft);
    }
  }

  // Main result of the native commit: it keeps a consistent store consistent and all committed content as it was.
  lemma CommitIsSound(db: Db, head: Id, draft: Id)
    requires ReadyToCommit(db, head, draft)
    ensures head in db.revisions
    ensures Sound(db, Committed(db, head, draft))
  {
    var tables := TablesOf(db, draft);
    var locked := DraftLocked(db, draft, head);
    hide *;
    LockedIsReady(db, head, draft);
    LockedLastIsLockedFirst(db, head, draft);
    AdvanceIsGuarded(locked, head, draft, tables, tables);
    KeepsIsTransitive(db, locked, Committed(db, head, draft));
    if Consistent(db) {
      AdvanceIsConsistent(locked, head, draft, tables, tables);
      NextFlagOfSameTables(locked, head, draft, tables);
    }
    SoundOf(db, Committed(db, head, draft));
  }

  lemma CommitReadiness(db: Db, locked: Db, head: Id, draft: Id, tables: set<Id>)
    requires ReadyToCommit(db, head, draft) && Safe(locked)
    requires locked.revisions == db.revisions && tables <= db.tables.Keys == locked.tables.Keys
    requires forall t | t in tables :: locked.tables[t].readonly
    ensures head in db.revisions && draft in db.revisions
    ensures CanAdvanceTo(locked, head, draft, tables, tables)
    ensures LinksExist(locked) && HandedOver(locked, draft, tables)
  {
    HeadIsPlaced(db.revisions, head, draft, db.nextId);
  }

  lemma NextFlagOfSameTables(db: Db, head: Id, draft: Id, tables: set<Id>)
    requires head in db.revisions && draft in db.revisions
    ensures WithNextFlag(db, head, draft, tables, tables) == Advance(db, head, draft, Some(tables), tables)
  {
  }
}
