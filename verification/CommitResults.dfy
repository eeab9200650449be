/** What the commits and a new branch leave in the store: the columns of the revisions, what each of them links, exactly
  * which versions become readonly, and the content of the new Head and Draft. */
module CommitResults {
  import opened Wrappers
  import opened VersionStore
  import opened StoreShape
  import opened ContentDiff
  import opened DraftWriteEffects
  import opened Transition
  import opened NativeCommit
  import opened Branching

  // ---- The revisions -----------------------------------------------------------------------

  // Head steps back, the Draft takes its place, and a new Draft continues it; no other revision changes.
  ghost predicate RevisionsAdvance(a: Db, b: Db, head: Id, draft: Id, next: Id, hasChanges: bool) {
    && head in a.revisions && draft in a.revisions && next !in a.revisions
    && b.revisions.Keys == a.revisions.Keys + {next}
    && b.revisions[head] == a.revisions[head].(isHead := false, isDraft := false, hasChanges := false)
    && b.revisions[draft] == a.revisions[draft].(isHead := true, isDraft := false, hasChanges := false)
    && b.revisions[next] == Revision(a.revisions[draft].branch, false, true, false, hasChanges, Some(draft))
    && (forall r | r in a.revisions && r != head && r != draft :: b.revisions[r] == a.revisions[r])
  }

  ghost predicate OtherLinksStay(a: Db, b: Db, changed: set<Id>) {
    forall r | r !in changed :: TablesOf(b, r) == TablesOf(a, r)
  }

  lemma AdvanceResult(db: Db, head: Id, draft: Id, headTables: set<Id>, nextTables: set<Id>)
    requires CanAdvanceTo(db, head, draft, headTables, nextTables) && head in db.revisions
    ensures var after := Advance(db, head, draft, Some(headTables), nextTables);
      && RevisionsAdvance(db, after, head, draft, db.nextId, false)
      && TablesOf(after, draft) == headTables && TablesOf(after, db.nextId) == nextTables
      && OtherLinksStay(db, after, {draft, db.nextId})
      && after.tables == db.tables && after.rows == db.rows && after.rowLinks == db.rowLinks
  {
    var after := Advance(db, head, draft, Some(headTables), nextTables);
    assert after.tables == db.tables && after.rows == db.rows && after.rowLinks == db.rowLinks;
    assert draft in db.revisions && db.nextId !in db.revisions;
    hide *;
    CanAdvanceRevisions(db, head, draft, headTables, nextTables);
    AdvanceTables(db, head, draft, headTables, nextTables);
    OthersOf(db, after, draft, db.nextId);
    AdvancedColumns(db, after, head, draft, db.nextId);
  }

  lemma OthersOf(a: Db, b: Db, draft: Id, next: Id)
    requires forall r | r != draft && r != next :: TablesOf(b, r) == TablesOf(a, r)
    ensures OtherLinksStay(a, b, {draft, next})
  {
    hide TablesOf;
  }

  lemma AdvancedColumns(a: Db, b: Db, head: Id, draft: Id, next: Id)
    requires head in a.revisions && draft in a.revisions && head != draft && next !in a.revisions
    requires b.revisions == Advanced(a.revisions, head, draft, next)
    ensures RevisionsAdvance(a, b, head, draft, next, false)
  {
  }

  // ---- What a native commit locks ----------------------------------------------------------

  ghost predicate HeldBySome(db: Db, x: Id, tables: set<Id>) {
    exists t :: t in tables && RowLink(x, t) in db.rowLinks
  }

  // The given tables and the rows they hold become readonly, and nothing else changes.
  ghost predicate LocksExactly(a: Db, b: Db, tables: set<Id>) {
    && b.tables.Keys == a.tables.Keys && b.rows.Keys == a.rows.Keys && b.rowLinks == a.rowLinks
    && (forall t | t in a.tables :: b.tables[t] == a.tables[t].(readonly := a.tables[t].readonly || t in tables))
    && (forall x | x in a.rows ::
          b.rows[x] == a.rows[x].(readonly := a.rows[x].readonly || HeldBySome(a, x, tables)))
  }

  lemma OwnedRowsAreHeld(db: Db, head: Id, draft: Id, x: Id)
    requires Safe(db)
    ensures x in db.rows && !db.rows[x].readonly ==>
      (x in DraftOwnedRows(db, draft, head) <==> HeldBySome(db, x, TablesOf(db, draft)))
  {
    if x in db.rows && !db.rows[x].readonly && HeldBySome(db, x, TablesOf(db, draft)) {
      var t :| t in TablesOf(db, draft) && RowLink(x, t) in db.rowLinks;
      assert t in OpenTables(db, draft);
    }
  }

  lemma LockedExactly(db: Db, head: Id, draft: Id)
    requires Safe(db)
    ensures LocksExactly(db, DraftLocked(db, draft, head), TablesOf(db, draft))
  {
    forall x {
      OwnedRowsAreHeld(db, head, draft, x);
    }
    hide DraftOwnedRows, HeldBySome, TablesOf, Safe;
  }

  // A lock changes no content.
  lemma LockedContent(a: Db, b: Db, tables: set<Id>, t: Id)
    requires LinksExist(a) && LinksExist(b) && LocksExactly(a, b, tables) && t in a.tables
    ensures t in b.tables && ContentOf(b, t) == ContentOf(a, t)
  {
    hide HeldBySome;
    assert RowsOf(b, t) == RowsOf(a, t);
  }

  lemma SameTablesSameContent(a: Db, b: Db, tables: set<Id>, r: Id, s: Id)
    requires LinksExist(a) && LinksExist(b) && LocksExactly(a, b, tables) && TablesOf(b, s) == TablesOf(a, r)
    ensures RevisionContent(b, s) == RevisionContent(a, r)
  {
    TablesExist(a, r);
    TablesExist(b, s);
    forall t | t in TablesOf(a, r)
      ensures t in b.tables && ContentOf(b, t) == ContentOf(a, t)
    {
      LockedContent(a, b, tables, t);
    }
    hide LocksExactly, ContentOf, LinksExist, TablesOf;
  }

  // ---- The native commit -------------------------------------------------------------------

  lemma CommittedInSteps(db: Db, head: Id, draft: Id)
    requires ReadyToCommit(db, head, draft)
    ensures head in db.revisions && draft in db.revisions
    ensures Safe(db) && LinksExist(db) && LinksExist(Committed(db, head, draft))
    ensures var locked, tables := DraftLocked(db, draft, head), TablesOf(db, draft);
      CanAdvanceTo(locked, head, draft, tables, tables) && head in locked.revisions && draft in locked.revisions
      && Committed(db, head, draft) == Advance(locked, head, draft, Some(tables), tables)
  {
    assert Guarded(db);
    hide *;
    GuardedParts(db);
    LockedIsReady(db, head, draft);
    LockedLastIsLockedFirst(db, head, draft);
    CommitIsSound(db, head, draft);
    SoundMeans(db, Committed(db, head, draft));
  }

  lemma CommittedStore(db: Db, head: Id, draft: Id)
    requires ReadyToCommit(db, head, draft)
    ensures head in db.revisions && draft in db.revisions
    ensures var after := Committed(db, head, draft);
      && RevisionsAdvance(db, after, head, draft, db.nextId, false)
      && TablesOf(after, draft) == TablesOf(db, draft) && TablesOf(after, db.nextId) == TablesOf(db, draft)
      && OtherLinksStay(db, after, {draft, db.nextId})
      && LocksExactly(db, after, TablesOf(db, draft))
  {
    hide *;
    CommittedInSteps(db, head, draft);
    var tables, locked := TablesOf(db, draft), DraftLocked(db, draft, head);
    AdvanceResult(locked, head, draft, tables, tables);
    LockedExactly(db, head, draft);
    LockThenAdvance(db, locked, Committed(db, head, draft), head, draft, tables);
  }

  // The new Head and the new Draft both link what the Draft linked and contain what it contained; of all versions
  // exactly those tables and their rows have become readonly.
  lemma CommittedResult(db: Db, head: Id, draft: Id)
    requires ReadyToCommit(db, head, draft)
    ensures head in db.revisions && draft in db.revisions && LinksExist(db) && LinksExist(Committed(db, head, draft))
    ensures var after := Committed(db, head, draft);
      && RevisionsAdvance(db, after, head, draft, db.nextId, false)
      && TablesOf(after, draft) == TablesOf(db, draft) && TablesOf(after, db.nextId) == TablesOf(db, draft)
      && OtherLinksStay(db, after, {draft, db.nextId})
      && LocksExactly(db, after, TablesOf(db, draft))
      && RevisionContent(after, draft) == RevisionContent(db, draft)
      && RevisionContent(after, db.nextId) == RevisionContent(db, draft)
  {
    hide *;
    CommittedInSteps(db, head, draft);
    CommittedStore(db, head, draft);
    var after := Committed(db, head, draft);
    SameTablesSameContent(db, after, TablesOf(db, draft), draft, draft);
    SameTablesSameContent(db, after, TablesOf(db, draft), draft, db.nextId);
  }

  lemma SoundMeans(a: Db, b: Db)
    requires Sound(a, b)
    ensures LinksExist(b)
  {
  }

  lemma LockedLinks(db: Db, head: Id, draft: Id)
    ensures var locked := DraftLocked(db, draft, head);
      locked.revisions == db.revisions && locked.tableLinks == db.tableLinks && locked.nextId == db.nextId
  {
  }

  lemma LockThenAdvance(db: Db, locked: Db, after: Db, head: Id, draft: Id, tables: set<Id>)
    requires locked == DraftLocked(db, draft, head) && LocksExactly(db, locked, tables)
    requires RevisionsAdvance(locked, after, head, draft, locked.nextId, false)
    requires OtherLinksStay(locked, after, {draft, locked.nextId})
    requires after.tables == locked.tables && after.rows == locked.rows && after.rowLinks == locked.rowLinks
    ensures locked.nextId == db.nextId
    ensures RevisionsAdvance(db, after, head, draft, db.nextId, false)
    ensures OtherLinksStay(db, after, {draft, db.nextId}) && LocksExactly(db, after, tables)
  {
    LockedLinks(db, head, draft);
    hide DraftLocked, HeldBySome;
  }

  // ---- A new branch ------------------------------------------------------------------------

  // The branch starts with a Head after the source and a Draft after that Head; both link what the source links, have
  // no changes, and nothing else is touched.
  lemma BranchedResult(db: Db, source: Id) returns (branch: Id, head: Id, draft: Id)
    requires CanBranchFrom(db, source)
    ensures var after := BranchCreated(db, source);
      && (forall r | r in db.revisions :: db.revisions[r].branch != branch)
      && head !in db.revisions && draft !in db.revisions && head != draft
      && after.revisions == db.revisions[head := Revision(branch, true, false, true, false, Some(source))]
                                        [draft := Revision(branch, false, true, false, false, Some(head))]
      && TablesOf(after, head) == TablesOf(after, draft) == TablesOf(db, source)
      && OtherLinksStay(db, after, {head, draft})
      && after.tables == db.tables && after.rows == db.rows && after.rowLinks == db.rowLinks
  {
    branch, head, draft := db.nextId, db.nextId + 1, db.nextId + 2;
    hide *;
    BranchSource(db, source);
    SafeHasLinks(db);
    BranchedLinks(db, source);
    BranchedColumns(db, source);
  }

  lemma BranchedLinks(db: Db, source: Id)
    requires LinksExist(db) && IdsIssued(db)
    ensures var after, head, draft := BranchCreated(db, source), db.nextId + 1, db.nextId + 2;
      && TablesOf(after, head) == TablesOf(after, draft) == TablesOf(db, source)
      && OtherLinksStay(db, after, {head, draft})
  {
    BranchTables(db, source);
    NoOtherTables(db, source);
    NoLinksOfUnissued(db);
    hide BranchCreated, TablesOf, LinksExist, IdsIssued;
  }

  lemma BranchedColumns(db: Db, source: Id)
    requires IdsIssued(db)
    ensures var after, branch, head, draft := BranchCreated(db, source), db.nextId, db.nextId + 1, db.nextId + 2;
      && (forall r | r in db.revisions :: db.revisions[r].branch != branch)
      && head !in db.revisions && draft !in db.revisions && head != draft
      && after.revisions == db.revisions[head := Revision(branch, true, false, true, false, Some(source))]
                                        [draft := Revision(branch, false, true, false, false, Some(head))]
      && after.tables == db.tables && after.rows == db.rows && after.rowLinks == db.rowLinks
  {
    BranchLinks(db, source);
    hide BranchCreated;
  }

  lemma NoLinksOfUnissued(db: Db)
    requires LinksExist(db) && IdsIssued(db)
    ensures forall r: Id | db.nextId <= r :: TablesOf(db, r) == {}
  {
  }
}
