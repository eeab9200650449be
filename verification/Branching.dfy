/** Creating a branch from a committed revision: a start Head and its Draft that link the revision's tables. */
module Branching {
  import opened Wrappers
  import opened VersionStore
  import opened StatementSafety
  import opened StoreShape
  import opened VersionWriter
  import opened DraftWrites
  import opened DraftWriteEffects

  datatype BranchError = RevisionMissing | RevisionIsDraft

  function BranchCreated(db: Db, source: Id): Db {
    var tables := TablesOf(db, source);
    var named := db.(nextId := db.nextId + 1);
    var one := InsertRevision(named, BranchHead(db.nextId, Some(source)), tables);
    InsertRevision(one, NextDraft(db.nextId, named.nextId), tables)
  }

  class CreateBranchByRevisionIdHandler {
    const transaction: Transaction

    constructor (transaction: Transaction)
      ensures this.transaction == transaction
    {
      this.transaction := transaction;
    }

    method Execute(source: Id) returns (r: Result<Id, BranchError>)
      modifies transaction
      ensures var db := old(transaction.db);
        && (r == Failure(RevisionMissing) <==> source !in db.revisions)
        && (r == Failure(RevisionIsDraft) <==> IsDraft(db, source))
        && transaction.db == (if r.Success? then BranchCreated(db, source) else db)
      ensures r.Success? ==> r.value == old(transaction.db).nextId
    {
      if source !in transaction.db.revisions {
        return Failure(RevisionMissing);
      }
      if transaction.db.revisions[source].isDraft {
        return Failure(RevisionIsDraft);
      }
      var tables := TablesOf(transaction.db, source);
      var branch := transaction.db.nextId;
      transaction.db := transaction.db.(nextId := branch + 1);
      var head := transaction.db.nextId;
      transaction.db := InsertRevision(transaction.db, Revision(branch, true, false, true, false, Some(source)),
                                       tables);
      transaction.db := InsertRevision(transaction.db, Revision(branch, false, true, false, false, Some(head)), tables);
      r := Success(branch);
    }
  }

  ghost predicate CanBranchFrom(db: Db, source: Id) {
    Guarded(db) && source in db.revisions && !db.revisions[source].isDraft
  }

  lemma BranchSource(db: Db, source: Id)
    requires CanBranchFrom(db, source)
    ensures Safe(db) && History(db.revisions) && source in db.revisions && !db.revisions[source].isDraft
  {
  }

  lemma SourceTables(db: Db, source: Id)
    requires CanBranchFrom(db, source)
    ensures TablesOf(db, source) <= db.tables.Keys
    ensures forall t | t in TablesOf(db, source) :: db.tables[t].readonly
  {
  }

  lemma BranchIsSafe(db: Db, source: Id)
    requires CanBranchFrom(db, source)
    ensures Safe(BranchCreated(db, source)) && KeepsCommitted(db, BranchCreated(db, source))
  {
    var tables := TablesOf(db, source);
    var named := db.(nextId := db.nextId + 1);
    var head := BranchHead(db.nextId, Some(source));
    var one := InsertRevision(named, head, tables);
    var draft := NextDraft(db.nextId, named.nextId);
    hide *;
    BranchInSteps(db, source);
    BranchSource(db, source);
    SourceTables(db, source);
    IssuedIdsAreSafe(db, 1);
    BranchStepsAreReady(db, source, tables);
    InsertRevisionIsSafe(named, head, tables);
    InsertRevisionIsSafe(one, draft, tables);
    KeepsIsTransitive(db, named, one);
    KeepsIsTransitive(db, one, InsertRevision(one, draft, tables));
  }

  lemma BranchInSteps(db: Db, source: Id)
    ensures var tables, named := TablesOf(db, source), db.(nextId := db.nextId + 1);
      BranchCreated(db, source)
        == InsertRevision(InsertRevision(named, BranchHead(db.nextId, Some(source)), tables),
                          NextDraft(db.nextId, named.nextId), tables)
  {
  }

  lemma BranchStepsAreReady(db: Db, source: Id, tables: set<Id>)
    requires tables <= db.tables.Keys && forall t | t in tables :: db.tables[t].readonly
    ensures var named := db.(nextId := db.nextId + 1);
      var head, draft := BranchHead(db.nextId, Some(source)), NextDraft(db.nextId, named.nextId);
      var one := InsertRevision(named, head, tables);
      && tables <= named.tables.Keys && tables <= one.tables.Keys
      && head.branch < named.nextId && draft.branch < one.nextId && !head.isDraft && draft.isDraft
      && (forall t | t in tables :: named.tables[t].readonly)
  {
  }

  // Three ids are issued: the branch, its Head and its Draft.
  lemma BranchLinks(db: Db, source: Id)
    ensures var after := BranchCreated(db, source);
      && after.tables == db.tables && after.rows == db.rows && after.rowLinks == db.rowLinks
      && after.revisions == Branched(db.revisions, db.nextId, Some(source), db.nextId + 1)
      && (forall l | l in db.tableLinks :: l in after.tableLinks)
      && (forall t | t in TablesOf(db, source) ::
            TableLink(db.nextId + 1, t) in after.tableLinks && TableLink(db.nextId + 2, t) in after.tableLinks)
      && (forall l | l in after.tableLinks && l !in db.tableLinks ::
            (l.revision == db.nextId + 1 || l.revision == db.nextId + 2) && l.table in TablesOf(db, source))
  {
  }

  lemma BranchTables(db: Db, source: Id)
    requires LinksExist(db) && IdsIssued(db)
    ensures var after := BranchCreated(db, source);
      && TablesOf(after, db.nextId + 1) == TablesOf(db, source)
         && TablesOf(after, db.nextId + 2) == TablesOf(db, source)
      && (forall r: Id | r < db.nextId :: TablesOf(after, r) == TablesOf(db, r))
  {
  }

  lemma BranchHistory(db: Db, source: Id)
    requires CanBranchFrom(db, source)
    ensures History(Branched(db.revisions, db.nextId, Some(source), db.nextId + 1))
  {
    hide *;
    BranchSource(db, source);
    SafeHasLinks(db);
    NewBranch(db, source);
    BranchKeepsHistory(db.revisions, db.nextId, Some(source), db.nextId + 1);
  }

  lemma NewBranch(db: Db, source: Id)
    requires IdsIssued(db) && History(db.revisions) && source in db.revisions && !db.revisions[source].isDraft
    ensures CanBranch(db.revisions, db.nextId, Some(source), db.nextId + 1)
  {
    hide History;
  }

  lemma BranchRows(db: Db, source: Id)
    requires LinksExist(db) && RowIdentities(db) && LinksExist(BranchCreated(db, source))
    ensures RowIdentities(BranchCreated(db, source))
  {
    BranchLinks(db, source);
    hide BranchCreated;
  }

  lemma BranchOwners(db: Db, source: Id)
    requires LinksExist(db) && MutableIsOwned(db) && LinksExist(BranchCreated(db, source))
    requires TablesOf(db, source) <= db.tables.Keys && forall t | t in TablesOf(db, source) :: db.tables[t].readonly
    ensures MutableIsOwned(BranchCreated(db, source))
  {
    BranchLinks(db, source);
    hide BranchCreated, TablesOf;
  }

  // A revision links after the branching what it, or its source, linked before.
  lemma BranchTableIdentities(db: Db, after: Db, source: Id)
    requires LinksExist(db) && TableIdentities(db) && LinksExist(after) && after.tables == db.tables
    requires forall r: Id :: TablesOf(after, r) == {} || TablesOf(after, r) == TablesOf(db, r)
                             || TablesOf(after, r) == TablesOf(db, source)
    ensures TableIdentities(after)
  {
    forall k, l | k in after.tableLinks && l in after.tableLinks && k.revision == l.revision
                  && after.tables[k.table].createdId == after.tables[l.table].createdId
      ensures k.table == l.table
    {
      LinkedInSource(db, after, source, k.revision, k.table, l.table);
    }
  }

  lemma LinkedInSource(db: Db, after: Db, source: Id, r: Id, s: Id, t: Id)
    requires LinksExist(db) && TableIdentities(db) && after.tables == db.tables
    requires TablesOf(after, r) == {} || TablesOf(after, r) == TablesOf(db, r)
       || TablesOf(after, r) == TablesOf(db, source)
    requires TableLink(r, s) in after.tableLinks && TableLink(r, t) in after.tableLinks
    ensures s in db.tables && t in db.tables
    ensures db.tables[s].createdId == db.tables[t].createdId ==> s == t
  {
    assert s in TablesOf(after, r) && t in TablesOf(after, r);
  }

  lemma BranchIdentities(db: Db, source: Id)
    requires Safe(db) && LinksExist(db) && TableIdentities(db) && LinksExist(BranchCreated(db, source))
    ensures TableIdentities(BranchCreated(db, source))
  {
    SafeHasLinks(db);
    hide *;
    BranchTables(db, source);
    NoOtherTables(db, source);
    BranchTableIdentities(db, BranchCreated(db, source), source);
  }

  lemma NoOtherTables(db: Db, source: Id)
    requires LinksExist(db) && IdsIssued(db)
    ensures BranchCreated(db, source).tables == db.tables
    ensures forall r: Id | r == db.nextId || db.nextId + 2 < r :: TablesOf(BranchCreated(db, source), r) == {}
  {
    BranchLinks(db, source);
    hide BranchCreated;
  }

  lemma BranchFlags(db: Db, source: Id)
    requires Safe(db) && History(db.revisions) && FlagsExact(db)
    ensures FlagsExact(BranchCreated(db, source))
  {
    hide *;
    SafeHasLinks(db);
    IssuedRevisions(db);
    HistoryIsChained(db.revisions);
    BranchTables(db, source);
    BranchRevisions(db, source);
    BranchFlagsStay(db, BranchCreated(db, source), db.nextId);
  }

  lemma HistoryIsChained(revisions: map<Id, Revision>)
    requires History(revisions)
    ensures Chained(revisions)
  {
  }

  lemma IssuedRevisions(db: Db)
    requires Safe(db)
    ensures forall r | r in db.revisions :: r < db.nextId
  {
  }

  lemma BranchRevisions(db: Db, source: Id)
    ensures BranchCreated(db, source).revisions == Branched(db.revisions, db.nextId, Some(source), db.nextId + 1)
    ensures var after, next := BranchCreated(db, source).revisions, db.nextId;
      && (forall r | r in after :: r == next + 1 || r == next + 2 || (r in db.revisions && after[r] == db.revisions[r]))
      && next + 2 in after && after[next + 2].parent == Some(next + 1) && !after[next + 2].hasChanges
      && next + 1 in after && !after[next + 1].isDraft
  {
  }

  lemma BranchFlagsStay(db: Db, after: Db, next: Id)
    requires Chained(db.revisions) && FlagsExact(db) && forall r | r in db.revisions :: r < next
    requires forall r | r in after.revisions ::
      r == next + 1 || r == next + 2 || (r in db.revisions && after.revisions[r] == db.revisions[r])
    requires next + 2 in after.revisions && after.revisions[next + 2].parent == Some(next + 1)
    requires !after.revisions[next + 2].hasChanges && next + 1 in after.revisions && !after.revisions[next + 1].isDraft
    requires TablesOf(after, next + 1) == TablesOf(after, next + 2)
    requires forall r: Id | r < next :: TablesOf(after, r) == TablesOf(db, r)
    ensures FlagsExact(after)
  {
    hide TablesOf;
    forall e | e in after.revisions && after.revisions[e].isDraft && after.revisions[e].parent.Some?
      ensures after.revisions[e].hasChanges <==> TablesOf(after, e) != TablesOf(after, after.revisions[e].parent.value)
    {
      if e < next {
        assert WellPlaced(db.revisions, e);
      }
    }
  }

  // A new branch leaves everything committed alone, starts with the content of its source, and has no changes.
  lemma BranchIsSound(db: Db, source: Id)
    requires CanBranchFrom(db, source)
    ensures Sound(db, BranchCreated(db, source))
  {
    var after := BranchCreated(db, source);
    assert Guarded(db);
    hide *;
    GuardedParts(db);
    BranchIsSafe(db, source);
    SafeHasLinks(after);
    SourceTables(db, source);
    BranchRows(db, source);
    BranchOwners(db, source);
    BranchHistory(db, source);
    BranchRevisions(db, source);
    GuardedOf(after);
    if Consistent(db) {
      ConsistentParts(db);
      BranchIdentities(db, source);
      BranchFlags(db, source);
      ConsistentOf(after);
    }
    SoundOf(db, after);
  }
}
