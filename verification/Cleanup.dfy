/** The garbage collection of versions: tables no revision links and no active migration shadows, then rows no
  * table links. Nothing reachable is lost, nothing unreachable is left, and a second run finds nothing. */
module Cleanup {
  import opened Wrappers
  import opened VersionStore
  import opened StatementSafety
  import opened StoreShape
  import opened VersionWriter
  import opened DraftWriteEffects

  predicate IsLinked(db: Db, t: Id) {
    exists l :: l in db.tableLinks && l.table == t
  }

  predicate IsShadow(db: Db, t: Id) {
    exists m :: m in db.migrations && m.active && m.shadow == Some(t)
  }

  predicate HasTable(db: Db, x: Id) {
    exists l :: l in db.rowLinks && l.row == x
  }

  function OrphanTables(db: Db): set<Id> {
    set t | t in db.tables && !IsLinked(db, t) && !IsShadow(db, t)
  }

  function OrphanRows(db: Db): set<Id> {
    set x | x in db.rows && !HasTable(db, x)
  }

  function Cleaned(db: Db): Db {
    var one := DeleteTables(db, OrphanTables(db));
    DeleteRows(one, OrphanRows(one))
  }

  class CleanupService {
    const transaction: Transaction

    constructor (transaction: Transaction)
      ensures this.transaction == transaction
    {
      this.transaction := transaction;
    }

    method DeleteOrphanTables() returns (count: nat)
      modifies transaction
      ensures var db := old(transaction.db);
        transaction.db == DeleteTables(db, OrphanTables(db)) && count == |OrphanTables(db)|
    {
      var orphans := OrphanTables(transaction.db);
      transaction.db := DeleteTables(transaction.db, orphans);
      count := |orphans|;
    }

    method DeleteOrphanRows() returns (count: nat)
      modifies transaction
      ensures var db := old(transaction.db);
        transaction.db == DeleteRows(db, OrphanRows(db)) && count == |OrphanRows(db)|
    {
      var orphans := OrphanRows(transaction.db);
      transaction.db := DeleteRows(transaction.db, orphans);
      count := |orphans|;
    }

    method CleanOrphanedData() returns (tables: nat, rows: nat)
      modifies transaction
      ensures transaction.db == Cleaned(old(transaction.db))
      ensures var db := old(transaction.db);
        tables == |OrphanTables(db)| && rows == |OrphanRows(DeleteTables(db, OrphanTables(db)))|
    {
      tables := DeleteOrphanTables();
      rows := DeleteOrphanRows();
    }
  }

  // ---- What is reachable -------------------------------------------------------------------

  // From any revision, or from an active migration whose shadow table exists.
  ghost predicate ReachableTable(db: Db, t: Id) {
    && t in db.tables
    && (|| (exists r :: TableLink(r, t) in db.tableLinks)
        || (exists m :: m in db.migrations && m.active && m.shadow == Some(t)))
  }

  ghost predicate ReachableRow(db: Db, x: Id) {
    exists t :: RowLink(x, t) in db.rowLinks && ReachableTable(db, t)
  }

  lemma CleanedTables(db: Db)
    requires LinksExist(db)
    ensures forall t :: t in Cleaned(db).tables <==> ReachableTable(db, t)
    ensures forall t | t in Cleaned(db).tables :: Cleaned(db).tables[t] == db.tables[t]
    ensures forall l :: l in Cleaned(db).rowLinks <==> l in db.rowLinks && ReachableTable(db, l.table)
    ensures Cleaned(db).tableLinks == db.tableLinks && Cleaned(db).revisions == db.revisions
  {
  }

  lemma CleanedRows(db: Db)
    requires LinksExist(db)
    ensures forall x :: x in Cleaned(db).rows <==> ReachableRow(db, x)
    ensures forall x | x in Cleaned(db).rows :: Cleaned(db).rows[x] == db.rows[x]
  {
  }

  // Exactly the reachable versions survive, with their columns and all links between them.
  lemma CleanupKeepsExactlyTheReachable(db: Db)
    requires LinksExist(db)
    ensures var after := Cleaned(db);
      && after.revisions == db.revisions && after.tableLinks == db.tableLinks
      && (forall t :: t in after.tables <==> ReachableTable(db, t))
      && (forall x :: x in after.rows <==> ReachableRow(db, x))
      && (forall t | t in after.tables :: after.tables[t] == db.tables[t] && RowsOf(after, t) == RowsOf(db, t))
      && (forall x | x in after.rows :: after.rows[x] == db.rows[x])
  {
    CleanedTables(db);
    CleanedRows(db);
    var after := Cleaned(db);
    hide Cleaned;
    forall t | t in after.tables
      ensures RowsOf(after, t) == RowsOf(db, t)
    {
      assert forall x: Id :: RowLink(x, t) in after.rowLinks <==> RowLink(x, t) in db.rowLinks;
      assert forall x: Id :: x in RowsOf(after, t) <==> RowLink(x, t) in after.rowLinks;
      assert forall x: Id :: x in RowsOf(db, t) <==> RowLink(x, t) in db.rowLinks;
    }
  }

  lemma NothingToClean(db: Db)
    requires OrphanTables(db) == {} && OrphanRows(db) == {}
    ensures Cleaned(db) == db
  {
    assert DeleteTables(db, {}) == db && DeleteRows(db, {}) == db;
  }

  // A second run deletes nothing.
  lemma CleanupIsIdempotent(db: Db)
    requires LinksExist(db)
    ensures OrphanTables(Cleaned(db)) == {} && OrphanRows(Cleaned(db)) == {}
    ensures Cleaned(Cleaned(db)) == Cleaned(db)
  {
    CleanedTables(db);
    CleanedRows(db);
    var after := Cleaned(db);
    assert after.migrations == db.migrations;
    hide Cleaned;
    forall t | t in after.tables
      ensures IsLinked(after, t) || IsShadow(after, t)
    {
    }
    forall x | x in after.rows
      ensures HasTable(after, x)
    {
      var t :| RowLink(x, t) in db.rowLinks && ReachableTable(db, t);
      assert RowLink(x, t) in after.rowLinks;
    }
    NothingToClean(after);
  }

  lemma CleanupIsSafe(db: Db)
    requires Safe(db)
    ensures Safe(Cleaned(db)) && KeepsCommitted(db, Cleaned(db))
  {
    var orphans := OrphanTables(db);
    var one := DeleteTables(db, orphans);
    assert forall l | l in db.tableLinks :: IsLinked(db, l.table);
    DeleteTablesIsSafe(db, orphans);
    assert forall l | l in one.rowLinks :: HasTable(one, l.row);
    DeleteRowsIsSafe(one, OrphanRows(one));
    assert Cleaned(db) == DeleteRows(one, OrphanRows(one));
    hide *;
    KeepsIsTransitive(db, one, DeleteRows(one, OrphanRows(one)));
  }

  lemma CleanupKeepsOwners(db: Db, after: Db)
    requires LinksExist(db) && RowIdentities(db) && MutableIsOwned(db) && LinksExist(after)
    requires after.tableLinks == db.tableLinks
    requires forall l | l in after.rowLinks :: l in db.rowLinks && after.rows[l.row] == db.rows[l.row]
    requires forall t | t in after.tables :: t in db.tables && after.tables[t] == db.tables[t]
    ensures RowIdentities(after) && MutableIsOwned(after)
  {
  }

  lemma CleanupKeepsTables(db: Db, after: Db)
    requires LinksExist(db) && TableIdentities(db) && FlagsExact(db) && LinksExist(after)
    requires after.tableLinks == db.tableLinks && after.revisions == db.revisions
    requires forall t | t in after.tables :: t in db.tables && after.tables[t] == db.tables[t]
    ensures TableIdentities(after) && FlagsExact(after)
  {
    assert forall r :: TablesOf(after, r) == TablesOf(db, r);
    hide TablesOf;
  }

  lemma CleanedIsPart(db: Db)
    requires LinksExist(db) && LinksExist(Cleaned(db))
    ensures var after := Cleaned(db);
      && after.tableLinks == db.tableLinks && after.revisions == db.revisions
      && (forall t | t in after.tables :: t in db.tables && after.tables[t] == db.tables[t])
      && (forall l | l in after.rowLinks :: l in db.rowLinks && after.rows[l.row] == db.rows[l.row])
  {
    CleanedTables(db);
    CleanedRows(db);
    hide Cleaned;
  }

  lemma CleanupIsSound(db: Db)
    requires Guarded(db)
    ensures Sound(db, Cleaned(db))
  {
    var after := Cleaned(db);
    hide *;
    GuardedParts(db);
    CleanupIsSafe(db);
    SafeHasLinks(after);
    CleanedIsPart(db);
    CleanupKeepsOwners(db, after);
    GuardedOf(after);
    if Consistent(db) {
      ConsistentParts(db);
      CleanupKeepsTables(db, after);
      ConsistentOf(after);
    }
    SoundOf(db, after);
  }
}
