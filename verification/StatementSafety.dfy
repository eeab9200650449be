/** Each statement on its own: when it keeps the store safe and everything committed as it was. */
module StatementSafety {
  import opened VersionStore

  lemma InsertTableIsSafe(db: Db, table: TableVersion)
    requires Safe(db) && table.createdId < db.nextId
    ensures Safe(InsertTable(db, table))
    ensures KeepsCommitted(db, InsertTable(db, table))
  {
    CommittedIsReadonly(db);
  }

  lemma UpdateTableIsSafe(db: Db, version: Id, table: TableVersion)
    requires Safe(db) && version in db.tables && table.createdId < db.nextId
    requires !db.tables[version].readonly && !table.readonly
    ensures Safe(UpdateTable(db, version, table))
    ensures KeepsCommitted(db, UpdateTable(db, version, table))
  {
  }

  lemma LockTablesIsSafe(db: Db, versions: set<Id>)
    requires Safe(db)
    requires forall l | l in db.rowLinks && l.table in versions :: db.rows[l.row].readonly
    ensures Safe(LockTables(db, versions))
    ensures KeepsCommitted(db, LockTables(db, versions))
  {
    CommittedIsReadonly(db);
  }

  lemma DeleteTablesIsSafe(db: Db, versions: set<Id>)
    requires Safe(db)
    requires forall l | l in db.tableLinks && l.table in versions :: db.revisions[l.revision].isDraft
    ensures Safe(DeleteTables(db, versions))
    ensures KeepsCommitted(db, DeleteTables(db, versions))
  {
    CommittedIsReadonly(db);
  }

  lemma InsertRowsIsSafe(db: Db, table: Id, rows: seq<NewRow>, readonly: bool)
    requires Safe(db) && table in db.tables && !db.tables[table].readonly
    requires forall i | 0 <= i < |rows| :: rows[i].createdId < db.nextId
    ensures Safe(InsertRows(db, table, rows, readonly))
    ensures KeepsCommitted(db, InsertRows(db, table, rows, readonly))
  {
    CommittedIsReadonly(db);
  }

  lemma UpdateRowIsSafe(db: Db, version: Id, row: RowVersion)
    requires Safe(db) && version in db.rows && row.createdId < db.nextId
    requires !db.rows[version].readonly && !row.readonly
    ensures Safe(UpdateRow(db, version, row))
    ensures KeepsCommitted(db, UpdateRow(db, version, row))
  {
  }

  lemma LockRowsIsSafe(db: Db, versions: set<Id>)
    requires Safe(db)
    ensures Safe(LockRows(db, versions))
    ensures KeepsCommitted(db, LockRows(db, versions))
  {
    CommittedIsReadonly(db);
  }

  lemma DeleteRowsIsSafe(db: Db, versions: set<Id>)
    requires Safe(db)
    requires forall l | l in db.rowLinks && l.row in versions :: !CommittedTable(db, l.table)
    ensures Safe(DeleteRows(db, versions))
    ensures KeepsCommitted(db, DeleteRows(db, versions))
  {
    CommittedIsReadonly(db);
  }

  lemma LinkRowsIsSafe(db: Db, table: Id, rows: set<Id>)
    requires Safe(db) && table in db.tables && !db.tables[table].readonly && rows <= db.rows.Keys
    ensures Safe(LinkRows(db, table, rows))
    ensures KeepsCommitted(db, LinkRows(db, table, rows))
  {
    CommittedIsReadonly(db);
  }

  lemma UnlinkRowsIsSafe(db: Db, table: Id, rows: set<Id>)
    requires Safe(db) && (table in db.tables ==> !db.tables[table].readonly)
    ensures Safe(UnlinkRows(db, table, rows))
    ensures KeepsCommitted(db, UnlinkRows(db, table, rows))
  {
  }

  lemma InsertRevisionIsSafe(db: Db, revision: Revision, tables: set<Id>)
    requires Safe(db) && tables <= db.tables.Keys && revision.branch < db.nextId
    requires !revision.isDraft ==> forall t | t in tables :: db.tables[t].readonly
    ensures Safe(InsertRevision(db, revision, tables))
    ensures KeepsCommitted(db, InsertRevision(db, revision, tables))
  {
    CommittedIsReadonly(db);
  }

  // A draft becomes committed only with locked tables.
  lemma UpdateRevisionIsSafe(db: Db, id: Id, revision: Revision)
    requires Safe(db) && id in db.revisions && revision.branch < db.nextId
    requires revision.isDraft ==> db.revisions[id].isDraft
    requires !revision.isDraft ==> forall t | t in TablesOf(db, id) :: db.tables[t].readonly
    ensures Safe(UpdateRevision(db, id, revision))
    ensures KeepsCommitted(db, UpdateRevision(db, id, revision))
  {
    CommittedIsReadonly(db);
    assert forall l | l in db.tableLinks && l.revision == id :: l.table in TablesOf(db, id);
  }

  lemma SetTablesIsSafe(db: Db, id: Id, tables: set<Id>)
    requires Safe(db) && id in db.revisions && db.revisions[id].isDraft && tables <= db.tables.Keys
    ensures Safe(SetTables(db, id, tables))
    ensures KeepsCommitted(db, SetTables(db, id, tables))
  {
    CommittedIsReadonly(db);
  }

  lemma SetSameTables(db: Db, id: Id)
    ensures SetTables(db, id, TablesOf(db, id)) == db
  {
  }
}
