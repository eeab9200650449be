/** The relational store: revisions, table versions, row versions and the two link tables.
  * Every function below is one SQL statement, seen as the relation it computes. */
module VersionStore {
  import opened Wrappers

  // Ids come from one counter, so a generated id is never in use already.
  type Id = nat

  datatype TableVersion = TableVersion(
    createdId: Id, id: string, readonly: bool, system: bool, createdAt: int)

  datatype RowColumns = RowColumns(
    id: string, data: string, meta: string, hash: string, schemaHash: string,
    createdAt: int, publishedAt: int)

  datatype RowVersion = RowVersion(createdId: Id, readonly: bool, columns: RowColumns)

  datatype NewRow = NewRow(createdId: Id, columns: RowColumns)

  datatype Revision = Revision(
    branch: Id, isHead: bool, isDraft: bool, isStart: bool, hasChanges: bool, parent: Option<Id>)

  datatype RowLink = RowLink(row: Id, table: Id)

  datatype TableLink = TableLink(revision: Id, table: Id)

  datatype Migration = Migration(shadow: Option<Id>, active: bool)

  datatype Db = Db(
    revisions: map<Id, Revision>,
    tables: map<Id, TableVersion>,
    rows: map<Id, RowVersion>,
    tableLinks: set<TableLink>,
    rowLinks: set<RowLink>,
    migrations: set<Migration>,
    nextId: Id)

  function RowsOf(db: Db, table: Id): set<Id> {
    set l | l in db.rowLinks && l.table == table :: l.row
  }

  function TablesOf(db: Db, revision: Id): set<Id> {
    set l | l in db.tableLinks && l.revision == revision :: l.table
  }

  // ---- Statements on table versions -------------------------------------------------------

  function InsertTable(db: Db, table: TableVersion): Db {
    db.(tables := db.tables[db.nextId := table], nextId := db.nextId + 1)
  }

  function UpdateTable(db: Db, version: Id, table: TableVersion): Db {
    db.(tables := db.tables[version := table])
  }

  function LockTables(db: Db, versions: set<Id>): Db {
    db.(tables := map t | t in db.tables ::
      if t in versions then db.tables[t].(readonly := true) else db.tables[t])
  }

  // The foreign keys of both link tables cascade.
  function DeleteTables(db: Db, versions: set<Id>): Db {
    db.(tables := db.tables - versions,
        tableLinks := (set l | l in db.tableLinks && l.table !in versions),
        rowLinks := (set l | l in db.rowLinks && l.table !in versions))
  }

  // ---- Statements on row versions ---------------------------------------------------------

  predicate IsFrom(x: Id, first: Id, count: nat) {
    first <= x < first + count
  }

  function IdsFrom(first: Id, count: nat): set<Id> {
    set x: Id | first <= x < first + count && IsFrom(x, first, count)
  }

  function NewRowVersions(first: Id, rows: seq<NewRow>, readonly: bool): map<Id, RowVersion> {
    map x | x in IdsFrom(first, |rows|) ::
      RowVersion(rows[x - first].createdId, readonly, rows[x - first].columns)
  }

  function InsertRows(db: Db, table: Id, rows: seq<NewRow>, readonly: bool): Db {
    db.(rows := db.rows + NewRowVersions(db.nextId, rows, readonly),
        rowLinks := db.rowLinks + (set x | x in IdsFrom(db.nextId, |rows|) :: RowLink(x, table)),
        nextId := db.nextId + |rows|)
  }

  function UpdateRow(db: Db, version: Id, row: RowVersion): Db {
    db.(rows := db.rows[version := row])
  }

  function LockRows(db: Db, versions: set<Id>): Db {
    db.(rows := map x | x in db.rows ::
      if x in versions then db.rows[x].(readonly := true) else db.rows[x])
  }

  function DeleteRows(db: Db, versions: set<Id>): Db {
    db.(rows := db.rows - versions,
        rowLinks := (set l | l in db.rowLinks && l.row !in versions))
  }

  function LinkRows(db: Db, table: Id, rows: set<Id>): Db {
    db.(rowLinks := db.rowLinks + (set x | x in rows :: RowLink(x, table)))
  }

  function UnlinkRows(db: Db, table: Id, rows: set<Id>): Db {
    db.(rowLinks := (set l | l in db.rowLinks && !(l.table == table && l.row in rows)))
  }

  // ---- Statements on revisions ------------------------------------------------------------

  function InsertRevision(db: Db, revision: Revision, tables: set<Id>): Db {
    db.(revisions := db.revisions[db.nextId := revision],
        tableLinks := db.tableLinks + (set t | t in tables :: TableLink(db.nextId, t)),
        nextId := db.nextId + 1)
  }

  function UpdateRevision(db: Db, id: Id, revision: Revision): Db {
    db.(revisions := db.revisions[id := revision])
  }

  function SetTables(db: Db, id: Id, tables: set<Id>): Db {
    db.(tableLinks := (set l | l in db.tableLinks && l.revision != id) + (set t | t in tables :: TableLink(id, t)))
  }

  // ---- What is committed ------------------------------------------------------------------

  ghost predicate CommittedRevision(db: Db, r: Id) {
    r in db.revisions && !db.revisions[r].isDraft
  }

  ghost predicate CommittedTable(db: Db, t: Id) {
    exists r :: TableLink(r, t) in db.tableLinks && CommittedRevision(db, r)
  }

  ghost predicate CommittedRow(db: Db, x: Id) {
    exists t :: RowLink(x, t) in db.rowLinks && CommittedTable(db, t)
  }

  // The three checksums of the repository's own guard, compared between two states.
  ghost predicate KeepsRevisions(a: Db, b: Db) {
    forall r | CommittedRevision(a, r) ::
      CommittedRevision(b, r) && TablesOf(b, r) == TablesOf(a, r)
  }

  ghost predicate KeepsTables(a: Db, b: Db) {
    forall t | CommittedTable(a, t) ::
      t in a.tables && t in b.tables && b.tables[t] == a.tables[t] && RowsOf(b, t) == RowsOf(a, t)
  }

  ghost predicate KeepsRows(a: Db, b: Db) {
    forall x | CommittedRow(a, x) ::
      x in a.rows && x in b.rows && b.rows[x] == a.rows[x]
  }

  ghost predicate KeepsCommitted(a: Db, b: Db) {
    KeepsRevisions(a, b) && KeepsTables(a, b) && KeepsRows(a, b)
  }

  // ---- The invariant that makes it so -----------------------------------------------------

  ghost predicate LinksExist(db: Db) {
    && (forall l | l in db.rowLinks :: l.row in db.rows && l.table in db.tables)
    && (forall l | l in db.tableLinks :: l.revision in db.revisions && l.table in db.tables)
  }

  ghost predicate IdsIssued(db: Db) {
    && (forall r | r in db.revisions :: r < db.nextId && db.revisions[r].branch < db.nextId)
    && (forall t | t in db.tables :: t < db.nextId && db.tables[t].createdId < db.nextId)
    && (forall x | x in db.rows :: x < db.nextId && db.rows[x].createdId < db.nextId)
  }

  ghost predicate ReadonlyRows(db: Db)
    requires LinksExist(db)
  {
    forall l | l in db.rowLinks :: db.tables[l.table].readonly ==> db.rows[l.row].readonly
  }

  ghost predicate CommittedLocked(db: Db)
    requires LinksExist(db)
  {
    forall l | l in db.tableLinks :: !db.revisions[l.revision].isDraft ==> db.tables[l.table].readonly
  }

  ghost predicate Safe(db: Db) {
    LinksExist(db) && IdsIssued(db) && ReadonlyRows(db) && CommittedLocked(db)
  }

  lemma CommittedIsReadonly(db: Db)
    requires Safe(db)
    ensures forall t | CommittedTable(db, t) :: t in db.tables && db.tables[t].readonly
    ensures forall x | CommittedRow(db, x) :: x in db.rows && db.rows[x].readonly
  {
  }

  lemma KeepsIsTransitive(a: Db, b: Db, c: Db)
    requires KeepsCommitted(a, b) && KeepsCommitted(b, c)
    ensures KeepsCommitted(a, c)
  {
    forall t | CommittedTable(a, t)
      ensures CommittedTable(b, t)
    {
      var r :| TableLink(r, t) in a.tableLinks && CommittedRevision(a, r);
      assert t in TablesOf(a, r);
    }
    forall x | CommittedRow(a, x)
      ensures CommittedRow(b, x)
    {
      var t :| RowLink(x, t) in a.rowLinks && CommittedTable(a, t);
      assert x in RowsOf(a, t);
    }
  }
}
