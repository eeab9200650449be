/** The native writes of a Draft: copy on write for tables and rows, and the flag each write leaves.
  * Checks of public ids and payloads only refuse more writes; they are not repeated here. */
module DraftWrites {
  import opened Wrappers
  import opened VersionStore
  import opened VersionWriter
  import opened ContentDiff

  const NO_CHANGES := RowLinkChanges([], [], [])

  predicate IsDraft(db: Db, d: Id) {
    d in db.revisions && db.revisions[d].isDraft
  }

  predicate InDraft(db: Db, d: Id, t: Id) {
    IsDraft(db, d) && t in db.tables && TableLink(d, t) in db.tableLinks
  }

  // ---- Copy on write -----------------------------------------------------------------------

  function TouchedTable(db: Db, t: Id): Id
    requires t in db.tables
  {
    if db.tables[t].readonly then db.nextId else t
  }

  function TouchTable(db: Db, d: Id, t: Id): Db
    requires t in db.tables
  {
    if db.tables[t].readonly then
      SetTables(Copied(db, t, NO_CHANGES, false), d, TablesOf(db, d) - {t} + {db.nextId})
    else
      db
  }

  function TouchedRow(db: Db, x: Id): Id
    requires x in db.rows
  {
    if db.rows[x].readonly then db.nextId else x
  }

  function TouchRow(db: Db, t: Id, x: Id): Db
    requires x in db.rows
  {
    if db.rows[x].readonly then
      UnlinkRows(InsertRows(db, t, [NewRow(db.rows[x].createdId, db.rows[x].columns)], false), t, {x})
    else
      db
  }

  function WithFlag(db: Db, d: Id, hasChanges: bool): Db
    requires d in db.revisions
  {
    UpdateRevision(db, d, db.revisions[d].(hasChanges := hasChanges))
  }

  // ---- The writes --------------------------------------------------------------------------

  function CreateTable(db: Db, d: Id, id: string, system: bool, createdAt: int): Db
    requires IsDraft(db, d)
  {
    var named := db.(nextId := db.nextId + 1);
    var created := InsertTable(named, TableVersion(db.nextId, id, false, system, createdAt));
    WithFlag(SetTables(created, d, TablesOf(db, d) + {named.nextId}), d, true)
  }

  function RenameTable(db: Db, d: Id, t: Id, id: string): Db
    requires InDraft(db, d, t)
  {
    var touched, v := TouchTable(db, d, t), TouchedTable(db, t);
    WithFlag(UpdateTable(touched, v, touched.tables[v].(id := id)), d, true)
  }

  function IdentifiedRows(first: Id, rows: seq<RowColumns>): seq<NewRow> {
    seq(|rows|, i requires 0 <= i < |rows| => NewRow(first + i, rows[i]))
  }

  function CreateRows(db: Db, d: Id, t: Id, rows: seq<RowColumns>): Db
    requires InDraft(db, d, t)
  {
    var touched, v := TouchTable(db, d, t), TouchedTable(db, t);
    var named := touched.(nextId := touched.nextId + |rows|);
    WithFlag(InsertRows(named, v, IdentifiedRows(touched.nextId, rows), false), d, true)
  }

  // Both updating a row's data and renaming it.
  function UpdateRowColumns(db: Db, d: Id, t: Id, x: Id, columns: RowColumns): Db
    requires InDraft(db, d, t) && x in db.rows
  {
    var touched, v := TouchTable(db, d, t), TouchedTable(db, t);
    assert x in touched.rows;
    var own, y := TouchRow(touched, v, x), TouchedRow(touched, x);
    assert y in own.rows by {
      assert IsFrom(touched.nextId, touched.nextId, 1);
    }
    WithFlag(UpdateRow(own, y, own.rows[y].(columns := columns)), d, true)
  }

  // Row versions of one table identity in a revision, and the version join over them.
  function RowsOfIdentity(db: Db, identity: Id, revision: Id): set<Id> {
    set l | l in db.rowLinks && l.table in db.tables && db.tables[l.table].createdId == identity
            && TableLink(revision, l.table) in db.tableLinks :: l.row
  }

  predicate RowVersionsDiffer(db: Db, x: Id, y: Id)
    requires x in db.rows && y in db.rows
  {
    db.rows[x].createdId == db.rows[y].createdId && x != y
  }

  predicate HasRowDiffs(db: Db, identity: Id, from: Id, to: Id)
    requires LinksExist(db)
  {
    var parents, children := RowsOfIdentity(db, identity, from), RowsOfIdentity(db, identity, to);
    || (exists x :: x in children && !HasPartner(db, x, parents))
    || (exists x :: x in parents && !HasPartner(db, x, children))
    || (exists x, y :: x in parents && y in children && RowVersionsDiffer(db, x, y))
  }

  // What looking for the public id of t in the parent returns: a table of that id, or none if there is none.
  ghost predicate FoundInParent(db: Db, d: Id, t: Id, named: Option<Id>) {
    && t in db.tables && d in db.revisions && db.revisions[d].parent.Some?
    && var p := db.revisions[d].parent.value;
    && (named.Some? ==>
          && named.value in db.tables && db.tables[named.value].id == db.tables[t].id
          && TableLink(p, named.value) in db.tableLinks)
    && (named.None? ==>
          forall s | s in db.tables && TableLink(p, s) in db.tableLinks :: db.tables[s].id != db.tables[t].id)
  }

  // Without row differences the Draft goes back to the parent's table of that name; then the flag is recomputed.
  function RevertTable(db: Db, d: Id, t: Id, named: Option<Id>): Db
    requires LinksExist(db) && t in db.tables && d in db.revisions && db.revisions[d].parent.Some?
  {
    if named.None? || HasRowDiffs(db, db.tables[t].createdId, db.revisions[d].parent.value, d) then
      db
    else
      SetTables(db, d, TablesOf(db, d) - {t} + {named.value})
  }

  function WithComputedFlag(db: Db, d: Id): Db
    requires LinksExist(db) && d in db.revisions && db.revisions[d].parent.Some?
  {
    WithFlag(db, d, HasTableDiffs(db, db.revisions[d].parent.value, d))
  }

  // Own row versions are deleted, shared ones unlinked.
  function WithoutRows(db: Db, t: Id, rows: set<Id>): Db {
    var own := set x | x in rows && x in db.rows && !db.rows[x].readonly;
    UnlinkRows(DeleteRows(db, own), t, rows - own)
  }

  // Rows that no other table version holds go with the table.
  function OrphansOf(db: Db, t: Id): set<Id> {
    set l | l in db.rowLinks && l.table == t && (forall k :: k in db.rowLinks && k.row == l.row ==> k.table == t) ::
      l.row
  }

  function WithoutTable(db: Db, d: Id, t: Id): Db
    requires t in db.tables
  {
    if db.tables[t].readonly then
      SetTables(db, d, TablesOf(db, d) - {t})
    else
      DeleteTables(DeleteRows(db, OrphansOf(db, t)), {t})
  }
}
