/** AssembledVersionWriter: copies a table version, edits one in place, inserts new rows in batches,
  * and locks what is linked into Head. */
module VersionWriter {
  import opened Wrappers
  import opened VersionStore

  const NEW_ROWS_BATCH_SIZE := 5000

  datatype RowLinkChanges = RowLinkChanges(removed: seq<Id>, added: seq<Id>, newRows: seq<NewRow>)

  datatype AssembledTableVersion = AssembledTableVersion(versionId: Id, newRowVersionIds: seq<Id>)

  datatype WriteError = TableVersionMissing(versionId: Id) | NoVersionOn(identity: Id) | ConstraintViolation

  // ---- What the operations promise ---------------------------------------------------------

  function Elements(ids: seq<Id>): set<Id> {
    set x | x in ids
  }

  function NewIds(db: Db, count: nat): seq<Id> {
    seq(count, i => db.nextId + i)
  }

  // The existing rows a table version with rows `base` ends up with.
  function TargetRows(base: set<Id>, changes: RowLinkChanges): set<Id> {
    (base - Elements(changes.removed)) + Elements(changes.added)
  }

  predicate Distinct(ids: seq<Id>) {
    forall i, j :: 0 <= i < j < |ids| ==> ids[i] != ids[j]
  }

  // The links can be inserted: no primary key twice and no row that does not exist.
  predicate CanLink(db: Db, kept: set<Id>, added: seq<Id>) {
    Distinct(added) && Elements(added) !! kept && Elements(added) <= db.rows.Keys
  }

  predicate CanCopy(db: Db, source: Id, changes: RowLinkChanges) {
    source in db.tables && CanLink(db, RowsOf(db, source) - Elements(changes.removed), changes.added)
  }

  predicate CanEdit(db: Db, version: Id, changes: RowLinkChanges) {
    && CanLink(db, RowsOf(db, version) - Elements(changes.removed), changes.added)
    && (version in db.tables || (changes.added == [] && changes.newRows == []))
  }

  function WithRowLinks(db: Db, table: Id, rows: set<Id>): set<RowLink> {
    (set l | l in db.rowLinks && l.table != table) + (set x | x in rows :: RowLink(x, table))
  }

  // The links of a copy: the target rows of the source's, and the new rows right after the copy's id.
  function CopiedLinks(db: Db, source: Id, changes: RowLinkChanges): set<RowLink> {
    set x | x in TargetRows(RowsOf(db, source), changes) + IdsFrom(db.nextId + 1, |changes.newRows|) ::
      RowLink(x, db.nextId)
  }

  // A new version beside the source: the source's columns, the changed row links, the new rows.
  function Copied(db: Db, source: Id, changes: RowLinkChanges, readonly: bool): Db
    requires source in db.tables
  {
    db.(tables := db.tables[db.nextId := db.tables[source].(readonly := readonly)],
        rows := db.rows + NewRowVersions(db.nextId + 1, changes.newRows, readonly),
        rowLinks := db.rowLinks + CopiedLinks(db, source, changes),
        nextId := db.nextId + 1 + |changes.newRows|)
  }

  function Edited(db: Db, version: Id, changes: RowLinkChanges): Db {
    var newRows := IdsFrom(db.nextId, |changes.newRows|);
    db.(rows := db.rows + NewRowVersions(db.nextId, changes.newRows, false),
        rowLinks := WithRowLinks(db, version, TargetRows(RowsOf(db, version), changes) + newRows),
        nextId := db.nextId + |changes.newRows|)
  }

  function RowsMissingIn(db: Db, table: Id, head: Option<Id>): set<Id> {
    RowsOf(db, table) - (if head.Some? then RowsOf(db, head.value) else {})
  }

  function LockedIntoHead(db: Db, table: Id, head: Option<Id>): Db {
    LockRows(LockTables(db, {table}), RowsMissingIn(db, table, head))
  }

  // ---- The service -------------------------------------------------------------------------

  class Transaction {
    var db: Db

    constructor (db: Db)
      ensures this.db == db
    {
      this.db := db;
    }
  }

  class AssembledVersionWriter {
    const transaction: Transaction

    constructor (transaction: Transaction)
      ensures this.transaction == transaction
    {
      this.transaction := transaction;
    }

    method CreateTableVersion(source: Id, changes: RowLinkChanges)
      returns (r: Result<AssembledTableVersion, WriteError>)
      modifies transaction
      ensures r.Success? <==> CanCopy(old(transaction.db), source, changes)
      ensures r.Success? ==>
        && transaction.db == Copied(old(transaction.db), source, changes, false)
        && r.value.versionId == old(transaction.db).nextId
        && r.value.newRowVersionIds == seq(|changes.newRows|, i => old(transaction.db).nextId + 1 + i)
    {
      r := CopyVersion(source, changes, false);
    }

    method CreateReadonlyTableVersion(source: Id, changes: RowLinkChanges)
      returns (r: Result<AssembledTableVersion, WriteError>)
      modifies transaction
      ensures r.Success? <==> CanCopy(old(transaction.db), source, changes)
      ensures r.Success? ==>
        && transaction.db == Copied(old(transaction.db), source, changes, true)
        && r.value.versionId == old(transaction.db).nextId
        && r.value.newRowVersionIds == seq(|changes.newRows|, i => old(transaction.db).nextId + 1 + i)
    {
      r := CopyVersion(source, changes, true);
    }

    method EditTableVersion(version: Id, changes: RowLinkChanges)
      returns (r: Result<AssembledTableVersion, WriteError>)
      modifies transaction
      ensures r.Success? <==> CanEdit(old(transaction.db), version, changes)
      ensures r.Success? ==>
        && transaction.db == Edited(old(transaction.db), version, changes)
        && r.value == AssembledTableVersion(version, NewIds(old(transaction.db), |changes.newRows|))
    {
      ghost var db := transaction.db;
      if changes.removed != [] {
        transaction.db := UnlinkRows(transaction.db, version, Elements(changes.removed));
      }
      if changes.added != [] {
        if version !in transaction.db.tables
           || !CanLink(transaction.db, RowsOf(transaction.db, version), changes.added) {
          assert RowsOf(transaction.db, version) == RowsOf(db, version) - Elements(changes.removed);
          return Failure(ConstraintViolation);
        }
        transaction.db := LinkRows(transaction.db, version, Elements(changes.added));
      }
      assert transaction.db.rowLinks == WithRowLinks(db, version, TargetRows(RowsOf(db, version), changes));
      if version !in transaction.db.tables && changes.newRows != [] {
        return Failure(ConstraintViolation);
      }
      var ids := InsertRowVersions(version, changes.newRows, false);
      assert transaction.db.rowLinks == Edited(db, version, changes).rowLinks;
      r := Success(AssembledTableVersion(version, ids));
    }

    method LockLinkedIntoHead(table: Id, head: Option<Id>)
      modifies transaction
      ensures transaction.db == LockedIntoHead(old(transaction.db), table, head)
    {
      transaction.db := LockTables(transaction.db, {table});
      transaction.db := LockRows(transaction.db, RowsMissingIn(transaction.db, table, head));
    }

    method CopyVersion(source: Id, changes: RowLinkChanges, readonly: bool)
      returns (r: Result<AssembledTableVersion, WriteError>)
      modifies transaction
      ensures r.Success? <==> CanCopy(old(transaction.db), source, changes)
      ensures r.Success? ==>
        && transaction.db == Copied(old(transaction.db), source, changes, readonly)
        && r.value.versionId == old(transaction.db).nextId
        && r.value.newRowVersionIds == seq(|changes.newRows|, i => old(transaction.db).nextId + 1 + i)
    {
      ghost var db := transaction.db;
      if source !in transaction.db.tables {
        return Failure(TableVersionMissing(source));
      }
      var version := transaction.db.nextId;
      transaction.db := InsertTable(transaction.db, transaction.db.tables[source].(readonly := readonly));
      var kept := RowsOf(transaction.db, source) - Elements(changes.removed);
      if !CanLink(transaction.db, kept, changes.added) {
        return Failure(ConstraintViolation);
      }
      transaction.db := LinkRows(transaction.db, version, kept + Elements(changes.added));
      var ids := InsertRowVersions(version, changes.newRows, readonly);
      assert transaction.db.rowLinks == Copied(db, source, changes, readonly).rowLinks;
      r := Success(AssembledTableVersion(version, ids));
    }

    method InsertRowVersions(table: Id, rows: seq<NewRow>, readonly: bool) returns (versionIds: seq<Id>)
      modifies transaction
      ensures transaction.db == InsertRows(old(transaction.db), table, rows, readonly)
      ensures versionIds == NewIds(old(transaction.db), |rows|)
    {
      ghost var db := transaction.db;
      versionIds := [];
      var start := 0;
      InsertNothing(db, table, readonly);
      while start < |rows|
        invariant transaction.db == InsertRows(db, table, rows[..Bounded(start, rows)], readonly)
        invariant versionIds == NewIds(db, Bounded(start, rows))
      {
        var end := Bounded(start + NEW_ROWS_BATCH_SIZE, rows);
        InsertInTwoParts(db, table, rows[..start], rows[start..end], readonly);
        assert rows[..start] + rows[start..end] == rows[..end];
        var batchIds := InsertRowBatch(table, rows[start..end], readonly);
        versionIds := versionIds + batchIds;
        start := start + NEW_ROWS_BATCH_SIZE;
      }
      assert rows[..|rows|] == rows;
    }

    method InsertRowBatch(table: Id, rows: seq<NewRow>, readonly: bool) returns (versionIds: seq<Id>)
      modifies transaction
      ensures transaction.db == InsertRows(old(transaction.db), table, rows, readonly)
      ensures versionIds == NewIds(old(transaction.db), |rows|)
    {
      versionIds := NewIds(transaction.db, |rows|);
      transaction.db := InsertRows(transaction.db, table, rows, readonly);
    }
  }

  function Bounded(end: nat, rows: seq<NewRow>): (r: nat)
    ensures r <= |rows|
  {
    if end < |rows| then end else |rows|
  }

  lemma InsertInTwoParts(db: Db, table: Id, first: seq<NewRow>, second: seq<NewRow>, readonly: bool)
    ensures InsertRows(InsertRows(db, table, first, readonly), table, second, readonly)
         == InsertRows(db, table, first + second, readonly)
  {
    NewRowsInTwoParts(db, table, first, second, readonly);
    NewLinksInTwoParts(db, table, first, second, readonly);
  }

  lemma InsertNothing(db: Db, table: Id, readonly: bool)
    ensures InsertRows(db, table, [], readonly) == db
  {
  }

  lemma NewRowsInTwoParts(db: Db, table: Id, first: seq<NewRow>, second: seq<NewRow>, readonly: bool)
    ensures InsertRows(InsertRows(db, table, first, readonly), table, second, readonly).rows
         == InsertRows(db, table, first + second, readonly).rows
  {
    NewVersionsInTwoParts(db.nextId, first, second, readonly);
    AddInTwoParts(db.rows, NewRowVersions(db.nextId, first, readonly),
                  NewRowVersions(db.nextId + |first|, second, readonly));
  }

  lemma AddInTwoParts(rows: map<Id, RowVersion>, first: map<Id, RowVersion>, second: map<Id, RowVersion>)
    ensures (rows + first) + second == rows + (first + second)
  {
  }

  lemma NewVersionsInTwoParts(id: Id, first: seq<NewRow>, second: seq<NewRow>, readonly: bool)
    ensures NewRowVersions(id, first, readonly) + NewRowVersions(id + |first|, second, readonly)
         == NewRowVersions(id, first + second, readonly)
  {
  }

  lemma NewLinksInTwoParts(db: Db, table: Id, first: seq<NewRow>, second: seq<NewRow>, readonly: bool)
    ensures InsertRows(InsertRows(db, table, first, readonly), table, second, readonly).rowLinks
         == InsertRows(db, table, first + second, readonly).rowLinks
  {
  }
}
