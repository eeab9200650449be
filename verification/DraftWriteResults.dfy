/** What the native writes of a Draft leave in the store: the version the Draft then links, its columns and rows, and
  * that everything else is as it was. */
module DraftWriteResults {
  import opened VersionStore
  import opened VersionWriter
  import opened WriterProperties
  import opened ContentDiff
  import opened DraftWrites
  import opened DraftWriteEffects

  // ---- The rest of the store ---------------------------------------------------------------

  // The tables of the store other than v, with their columns and row links.
  ghost predicate OthersStay(a: Db, b: Db, v: Id) {
    && (forall s | s in a.tables && s != v ::
          s in b.tables && b.tables[s] == a.tables[s] && RowsOf(b, s) == RowsOf(a, s))
    && (forall s | s in b.tables && s != v :: s in a.tables)
  }

  ghost predicate OtherRowsStay(a: Db, b: Db, written: set<Id>) {
    && (forall z | z in a.rows && z !in written :: z in b.rows && b.rows[z] == a.rows[z])
    && (forall z | z in b.rows && z !in written :: z in a.rows)
  }

  // Draft d links v in the place of t, says that it has changes, and no other revision is touched.
  ghost predicate DraftLinksInstead(a: Db, b: Db, d: Id, t: Id, v: Id)
    requires d in a.revisions
  {
    && b.revisions == a.revisions[d := a.revisions[d].(hasChanges := true)]
    && TablesOf(b, d) == TablesOf(a, d) - {t} + {v}
    && (forall r | r != d :: TablesOf(b, r) == TablesOf(a, r))
  }

  // A committed version is copied, one that can still change is written itself.
  ghost predicate WrittenVersion(a: Db, t: Id, v: Id)
    requires t in a.tables
  {
    if a.tables[t].readonly then v !in a.tables else v == t
  }

  // ---- Copy on write -----------------------------------------------------------------------

  lemma TouchedVersion(db: Db, d: Id, t: Id)
    requires Safe(db) && InDraft(db, d, t)
    ensures var b, v := TouchTable(db, d, t), TouchedTable(db, t);
      && WrittenVersion(db, t, v)
      && v in b.tables && b.tables[v] == db.tables[t].(readonly := false)
      && b.revisions == db.revisions && b.rows == db.rows
      && db.nextId <= b.nextId
  {
    assert IdsFrom(db.nextId + 1, 0) == {};
  }

  lemma TouchedLinks(db: Db, d: Id, t: Id)
    requires Safe(db) && InDraft(db, d, t)
    ensures var b, v := TouchTable(db, d, t), TouchedTable(db, t);
      TablesOf(b, d) == TablesOf(db, d) - {t} + {v} && (forall r | r != d :: TablesOf(b, r) == TablesOf(db, r))
  {
    assert t in TablesOf(db, d);
    assert TablesOf(db, d) - {t} + {t} == TablesOf(db, d);
    if db.tables[t].readonly {
      var copied, tables := Copied(db, t, NO_CHANGES, false), TablesOf(db, d) - {t} + {db.nextId};
      assert copied.tableLinks == db.tableLinks;
      RelinkedOne(copied, d, tables);
      assert forall r :: TablesOf(copied, r) == TablesOf(db, r);
    }
  }

  lemma RelinkedOne(db: Db, d: Id, tables: set<Id>)
    ensures TablesOf(SetTables(db, d, tables), d) == tables
    ensures forall r | r != d :: TablesOf(SetTables(db, d, tables), r) == TablesOf(db, r)
  {
  }

  lemma TouchedRows(db: Db, d: Id, t: Id)
    requires Safe(db) && InDraft(db, d, t)
    ensures var b, v := TouchTable(db, d, t), TouchedTable(db, t);
      && RowsOf(b, v) == RowsOf(db, t) && OthersStay(db, b, v)
      && (forall l | l in b.rowLinks :: l.row in db.rows)
  {
    if db.tables[t].readonly {
      CopiedRows(db, t, NO_CHANGES, false);
      assert IdsFrom(db.nextId + 1, 0) == {};
      assert TargetRows(RowsOf(db, t), NO_CHANGES) == RowsOf(db, t);
      assert forall s :: RowsOf(TouchTable(db, d, t), s) == RowsOf(Copied(db, t, NO_CHANGES, false), s);
    }
  }

  lemma TouchResult(db: Db, d: Id, t: Id) returns (b: Db, v: Id)
    requires Safe(db) && InDraft(db, d, t)
    ensures b == TouchTable(db, d, t) && v == TouchedTable(db, t)
    ensures WrittenVersion(db, t, v) && v in b.tables && b.tables[v] == db.tables[t].(readonly := false)
    ensures b.revisions == db.revisions && b.rows == db.rows && db.nextId <= b.nextId
    ensures TablesOf(b, d) == TablesOf(db, d) - {t} + {v} && forall r | r != d :: TablesOf(b, r) == TablesOf(db, r)
    ensures RowsOf(b, v) == RowsOf(db, t) && OthersStay(db, b, v)
    ensures forall l | l in b.rowLinks :: l.row in db.rows
  {
    b, v := TouchTable(db, d, t), TouchedTable(db, t);
    hide *;
    TouchedVersion(db, d, t);
    TouchedLinks(db, d, t);
    TouchedRows(db, d, t);
  }

  lemma IssuedIds(db: Db)
    requires Safe(db)
    ensures db.nextId !in db.tables && forall x | x in db.rows :: x < db.nextId && db.rows[x].createdId < db.nextId
    ensures forall t | t in db.tables :: t < db.nextId && db.tables[t].createdId < db.nextId
  {
  }

  lemma FlagResult(a: Db, b: Db, d: Id, t: Id, v: Id)
    requires d in a.revisions && b.revisions == a.revisions
    requires TablesOf(b, d) == TablesOf(a, d) - {t} + {v} && forall r | r != d :: TablesOf(b, r) == TablesOf(a, r)
    ensures var after := WithFlag(b, d, true);
      && DraftLinksInstead(a, after, d, t, v)
      && after.tables == b.tables && after.rows == b.rows && after.rowLinks == b.rowLinks
      && (forall s :: RowsOf(after, s) == RowsOf(b, s))
  {
    assert forall r :: TablesOf(WithFlag(b, d, true), r) == TablesOf(b, r);
    hide TablesOf;
  }

  // ---- Creating a table --------------------------------------------------------------------

  // The new table has a new identity, the given columns, no rows, and can still change.
  lemma CreatedTable(db: Db, d: Id, id: string, system: bool, createdAt: int) returns (v: Id)
    requires Guarded(db) && IsDraft(db, d)
    ensures var after := CreateTable(db, d, id, system, createdAt);
      && v !in db.tables && v in after.tables
      && after.tables[v].id == id && after.tables[v].system == system && after.tables[v].createdAt == createdAt
      && !after.tables[v].readonly && RowsOf(after, v) == {}
      && (forall s | s in db.tables :: db.tables[s].createdId != after.tables[v].createdId)
      && DraftLinksInstead(db, after, d, v, v)
      && OthersStay(db, after, v) && OtherRowsStay(db, after, {})
  {
    v := db.nextId + 1;
    var b := WithTable(db, d, id, system, createdAt);
    assert Safe(db);
    IssuedIds(db);
    CreateTableIs(db, d, id, system, createdAt);
    NewTableStore(db, d, id, system, createdAt);
    hide *;
    FlagResult(db, b, d, v, v);
    StaysAfterFlag(db, b, WithFlag(b, d, true), v, {});
  }

  lemma StaysAfterFlag(a: Db, b: Db, c: Db, v: Id, written: set<Id>)
    requires c.tables == b.tables && c.rows == b.rows && forall s :: RowsOf(c, s) == RowsOf(b, s)
    requires OthersStay(a, b, v) && OtherRowsStay(a, b, written)
    ensures OthersStay(a, c, v) && OtherRowsStay(a, c, written)
  {
    hide RowsOf;
  }

  lemma NewTableStore(db: Db, d: Id, id: string, system: bool, createdAt: int)
    requires Safe(db) && IsDraft(db, d)
    ensures var b, v := WithTable(db, d, id, system, createdAt), db.nextId + 1;
      && b.revisions == db.revisions && v !in db.tables && v in b.tables
      && b.tables[v] == TableVersion(db.nextId, id, false, system, createdAt)
      && RowsOf(b, v) == {} && OthersStay(db, b, v) && OtherRowsStay(db, b, {})
      && TablesOf(b, d) == TablesOf(db, d) - {v} + {v} && (forall r | r != d :: TablesOf(b, r) == TablesOf(db, r))
  {
  }

  // ---- Renaming a table --------------------------------------------------------------------

  lemma RenamedTable(db: Db, d: Id, t: Id, id: string) returns (v: Id)
    requires Guarded(db) && InDraft(db, d, t)
    ensures var after := RenameTable(db, d, t, id);
      && WrittenVersion(db, t, v) && v in after.tables
      && after.tables[v] == db.tables[t].(id := id, readonly := false) && RowsOf(after, v) == RowsOf(db, t)
      && DraftLinksInstead(db, after, d, t, v)
      && OthersStay(db, after, v) && OtherRowsStay(db, after, {})
  {
    var b;
    b, v := TouchResult(db, d, t);
    var c := UpdateTable(b, v, b.tables[v].(id := id));
    assert RenameTable(db, d, t, id) == WithFlag(c, d, true);
    UpdatedTableStore(db, b, v, b.tables[v].(id := id));
    assert d in db.revisions;
    hide *;
    FlagResult(db, c, d, t, v);
    StaysAfterFlag(db, c, WithFlag(c, d, true), v, {});
  }

  lemma UpdatedTableStore(a: Db, b: Db, v: Id, table: TableVersion)
    requires OthersStay(a, b, v) && b.rows == a.rows && v in b.tables
    ensures var c := UpdateTable(b, v, table);
      && c.revisions == b.revisions && c.rows == b.rows && c.tables[v] == table
      && (forall s :: RowsOf(c, s) == RowsOf(b, s)) && (forall r :: TablesOf(c, r) == TablesOf(b, r))
      && OthersStay(a, c, v) && OtherRowsStay(a, c, {})
  {
    assert forall s :: RowsOf(UpdateTable(b, v, table), s) == RowsOf(b, s);
    assert forall r :: TablesOf(UpdateTable(b, v, table), r) == TablesOf(b, r);
    hide RowsOf, TablesOf;
  }

  // ---- Creating rows -----------------------------------------------------------------------

  // Each given row becomes, in order, a new row version with a new identity that can still change.
  ghost predicate CreatedRow(a: Db, b: Db, x: Id, columns: RowColumns) {
    && x !in a.rows && x in b.rows && b.rows[x].columns == columns && !b.rows[x].readonly
    && (forall z | z in a.rows :: a.rows[z].createdId != b.rows[x].createdId)
  }

  lemma CreatedRows(db: Db, d: Id, t: Id, rows: seq<RowColumns>) returns (v: Id, ids: seq<Id>)
    requires Guarded(db) && InDraft(db, d, t)
    ensures |ids| == |rows| && Distinct(ids)
    ensures var after := CreateRows(db, d, t, rows);
      && WrittenVersion(db, t, v) && v in after.tables && after.tables[v] == db.tables[t].(readonly := false)
      && RowsOf(after, v) == RowsOf(db, t) + Elements(ids)
      && (forall i | 0 <= i < |rows| :: CreatedRow(db, after, ids[i], rows[i]))
      && (forall i, j | 0 <= i < j < |rows| :: after.rows[ids[i]].createdId != after.rows[ids[j]].createdId)
      && DraftLinksInstead(db, after, d, t, v)
      && OthersStay(db, after, v) && OtherRowsStay(db, after, Elements(ids))
  {
    hide *;
    GuardedParts(db);
    IssuedIds(db);
    var b;
    b, v := TouchResult(db, d, t);
    var first := b.nextId + |rows|;
    ids := seq(|rows|, i requires 0 <= i < |rows| => first + i);
    var c := RowsInserted(b, v, rows);
    CreateRowsIs(db, d, t, rows, b, v);
    InsertedStore(db, b, v, rows, ids);
    DistinctFrom(first, ids);
    FlagResult(db, c, d, t, v);
    StaysAfterFlag(db, c, WithFlag(c, d, true), v, Elements(ids));
    forall i | 0 <= i < |rows|
      ensures CreatedRow(db, WithFlag(c, d, true), ids[i], rows[i])
    {
      CreatedAfterFlag(db, c, WithFlag(c, d, true), ids[i], rows[i]);
    }
  }

  lemma DistinctFrom(first: Id, ids: seq<Id>)
    requires forall i | 0 <= i < |ids| :: ids[i] == first + i
    ensures Distinct(ids)
  {
  }

  lemma CreateRowsIs(db: Db, d: Id, t: Id, rows: seq<RowColumns>, b: Db, v: Id)
    requires InDraft(db, d, t) && b == TouchTable(db, d, t) && v == TouchedTable(db, t) && b.revisions == db.revisions
    ensures d in db.revisions && d in RowsInserted(b, v, rows).revisions
    ensures CreateRows(db, d, t, rows) == WithFlag(RowsInserted(b, v, rows), d, true)
  {
    hide TouchTable, TouchedTable, IdentifiedRows, NewRowVersions, IdsFrom;
  }

  lemma CreatedAfterFlag(a: Db, b: Db, c: Db, x: Id, columns: RowColumns)
    requires CreatedRow(a, b, x, columns) && c.rows == b.rows
    ensures CreatedRow(a, c, x, columns)
  {
  }

  // The store once the rows are inserted; the first |rows| ids are their identities.
  function RowsInserted(b: Db, v: Id, rows: seq<RowColumns>): Db {
    InsertRows(b.(nextId := b.nextId + |rows|), v, IdentifiedRows(b.nextId, rows), false)
  }

  lemma InsertedStore(a: Db, b: Db, v: Id, rows: seq<RowColumns>, ids: seq<Id>)
    requires OthersStay(a, b, v) && b.rows == a.rows && v in b.tables && a.nextId <= b.nextId
    requires forall x | x in a.rows :: x < a.nextId && a.rows[x].createdId < a.nextId
    requires |ids| == |rows| && forall i | 0 <= i < |rows| :: ids[i] == b.nextId + |rows| + i
    ensures var c := RowsInserted(b, v, rows);
      && c.revisions == b.revisions && c.tables == b.tables && (forall r :: TablesOf(c, r) == TablesOf(b, r))
      && RowsOf(c, v) == RowsOf(b, v) + Elements(ids)
      && (forall i | 0 <= i < |rows| :: CreatedRow(a, c, ids[i], rows[i]))
      && (forall i, j | 0 <= i < j < |rows| :: c.rows[ids[i]].createdId != c.rows[ids[j]].createdId)
      && OthersStay(a, c, v) && OtherRowsStay(a, c, Elements(ids))
  {
    hide *;
    var c := RowsInserted(b, v, rows);
    InsertedIds(b.nextId + |rows|, ids);
    InsertedColumns(b, v, rows, ids);
    InsertedElsewhere(b, v, rows);
    InsertedOthers(a, b, c, v);
    SameRowsOf(a, b, c, Elements(ids));
    forall i | 0 <= i < |rows|
      ensures CreatedRow(a, c, ids[i], rows[i])
    {
      CreatedRowOf(a, c, ids[i], rows[i], b.nextId + i);
    }
  }

  lemma CreatedRowOf(a: Db, c: Db, x: Id, columns: RowColumns, identity: Id)
    requires forall z | z in a.rows :: z < a.nextId && a.rows[z].createdId < a.nextId
    requires a.nextId <= identity && a.nextId <= x && x in c.rows && c.rows[x] == RowVersion(identity, false, columns)
    ensures CreatedRow(a, c, x, columns)
  {
  }

  lemma InsertedElsewhere(b: Db, v: Id, rows: seq<RowColumns>)
    ensures var c := RowsInserted(b, v, rows);
      && c.revisions == b.revisions && c.tables == b.tables && (forall r :: TablesOf(c, r) == TablesOf(b, r))
      && RowsOf(c, v) == RowsOf(b, v) + IdsFrom(b.nextId + |rows|, |rows|)
      && (forall s | s != v :: RowsOf(c, s) == RowsOf(b, s))
  {
    var named := b.(nextId := b.nextId + |rows|);
    InsertedLinks(named, v, IdentifiedRows(b.nextId, rows));
    assert forall s :: RowsOf(named, s) == RowsOf(b, s);
    assert RowsInserted(b, v, rows).tableLinks == b.tableLinks;
    hide IdsFrom, NewRowVersions, IdentifiedRows, RowsOf;
  }

  lemma InsertedOthers(a: Db, b: Db, c: Db, v: Id)
    requires OthersStay(a, b, v) && c.tables == b.tables && forall s | s != v :: RowsOf(c, s) == RowsOf(b, s)
    ensures OthersStay(a, c, v)
  {
    hide RowsOf;
  }

  lemma InsertedIds(first: Id, ids: seq<Id>)
    requires forall i | 0 <= i < |ids| :: ids[i] == first + i
    ensures Elements(ids) == IdsFrom(first, |ids|)
  {
    forall x
      ensures x in IdsFrom(first, |ids|) <==> x in Elements(ids)
    {
      if x in IdsFrom(first, |ids|) {
        assert ids[x - first] == x;
      }
      if x in Elements(ids) {
        assert IsFrom(x, first, |ids|);
      }
    }
  }

  lemma InsertedAt(b: Db, v: Id, rows: seq<NewRow>, i: nat)
    requires i < |rows|
    ensures var c := InsertRows(b, v, rows, false);
      b.nextId + i in c.rows && c.rows[b.nextId + i] == RowVersion(rows[i].createdId, false, rows[i].columns)
  {
    assert IsFrom(b.nextId + i, b.nextId, |rows|);
  }

  lemma InsertedBeside(b: Db, v: Id, rows: seq<NewRow>)
    ensures OtherRowsStay(b, InsertRows(b, v, rows, false), IdsFrom(b.nextId, |rows|))
  {
    assert NewRowVersions(b.nextId, rows, false).Keys == IdsFrom(b.nextId, |rows|);
    hide NewRowVersions, IdsFrom;
  }

  lemma InsertedColumns(b: Db, v: Id, rows: seq<RowColumns>, ids: seq<Id>)
    requires |ids| == |rows| && (forall i | 0 <= i < |rows| :: ids[i] == b.nextId + |rows| + i)
    requires Elements(ids) == IdsFrom(b.nextId + |rows|, |rows|)
    ensures var c := RowsInserted(b, v, rows);
      && (forall i | 0 <= i < |rows| :: ids[i] in c.rows && c.rows[ids[i]] == RowVersion(b.nextId + i, false, rows[i]))
      && OtherRowsStay(b, c, Elements(ids))
  {
    hide *;
    var named, newRows := b.(nextId := b.nextId + |rows|), IdentifiedRows(b.nextId, rows);
    RowsInsertedIs(b, v, rows);
    Identified(b.nextId, rows);
    InsertedBeside(named, v, newRows);
    SameRowsOf(b, named, InsertRows(named, v, newRows, false), Elements(ids));
    forall i | 0 <= i < |rows|
      ensures var c := InsertRows(named, v, newRows, false);
        ids[i] in c.rows && c.rows[ids[i]] == RowVersion(b.nextId + i, false, rows[i])
    {
      InsertedAt(named, v, newRows, i);
    }
  }

  lemma RowsInsertedIs(b: Db, v: Id, rows: seq<RowColumns>)
    ensures RowsInserted(b, v, rows)
         == InsertRows(b.(nextId := b.nextId + |rows|), v, IdentifiedRows(b.nextId, rows), false)
  {
    hide InsertRows, IdentifiedRows;
  }

  lemma Identified(first: Id, rows: seq<RowColumns>)
    ensures |IdentifiedRows(first, rows)| == |rows|
    ensures forall i | 0 <= i < |rows| :: IdentifiedRows(first, rows)[i] == NewRow(first + i, rows[i])
  {
  }

  lemma SameRowsOf(a: Db, b: Db, c: Db, written: set<Id>)
    requires a.rows == b.rows && OtherRowsStay(b, c, written)
    ensures OtherRowsStay(a, c, written)
  {
  }

  lemma InsertedLinks(b: Db, v: Id, rows: seq<NewRow>)
    ensures RowsOf(InsertRows(b, v, rows, false), v) == RowsOf(b, v) + IdsFrom(b.nextId, |rows|)
    ensures forall s | s != v :: RowsOf(InsertRows(b, v, rows, false), s) == RowsOf(b, s)
  {
    hide IdsFrom, NewRowVersions;
    var c, ids := InsertRows(b, v, rows, false), IdsFrom(b.nextId, |rows|);
    forall s: Id, x: Id
      ensures RowLink(x, s) in c.rowLinks <==> RowLink(x, s) in b.rowLinks || (s == v && x in ids)
    {
    }
    assert forall x :: x in RowsOf(c, v) <==> RowLink(x, v) in c.rowLinks;
    assert forall x :: x in RowsOf(b, v) <==> RowLink(x, v) in b.rowLinks;
  }

  // ---- Updating a row ----------------------------------------------------------------------

  lemma TouchedRowStore(b: Db, v: Id, x: Id)
    requires x in b.rows && RowLink(x, v) in b.rowLinks && forall z | z in b.rows :: z < b.nextId
    ensures var c, y := TouchRow(b, v, x), TouchedRow(b, x);
      && (if b.rows[x].readonly then y !in b.rows else y == x)
      && c.revisions == b.revisions && c.tables == b.tables && c.tableLinks == b.tableLinks
      && y in c.rows && c.rows[y] == b.rows[x].(readonly := false)
      && OtherRowsStay(b, c, {y})
  {
    if b.rows[x].readonly {
      assert IsFrom(b.nextId, b.nextId, 1);
      assert IdsFrom(b.nextId, 1) == {b.nextId};
    }
  }

  lemma TouchedRowLinks(b: Db, v: Id, x: Id)
    requires x in b.rows && RowLink(x, v) in b.rowLinks && (forall z | z in b.rows :: z < b.nextId)
    requires forall l | l in b.rowLinks :: l.row in b.rows
    ensures var c, y := TouchRow(b, v, x), TouchedRow(b, x);
      RowsOf(c, v) == RowsOf(b, v) - {x} + {y} && (forall s | s != v :: RowsOf(c, s) == RowsOf(b, s))
  {
    if b.rows[x].readonly {
      var row := NewRow(b.rows[x].createdId, b.rows[x].columns);
      assert IdsFrom(b.nextId, 1) == {b.nextId} by {
        assert IsFrom(b.nextId, b.nextId, 1);
      }
      InsertedLinks(b, v, [row]);
      UnlinkedOne(InsertRows(b, v, [row], false), v, x);
    } else {
      assert x in RowsOf(b, v);
    }
  }

  lemma UnlinkedOne(b: Db, v: Id, x: Id)
    ensures RowsOf(UnlinkRows(b, v, {x}), v) == RowsOf(b, v) - {x}
    ensures forall s | s != v :: RowsOf(UnlinkRows(b, v, {x}), s) == RowsOf(b, s)
  {
  }

  lemma UpdatedStore(a: Db, b: Db, c: Db, v: Id, y: Id, row: RowVersion)
    requires OthersStay(a, b, v) && b.rows == a.rows && c.tables == b.tables && y in c.rows
    requires OtherRowsStay(b, c, {y}) && forall s | s != v :: RowsOf(c, s) == RowsOf(b, s)
    ensures var after := UpdateRow(c, y, row);
      && after.revisions == c.revisions && after.tables == c.tables && after.tableLinks == c.tableLinks
      && after.rows[y] == row && (forall s :: RowsOf(after, s) == RowsOf(c, s))
      && OthersStay(a, after, v) && OtherRowsStay(a, after, {y})
  {
    assert forall s :: RowsOf(UpdateRow(c, y, row), s) == RowsOf(c, s);
    hide RowsOf;
  }

  // The Draft's version of the table holds one row of x's identity, and it carries the new columns; every other row
  // version is as it was.
  lemma UpdatedRow(db: Db, d: Id, t: Id, x: Id, columns: RowColumns) returns (v: Id, y: Id)
    requires Guarded(db) && InDraft(db, d, t) && RowLink(x, t) in db.rowLinks
    ensures x in db.rows
    ensures var after := UpdateRowColumns(db, d, t, x, columns);
      && WrittenVersion(db, t, v) && v in after.tables && after.tables[v] == db.tables[t].(readonly := false)
      && (if db.rows[x].readonly then y !in db.rows else y == x)
      && y in after.rows && after.rows[y] == RowVersion(db.rows[x].createdId, false, columns)
      && RowsOf(after, v) == RowsOf(db, t) - {x} + {y}
      && (forall z | z in RowsOf(after, v) && z != y :: z in db.rows && db.rows[z].createdId != db.rows[x].createdId)
      && DraftLinksInstead(db, after, d, t, v)
      && OthersStay(db, after, v) && OtherRowsStay(db, after, {y})
  {
    GuardedParts(db);
    IssuedIds(db);
    assert x in db.rows && d in db.revisions && forall z | z in RowsOf(db, t) && z != x ::
      z in db.rows && db.rows[z].createdId != db.rows[x].createdId;
    var b;
    b, v := TouchResult(db, d, t);
    assert RowLink(x, v) in b.rowLinks by { assert x in RowsOf(b, v); }
    var c;
    y := TouchedRow(b, x);
    c := TouchRow(b, v, x);
    TouchedRowStore(b, v, x);
    TouchedRowLinks(b, v, x);
    assert forall r :: TablesOf(c, r) == TablesOf(b, r);
    var row := c.rows[y].(columns := columns);
    var e := UpdateRow(c, y, row);
    assert forall r :: TablesOf(e, r) == TablesOf(c, r);
    assert UpdateRowColumns(db, d, t, x, columns) == WithFlag(e, d, true);
    hide *;
    UpdatedStore(db, b, c, v, y, row);
    FlagResult(db, e, d, t, v);
    StaysAfterFlag(db, e, WithFlag(e, d, true), v, {y});
  }

  // A table that does not hold the written row version contains what it contained.
  lemma UntouchedContent(a: Db, b: Db, v: Id, written: set<Id>, s: Id)
    requires LinksExist(a) && LinksExist(b) && OthersStay(a, b, v) && OtherRowsStay(a, b, written)
    requires s in a.tables && s != v && RowsOf(a, s) !! written
    ensures s in b.tables && ContentOf(b, s) == ContentOf(a, s)
  {
    RowsExist(a, s);
  }
}
