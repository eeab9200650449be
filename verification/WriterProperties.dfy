/** What copying, editing and locking mean for the store: committed content, equal results, locked rows. */
module WriterProperties {
  import opened Wrappers
  import opened VersionStore
  import opened StatementSafety
  import opened VersionWriter

  // The new rows of a plan belong to identities that exist.
  predicate KnownIdentities(db: Db, rows: seq<NewRow>) {
    forall i | 0 <= i < |rows| :: rows[i].createdId < db.nextId
  }

  lemma CopyInSteps(db: Db, source: Id, changes: RowLinkChanges, readonly: bool)
    requires source in db.tables
    ensures var one := InsertTable(db, db.tables[source].(readonly := readonly));
            var two := LinkRows(one, db.nextId, TargetRows(RowsOf(db, source), changes));
            Copied(db, source, changes, readonly) == InsertRows(two, db.nextId, changes.newRows, readonly)
  {
  }

  lemma CopyIsSafe(db: Db, source: Id, changes: RowLinkChanges)
    requires Safe(db) && CanCopy(db, source, changes) && KnownIdentities(db, changes.newRows)
    ensures Safe(Copied(db, source, changes, false))
    ensures KeepsCommitted(db, Copied(db, source, changes, false))
  {
    var one := InsertTable(db, db.tables[source].(readonly := false));
    var rows := TargetRows(RowsOf(db, source), changes);
    var two := LinkRows(one, db.nextId, rows);
    CopyInSteps(db, source, changes, false);
    InsertTableIsSafe(db, db.tables[source].(readonly := false));
    assert rows <= one.rows.Keys;
    LinkRowsIsSafe(one, db.nextId, rows);
    InsertRowsIsSafe(two, db.nextId, changes.newRows, false);
    KeepsIsTransitive(db, one, two);
    KeepsIsTransitive(db, two, Copied(db, source, changes, false));
  }

  lemma EditIsSafe(db: Db, version: Id, changes: RowLinkChanges)
    requires Safe(db) && CanEdit(db, version, changes) && KnownIdentities(db, changes.newRows)
    requires version in db.tables && !db.tables[version].readonly
    ensures Safe(Edited(db, version, changes))
    ensures KeepsCommitted(db, Edited(db, version, changes))
  {
    var one := UnlinkRows(db, version, Elements(changes.removed));
    var two := LinkRows(one, version, Elements(changes.added));
    var three := InsertRows(two, version, changes.newRows, false);
    UnlinkRowsIsSafe(db, version, Elements(changes.removed));
    LinkRowsIsSafe(one, version, Elements(changes.added));
    InsertRowsIsSafe(two, version, changes.newRows, false);
    assert three.rowLinks == Edited(db, version, changes).rowLinks;
    KeepsIsTransitive(db, one, two);
    KeepsIsTransitive(db, two, three);
  }

  // Nothing in editTableVersion looks at "readonly": on a committed version only an edit that ends with
  // the same row links leaves committed content alone.
  lemma EditOfCommittedVersion(db: Db, version: Id, changes: RowLinkChanges)
    requires Safe(db) && CanEdit(db, version, changes) && CommittedTable(db, version)
    ensures KeepsCommitted(db, Edited(db, version, changes))
        <==> changes.newRows == [] && TargetRows(RowsOf(db, version), changes) == RowsOf(db, version)
  {
    var edited := Edited(db, version, changes);
    EditedRows(db, version, changes);
    if changes.newRows != [] {
      assert IsFrom(db.nextId, db.nextId, |changes.newRows|);
      assert db.nextId in RowsOf(edited, version);
      assert db.nextId !in RowsOf(db, version);
    } else {
      assert IdsFrom(db.nextId, 0) == {};
      if TargetRows(RowsOf(db, version), changes) == RowsOf(db, version) {
        assert edited.rowLinks == db.rowLinks;
        CommittedIsReadonly(db);
      }
    }
  }

  lemma EditedRows(db: Db, version: Id, changes: RowLinkChanges)
    ensures RowsOf(Edited(db, version, changes), version)
         == TargetRows(RowsOf(db, version), changes) + IdsFrom(db.nextId, |changes.newRows|)
    ensures forall t | t != version :: RowsOf(Edited(db, version, changes), t) == RowsOf(db, t)
  {
    var edited := Edited(db, version, changes);
    var target := TargetRows(RowsOf(db, version), changes) + IdsFrom(db.nextId, |changes.newRows|);
    assert forall x :: x in target <==> RowLink(x, version) in edited.rowLinks;
    forall t | t != version
      ensures RowsOf(edited, t) == RowsOf(db, t)
    {
      assert forall x :: RowLink(x, t) in edited.rowLinks <==> RowLink(x, t) in db.rowLinks;
    }
  }

  lemma CopiedRows(db: Db, source: Id, changes: RowLinkChanges, readonly: bool)
    requires Safe(db) && source in db.tables
    ensures RowsOf(Copied(db, source, changes, readonly), db.nextId)
         == TargetRows(RowsOf(db, source), changes) + IdsFrom(db.nextId + 1, |changes.newRows|)
    ensures forall t | t != db.nextId :: RowsOf(Copied(db, source, changes, readonly), t) == RowsOf(db, t)
  {
    var copied := Copied(db, source, changes, readonly);
    var target := TargetRows(RowsOf(db, source), changes) + IdsFrom(db.nextId + 1, |changes.newRows|);
    assert forall x :: x in target <==> RowLink(x, db.nextId) in copied.rowLinks;
    forall t | t != db.nextId
      ensures RowsOf(copied, t) == RowsOf(db, t)
    {
      assert forall x :: RowLink(x, t) in copied.rowLinks <==> RowLink(x, t) in db.rowLinks;
    }
  }

  // Position by position, the stored rows are the new ones.
  predicate StoredFrom(rows: map<Id, RowVersion>, first: Id, newRows: seq<NewRow>) {
    forall i | 0 <= i < |newRows| ::
      && first + i in rows
      && rows[first + i] == RowVersion(newRows[i].createdId, false, newRows[i].columns)
  }

  lemma NewVersionsAreStored(rows: map<Id, RowVersion>, first: Id, newRows: seq<NewRow>)
    ensures StoredFrom(rows + NewRowVersions(first, newRows, false), first, newRows)
  {
  }

  lemma EditAndCopySucceedTogether(db: Db, version: Id, changes: RowLinkChanges)
    requires version in db.tables
    ensures CanEdit(db, version, changes) <==> CanCopy(db, version, changes)
  {
  }

  // A write succeeds exactly when its table exists and each added row is named once, exists, and is not among the rows
  // that the table keeps; an edit that adds nothing needs no table.
  lemma WritesSucceedExactly(db: Db, version: Id, changes: RowLinkChanges)
    ensures CanCopy(db, version, changes) <==>
      && version in db.tables
      && (forall i, j | 0 <= i < j < |changes.added| :: changes.added[i] != changes.added[j])
      && (forall x | x in changes.added ::
            x in db.rows && (RowLink(x, version) in db.rowLinks ==> x in changes.removed))
    ensures CanEdit(db, version, changes) <==>
      && (version in db.tables || (changes.added == [] && changes.newRows == []))
      && (forall i, j | 0 <= i < j < |changes.added| :: changes.added[i] != changes.added[j])
      && (forall x | x in changes.added ::
            x in db.rows && (RowLink(x, version) in db.rowLinks ==> x in changes.removed))
  {
    assert forall x :: x in Elements(changes.added) <==> x in changes.added;
    assert forall x :: x in RowsOf(db, version) <==> RowLink(x, version) in db.rowLinks;
  }

  // Editing a version in place and copying it with the same changes give the same rows: the same
  // existing row versions and, position by position, the same new ones. The copy leaves its source alone.
  lemma EditAndCopyAgree(db: Db, version: Id, changes: RowLinkChanges)
    requires Safe(db) && version in db.tables
    ensures CanEdit(db, version, changes) <==> CanCopy(db, version, changes)
    ensures var edited, copied := Edited(db, version, changes), Copied(db, version, changes, false);
      var kept := (RowsOf(db, version) - Elements(changes.removed)) + Elements(changes.added);
      && RowsOf(edited, version) == kept + IdsFrom(db.nextId, |changes.newRows|)
      && RowsOf(copied, db.nextId) == kept + IdsFrom(db.nextId + 1, |changes.newRows|)
      && RowsOf(copied, version) == RowsOf(db, version)
      && StoredFrom(edited.rows, db.nextId, changes.newRows)
      && StoredFrom(copied.rows, db.nextId + 1, changes.newRows)
  {
    hide CanEdit, CanCopy, RowsOf, StoredFrom, NewRowVersions;
    EditAndCopySucceedTogether(db, version, changes);
    EditedRows(db, version, changes);
    CopiedRows(db, version, changes, false);
    NewVersionsAreStored(db.rows, db.nextId, changes.newRows);
    NewVersionsAreStored(db.rows, db.nextId + 1, changes.newRows);
  }

  // Neither way of writing changes a row version that exists.
  lemma ExistingRowsStay(db: Db, version: Id, changes: RowLinkChanges, readonly: bool)
    requires Safe(db) && version in db.tables
    ensures forall x | x in db.rows ::
      && x in Edited(db, version, changes).rows && Edited(db, version, changes).rows[x] == db.rows[x]
      && x in Copied(db, version, changes, readonly).rows
         && Copied(db, version, changes, readonly).rows[x] == db.rows[x]
  {
  }

  // Locking only the rows missing in the previous Head version makes every row of the version readonly
  // exactly when the rows it shares with that version were readonly before.
  lemma LockOfTheDifference(db: Db, table: Id, head: Option<Id>)
    requires LinksExist(db) && table in db.tables
    ensures var locked := LockedIntoHead(db, table, head);
      && locked.tables[table].readonly
      && ((forall x | x in RowsOf(locked, table) :: x in locked.rows && locked.rows[x].readonly)
          <==> (forall x | x in RowsOf(db, table) && head.Some? && x in RowsOf(db, head.value) ::
                  x in db.rows && db.rows[x].readonly))
  {
    var locked := LockedIntoHead(db, table, head);
    assert RowsOf(locked, table) == RowsOf(db, table);
    assert forall x | x in RowsOf(db, table) :: RowLink(x, table) in db.rowLinks;
  }

  // A version linked into Head is safe to commit: whatever it shares with Head is locked already.
  lemma LockIsSafe(db: Db, table: Id, head: Option<Id>)
    requires Safe(db) && table in db.tables
    requires head.Some? && head.value in db.tables ==> db.tables[head.value].readonly
    ensures Safe(LockedIntoHead(db, table, head))
    ensures KeepsCommitted(db, LockedIntoHead(db, table, head))
    ensures LockedIntoHead(db, table, head).tables[table].readonly
  {
    var rows := RowsMissingIn(db, table, head);
    var one := LockRows(db, rows);
    LockRowsIsSafe(db, rows);
    forall l | l in one.rowLinks && l.table == table
      ensures one.rows[l.row].readonly
    {
      assert l.row in RowsOf(db, table);
      if l.row !in rows {
        assert RowLink(l.row, head.value) in db.rowLinks;
      }
    }
    LockTablesIsSafe(one, {table});
    KeepsIsTransitive(db, one, LockTables(one, {table}));
  }

  // createReadonlyTableVersion before the lock adds nothing to createTableVersion before the lock.
  lemma ReadonlyCopyThenLock(db: Db, source: Id, changes: RowLinkChanges, head: Option<Id>)
    requires Safe(db) && CanCopy(db, source, changes)
    requires head.Some? ==> head.value < db.nextId
    ensures LockedIntoHead(Copied(db, source, changes, true), db.nextId, head)
         == LockedIntoHead(Copied(db, source, changes, false), db.nextId, head)
  {
    var open, closed := Copied(db, source, changes, false), Copied(db, source, changes, true);
    CopyAccess(db, source, changes, RowsMissingIn(open, db.nextId, head)) by {
      NewRowsAreMissingInHead(db, source, changes, head);
    }
    LockForgetsAccess(open, closed, db.nextId, head);
  }

  lemma CopyAccess(db: Db, source: Id, changes: RowLinkChanges, locked: set<Id>)
    requires source in db.tables && IdsFrom(db.nextId + 1, |changes.newRows|) <= locked
    ensures var open, closed := Copied(db, source, changes, false), Copied(db, source, changes, true);
      && closed == open.(rows := closed.rows, tables := closed.tables)
      && SameTablesBut(open.tables, closed.tables, db.nextId)
      && SameRowsBut(open.rows, closed.rows, locked)
  {
    hide SameRowsBut, SameTablesBut, NewRowVersions, CopiedLinks;
    LockedNewRows(db.rows, db.nextId + 1, changes.newRows, locked);
    SameTablesButNew(db.tables, db.nextId, db.tables[source]);
  }

  ghost predicate SameTablesBut(a: map<Id, TableVersion>, b: map<Id, TableVersion>, table: Id) {
    && a.Keys == b.Keys
    && (forall t | t in a ::
          if t == table then a[t].(readonly := true) == b[t].(readonly := true) else a[t] == b[t])
  }

  ghost predicate SameRowsBut(a: map<Id, RowVersion>, b: map<Id, RowVersion>, locked: set<Id>) {
    && a.Keys == b.Keys
    && (forall x | x in a ::
          if x in locked then a[x].(readonly := true) == b[x].(readonly := true) else a[x] == b[x])
  }

  lemma SameTablesButNew(tables: map<Id, TableVersion>, id: Id, table: TableVersion)
    ensures SameTablesBut(tables[id := table.(readonly := false)], tables[id := table.(readonly := true)], id)
  {
  }

  lemma LockForgetsAccess(open: Db, closed: Db, table: Id, head: Option<Id>)
    requires closed == open.(rows := closed.rows, tables := closed.tables)
    requires SameTablesBut(open.tables, closed.tables, table)
    requires SameRowsBut(open.rows, closed.rows, RowsMissingIn(open, table, head))
    ensures LockedIntoHead(open, table, head) == LockedIntoHead(closed, table, head)
  {
  }

  lemma NewRowsAreMissingInHead(db: Db, source: Id, changes: RowLinkChanges, head: Option<Id>)
    requires Safe(db) && source in db.tables
    requires head.Some? ==> head.value < db.nextId
    ensures IdsFrom(db.nextId + 1, |changes.newRows|)
         <= RowsMissingIn(Copied(db, source, changes, false), db.nextId, head)
  {
    CopiedRows(db, source, changes, false);
    if head.Some? {
      assert forall x | x in RowsOf(db, head.value) :: RowLink(x, head.value) in db.rowLinks;
    }
  }

  lemma LockedNewRows(rows: map<Id, RowVersion>, first: Id, newRows: seq<NewRow>, locked: set<Id>)
    requires IdsFrom(first, |newRows|) <= locked
    ensures SameRowsBut(rows + NewRowVersions(first, newRows, false), rows + NewRowVersions(first, newRows, true),
                        locked)
  {
  }
}
