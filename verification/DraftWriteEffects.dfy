/** What every native write of a Draft keeps: committed content, identities, the history, the exact flag. */
module DraftWriteEffects {
  import opened Wrappers
  import opened VersionStore
  import opened StatementSafety
  import opened StoreShape
  import opened VersionWriter
  import opened WriterProperties
  import opened ContentDiff
  import opened DraftWrites

  ghost predicate Shaped(db: Db)
    requires LinksExist(db)
  {
    RowIdentities(db) && TableIdentities(db) && MutableIsOwned(db) && History(db.revisions)
  }

  ghost predicate Consistent(db: Db) {
    Safe(db) && Shaped(db) && FlagsExact(db)
  }

  // What is left of it when a Draft may link two versions of one table: enough for everything committed.
  ghost predicate Guarded(db: Db) {
    Safe(db) && RowIdentities(db) && MutableIsOwned(db) && History(db.revisions)
  }

  // What every write promises.
  ghost predicate Sound(a: Db, b: Db) {
    Guarded(b) && KeepsCommitted(a, b) && (Consistent(a) ==> Consistent(b))
  }

  // The parts of these predicates, for proofs that hide what the predicates say.
  lemma SafeHasLinks(db: Db)
    requires Safe(db)
    ensures LinksExist(db) && IdsIssued(db)
  {
  }

  lemma GuardedOf(db: Db)
    requires Safe(db) && RowIdentities(db) && MutableIsOwned(db) && History(db.revisions)
    ensures Guarded(db)
  {
  }

  lemma GuardedParts(db: Db)
    requires Guarded(db)
    ensures Safe(db) && LinksExist(db) && RowIdentities(db) && MutableIsOwned(db) && History(db.revisions)
  {
  }

  lemma ShapedOf(db: Db)
    requires LinksExist(db) && RowIdentities(db) && TableIdentities(db) && MutableIsOwned(db) && History(db.revisions)
    ensures Shaped(db)
  {
  }

  lemma ConsistentOf(db: Db)
    requires Guarded(db) && TableIdentities(db) && FlagsExact(db)
    ensures Consistent(db)
  {
  }

  lemma ConsistentParts(db: Db)
    requires Consistent(db)
    ensures Guarded(db) && LinksExist(db) && TableIdentities(db) && FlagsExact(db)
  {
  }

  lemma SoundOf(a: Db, b: Db)
    requires Guarded(b) && KeepsCommitted(a, b) && (Consistent(a) ==> Consistent(b))
    ensures Sound(a, b)
  {
  }

  // Draft d links at most one version of a table.
  ghost predicate DistinctIn(db: Db, d: Id) {
    TablesOf(db, d) <= db.tables.Keys && DistinctIdentities(db, TablesOf(db, d))
  }

  // The effect on revisions and their links: only Draft d changes, by versions that are its own, new or readonly.
  ghost predicate Wrote(a: Db, b: Db, d: Id) {
    && IsDraft(a, d) && d in b.revisions && a.nextId <= b.nextId
    && b.revisions == a.revisions[d := a.revisions[d].(hasChanges := b.revisions[d].hasChanges)]
    && (forall l | l in b.tableLinks && l.revision != d :: l in a.tableLinks)
    && (forall l | l in a.tableLinks && l.revision != d :: l in b.tableLinks)
    && (forall t | t in a.tables && t in b.tables ::
          a.tables[t].createdId == b.tables[t].createdId && a.tables[t].readonly == b.tables[t].readonly)
    && (forall l | l in b.tableLinks && l.revision == d ::
          l in a.tableLinks || l.table >= a.nextId || (l.table in b.tables && b.tables[l.table].readonly))
  }

  lemma WroteKeepsIdentities(a: Db, b: Db, d: Id)
    requires LinksExist(a) && LinksExist(b) && IdsIssued(a) && TableIdentities(a) && Wrote(a, b, d)
    requires DistinctIdentities(b, TablesOf(b, d))
    ensures TableIdentities(b)
  {
  }

  lemma WroteKeepsOwners(a: Db, b: Db, d: Id)
    requires LinksExist(a) && LinksExist(b) && IdsIssued(a) && MutableIsOwned(a) && Wrote(a, b, d)
    ensures MutableIsOwned(b)
  {
  }

  lemma WroteKeepsHistory(a: Db, b: Db, d: Id)
    requires History(a.revisions) && Wrote(a, b, d)
    ensures History(b.revisions)
  {
    FlagKeepsHistory(a.revisions, d, b.revisions[d].hasChanges);
  }

  lemma WroteKeepsFlags(a: Db, b: Db, d: Id)
    requires FlagsExact(a) && History(a.revisions) && Wrote(a, b, d)
    requires a.revisions[d].parent.Some? ==>
      (b.revisions[d].hasChanges <==> TablesOf(b, d) != TablesOf(b, a.revisions[d].parent.value))
    ensures FlagsExact(b)
  {
    OtherTablesStay(a, b, d);
    WroteRevisions(a, b, d);
    hide *;
    OtherFlagsStay(a, b, d);
  }

  lemma WroteRevisions(a: Db, b: Db, d: Id)
    requires History(a.revisions) && Wrote(a, b, d)
    ensures Chained(a.revisions) && IsDraft(a, d) && d in b.revisions
    ensures b.revisions == a.revisions[d := a.revisions[d].(hasChanges := b.revisions[d].hasChanges)]
  {
  }

  lemma OtherFlagsStay(a: Db, b: Db, d: Id)
    requires FlagsExact(a) && Chained(a.revisions) && IsDraft(a, d) && d in b.revisions
    requires b.revisions == a.revisions[d := a.revisions[d].(hasChanges := b.revisions[d].hasChanges)]
    requires forall r | r != d :: TablesOf(b, r) == TablesOf(a, r)
    requires a.revisions[d].parent.Some? ==>
      (b.revisions[d].hasChanges <==> TablesOf(b, d) != TablesOf(b, a.revisions[d].parent.value))
    ensures FlagsExact(b)
  {
    hide TablesOf;
    forall e | e in b.revisions && b.revisions[e].isDraft && b.revisions[e].parent.Some?
      ensures b.revisions[e].hasChanges <==> TablesOf(b, e) != TablesOf(b, b.revisions[e].parent.value)
    {
      assert WellPlaced(a.revisions, e);
    }
  }

  lemma OtherTablesStay(a: Db, b: Db, d: Id)
    requires Wrote(a, b, d)
    ensures forall r | r != d :: TablesOf(b, r) == TablesOf(a, r)
  {
  }

  // A Draft with a version that can still change differs from its parent.
  lemma MutableVersionDiffers(db: Db, d: Id, t: Id)
    requires Safe(db) && History(db.revisions) && IsDraft(db, d)
    requires t in db.tables && !db.tables[t].readonly && TableLink(d, t) in db.tableLinks
    ensures db.revisions[d].parent.Some? && TablesOf(db, d) != TablesOf(db, db.revisions[d].parent.value)
  {
    assert WellPlaced(db.revisions, d);
    var p := db.revisions[d].parent.value;
    assert t in TablesOf(db, d) && t !in TablesOf(db, p);
  }

  // ---- Copy on write -----------------------------------------------------------------------

  lemma TouchTableIsSafe(db: Db, d: Id, t: Id)
    requires Safe(db) && InDraft(db, d, t)
    ensures Safe(TouchTable(db, d, t))
    ensures KeepsCommitted(db, TouchTable(db, d, t))
  {
    if db.tables[t].readonly {
      var copied := Copied(db, t, NO_CHANGES, false);
      var tables := TablesOf(db, d) - {t} + {db.nextId};
      CopyIsSafe(db, t, NO_CHANGES);
      TablesExist(db, d);
      SetTablesIsSafe(copied, d, tables);
      KeepsIsTransitive(db, copied, SetTables(copied, d, tables));
    }
  }

  lemma TouchTableEffect(db: Db, d: Id, t: Id)
    requires Safe(db) && InDraft(db, d, t)
    ensures var touched, v := TouchTable(db, d, t), TouchedTable(db, t);
      && Wrote(db, touched, d)
      && db.tables.Keys <= touched.tables.Keys
      && InDraft(touched, d, v) && !touched.tables[v].readonly
      && touched.tables[v].createdId == db.tables[t].createdId
      && touched.rows == db.rows
  {
    assert IdsFrom(db.nextId + 1, 0) == {};
  }

  lemma TouchTableKeepsDistinct(db: Db, d: Id, t: Id)
    requires Safe(db) && InDraft(db, d, t) && TableIdentities(db)
    requires LinksExist(TouchTable(db, d, t))
    ensures TablesOf(TouchTable(db, d, t), d) <= TouchTable(db, d, t).tables.Keys
    ensures DistinctIdentities(TouchTable(db, d, t), TablesOf(TouchTable(db, d, t), d))
  {
    TablesAreDistinct(db, d);
    var touched := TouchTable(db, d, t);
    TablesExist(touched, d);
    if db.tables[t].readonly {
      assert TablesOf(touched, d) == TablesOf(db, d) - {t} + {db.nextId};
    }
  }

  lemma TouchTableKeepsIdentities(db: Db, d: Id, t: Id)
    requires Safe(db) && RowIdentities(db) && InDraft(db, d, t)
    requires Safe(TouchTable(db, d, t))
    ensures RowIdentities(TouchTable(db, d, t))
    ensures RowsOf(TouchTable(db, d, t), TouchedTable(db, t)) == RowsOf(db, t)
  {
    if db.tables[t].readonly {
      CopiedRows(db, t, NO_CHANGES, false);
      assert IdsFrom(db.nextId + 1, 0) == {};
      var touched := TouchTable(db, d, t);
      assert RowsOf(touched, db.nextId) == RowsOf(db, t);
      forall k, l | k in touched.rowLinks && l in touched.rowLinks && k.table == l.table
                    && touched.rows[k.row].createdId == touched.rows[l.row].createdId
        ensures k.row == l.row
      {
        if k.table == db.nextId {
          assert k.row in RowsOf(touched, db.nextId) && l.row in RowsOf(touched, db.nextId);
          assert RowLink(k.row, t) in db.rowLinks && RowLink(l.row, t) in db.rowLinks;
        }
      }
    }
  }

  // ---- Ending a write with its flag --------------------------------------------------------

  lemma FlagIsSafe(db: Db, d: Id, hasChanges: bool)
    requires Safe(db) && IsDraft(db, d)
    ensures Safe(WithFlag(db, d, hasChanges))
    ensures KeepsCommitted(db, WithFlag(db, d, hasChanges))
  {
    UpdateRevisionIsSafe(db, d, db.revisions[d].(hasChanges := hasChanges));
  }

  lemma FlaggedWrite(a: Db, b: Db, d: Id, hasChanges: bool)
    requires Wrote(a, b, d)
    ensures Wrote(a, WithFlag(b, d, hasChanges), d)
  {
  }

  lemma FlaggedRows(b: Db, d: Id, hasChanges: bool)
    requires d in b.revisions && LinksExist(b) && RowIdentities(b)
    ensures LinksExist(WithFlag(b, d, hasChanges)) && RowIdentities(WithFlag(b, d, hasChanges))
  {
  }

  lemma FlaggedTables(b: Db, d: Id, hasChanges: bool)
    requires d in b.revisions
    ensures forall r :: TablesOf(WithFlag(b, d, hasChanges), r) == TablesOf(b, r)
    ensures WithFlag(b, d, hasChanges).tables == b.tables
  {
  }

  lemma WriteKeepsShape(a: Db, b: Db, d: Id)
    requires LinksExist(a) && IdsIssued(a) && Shaped(a) && Wrote(a, b, d)
    requires LinksExist(b) && RowIdentities(b)
    requires TablesOf(b, d) <= b.tables.Keys && DistinctIdentities(b, TablesOf(b, d))
    ensures Shaped(b)
  {
    assert TableIdentities(b) by { WroteKeepsIdentities(a, b, d); }
    assert MutableIsOwned(b) by { WroteKeepsOwners(a, b, d); }
    assert History(b.revisions) by { WroteKeepsHistory(a, b, d); }
  }

  // A write that touched only Draft d and leaves the flag that its links call for keeps everything.
  lemma WriteIsConsistent(a: Db, b: Db, d: Id, hasChanges: bool)
    requires Consistent(a) && Wrote(a, b, d) && Safe(b) && KeepsCommitted(a, b)
    requires RowIdentities(b)
    requires TablesOf(b, d) <= b.tables.Keys && DistinctIdentities(b, TablesOf(b, d))
    requires a.revisions[d].parent.Some? ==>
      (hasChanges <==> TablesOf(b, d) != TablesOf(b, a.revisions[d].parent.value))
    ensures Consistent(WithFlag(b, d, hasChanges))
    ensures KeepsCommitted(a, WithFlag(b, d, hasChanges))
  {
    var after := WithFlag(b, d, hasChanges);
    FlaggedTables(b, d, hasChanges);
    assert Safe(after) && KeepsCommitted(a, after) by {
      FlagIsSafe(b, d, hasChanges);
      KeepsIsTransitive(a, b, after);
    }
    assert Wrote(a, after, d) by { FlaggedWrite(a, b, d, hasChanges); }
    assert Shaped(after) by {
      FlaggedRows(b, d, hasChanges);
      WriteKeepsShape(a, after, d);
    }
    assert FlagsExact(after) by { WroteKeepsFlags(a, after, d); }
  }

  lemma WriteIsGuarded(a: Db, b: Db, d: Id, hasChanges: bool)
    requires Guarded(a) && Wrote(a, b, d) && Safe(b) && KeepsCommitted(a, b) && RowIdentities(b)
    ensures Guarded(WithFlag(b, d, hasChanges))
    ensures KeepsCommitted(a, WithFlag(b, d, hasChanges))
  {
    var after := WithFlag(b, d, hasChanges);
    assert Safe(after) && KeepsCommitted(a, after) by {
      FlagIsSafe(b, d, hasChanges);
      hide *;
      KeepsIsTransitive(a, b, after);
    }
    assert Wrote(a, after, d) by { FlaggedWrite(a, b, d, hasChanges); }
    assert RowIdentities(after) by { FlaggedRows(b, d, hasChanges); }
    assert MutableIsOwned(after) by { WroteKeepsOwners(a, after, d); }
    assert History(after.revisions) by { WroteKeepsHistory(a, after, d); }
  }

  // The same with the flag "changed", when the Draft holds a version that can still change.
  lemma ChangingWriteIsSound(a: Db, b: Db, d: Id, t: Id)
    requires Guarded(a) && Wrote(a, b, d) && Safe(b) && KeepsCommitted(a, b)
    requires RowIdentities(b) && (Consistent(a) ==> DistinctIn(b, d))
    requires InDraft(b, d, t) && !b.tables[t].readonly
    ensures Sound(a, WithFlag(b, d, true))
  {
    WroteKeepsHistory(a, b, d);
    MutableVersionDiffers(b, d, t);
    hide Guarded, KeepsCommitted, Consistent, RowIdentities, TablesOf, DistinctIdentities;
    WriteIsGuarded(a, b, d, true);
    if Consistent(a) {
      WriteIsConsistent(a, b, d, true);
    }
  }

  // ---- The writes --------------------------------------------------------------------------

  // The state before the flag is set.
  function WithTable(db: Db, d: Id, id: string, system: bool, createdAt: int): Db
    requires IsDraft(db, d)
  {
    var named := db.(nextId := db.nextId + 1);
    SetTables(InsertTable(named, TableVersion(db.nextId, id, false, system, createdAt)), d,
              TablesOf(db, d) + {named.nextId})
  }

  lemma IssuedIdsAreSafe(db: Db, count: nat)
    requires Safe(db)
    ensures Safe(db.(nextId := db.nextId + count))
    ensures KeepsCommitted(db, db.(nextId := db.nextId + count))
  {
  }

  lemma WithTableIsSafe(db: Db, d: Id, id: string, system: bool, createdAt: int)
    requires Safe(db) && IsDraft(db, d)
    ensures Safe(WithTable(db, d, id, system, createdAt))
    ensures KeepsCommitted(db, WithTable(db, d, id, system, createdAt))
  {
    hide KeepsCommitted;
    var named := db.(nextId := db.nextId + 1);
    var table := TableVersion(db.nextId, id, false, system, createdAt);
    var created := InsertTable(named, table);
    var tables := TablesOf(db, d) + {named.nextId};
    assert tables <= created.tables.Keys && IsDraft(created, d) by { TablesExist(db, d); }
    assert SetTables(created, d, tables) == WithTable(db, d, id, system, createdAt);
    assert created.revisions == db.revisions;
    hide *;
    IssuedIdsAreSafe(db, 1);
    InsertTableIsSafe(named, table);
    SetTablesIsSafe(created, d, tables);
    KeepsIsTransitive(named, created, SetTables(created, d, tables));
    KeepsIsTransitive(db, named, SetTables(created, d, tables));
  }

  lemma WithTableEffect(db: Db, d: Id, id: string, system: bool, createdAt: int)
    requires Safe(db) && IsDraft(db, d)
    ensures Wrote(db, WithTable(db, d, id, system, createdAt), d)
    ensures TablesOf(WithTable(db, d, id, system, createdAt), d) == TablesOf(db, d) + {db.nextId + 1}
  {
  }

  lemma WithTableIdentities(db: Db, d: Id, id: string, system: bool, createdAt: int)
    requires Safe(db) && IsDraft(db, d)
    requires Safe(WithTable(db, d, id, system, createdAt))
    ensures RowIdentities(db) ==> RowIdentities(WithTable(db, d, id, system, createdAt))
    ensures TableIdentities(db) ==> DistinctIn(WithTable(db, d, id, system, createdAt), d)
  {
    var b := WithTable(db, d, id, system, createdAt);
    WithTableEffect(db, d, id, system, createdAt);
    TablesExist(db, d);
    TablesExist(b, d);
    if TableIdentities(db) {
      TablesAreDistinct(db, d);
    }
  }

  lemma CreateTableIs(db: Db, d: Id, id: string, system: bool, createdAt: int)
    requires IsDraft(db, d)
    ensures d in WithTable(db, d, id, system, createdAt).revisions
    ensures CreateTable(db, d, id, system, createdAt) == WithFlag(WithTable(db, d, id, system, createdAt), d, true)
  {
  }

  lemma CreateTableIsSound(db: Db, d: Id, id: string, system: bool, createdAt: int)
    requires Guarded(db) && IsDraft(db, d)
    ensures Sound(db, CreateTable(db, d, id, system, createdAt))
  {
    hide *;
    GuardedParts(db);
    if Consistent(db) {
      ConsistentParts(db);
    }
    WithTableIsSafe(db, d, id, system, createdAt);
    WithTableEffect(db, d, id, system, createdAt);
    WithTableIdentities(db, d, id, system, createdAt);
    NewTableIsMutable(db, d, id, system, createdAt);
    CreateTableIs(db, d, id, system, createdAt);
    ChangingWriteIsSound(db, WithTable(db, d, id, system, createdAt), d, db.nextId + 1);
  }

  lemma NewTableIsMutable(db: Db, d: Id, id: string, system: bool, createdAt: int)
    requires IsDraft(db, d)
    ensures var b := WithTable(db, d, id, system, createdAt);
      InDraft(b, d, db.nextId + 1) && !b.tables[db.nextId + 1].readonly
  {
  }

  // Between its first and its last statement a write holds a version v of the Draft that can still change.
  ghost predicate Opened(a: Db, b: Db, d: Id, v: Id) {
    && Safe(b) && KeepsCommitted(a, b) && Wrote(a, b, d) && RowIdentities(b)
    && (Consistent(a) ==> DistinctIn(b, d))
    && InDraft(b, d, v) && !b.tables[v].readonly
  }

  lemma TouchOpens(db: Db, d: Id, t: Id)
    requires Guarded(db) && InDraft(db, d, t)
    ensures Opened(db, TouchTable(db, d, t), d, TouchedTable(db, t))
    ensures RowsOf(TouchTable(db, d, t), TouchedTable(db, t)) == RowsOf(db, t)
    ensures TouchTable(db, d, t).rows == db.rows
  {
    hide KeepsCommitted, RowsOf, TablesOf, TouchTable, DistinctIdentities, Wrote, RowIdentities;
    TouchTableIsSafe(db, d, t);
    TouchTableEffect(db, d, t);
    TouchTableKeepsIdentities(db, d, t);
    if Consistent(db) {
      TouchTableKeepsDistinct(db, d, t);
    }
  }

  lemma CloseIsSound(a: Db, b: Db, d: Id, v: Id)
    requires Guarded(a) && Opened(a, b, d, v)
    ensures Sound(a, WithFlag(b, d, true))
  {
    hide Guarded, Consistent, KeepsCommitted, Wrote, RowIdentities, DistinctIn, Sound;
    ChangingWriteIsSound(a, b, d, v);
  }

  // A step on rows alone keeps the version open.
  lemma RowStep(a: Db, b: Db, c: Db, d: Id, v: Id)
    requires Opened(a, b, d, v)
    requires Safe(c) && KeepsCommitted(b, c) && RowIdentities(c)
    requires c.revisions == b.revisions && c.tables == b.tables && c.tableLinks == b.tableLinks
    requires b.nextId <= c.nextId
    ensures Opened(a, c, d, v)
  {
    assert KeepsCommitted(a, c) by {
      hide *;
      KeepsIsTransitive(a, b, c);
    }
    hide KeepsCommitted, Consistent, RowIdentities;
  }

  lemma RenameTableIsSound(db: Db, d: Id, t: Id, id: string)
    requires Guarded(db) && InDraft(db, d, t)
    ensures Sound(db, RenameTable(db, d, t, id))
  {
    hide KeepsCommitted, Consistent, Guarded, Sound, Opened, TouchTable, TouchedTable;
    TouchOpens(db, d, t);
    RenamedIsOpened(db, TouchTable(db, d, t), d, TouchedTable(db, t), id);
    var touched, v := TouchTable(db, d, t), TouchedTable(db, t);
    CloseIsSound(db, UpdateTable(touched, v, touched.tables[v].(id := id)), d, v);
  }

  lemma OpenedParts(a: Db, b: Db, d: Id, v: Id)
    requires Opened(a, b, d, v)
    ensures Safe(b) && KeepsCommitted(a, b) && Wrote(a, b, d) && LinksExist(b) && RowIdentities(b)
    ensures Consistent(a) ==> DistinctIn(b, d)
    ensures IsDraft(b, d) && InDraft(b, d, v) && v in b.tables && !b.tables[v].readonly
  {
    hide Consistent, KeepsCommitted, RowIdentities;
  }

  lemma OpenedOf(a: Db, b: Db, d: Id, v: Id)
    requires Safe(b) && KeepsCommitted(a, b) && Wrote(a, b, d) && LinksExist(b) && RowIdentities(b)
    requires Consistent(a) ==> DistinctIn(b, d)
    requires InDraft(b, d, v) && v in b.tables && !b.tables[v].readonly
    ensures Opened(a, b, d, v)
  {
    hide Consistent, KeepsCommitted, RowIdentities;
  }

  lemma RenamedWrite(a: Db, b: Db, d: Id, v: Id, table: TableVersion)
    requires Wrote(a, b, d) && InDraft(b, d, v) && v in b.tables && !b.tables[v].readonly && LinksExist(b)
    requires RowIdentities(b) && table == b.tables[v].(id := table.id) && LinksExist(UpdateTable(b, v, table))
    ensures var renamed := UpdateTable(b, v, table);
      && Wrote(a, renamed, d) && RowIdentities(renamed) && (DistinctIn(b, d) ==> DistinctIn(renamed, d))
      && InDraft(renamed, d, v) && v in renamed.tables && !renamed.tables[v].readonly
  {
    assert TablesOf(UpdateTable(b, v, table), d) == TablesOf(b, d);
  }

  lemma IssuedIdentity(b: Db, v: Id)
    requires Safe(b) && v in b.tables
    ensures b.tables[v].createdId < b.nextId
  {
  }

  lemma RenamedIsOpened(a: Db, b: Db, d: Id, v: Id, id: string)
    requires Opened(a, b, d, v)
    ensures v in b.tables && Opened(a, UpdateTable(b, v, b.tables[v].(id := id)), d, v)
  {
    hide *;
    OpenedParts(a, b, d, v);
    IssuedIdentity(b, v);
    var table := b.tables[v].(id := id);
    var renamed := UpdateTable(b, v, table);
    UpdateTableIsSafe(b, v, table);
    SafeHasLinks(renamed);
    KeepsIsTransitive(a, b, renamed);
    RenamedWrite(a, b, d, v, table);
    OpenedOf(a, renamed, d, v);
  }

  // ---- Rows --------------------------------------------------------------------------------

  lemma CreatedRowsKeepIdentities(db: Db, v: Id, rows: seq<RowColumns>)
    requires Safe(db) && RowIdentities(db) && v in db.tables
    requires LinksExist(InsertRows(db.(nextId := db.nextId + |rows|), v, IdentifiedRows(db.nextId, rows), false))
    ensures RowIdentities(InsertRows(db.(nextId := db.nextId + |rows|), v, IdentifiedRows(db.nextId, rows), false))
  {
  }

  lemma CreatedRowsAreOpened(a: Db, b: Db, d: Id, v: Id, rows: seq<RowColumns>)
    requires Opened(a, b, d, v)
    ensures Opened(a, InsertRows(b.(nextId := b.nextId + |rows|), v, IdentifiedRows(b.nextId, rows), false), d, v)
  {
    var named := b.(nextId := b.nextId + |rows|);
    var created := InsertRows(named, v, IdentifiedRows(b.nextId, rows), false);
    assert Safe(created) && KeepsCommitted(b, created) by {
      IssuedIdsAreSafe(b, |rows|);
      InsertRowsIsSafe(named, v, IdentifiedRows(b.nextId, rows), false);
      hide *;
      KeepsIsTransitive(b, named, created);
    }
    assert RowIdentities(created) by { CreatedRowsKeepIdentities(b, v, rows); }
    RowStep(a, b, created, d, v);
  }

  lemma CreateRowsIsSound(db: Db, d: Id, t: Id, rows: seq<RowColumns>)
    requires Guarded(db) && InDraft(db, d, t)
    ensures Sound(db, CreateRows(db, d, t, rows))
  {
    hide KeepsCommitted, Consistent, Guarded, Sound, Opened, TouchTable, TouchedTable, InsertRows;
    var touched, v := TouchTable(db, d, t), TouchedTable(db, t);
    TouchOpens(db, d, t);
    CreatedRowsAreOpened(db, touched, d, v, rows);
    CloseIsSound(db, InsertRows(touched.(nextId := touched.nextId + |rows|), v,
                                IdentifiedRows(touched.nextId, rows), false), d, v);
  }

  lemma TouchedRowIsLinked(b: Db, v: Id, x: Id)
    requires Safe(b) && RowLink(x, v) in b.rowLinks
    ensures var own, y := TouchRow(b, v, x), TouchedRow(b, x);
      y in own.rows && !own.rows[y].readonly && own.rows[y].createdId == b.rows[x].createdId
      && RowLink(y, v) in own.rowLinks
  {
  }

  lemma TouchRowIsSafe(b: Db, v: Id, x: Id)
    requires Safe(b) && v in b.tables && !b.tables[v].readonly && x in b.rows
    ensures Safe(TouchRow(b, v, x))
    ensures KeepsCommitted(b, TouchRow(b, v, x))
  {
    if b.rows[x].readonly {
      var rows := [NewRow(b.rows[x].createdId, b.rows[x].columns)];
      var one := InsertRows(b, v, rows, false);
      InsertRowsIsSafe(b, v, rows, false);
      UnlinkRowsIsSafe(one, v, {x});
      hide *;
      KeepsIsTransitive(b, one, UnlinkRows(one, v, {x}));
    } else {
      CommittedIsReadonly(b);
    }
  }

  lemma TouchRowKeepsIdentities(b: Db, v: Id, x: Id)
    requires Safe(b) && RowIdentities(b) && RowLink(x, v) in b.rowLinks && LinksExist(TouchRow(b, v, x))
    ensures RowIdentities(TouchRow(b, v, x))
  {
    if b.rows[x].readonly {
      var c := TouchRow(b, v, x);
      forall l | l in c.rowLinks && l.row != b.nextId
        ensures l in b.rowLinks && c.rows[l.row] == b.rows[l.row] && (l.table == v ==> l.row != x)
      {
      }
      assert forall l | l in c.rowLinks && l.row == b.nextId :: l.table == v;
      assert c.rows[b.nextId].createdId == b.rows[x].createdId by { assert IsFrom(b.nextId, b.nextId, 1); }
    }
  }

  lemma TouchedRowIsOpened(a: Db, b: Db, d: Id, v: Id, x: Id)
    requires Opened(a, b, d, v) && RowLink(x, v) in b.rowLinks
    ensures Opened(a, TouchRow(b, v, x), d, v)
  {
    TouchRowIsSafe(b, v, x);
    TouchRowKeepsIdentities(b, v, x);
    hide KeepsCommitted, RowIdentities, Wrote, Safe, Consistent;
    RowStep(a, b, TouchRow(b, v, x), d, v);
  }

  lemma UpdatedRowIsOpened(a: Db, b: Db, d: Id, v: Id, y: Id, columns: RowColumns)
    requires Opened(a, b, d, v) && y in b.rows && !b.rows[y].readonly
    ensures Opened(a, UpdateRow(b, y, b.rows[y].(columns := columns)), d, v)
  {
    var c := UpdateRow(b, y, b.rows[y].(columns := columns));
    UpdateRowIsSafe(b, y, b.rows[y].(columns := columns));
    assert RowIdentities(c);
    hide KeepsCommitted, RowIdentities, Wrote, Safe, Consistent;
    RowStep(a, b, c, d, v);
  }

  lemma UpdateRowColumnsIsSound(db: Db, d: Id, t: Id, x: Id, columns: RowColumns)
    requires Guarded(db) && InDraft(db, d, t) && RowLink(x, t) in db.rowLinks
    ensures x in db.rows
    ensures Sound(db, UpdateRowColumns(db, d, t, x, columns))
  {
    var touched, v := TouchTable(db, d, t), TouchedTable(db, t);
    TouchOpens(db, d, t);
    assert RowLink(x, v) in touched.rowLinks by {
      assert x in RowsOf(db, t);
    }
    TouchedRowIsLinked(touched, v, x);
    hide KeepsCommitted, Consistent, Guarded, Sound, Opened, TouchTable, TouchedTable, TouchRow, TouchedRow;
    TouchedRowIsOpened(db, touched, d, v, x);
    var own, y := TouchRow(touched, v, x), TouchedRow(touched, x);
    UpdatedRowIsOpened(db, own, d, v, y, columns);
    CloseIsSound(db, UpdateRow(own, y, own.rows[y].(columns := columns)), d, v);
  }
}
