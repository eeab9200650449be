/** Native removals: rows and tables leave the Draft, a table without row differences goes back to Head's version,
  * and the flag is computed again. Reverting the whole Draft belongs here too. */
module DraftRemovals {
  import opened Wrappers
  import opened VersionStore
  import opened StatementSafety
  import opened StoreShape
  import opened ContentDiff
  import opened DraftWrites
  import opened DraftWriteEffects

  function ParentOf(db: Db, d: Id): Id
    requires d in db.revisions && db.revisions[d].parent.Some?
  {
    db.revisions[d].parent.value
  }

  lemma DraftHasParent(db: Db, d: Id)
    requires History(db.revisions) && IsDraft(db, d)
    ensures db.revisions[d].parent.Some? && ParentOf(db, d) in db.revisions && !db.revisions[ParentOf(db, d)].isDraft
    ensures ParentOf(db, d) != d
  {
    assert WellPlaced(db.revisions, d);
  }

  // ---- Removing rows -----------------------------------------------------------------------

  lemma WithoutRowsIsSafe(b: Db, v: Id, rows: set<Id>)
    requires Safe(b) && v in b.tables && !b.tables[v].readonly && rows <= b.rows.Keys
    ensures Safe(WithoutRows(b, v, rows))
    ensures KeepsCommitted(b, WithoutRows(b, v, rows))
  {
    var own := set x | x in rows && x in b.rows && !b.rows[x].readonly;
    var one := DeleteRows(b, own);
    assert forall l | l in b.rowLinks && l.row in own :: !CommittedTable(b, l.table) by {
      CommittedIsReadonly(b);
    }
    DeleteRowsIsSafe(b, own);
    UnlinkRowsIsSafe(one, v, rows - own);
    hide *;
    KeepsIsTransitive(b, one, UnlinkRows(one, v, rows - own));
  }

  lemma WithoutRowsIsOpened(a: Db, b: Db, d: Id, v: Id, rows: set<Id>)
    requires Opened(a, b, d, v) && rows <= b.rows.Keys
    ensures Opened(a, WithoutRows(b, v, rows), d, v)
  {
    var c := WithoutRows(b, v, rows);
    WithoutRowsIsSafe(b, v, rows);
    assert RowIdentities(c);
    hide KeepsCommitted, RowIdentities, Wrote, Safe;
    RowStep(a, b, c, d, v);
  }

  // Exactly the given rows leave the table; whether a row version is deleted or unlinked makes no difference to it.
  lemma RemovedRows(b: Db, v: Id, rows: set<Id>)
    requires LinksExist(b)
    ensures RowsOf(WithoutRows(b, v, rows), v) == RowsOf(b, v) - rows
    ensures forall x | x in b.rows && (x !in rows || b.rows[x].readonly) ::
      x in WithoutRows(b, v, rows).rows && WithoutRows(b, v, rows).rows[x] == b.rows[x]
  {
  }

  // ---- Going back to Head's version --------------------------------------------------------

  // Head's table of that public id is no second version of a table the Draft keeps.
  predicate FitsDraft(db: Db, d: Id, t: Id, named: Id)
    requires LinksExist(db) && named in db.tables
  {
    TablesExist(db, d);
    forall s | s in TablesOf(db, d) && s != t :: db.tables[s].createdId == db.tables[named].createdId ==> s == named
  }

  predicate Reverts(db: Db, d: Id, t: Id, named: Option<Id>)
    requires LinksExist(db) && t in db.tables && d in db.revisions && db.revisions[d].parent.Some?
  {
    named.Some? && !HasRowDiffs(db, db.tables[t].createdId, ParentOf(db, d), d)
  }

  function Replaced(db: Db, d: Id, t: Id, named: Id): Db {
    SetTables(db, d, TablesOf(db, d) - {t} + {named})
  }

  lemma RevertTableIs(db: Db, d: Id, t: Id, named: Option<Id>)
    requires LinksExist(db) && d in db.revisions && FoundInParent(db, d, t, named)
    ensures named.Some? ==> named.value in db.tables
    ensures RevertTable(db, d, t, named) == if Reverts(db, d, t, named) then Replaced(db, d, t, named.value) else db
  {
    hide HasRowDiffs;
  }

  lemma ReplacedTables(db: Db, d: Id, t: Id, named: Id)
    requires LinksExist(db) && d in db.revisions && named in db.tables
    ensures LinksExist(Replaced(db, d, t, named)) && Replaced(db, d, t, named).tables == db.tables
    ensures TablesOf(Replaced(db, d, t, named), d) == TablesOf(db, d) - {t} + {named}
    ensures forall r | r != d :: TablesOf(Replaced(db, d, t, named), r) == TablesOf(db, r)
  {
  }

  // One version per table, revision by revision.
  lemma DistinctEverywhere(db: Db)
    requires LinksExist(db)
    ensures TableIdentities(db)
       <==> forall r :: TablesOf(db, r) <= db.tables.Keys && DistinctIdentities(db, TablesOf(db, r))
  {
    forall r
      ensures TablesOf(db, r) <= db.tables.Keys
      ensures TableIdentities(db) ==> DistinctIdentities(db, TablesOf(db, r))
    {
      TablesExist(db, r);
    }
    if forall r :: TablesOf(db, r) <= db.tables.Keys && DistinctIdentities(db, TablesOf(db, r)) {
      forall k, l | k in db.tableLinks && l in db.tableLinks && k.revision == l.revision
                    && db.tables[k.table].createdId == db.tables[l.table].createdId
        ensures k.table == l.table
      {
        assert k.table in TablesOf(db, k.revision) && l.table in TablesOf(db, k.revision);
        assert DistinctIdentities(db, TablesOf(db, k.revision));
      }
    }
  }

  lemma FittingTablesAreDistinct(db: Db, d: Id, t: Id, named: Id)
    requires LinksExist(db) && named in db.tables
    requires TablesOf(db, d) <= db.tables.Keys && DistinctIdentities(db, TablesOf(db, d))
    ensures DistinctIdentities(db, TablesOf(db, d) - {t} + {named}) <==> FitsDraft(db, d, t, named)
  {
    var tables := TablesOf(db, d);
    assert forall s | s in tables && s != t :: s in tables - {t} + {named};
    assert named in tables - {t} + {named};
    hide TablesOf, LinksExist;
  }

  lemma SameDistinct(a: Db, b: Db, tables: set<Id>)
    requires a.tables == b.tables && tables <= a.tables.Keys
    ensures DistinctIdentities(a, tables) <==> DistinctIdentities(b, tables)
  {
  }

  lemma ReplacedIdentities(db: Db, d: Id, t: Id, named: Id)
    requires LinksExist(db) && TableIdentities(db) && d in db.revisions && named in db.tables
    ensures LinksExist(Replaced(db, d, t, named))
    ensures TableIdentities(Replaced(db, d, t, named)) <==> FitsDraft(db, d, t, named)
  {
    var c := Replaced(db, d, t, named);
    hide *;
    TablesExist(db, d);
    ReplacedTables(db, d, t, named);
    DistinctEverywhere(db);
    DistinctEverywhere(c);
    FittingTablesAreDistinct(db, d, t, named);
    forall r
      ensures TablesOf(c, r) <= c.tables.Keys && TablesOf(db, r) <= db.tables.Keys
      ensures r != d ==> DistinctIdentities(c, TablesOf(c, r))
      ensures r == d ==> (DistinctIdentities(c, TablesOf(c, r)) <==> FitsDraft(db, d, t, named))
    {
      TablesExist(c, r);
      TablesExist(db, r);
      SameDistinct(db, c, TablesOf(c, r));
    }
  }

  lemma ShapedParts(db: Db)
    requires Safe(db) && Shaped(db)
    ensures LinksExist(db) && RowIdentities(db) && TableIdentities(db)
  {
  }

  lemma InDraftParts(db: Db, d: Id, t: Id)
    requires InDraft(db, d, t)
    ensures IsDraft(db, d) && d in db.revisions && t in db.tables && t in TablesOf(db, d)
  {
  }

  // The table found by public id may belong to another identity: going back to it keeps one version per table
  // exactly when no other table of the Draft is a version of that identity.
  lemma RevertKeepsIdentities(db: Db, d: Id, t: Id, named: Option<Id>)
    requires Safe(db) && Shaped(db) && InDraft(db, d, t) && FoundInParent(db, d, t, named)
    ensures LinksExist(RevertTable(db, d, t, named))
    ensures TableIdentities(RevertTable(db, d, t, named))
        <==> (Reverts(db, d, t, named) ==> FitsDraft(db, d, t, named.value))
  {
    hide *;
    ShapedParts(db);
    InDraftParts(db, d, t);
    RevertTableIs(db, d, t, named);
    RevertsToSome(db, d, t, named);
    if named.Some? {
      ReplacedIdentities(db, d, t, named.value);
    }
  }

  lemma RevertsToSome(db: Db, d: Id, t: Id, named: Option<Id>)
    requires LinksExist(db) && FoundInParent(db, d, t, named)
    ensures d in db.revisions && db.revisions[d].parent.Some? && t in db.tables
    ensures Reverts(db, d, t, named) ==> named.Some?
  {
    hide HasRowDiffs;
  }

  lemma RevertTableIsSafe(b: Db, d: Id, v: Id, named: Option<Id>)
    requires Safe(b) && InDraft(b, d, v) && FoundInParent(b, d, v, named)
    ensures Safe(RevertTable(b, d, v, named))
    ensures KeepsCommitted(b, RevertTable(b, d, v, named))
  {
    if Reverts(b, d, v, named) {
      TablesExist(b, d);
      SetTablesIsSafe(b, d, TablesOf(b, d) - {v} + {named.value});
    } else {
      CommittedIsReadonly(b);
    }
  }

  lemma RevertTableEffect(b: Db, d: Id, v: Id, named: Option<Id>)
    requires Safe(b) && InDraft(b, d, v) && FoundInParent(b, d, v, named)
    requires ParentOf(b, d) in b.revisions && !b.revisions[ParentOf(b, d)].isDraft && RowIdentities(b)
    ensures Wrote(b, RevertTable(b, d, v, named), d)
    ensures RevertTable(b, d, v, named).tables == b.tables
    ensures LinksExist(RevertTable(b, d, v, named)) && RowIdentities(RevertTable(b, d, v, named))
  {
    if Reverts(b, d, v, named) {
      assert b.tables[named.value].readonly;
    }
  }

  // A write of Draft d that kept identities is consistent once the flag is computed from its links.
  lemma ComputedFlagIsConsistent(a: Db, c: Db, d: Id)
    requires Consistent(a) && Wrote(a, c, d) && Safe(c) && KeepsCommitted(a, c)
    requires RowIdentities(c) && TableIdentities(c)
    ensures c.revisions[d].parent.Some?
    ensures Consistent(WithComputedFlag(c, d))
    ensures KeepsCommitted(a, WithComputedFlag(c, d))
  {
    DraftHasParent(a, d);
    TablesAreDistinct(c, d);
    HasTableDiffsIsLinkDifference(c, ParentOf(c, d), d);
    hide Consistent, KeepsCommitted, Safe, Wrote, RowIdentities, TableIdentities, DistinctIdentities;
    WriteIsConsistent(a, c, d, HasTableDiffs(c, ParentOf(c, d), d));
  }

  lemma ComputedFlagIsSound(a: Db, c: Db, d: Id)
    requires Guarded(a) && Wrote(a, c, d) && Safe(c) && KeepsCommitted(a, c)
    requires RowIdentities(c) && (Consistent(a) ==> TableIdentities(c))
    ensures c.revisions[d].parent.Some?
    ensures Sound(a, WithComputedFlag(c, d))
  {
    DraftHasParent(a, d);
    hide Guarded, Consistent, KeepsCommitted, Safe, RowIdentities, TableIdentities;
    WriteIsGuarded(a, c, d, HasTableDiffs(c, ParentOf(c, d), d));
    if Consistent(a) {
      ComputedFlagIsConsistent(a, c, d);
    }
  }

  lemma OpenedIsGuarded(a: Db, b: Db, d: Id, v: Id)
    requires Guarded(a) && Opened(a, b, d, v)
    ensures Guarded(b) && (Consistent(a) ==> Shaped(b))
  {
    WroteKeepsOwners(a, b, d);
    WroteKeepsHistory(a, b, d);
    if Consistent(a) {
      WroteKeepsIdentities(a, b, d);
    }
  }

  ghost predicate CanRemoveRows(db: Db, d: Id, t: Id, rows: set<Id>, named: Option<Id>) {
    && Guarded(db) && InDraft(db, d, t) && rows <= RowsOf(db, t)
    && FoundInParent(db, d, t, named)
  }

  function RowsGone(db: Db, d: Id, t: Id, rows: set<Id>): Db
    requires t in db.tables
  {
    WithoutRows(TouchTable(db, d, t), TouchedTable(db, t), rows)
  }

  lemma RowsGoneIsOpened(db: Db, d: Id, t: Id, rows: set<Id>, named: Option<Id>)
    requires CanRemoveRows(db, d, t, rows, named)
    ensures Opened(db, RowsGone(db, d, t, rows), d, TouchedTable(db, t))
    ensures Guarded(RowsGone(db, d, t, rows)) && (Consistent(db) ==> Shaped(RowsGone(db, d, t, rows)))
    ensures FoundInParent(RowsGone(db, d, t, rows), d, TouchedTable(db, t), named)
  {
    var touched, v := TouchTable(db, d, t), TouchedTable(db, t);
    assert rows <= db.rows.Keys by { RowsExist(db, t); }
    TouchOpens(db, d, t);
    DraftHasParent(db, d);
    FoundAfterTouch(db, d, t, named);
    hide KeepsCommitted, Opened, TouchTable, TouchedTable, Consistent, Guarded, Shaped;
    WithoutRowsIsOpened(db, touched, d, v, rows);
    hide FoundInParent;
    OpenedIsGuarded(db, RowsGone(db, d, t, rows), d, v);
  }

  lemma FoundAfterTouch(db: Db, d: Id, t: Id, named: Option<Id>)
    requires Safe(db) && InDraft(db, d, t) && FoundInParent(db, d, t, named) && ParentOf(db, d) != d
    ensures FoundInParent(TouchTable(db, d, t), d, TouchedTable(db, t), named)
  {
  }

  // What removing rows leaves: the rows are gone, an equal table is Head's again, the flag is computed.
  ghost function RemoveRows(db: Db, d: Id, t: Id, rows: set<Id>, named: Option<Id>): Db
    requires CanRemoveRows(db, d, t, rows, named)
  {
    RowsGoneIsOpened(db, d, t, rows, named);
    var b, v := RowsGone(db, d, t, rows), TouchedTable(db, t);
    assert LinksExist(b) && IsDraft(b, d) && FoundInParent(b, d, v, named);
    DraftHasParent(b, d);
    RevertTableEffect(b, d, v, named);
    WithComputedFlag(RevertTable(b, d, v, named), d)
  }

  // Removing rows always keeps everything committed, and keeps a consistent store consistent exactly when the table
  // gone back to fits the rest of the Draft.
  lemma RemoveRowsIsSound(db: Db, d: Id, t: Id, rows: set<Id>, named: Option<Id>)
    requires CanRemoveRows(db, d, t, rows, named)
    ensures Guarded(RemoveRows(db, d, t, rows, named)) && KeepsCommitted(db, RemoveRows(db, d, t, rows, named))
    ensures var b, v := RowsGone(db, d, t, rows), TouchedTable(db, t);
      && LinksExist(b) && FoundInParent(b, d, v, named)
      && (Consistent(db) ==>
            (Consistent(RemoveRows(db, d, t, rows, named))
             <==> (Reverts(b, d, v, named) ==> FitsDraft(b, d, v, named.value))))
  {
    var b, v := RowsGone(db, d, t, rows), TouchedTable(db, t);
    RowsGoneIsOpened(db, d, t, rows, named);
    hide KeepsCommitted, Opened, Consistent, RowsGone, TouchedTable, FitsDraft, Reverts, RevertTable, Wrote;
    RevertAfterWrite(db, b, d, v, named);
  }

  lemma RevertAfterWrite(a: Db, b: Db, d: Id, v: Id, named: Option<Id>)
    requires LinksExist(b) && IsDraft(b, d) && b.revisions[d].parent.Some? && v in b.tables
    requires named.Some? ==> named.value in b.tables
    requires Guarded(a) && Opened(a, b, d, v) && Guarded(b) && FoundInParent(b, d, v, named)
    requires Consistent(a) ==> Shaped(b)
    ensures LinksExist(RevertTable(b, d, v, named)) && RevertTable(b, d, v, named).revisions == b.revisions
    ensures var after := WithComputedFlag(RevertTable(b, d, v, named), d);
      && Guarded(after) && KeepsCommitted(a, after)
      && (Consistent(a) ==>
            (Consistent(after) <==> (Reverts(b, d, v, named) ==> FitsDraft(b, d, v, named.value))))
  {
    var c := RevertTable(b, d, v, named);
    hide *;
    GuardedParts(b);
    OpenedParts(a, b, d, v);
    DraftHasParent(b, d);
    RevertedIsSound(a, b, d, v, named);
    SameDraftIn(b, c, d);
    FlaggedIsSound(a, c, d);
    ComputedFlagIs(c, d);
    WriteIsGuarded(a, c, d, HasTableDiffs(c, ParentOf(c, d), d));
    if Consistent(a) {
      RevertKeepsIdentities(b, d, v, named);
      if TableIdentities(c) {
        ComputedFlagIsConsistent(a, c, d);
      }
    }
  }

  lemma SameDraftIn(b: Db, c: Db, d: Id)
    requires c.revisions == b.revisions && IsDraft(b, d)
    ensures IsDraft(c, d) && c.revisions[d] == b.revisions[d]
  {
  }

  lemma ComputedFlagIs(c: Db, d: Id)
    requires LinksExist(c) && d in c.revisions && c.revisions[d].parent.Some?
    ensures WithComputedFlag(c, d) == WithFlag(c, d, HasTableDiffs(c, ParentOf(c, d), d))
  {
  }

  lemma RevertedIsSound(a: Db, b: Db, d: Id, v: Id, named: Option<Id>)
    requires Opened(a, b, d, v) && FoundInParent(b, d, v, named)
    requires ParentOf(b, d) in b.revisions && !b.revisions[ParentOf(b, d)].isDraft
    ensures LinksExist(b)
    ensures var c := RevertTable(b, d, v, named);
      Wrote(a, c, d) && Safe(c) && LinksExist(c) && KeepsCommitted(a, c) && RowIdentities(c)
      && c.revisions == b.revisions
  {
    var c := RevertTable(b, d, v, named);
    RevertTableEffect(b, d, v, named);
    RevertTableIsSafe(b, d, v, named);
    hide KeepsCommitted, RowIdentities, Consistent, FoundInParent, RevertTable;
    KeepsIsTransitive(a, b, c);
    assert Wrote(a, c, d);
  }

  lemma FlaggedIsSound(a: Db, c: Db, d: Id)
    requires Safe(c) && KeepsCommitted(a, c) && IsDraft(c, d) && c.revisions[d].parent.Some?
    ensures KeepsCommitted(a, WithComputedFlag(c, d))
    ensures Consistent(WithComputedFlag(c, d)) ==> TableIdentities(c)
  {
  }

  // ---- Removing a table --------------------------------------------------------------------

  lemma WithoutTableIsSafe(db: Db, d: Id, t: Id)
    requires Safe(db) && MutableIsOwned(db) && InDraft(db, d, t)
    ensures Safe(WithoutTable(db, d, t))
    ensures KeepsCommitted(db, WithoutTable(db, d, t))
  {
    if db.tables[t].readonly {
      TablesExist(db, d);
      SetTablesIsSafe(db, d, TablesOf(db, d) - {t});
    } else {
      var orphans := OrphansOf(db, t);
      var one := DeleteRows(db, orphans);
      assert forall l | l in db.rowLinks && l.row in orphans :: l.table == t;
      assert !CommittedTable(db, t) by { CommittedIsReadonly(db); }
      DeleteRowsIsSafe(db, orphans);
      DeleteTablesIsSafe(one, {t});
      hide *;
      KeepsIsTransitive(db, one, DeleteTables(one, {t}));
    }
  }

  lemma WithoutTableEffect(db: Db, d: Id, t: Id)
    requires LinksExist(db) && RowIdentities(db) && MutableIsOwned(db) && InDraft(db, d, t)
    requires LinksExist(WithoutTable(db, d, t))
    ensures Wrote(db, WithoutTable(db, d, t), d)
    ensures TablesOf(WithoutTable(db, d, t), d) == TablesOf(db, d) - {t}
    ensures RowIdentities(WithoutTable(db, d, t))
  {
    if !db.tables[t].readonly {
      assert TableLink(d, t) in db.tableLinks;
      assert forall l | l in db.tableLinks && l.table == t :: l.revision == d;
    }
  }

  lemma WithoutTableKeepsIdentities(db: Db, d: Id, t: Id)
    requires LinksExist(db) && IdsIssued(db) && TableIdentities(db) && InDraft(db, d, t)
    requires LinksExist(WithoutTable(db, d, t)) && Wrote(db, WithoutTable(db, d, t), d)
    requires TablesOf(WithoutTable(db, d, t), d) == TablesOf(db, d) - {t}
    ensures TableIdentities(WithoutTable(db, d, t))
  {
    var b := WithoutTable(db, d, t);
    TablesAreDistinct(db, d);
    TablesExist(b, d);
    WroteKeepsIdentities(db, b, d);
  }

  ghost function RemoveTable(db: Db, d: Id, t: Id): Db
    requires Guarded(db) && InDraft(db, d, t)
  {
    WithoutTableIsSafe(db, d, t);
    DraftHasParent(db, d);
    WithComputedFlag(WithoutTable(db, d, t), d)
  }

  lemma RemoveTableIsSound(db: Db, d: Id, t: Id)
    requires Guarded(db) && InDraft(db, d, t)
    ensures Sound(db, RemoveTable(db, d, t))
  {
    hide KeepsCommitted, TablesOf, WithoutTable, Consistent, Sound;
    WithoutTableIsSafe(db, d, t);
    WithoutTableEffect(db, d, t);
    if Consistent(db) {
      ConsistentParts(db);
      WithoutTableKeepsIdentities(db, d, t);
    }
    ComputedFlagIsSound(db, WithoutTable(db, d, t), d);
  }

  // ---- Reverting the whole Draft -----------------------------------------------------------

  function RevertDraft(db: Db, d: Id): Db
    requires d in db.revisions && db.revisions[d].parent.Some?
  {
    WithFlag(SetTables(db, d, TablesOf(db, ParentOf(db, d))), d, false)
  }

  lemma HeadTablesAreReadonly(db: Db, p: Id)
    requires Safe(db) && p in db.revisions && !db.revisions[p].isDraft
    ensures TablesOf(db, p) <= db.tables.Keys
    ensures forall t | t in TablesOf(db, p) :: db.tables[t].readonly
  {
  }

  lemma RelinkedDraftEffect(db: Db, d: Id, tables: set<Id>)
    requires LinksExist(db) && RowIdentities(db) && IsDraft(db, d) && tables <= db.tables.Keys
    requires forall t | t in tables && t !in TablesOf(db, d) :: db.tables[t].readonly
    ensures LinksExist(SetTables(db, d, tables)) && RowIdentities(SetTables(db, d, tables))
    ensures Wrote(db, SetTables(db, d, tables), d)
    ensures TablesOf(SetTables(db, d, tables), d) == tables
    ensures forall r | r != d :: TablesOf(SetTables(db, d, tables), r) == TablesOf(db, r)
  {
  }

  lemma RevertDraftIsSound(db: Db, d: Id)
    requires Guarded(db) && IsDraft(db, d)
    ensures db.revisions[d].parent.Some?
    ensures Sound(db, RevertDraft(db, d))
    ensures RevisionContentAfterRevert(db, d)
  {
    DraftHasParent(db, d);
    var p := ParentOf(db, d);
    var tables := TablesOf(db, p);
    var b := SetTables(db, d, tables);
    HeadTablesAreReadonly(db, p);
    SetTablesIsSafe(db, d, tables);
    RelinkedDraftEffect(db, d, tables);
    assert TablesOf(WithFlag(b, d, false), d) == TablesOf(b, d);
    hide KeepsCommitted, RowIdentities, Wrote, Consistent, TablesOf, Guarded;
    WriteIsGuarded(db, b, d, false);
    if Consistent(db) {
      ConsistentParts(db);
      TablesAreDistinct(db, p);
      WriteIsConsistent(db, b, d, false);
    }
  }

  // After a revert the Draft is Head again, and the flag says so.
  ghost predicate RevisionContentAfterRevert(db: Db, d: Id)
    requires d in db.revisions && db.revisions[d].parent.Some?
  {
    TablesOf(RevertDraft(db, d), d) == TablesOf(db, ParentOf(db, d)) && !RevertDraft(db, d).revisions[d].hasChanges
  }
}
