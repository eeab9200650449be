/** What the native removals leave in the store: which rows and versions are gone, what the Draft links instead, and
  * when it goes back to Head's table; and what reverting a Draft leaves. */
module DraftRemovalResults {
  import opened Wrappers
  import opened VersionStore
  import opened StoreShape
  import opened ContentDiff
  import opened DraftWrites
  import opened DraftWriteEffects
  import opened DraftWriteResults
  import opened DraftRemovals
  import opened RevertByPublicId

  // ---- Removing a table --------------------------------------------------------------------

  // The links of the Draft, and of it alone, become `tables`; only its flag may change besides.
  ghost predicate DraftRelinked(a: Db, b: Db, d: Id, tables: set<Id>) {
    && d in a.revisions && d in b.revisions
    && b.revisions == a.revisions[d := a.revisions[d].(hasChanges := b.revisions[d].hasChanges)]
    && TablesOf(b, d) == tables && (forall r | r != d :: TablesOf(b, r) == TablesOf(a, r))
  }

  // The rows that go with a table: those no other table holds.
  ghost predicate HeldOnlyBy(db: Db, x: Id, t: Id) {
    RowLink(x, t) in db.rowLinks && forall s | RowLink(x, s) in db.rowLinks :: s == t
  }

  lemma SameAfterComputedFlag(c: Db, d: Id)
    requires LinksExist(c) && d in c.revisions && c.revisions[d].parent.Some?
    ensures var after := WithComputedFlag(c, d);
      && after.tables == c.tables && after.rows == c.rows && after.rowLinks == c.rowLinks && d in after.revisions
      && after.revisions == c.revisions[d := c.revisions[d].(hasChanges := after.revisions[d].hasChanges)]
      && (forall r :: TablesOf(after, r) == TablesOf(c, r)) && (forall s :: RowsOf(after, s) == RowsOf(c, s))
  {
    hide HasTableDiffs;
  }

  lemma TableGone(db: Db, d: Id, t: Id)
    requires LinksExist(db) && MutableIsOwned(db) && InDraft(db, d, t)
    ensures var c := WithoutTable(db, d, t);
      && c.revisions == db.revisions && TablesOf(c, d) == TablesOf(db, d) - {t}
      && (forall r | r != d :: TablesOf(c, r) == TablesOf(db, r))
      && (forall s :: s in c.tables <==> s in db.tables && (s == t ==> db.tables[t].readonly))
      && (forall s | s in c.tables :: c.tables[s] == db.tables[s])
  {
    if !db.tables[t].readonly {
      assert TableLink(d, t) in db.tableLinks;
      assert forall l | l in db.tableLinks && l.table == t :: l.revision == d;
    }
  }

  lemma RowsGoneWithTable(db: Db, d: Id, t: Id)
    requires LinksExist(db) && InDraft(db, d, t)
    ensures var c := WithoutTable(db, d, t);
      && (forall x :: x in c.rows <==> x in db.rows && (db.tables[t].readonly || !HeldOnlyBy(db, x, t)))
      && (forall x | x in c.rows :: c.rows[x] == db.rows[x])
      && (forall s | s in c.tables :: RowsOf(c, s) == RowsOf(db, s))
  {
    if !db.tables[t].readonly {
      forall x
        ensures x in OrphansOf(db, t) <==> HeldOnlyBy(db, x, t)
      {
        if HeldOnlyBy(db, x, t) {
          assert RowLink(x, t) in db.rowLinks;
        }
      }
      var one := DeleteRows(db, OrphansOf(db, t));
      assert forall l | l in db.rowLinks && l.table != t :: l.row !in OrphansOf(db, t);
      assert forall s | s != t :: RowsOf(DeleteTables(one, {t}), s) == RowsOf(db, s);
    }
  }

  // The Draft no longer links the table. A version that can still change is deleted with the rows only it holds; a
  // committed one stays, with its rows. Nothing else changes.
  lemma RemovedTable(db: Db, d: Id, t: Id)
    requires Guarded(db) && InDraft(db, d, t)
    ensures var after := RemoveTable(db, d, t);
      && DraftRelinked(db, after, d, TablesOf(db, d) - {t})
      && (forall s :: s in after.tables <==> s in db.tables && (s == t ==> db.tables[t].readonly))
      && (forall s | s in after.tables :: after.tables[s] == db.tables[s] && RowsOf(after, s) == RowsOf(db, s))
      && (forall x :: x in after.rows <==> x in db.rows && (db.tables[t].readonly || !HeldOnlyBy(db, x, t)))
      && (forall x | x in after.rows :: after.rows[x] == db.rows[x])
  {
    var c := WithoutTable(db, d, t);
    hide *;
    GuardedParts(db);
    InDraftParts(db, d, t);
    DraftHasParent(db, d);
    WithoutTableIsSafe(db, d, t);
    SafeHasLinks(c);
    TableGone(db, d, t);
    RemoveTableIs(db, d, t);
    RowsGoneWithTable(db, d, t);
    SameAfterComputedFlag(c, d);
    RelinkedAs(db, c, WithComputedFlag(c, d), d, TablesOf(db, d) - {t});
  }

  lemma RemoveTableIs(db: Db, d: Id, t: Id)
    requires Guarded(db) && InDraft(db, d, t)
    ensures var c := WithoutTable(db, d, t);
      && LinksExist(c) && d in c.revisions && c.revisions[d].parent.Some?
      && RemoveTable(db, d, t) == WithComputedFlag(c, d)
  {
    DraftHasParent(db, d);
    WithoutTableIsSafe(db, d, t);
    hide Guarded, KeepsCommitted;
  }

  lemma RelinkedAs(a: Db, c: Db, b: Db, d: Id, tables: set<Id>)
    requires d in a.revisions && c.revisions == a.revisions && d in b.revisions
    requires b.revisions == c.revisions[d := c.revisions[d].(hasChanges := b.revisions[d].hasChanges)]
    requires TablesOf(c, d) == tables && (forall r | r != d :: TablesOf(c, r) == TablesOf(a, r))
    requires forall r :: TablesOf(b, r) == TablesOf(c, r)
    ensures DraftRelinked(a, b, d, tables)
  {
    hide TablesOf;
  }

  // ---- Removing rows -----------------------------------------------------------------------

  // The version join of the rows of one table finds a difference exactly when the two revisions hold different rows.
  lemma HasRowDiffsIsRowDifference(db: Db, identity: Id, from: Id, to: Id)
    requires LinksExist(db) && RowIdentities(db) && TableIdentities(db)
    ensures HasRowDiffs(db, identity, from, to)
       <==> RowsOfIdentity(db, identity, from) != RowsOfIdentity(db, identity, to)
  {
    var parents, children := RowsOfIdentity(db, identity, from), RowsOfIdentity(db, identity, to);
    UniqueInRevision(db, identity, from);
    assert parents <= db.rows.Keys && children <= db.rows.Keys;
    hide RowsOfIdentity, RowIdentities, TableIdentities, LinksExist;
    if !HasRowDiffs(db, identity, from, to) {
      forall x | x in children
        ensures x in parents
      {
        assert HasPartner(db, x, parents);
        var y :| y in parents && db.rows[y].createdId == db.rows[x].createdId;
        assert !RowVersionsDiffer(db, y, x);
      }
      forall x | x in parents
        ensures x in children
      {
        assert HasPartner(db, x, children);
        var y :| y in children && db.rows[y].createdId == db.rows[x].createdId;
        assert !RowVersionsDiffer(db, x, y);
      }
    }
  }

  lemma UniqueInRevision(db: Db, identity: Id, revision: Id)
    requires LinksExist(db) && RowIdentities(db) && TableIdentities(db)
    ensures RowsOfIdentity(db, identity, revision) <= db.rows.Keys
    ensures UniqueIdentities(db, RowsOfIdentity(db, identity, revision))
  {
    var rows := RowsOfIdentity(db, identity, revision);
    forall x, y | x in rows && y in rows && db.rows[x].createdId == db.rows[y].createdId
      ensures x == y
    {
      var k :| k in db.rowLinks && k.row == x && db.tables[k.table].createdId == identity
               && TableLink(revision, k.table) in db.tableLinks;
      var l :| l in db.rowLinks && l.row == y && db.tables[l.table].createdId == identity
               && TableLink(revision, l.table) in db.tableLinks;
      assert k.table == l.table;
    }
  }

  lemma RowsLeave(b: Db, v: Id, rows: set<Id>)
    requires LinksExist(b)
    ensures var c := WithoutRows(b, v, rows);
      && c.revisions == b.revisions && c.tables == b.tables && c.tableLinks == b.tableLinks
      && RowsOf(c, v) == RowsOf(b, v) - rows
      && (forall x :: x in c.rows <==> x in b.rows && !(x in rows && !b.rows[x].readonly))
      && (forall x | x in c.rows :: c.rows[x] == b.rows[x])
      && (forall s | s != v :: forall x ::
            x in RowsOf(c, s) <==> x in RowsOf(b, s) && !(x in rows && !b.rows[x].readonly))
  {
    RemovedRows(b, v, rows);
    var c := WithoutRows(b, v, rows);
    forall s, x | s != v
      ensures x in RowsOf(c, s) <==> x in RowsOf(b, s) && !(x in rows && !b.rows[x].readonly)
    {
      assert RowLink(x, s) in c.rowLinks <==> RowLink(x, s) in b.rowLinks && !(x in rows && !b.rows[x].readonly);
    }
  }

  // What leaves the store with removed rows: those that can still change.
  ghost predicate RowsDeleted(a: Db, b: Db, v: Id, rows: set<Id>)
    requires rows <= a.rows.Keys
  {
    && (forall x :: x in b.rows <==> x in a.rows && !(x in rows && !a.rows[x].readonly))
    && (forall x | x in b.rows :: b.rows[x] == a.rows[x])
    && (forall s | s in a.tables && s != v ::
          && s in b.tables && b.tables[s] == a.tables[s]
          && (forall x :: x in RowsOf(b, s) <==> x in RowsOf(a, s) && !(x in rows && !a.rows[x].readonly)))
  }

  lemma RowsLeaveTouched(a: Db, b: Db, c: Db, v: Id, rows: set<Id>)
    requires rows <= a.rows.Keys && OthersStay(a, b, v) && b.rows == a.rows && c.tables == b.tables
    requires forall x :: x in c.rows <==> x in b.rows && !(x in rows && !b.rows[x].readonly)
    requires forall x | x in c.rows :: c.rows[x] == b.rows[x]
    requires forall s | s != v :: forall x ::
      x in RowsOf(c, s) <==> x in RowsOf(b, s) && !(x in rows && !b.rows[x].readonly)
    ensures RowsDeleted(a, c, v, rows)
  {
    hide RowsOf;
  }

  lemma SameDeleted(a: Db, b: Db, c: Db, v: Id, rows: set<Id>)
    requires rows <= a.rows.Keys && RowsDeleted(a, b, v, rows)
    requires c.rows == b.rows && c.tables == b.tables && forall s :: RowsOf(c, s) == RowsOf(b, s)
    ensures RowsDeleted(a, c, v, rows)
  {
    hide RowsOf;
  }

  lemma RemovedInSteps(db: Db, d: Id, t: Id, rows: set<Id>, named: Option<Id>, b: Db, v: Id)
    requires CanRemoveRows(db, d, t, rows, named) && b == RowsGone(db, d, t, rows) && v == TouchedTable(db, t)
    requires LinksExist(b) && FoundInParent(b, d, v, named) && d in b.revisions
    ensures v in b.tables && b.revisions[d].parent.Some? && (named.Some? ==> named.value in b.tables)
    ensures var c := if Reverts(b, d, v, named) then Replaced(b, d, v, named.value) else b;
      && LinksExist(c) && d in c.revisions && c.revisions[d].parent.Some?
      && RemoveRows(db, d, t, rows, named) == WithComputedFlag(c, d)
  {
    RevertTableIs(b, d, v, named);
    RevertsToSome(b, d, v, named);
    if Reverts(b, d, v, named) {
      ReplacedTables(b, d, v, named.value);
    }
    hide CanRemoveRows, RowsGone, TouchedTable, HasRowDiffs, FoundInParent, LinksExist;
  }

  // The rows left are exactly those that revision p holds of this table.
  ghost predicate LeftIn(db: Db, p: Id, identity: Id, left: set<Id>) {
    forall x :: x in left <==>
      exists s :: TableLink(p, s) in db.tableLinks && s in db.tables && db.tables[s].createdId == identity
                  && RowLink(x, s) in db.rowLinks
  }

  lemma LeftInIs(db: Db, p: Id, identity: Id, left: set<Id>)
    ensures LeftIn(db, p, identity, left) <==> RowsOfIdentity(db, identity, p) == left
  {
    forall x
      ensures x in RowsOfIdentity(db, identity, p) <==>
        exists s :: TableLink(p, s) in db.tableLinks && s in db.tables && db.tables[s].createdId == identity
                    && RowLink(x, s) in db.rowLinks
    {
      if s :| TableLink(p, s) in db.tableLinks && s in db.tables && db.tables[s].createdId == identity
              && RowLink(x, s) in db.rowLinks {
        assert RowLink(x, s) in db.rowLinks;
      }
    }
  }

  lemma CommittedRowsOfIdentity(db: Db, b: Db, p: Id, identity: Id)
    requires LinksExist(db) && LinksExist(b) && KeepsCommitted(db, b) && CommittedRevision(db, p)
    ensures RowsOfIdentity(b, identity, p) == RowsOfIdentity(db, identity, p)
  {
    assert TablesOf(b, p) == TablesOf(db, p);
    forall x
      ensures x in RowsOfIdentity(b, identity, p) <==> x in RowsOfIdentity(db, identity, p)
    {
      if x in RowsOfIdentity(db, identity, p) {
        var l :| l in db.rowLinks && l.row == x && db.tables[l.table].createdId == identity
                 && TableLink(p, l.table) in db.tableLinks;
        assert CommittedTable(db, l.table) && x in RowsOf(db, l.table) && l.table in TablesOf(b, p);
        assert RowLink(x, l.table) in b.rowLinks;
      }
      if x in RowsOfIdentity(b, identity, p) {
        var l :| l in b.rowLinks && l.row == x && b.tables[l.table].createdId == identity
                 && TableLink(p, l.table) in b.tableLinks;
        assert l.table in TablesOf(db, p) && CommittedTable(db, l.table) && x in RowsOf(b, l.table);
        assert RowLink(x, l.table) in db.rowLinks;
      }
    }
  }

  lemma GoesBackExactly(db: Db, d: Id, t: Id, rows: set<Id>, named: Option<Id>, b: Db, v: Id)
    requires Consistent(db) && CanRemoveRows(db, d, t, rows, named) && t in db.tables && LinksExist(b)
    requires b == RowsGone(db, d, t, rows) && v == TouchedTable(db, t) && FoundInParent(b, d, v, named)
    ensures d in db.revisions && db.revisions[d].parent.Some? && d in b.revisions && b.revisions[d].parent.Some?
    ensures v in b.tables
    ensures Reverts(b, d, v, named)
       <==> named.Some? && LeftIn(db, ParentOf(db, d), db.tables[t].createdId, RowsOf(db, t) - rows)
  {
    hide *;
    RemovableParts(db, d, t, rows, named);
    DraftHasParent(db, d);
    RowsGoneIsOpened(db, d, t, rows, named);
    OpenedParts(db, b, d, v);
    RowsGoneRows(db, d, t, rows, named);
    ShapedParts(b);
    RevertsToSome(b, d, v, named);
    CommittedDraft(db, d);
    SameParent(db, b, d);
    CommittedRowsOfIdentity(db, b, ParentOf(db, d), db.tables[t].createdId);
    LinkedByDraft(b, d, v);
    RowsOfTheOnlyVersion(b, d, v);
    HasRowDiffsIsRowDifference(b, b.tables[v].createdId, ParentOf(db, d), d);
    LeftInIs(db, ParentOf(db, d), db.tables[t].createdId, RowsOf(db, t) - rows);
    RevertsIs(b, d, v, named);
  }

  lemma RevertsIs(b: Db, d: Id, v: Id, named: Option<Id>)
    requires LinksExist(b) && v in b.tables && d in b.revisions && b.revisions[d].parent.Some?
    ensures Reverts(b, d, v, named) <==> named.Some? && !HasRowDiffs(b, b.tables[v].createdId, ParentOf(b, d), d)
  {
    hide HasRowDiffs;
  }

  lemma LinkedByDraft(b: Db, d: Id, v: Id)
    requires InDraft(b, d, v)
    ensures TableLink(d, v) in b.tableLinks
  {
  }

  lemma CommittedDraft(db: Db, d: Id)
    requires History(db.revisions) && IsDraft(db, d)
    ensures db.revisions[d].parent.Some? && CommittedRevision(db, ParentOf(db, d))
  {
    DraftHasParent(db, d);
    hide History;
  }

  lemma RemovableParts(db: Db, d: Id, t: Id, rows: set<Id>, named: Option<Id>)
    requires CanRemoveRows(db, d, t, rows, named)
    ensures Safe(db) && LinksExist(db) && History(db.revisions) && Guarded(db) && InDraft(db, d, t) && IsDraft(db, d)
    ensures t in db.tables && d in db.revisions && rows <= RowsOf(db, t) && rows <= db.rows.Keys
  {
    RowsExist(db, t);
  }

  lemma RowsGoneStore(db: Db, d: Id, t: Id, rows: set<Id>) returns (v: Id)
    requires Safe(db) && InDraft(db, d, t) && rows <= db.rows.Keys && LinksExist(TouchTable(db, d, t))
    ensures v == TouchedTable(db, t) && WrittenVersion(db, t, v)
    ensures var b := RowsGone(db, d, t, rows);
      && b.revisions == db.revisions && v in b.tables && b.tables[v] == db.tables[t].(readonly := false)
      && RowsOf(b, v) == RowsOf(db, t) - rows && RowsDeleted(db, b, v, rows)
      && TablesOf(b, d) == TablesOf(db, d) - {t} + {v} && (forall r | r != d :: TablesOf(b, r) == TablesOf(db, r))
  {
    var touched;
    touched, v := TouchResult(db, d, t);
    var b := WithoutRows(touched, v, rows);
    assert b == RowsGone(db, d, t, rows);
    hide *;
    RowsLeave(touched, v, rows);
    RowsLeaveTouched(db, touched, b, v, rows);
    SameLinks(touched, b);
  }

  lemma SameLinks(a: Db, b: Db)
    requires b.tableLinks == a.tableLinks
    ensures forall r :: TablesOf(b, r) == TablesOf(a, r)
  {
  }

  lemma WithoutTouched(tables: set<Id>, t: Id, v: Id, named: Id)
    ensures tables - {t} + {v} - {v} + {named} == tables - {t} - {v} + {named}
    ensures tables - {t} + {v} == tables - {t} - {v} + {v}
  {
  }

  // The given rows, and no others, leave the version that the write works on. That version then stays in the Draft, or
  // gives way to Head's table of its public id: exactly if there is one and the rows left are those Head holds of the
  // table. Removed row versions are deleted if they could still change.
  lemma RemovedRowsResult(db: Db, d: Id, t: Id, rows: set<Id>, named: Option<Id>) returns (v: Id, goesBack: bool)
    requires CanRemoveRows(db, d, t, rows, named)
    ensures t in db.tables && d in db.revisions && db.revisions[d].parent.Some? && rows <= db.rows.Keys
    ensures WrittenVersion(db, t, v) && (goesBack ==> named.Some?)
    ensures var after := RemoveRows(db, d, t, rows, named);
      && v in after.tables && after.tables[v] == db.tables[t].(readonly := false)
      && RowsOf(after, v) == RowsOf(db, t) - rows
      && DraftRelinked(db, after, d, TablesOf(db, d) - {t} - {v} + {if goesBack then named.value else v})
      && RowsDeleted(db, after, v, rows)
    ensures Consistent(db) ==>
      (goesBack <==> named.Some? && LeftIn(db, ParentOf(db, d), db.tables[t].createdId, RowsOf(db, t) - rows))
  {
    hide *;
    RemovableParts(db, d, t, rows, named);
    DraftHasParent(db, d);
    var b := RowsGone(db, d, t, rows);
    TouchOpens(db, d, t);
    OpenedParts(db, TouchTable(db, d, t), d, TouchedTable(db, t));
    v := RowsGoneStore(db, d, t, rows);
    RowsGoneIsOpened(db, d, t, rows, named);
    OpenedParts(db, b, d, v);
    RevertsToSome(b, d, v, named);
    RevertTableIs(b, d, v, named);
    goesBack := Reverts(b, d, v, named);
    RemovedInSteps(db, d, t, rows, named, b, v);
    var c := if goesBack then Replaced(b, d, v, named.value) else b;
    if goesBack {
      ReplacedTables(b, d, v, named.value);
      ReplacedStore(b, d, v, named.value);
    }
    WithoutTouched(TablesOf(db, d), t, v, if goesBack then named.value else v);
    SameAfterComputedFlag(c, d);
    var after := WithComputedFlag(c, d);
    RelinkedAs(db, c, after, d, TablesOf(db, d) - {t} - {v} + {if goesBack then named.value else v});
    SameDeleted(db, b, c, v, rows);
    SameDeleted(db, c, after, v, rows);
    if Consistent(db) {
      GoesBackExactly(db, d, t, rows, named, b, v);
    }
  }

  lemma ReplacedStore(db: Db, d: Id, t: Id, named: Id)
    ensures var c := Replaced(db, d, t, named);
      c.revisions == db.revisions && c.rows == db.rows && forall s :: RowsOf(c, s) == RowsOf(db, s)
  {
  }

  // ---- Reverting the whole Draft -----------------------------------------------------------

  // The Draft links what Head links and reports no changes; nothing else changes.
  lemma RevertedDraft(db: Db, d: Id)
    requires Guarded(db) && IsDraft(db, d)
    ensures d in db.revisions && db.revisions[d].parent.Some?
    ensures var after := RevertDraft(db, d);
      && DraftRelinked(db, after, d, TablesOf(db, db.revisions[d].parent.value)) && !after.revisions[d].hasChanges
      && after.tables == db.tables && after.rows == db.rows && after.rowLinks == db.rowLinks
  {
    hide *;
    GuardedParts(db);
    CommittedDraft(db, d);
    RevertDraftIs(db, d);
    var tables := TablesOf(db, db.revisions[d].parent.value);
    RelinkedOne(db, d, tables);
    FlaggedTables(SetTables(db, d, tables), d, false);
    DraftRelinkedOf(db, RevertDraft(db, d), d, tables);
  }

  lemma RevertDraftIs(db: Db, d: Id)
    requires IsDraft(db, d) && db.revisions[d].parent.Some?
    ensures d in db.revisions
    ensures var c, after := SetTables(db, d, TablesOf(db, db.revisions[d].parent.value)), RevertDraft(db, d);
      && c.revisions == db.revisions && after == WithFlag(c, d, false)
      && after.tables == db.tables && after.rows == db.rows && after.rowLinks == db.rowLinks
      && after.revisions == db.revisions[d := db.revisions[d].(hasChanges := false)]
  {
  }

  lemma DraftRelinkedOf(a: Db, b: Db, d: Id, tables: set<Id>)
    requires d in a.revisions && b.revisions == a.revisions[d := a.revisions[d].(hasChanges := false)]
    requires TablesOf(b, d) == tables && (forall r | r != d :: TablesOf(b, r) == TablesOf(a, r))
    ensures DraftRelinked(a, b, d, tables) && !b.revisions[d].hasChanges
  {
    hide TablesOf;
  }
}
