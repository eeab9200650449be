/** A removal that leaves a table without row differences links Head's table of the same public id. That table may be
  * another one: when the Draft then keeps its table, what it contains, and two inputs for which it does not. */
module RevertByPublicId {
  import opened Wrappers
  import opened VersionStore
  import opened StoreShape
  import opened ContentDiff
  import opened DraftWrites
  import opened DraftWriteEffects
  import opened DraftFollowsHead
  import opened DraftRemovals

  // ---- What going back does to the Draft ---------------------------------------------------

  ghost predicate LinksIdentity(db: Db, revision: Id, identity: Id)
    requires LinksExist(db)
  {
    TablesExist(db, revision);
    exists s :: s in TablesOf(db, revision) && db.tables[s].createdId == identity
  }

  // Head's table of that name, if the Draft goes back to it, is a version of the Draft's own table.
  ghost predicate RevertsToItself(db: Db, d: Id, t: Id, named: Option<Id>)
    requires LinksExist(db) && t in db.tables && FoundInParent(db, d, t, named)
  {
    Reverts(db, d, t, named) ==> db.tables[named.value].createdId == db.tables[t].createdId
  }

  ghost predicate CanRevert(db: Db, d: Id, t: Id, named: Option<Id>) {
    Safe(db) && Shaped(db) && InDraft(db, d, t) && FoundInParent(db, d, t, named)
  }

  lemma TablesAfterRevert(db: Db, d: Id, t: Id, named: Option<Id>)
    requires CanRevert(db, d, t, named)
    ensures var c := RevertTable(db, d, t, named);
      && LinksExist(c) && c.tables == db.tables && c.rows == db.rows && c.rowLinks == db.rowLinks
      && TablesOf(c, d) == (if Reverts(db, d, t, named) then TablesOf(db, d) - {t} + {named.value} else TablesOf(db, d))
  {
    CanRevertParts(db, d, t, named);
    hide *;
    RevertTableIs(db, d, t, named);
    RevertsToSome(db, d, t, named);
    if named.Some? {
      ReplacedTables(db, d, t, named.value);
      ReplacedRows(db, d, t, named.value);
    }
  }

  lemma CanRevertParts(db: Db, d: Id, t: Id, named: Option<Id>)
    requires CanRevert(db, d, t, named)
    ensures Safe(db) && Shaped(db) && LinksExist(db) && TableIdentities(db) && InDraft(db, d, t)
    ensures FoundInParent(db, d, t, named) && d in db.revisions && t in db.tables && t in TablesOf(db, d)
    ensures TablesOf(db, d) <= db.tables.Keys && DistinctIdentities(db, TablesOf(db, d))
  {
  }

  lemma ReplacedRows(db: Db, d: Id, t: Id, named: Id)
    ensures Replaced(db, d, t, named).rows == db.rows && Replaced(db, d, t, named).rowLinks == db.rowLinks
  {
  }

  // The Draft keeps a version of its table if and only if it does not go back to a table of another identity.
  lemma RevertKeepsTheTable(db: Db, d: Id, t: Id, named: Option<Id>)
    requires CanRevert(db, d, t, named)
    ensures LinksExist(RevertTable(db, d, t, named))
    ensures LinksIdentity(RevertTable(db, d, t, named), d, db.tables[t].createdId) <==> RevertsToItself(db, d, t, named)
  {
    var c := RevertTable(db, d, t, named);
    hide *;
    CanRevertParts(db, d, t, named);
    TablesAfterRevert(db, d, t, named);
    RevertTableIs(db, d, t, named);
    RevertsToSome(db, d, t, named);
    RevertsToItselfIs(db, d, t, named);
    LinksIdentityIs(c, d, db.tables[t].createdId);
    if Reverts(db, d, t, named) {
      ReplacedIdentity(db, TablesOf(db, d), t, named.value);
    } else {
      assert t in TablesOf(c, d);
    }
  }

  lemma RevertsToItselfIs(db: Db, d: Id, t: Id, named: Option<Id>)
    requires CanRevert(db, d, t, named) && LinksExist(db) && FoundInParent(db, d, t, named) && d in db.revisions
    requires t in db.tables && db.revisions[d].parent.Some? && (named.Some? ==> named.value in db.tables)
    ensures RevertsToItself(db, d, t, named)
       <==> (Reverts(db, d, t, named) ==> db.tables[named.value].createdId == db.tables[t].createdId)
  {
    hide CanRevert, Reverts, FoundInParent;
  }

  lemma LinksIdentityIs(db: Db, r: Id, identity: Id)
    requires LinksExist(db)
    ensures TablesOf(db, r) <= db.tables.Keys
    ensures LinksIdentity(db, r, identity) <==> exists s :: s in TablesOf(db, r) && db.tables[s].createdId == identity
  {
  }

  lemma ReplacedIdentity(db: Db, tables: set<Id>, t: Id, named: Id)
    requires tables <= db.tables.Keys && DistinctIdentities(db, tables) && t in tables && named in db.tables
    ensures (exists s :: s in tables - {t} + {named} && db.tables[s].createdId == db.tables[t].createdId)
       <==> db.tables[named].createdId == db.tables[t].createdId
  {
    if db.tables[named].createdId == db.tables[t].createdId {
      assert named in tables - {t} + {named};
    }
  }

  lemma ReplacedContent(db: Db, tables: set<Id>, t: Id, other: Id)
    requires LinksExist(db) && tables <= db.tables.Keys && DistinctIdentities(db, tables) && t in tables
    requires other in db.tables
    ensures ContentsOf(db, tables - {t} + {other})
         == ContentsOf(db, tables) - {ContentOf(db, t)} + {ContentOf(db, other)}
  {
    forall s | s in tables && s != t
      ensures ContentOf(db, s) != ContentOf(db, t)
    {
      assert ContentOf(db, s).identity != ContentOf(db, t).identity;
    }
    hide ContentOf;
  }

  // What the Draft then contains: Head's table of that name in the place of its own.
  lemma ContentAfterRevert(db: Db, d: Id, t: Id, named: Option<Id>)
    requires CanRevert(db, d, t, named)
    ensures var c := RevertTable(db, d, t, named);
      && LinksExist(c)
      && RevisionContent(c, d) == (if Reverts(db, d, t, named)
                                   then RevisionContent(db, d) - {ContentOf(db, t)} + {ContentOf(db, named.value)}
                                   else RevisionContent(db, d))
  {
    var c := RevertTable(db, d, t, named);
    TablesAfterRevert(db, d, t, named);
    TablesAreDistinct(db, d);
    assert t in TablesOf(db, d);
    RevisionContentIs(db, db, d, TablesOf(db, d));
    hide RevertTable, Reverts, Shaped, RevisionContent, ContentsOf, DistinctIdentities;
    RevisionContentIs(db, c, d, TablesOf(c, d));
    if Reverts(db, d, t, named) {
      ReplacedContent(db, TablesOf(db, d), t, named.value);
    }
  }

  lemma RowsOfTheOnlyVersion(db: Db, revision: Id, t: Id)
    requires LinksExist(db) && TableIdentities(db) && TableLink(revision, t) in db.tableLinks
    ensures RowsOfIdentity(db, db.tables[t].createdId, revision) == RowsOf(db, t)
  {
  }

  lemma NoRowDiffsMeansSameRows(db: Db, d: Id, t: Id, named: Id)
    requires LinksExist(db) && TableIdentities(db) && TableLink(d, t) in db.tableLinks
    requires d in db.revisions && db.revisions[d].parent.Some? && TableLink(ParentOf(db, d), named) in db.tableLinks
    requires db.tables[named].createdId == db.tables[t].createdId && Reverts(db, d, t, Some(named))
    ensures RowsOf(db, named) == RowsOf(db, t)
  {
    RowsOfTheOnlyVersion(db, d, t);
    RowsOfTheOnlyVersion(db, ParentOf(db, d), named);
    var parents, children := RowsOf(db, named), RowsOf(db, t);
    assert parents <= db.rows.Keys by { RowsExist(db, named); }
    assert children <= db.rows.Keys by { RowsExist(db, t); }
    hide RowsOf, TableIdentities, RowsOfIdentity;
    forall x | x in children
      ensures x in parents
    {
      assert HasPartner(db, x, parents);
      var y :| y in parents && db.rows[y].createdId == db.rows[x].createdId;
      assert !RowVersionsDiffer(db, y, x);
    }
    forall x | x in parents
      ensures x in children
    {
      assert HasPartner(db, x, children);
      var y :| y in children && db.rows[y].createdId == db.rows[x].createdId;
      assert !RowVersionsDiffer(db, x, y);
    }
  }

  // Going back leaves the Draft's content as it was if and only if it does not go back to another table.
  lemma RevertKeepsContent(db: Db, d: Id, t: Id, named: Option<Id>)
    requires CanRevert(db, d, t, named)
    ensures LinksExist(RevertTable(db, d, t, named))
    ensures RevisionContent(RevertTable(db, d, t, named), d) == RevisionContent(db, d)
       <==> RevertsToItself(db, d, t, named)
  {
    hide *;
    CanRevertParts(db, d, t, named);
    RevertTableIs(db, d, t, named);
    RevertsToSome(db, d, t, named);
    ContentAfterRevert(db, d, t, named);
    RevertsToItselfIs(db, d, t, named);
    LinkedContentIn(db, d, t);
    if Reverts(db, d, t, named) {
      SameContentOrOther(db, d, t, named);
    }
  }

  lemma LinkedContentIn(db: Db, d: Id, t: Id)
    requires LinksExist(db) && t in TablesOf(db, d) && t in db.tables
    ensures ContentOf(db, t) in RevisionContent(db, d)
  {
    hide ContentOf, LinksExist, TablesOf;
  }

  // Head's table has the content of the Draft's if it is its version, and another identity if it is not.
  lemma SameContentOrOther(db: Db, d: Id, t: Id, named: Option<Id>)
    requires CanRevert(db, d, t, named) && LinksExist(db) && d in db.revisions && db.revisions[d].parent.Some?
    requires t in db.tables && Reverts(db, d, t, named) && named.Some? && named.value in db.tables
    ensures ContentOf(db, named.value) == ContentOf(db, t)
       <==> db.tables[named.value].createdId == db.tables[t].createdId
  {
    if db.tables[named.value].createdId == db.tables[t].createdId {
      assert TableLink(d, t) in db.tableLinks && TableLink(ParentOf(db, d), named.value) in db.tableLinks;
      assert TableIdentities(db);
      hide LinksExist, Safe, Shaped, Reverts, TableIdentities;
      NoRowDiffsMeansSameRows(db, d, t, named.value);
      assert db.tables[named.value].id == db.tables[t].id;
    }
  }

  // ---- Draft-only tables -------------------------------------------------------------------

  lemma TouchKeepsTables(db: Db, t: Id, d: Id)
    requires t in db.tables && IdsIssued(db)
    ensures var touched, v := TouchTable(db, d, t), TouchedTable(db, t);
      && (forall s | s in db.tables :: s in touched.tables && touched.tables[s] == db.tables[s])
      && v in touched.tables && touched.tables[v].createdId == db.tables[t].createdId
      && touched.revisions == db.revisions
  {
  }

  lemma WithoutRowsKeepsTables(b: Db, v: Id, rows: set<Id>)
    ensures WithoutRows(b, v, rows).tables == b.tables && WithoutRows(b, v, rows).revisions == b.revisions
  {
  }

  lemma RowsGoneRows(db: Db, d: Id, t: Id, rows: set<Id>, named: Option<Id>)
    requires CanRemoveRows(db, d, t, rows, named)
    ensures ParentOf(db, d) != d
    ensures var b, v := RowsGone(db, d, t, rows), TouchedTable(db, t);
      && LinksExist(b) && v in b.tables && b.tables[v].createdId == db.tables[t].createdId
      && RowsOf(b, v) == RowsOf(db, t) - rows
      && TablesOf(b, ParentOf(db, d)) == TablesOf(db, ParentOf(db, d))
      && (forall s | s in db.tables :: s in b.tables && b.tables[s] == db.tables[s])
      && b.revisions == db.revisions
  {
    var touched, v := TouchTable(db, d, t), TouchedTable(db, t);
    RowsGoneIsOpened(db, d, t, rows, named);
    OpenedLinks(db, RowsGone(db, d, t, rows), d, v);
    TouchOpens(db, d, t);
    OpenedLinks(db, touched, d, v);
    TouchKeepsTables(db, t, d);
    WithoutRowsKeepsTables(touched, v, rows);
    DraftHasParent(db, d);
    hide KeepsCommitted, Opened, RowsOf, TablesOf, Guarded, TouchTable, WithoutRows, Wrote;
    RemovedRows(touched, v, rows);
    OtherTablesStay(db, RowsGone(db, d, t, rows), d);
  }

  lemma OpenedLinks(a: Db, b: Db, d: Id, v: Id)
    requires Opened(a, b, d, v)
    ensures LinksExist(b) && Wrote(a, b, d)
  {
  }

  lemma FlagKeepsIdentity(c: Db, d: Id, identity: Id, hasChanges: bool)
    requires LinksExist(c) && d in c.revisions
    ensures LinksExist(WithFlag(c, d, hasChanges))
    ensures LinksIdentity(WithFlag(c, d, hasChanges), d, identity) <==> LinksIdentity(c, d, identity)
  {
    FlaggedTables(c, d, hasChanges);
  }

  // A Draft-only table shows row differences exactly when it has rows.
  lemma DraftOnlyHasRowDiffs(b: Db, d: Id, v: Id)
    requires LinksExist(b) && TableIdentities(b) && TableLink(d, v) in b.tableLinks
    requires d in b.revisions && b.revisions[d].parent.Some?
    requires !LinksIdentity(b, ParentOf(b, d), b.tables[v].createdId)
    ensures HasRowDiffs(b, b.tables[v].createdId, ParentOf(b, d), d) <==> RowsOf(b, v) != {}
  {
    RowsOfTheOnlyVersion(b, d, v);
    assert RowsOfIdentity(b, b.tables[v].createdId, ParentOf(b, d)) == {} by {
      assert forall s | TableLink(ParentOf(b, d), s) in b.tableLinks :: s in TablesOf(b, ParentOf(b, d));
    }
  }

  lemma SameIdentityInParent(db: Db, b: Db, p: Id, identity: Id)
    requires LinksExist(db) && LinksExist(b) && TablesOf(b, p) == TablesOf(db, p)
    requires forall s | s in db.tables :: s in b.tables && b.tables[s] == db.tables[s]
    ensures LinksIdentity(b, p, identity) <==> LinksIdentity(db, p, identity)
  {
    TablesExist(db, p);
  }

  lemma DraftOnlyIsAnother(b: Db, d: Id, v: Id, named: Option<Id>)
    requires LinksExist(b) && v in b.tables && FoundInParent(b, d, v, named)
    requires !LinksIdentity(b, ParentOf(b, d), b.tables[v].createdId)
    ensures named.Some? ==> b.tables[named.value].createdId != b.tables[v].createdId
  {
    if named.Some? {
      assert named.value in TablesOf(b, ParentOf(b, d));
    }
  }

  lemma DraftOnlyAfterRevert(b: Db, d: Id, v: Id, named: Option<Id>)
    requires CanRevert(b, d, v, named)
    requires !LinksIdentity(b, ParentOf(b, d), b.tables[v].createdId)
    ensures LinksExist(RevertTable(b, d, v, named))
    ensures LinksIdentity(RevertTable(b, d, v, named), d, b.tables[v].createdId) <==> named.None? || RowsOf(b, v) != {}
  {
    hide LinksIdentity, RowsOf, RevertTable, HasRowDiffs;
    DraftOnlyHasRowDiffs(b, d, v);
    DraftOnlyIsAnother(b, d, v, named);
    RevertKeepsTheTable(b, d, v, named);
  }

  lemma GuardedCanRevert(b: Db, d: Id, v: Id, named: Option<Id>)
    requires Guarded(b) && Shaped(b) && InDraft(b, d, v) && FoundInParent(b, d, v, named)
    ensures CanRevert(b, d, v, named) && LinksExist(b)
  {
  }

  lemma RemovedThenFlagged(db: Db, d: Id, t: Id, rows: set<Id>, named: Option<Id>, b: Db, v: Id)
    requires CanRemoveRows(db, d, t, rows, named) && b == RowsGone(db, d, t, rows) && v == TouchedTable(db, t)
    requires CanRevert(b, d, v, named)
    ensures var c := RevertTable(b, d, v, named);
      && LinksExist(c) && d in c.revisions && c.revisions[d].parent.Some?
      && RemoveRows(db, d, t, rows, named) == WithFlag(c, d, HasTableDiffs(c, ParentOf(c, d), d))
  {
    TablesAfterRevert(b, d, v, named);
  }

  // A table that exists in the Draft only survives the removal of its rows if and only if some row is left or Head
  // has no table of its public id.
  lemma DraftOnlyTableSurvives(db: Db, d: Id, t: Id, rows: set<Id>, named: Option<Id>)
    requires Consistent(db) && CanRemoveRows(db, d, t, rows, named)
    requires !LinksIdentity(db, ParentOf(db, d), db.tables[t].createdId)
    ensures LinksExist(RemoveRows(db, d, t, rows, named))
    ensures LinksIdentity(RemoveRows(db, d, t, rows, named), d, db.tables[t].createdId)
       <==> named.None? || rows != RowsOf(db, t)
  {
    var b, v := RowsGone(db, d, t, rows), TouchedTable(db, t);
    hide *;
    RemovableRows(db, d, t, rows, named);
    RowsGoneIsOpened(db, d, t, rows, named);
    OpenedInDraft(db, b, d, v);
    GuardedCanRevert(b, d, v, named);
    RowsGoneRows(db, d, t, rows, named);
    SameParent(db, b, d);
    SameIdentityInParent(db, b, ParentOf(db, d), db.tables[t].createdId);
    DraftOnlyAfterRevert(b, d, v, named);
    RemovedThenFlagged(db, d, t, rows, named, b, v);
    var c := RevertTable(b, d, v, named);
    FlagKeepsIdentity(c, d, db.tables[t].createdId, HasTableDiffs(c, ParentOf(c, d), d));
    Leftover(rows, RowsOf(db, t));
  }

  lemma RemovableRows(db: Db, d: Id, t: Id, rows: set<Id>, named: Option<Id>)
    requires CanRemoveRows(db, d, t, rows, named)
    ensures LinksExist(db) && d in db.revisions && rows <= RowsOf(db, t)
  {
  }

  lemma Leftover(rows: set<Id>, all: set<Id>)
    requires rows <= all
    ensures all - rows != {} <==> rows != all
  {
    assert all == rows + (all - rows);
  }

  lemma OpenedInDraft(a: Db, b: Db, d: Id, v: Id)
    requires Opened(a, b, d, v)
    ensures InDraft(b, d, v)
  {
  }

  lemma SameParent(db: Db, b: Db, d: Id)
    requires b.revisions == db.revisions && d in db.revisions && db.revisions[d].parent.Some?
    ensures ParentOf(b, d) == ParentOf(db, d)
  {
  }

  // ---- When going back fails ---------------------------------------------------------------

  // A new branch whose Draft (1) changed something.
  function ChangedBranch(): map<Id, Revision> {
    Branched(map[], 7, None, 0)[1 := NextDraft(7, 0).(hasChanges := true)]
  }

  lemma ChangedBranchHasHistory()
    ensures History(ChangedBranch())
  {
    assert CanBranch(map[], 7, None, 0);
    assert ChangedBranch() == Branched(map[], 7, None, 0)[1 := Branched(map[], 7, None, 0)[1].(hasChanges := true)];
    hide History, CanBranch;
    BranchKeepsHistory(map[], 7, None, 0);
    FlagKeepsHistory(Branched(map[], 7, None, 0), 1, true);
  }

  // The Draft renamed table "a" to "c" and then table "b" to "a".
  function RenamedInTurn(): Db {
    Db(ChangedBranch(),
       map[2 := TableVersion(2, "a", true, false, 0), 3 := TableVersion(3, "b", true, false, 0),
           4 := TableVersion(2, "c", false, false, 0), 5 := TableVersion(3, "a", false, false, 0)],
       map[],
       {TableLink(0, 2), TableLink(0, 3), TableLink(1, 4), TableLink(1, 5)},
       {}, {}, 8)
  }

  lemma RenamedInTurnTables()
    ensures TablesOf(RenamedInTurn(), 0) == {2, 3} && TablesOf(RenamedInTurn(), 1) == {4, 5}
  {
  }

  lemma RenamedInTurnIsSafe()
    ensures Safe(RenamedInTurn())
  {
  }

  lemma RenamedInTurnIdentities()
    requires LinksExist(RenamedInTurn())
    ensures RowIdentities(RenamedInTurn()) && TableIdentities(RenamedInTurn()) && MutableIsOwned(RenamedInTurn())
  {
  }

  lemma RenamedInTurnFlag()
    ensures FlagsExact(RenamedInTurn())
  {
    RenamedInTurnTables();
    assert 2 in TablesOf(RenamedInTurn(), 0) && 2 !in TablesOf(RenamedInTurn(), 1);
  }

  lemma RenamedInTurnRevisions()
    ensures RenamedInTurn().revisions == ChangedBranch()
  {
  }

  lemma RenamedInTurnIsConsistent()
    ensures Consistent(RenamedInTurn())
  {
    hide RenamedInTurn, ChangedBranch, History, RowIdentities, TableIdentities, MutableIsOwned, FlagsExact, Safe;
    RenamedInTurnIsSafe();
    assert LinksExist(RenamedInTurn()) by { SafeHasLinks(RenamedInTurn()); }
    RenamedInTurnIdentities();
    assert RenamedInTurn().revisions == ChangedBranch() by { RenamedInTurnRevisions(); }
    ChangedBranchHasHistory();
    RenamedInTurnFlag();
  }

  lemma RenamedInTurnReverts()
    ensures LinksExist(RenamedInTurn()) && InDraft(RenamedInTurn(), 1, 5)
    ensures FoundInParent(RenamedInTurn(), 1, 5, Some(2)) && Reverts(RenamedInTurn(), 1, 5, Some(2))
  {
  }

  lemma RenamedInTurnDoesNotFit()
    ensures LinksExist(RenamedInTurn()) && 2 in RenamedInTurn().tables
    ensures !FitsDraft(RenamedInTurn(), 1, 5, 2)
  {
  }

  lemma RevertedToNamed(db: Db, d: Id, t: Id, named: Id)
    requires LinksExist(db) && InDraft(db, d, t) && db.revisions[d].parent.Some? && Reverts(db, d, t, Some(named))
    ensures TablesOf(RevertTable(db, d, t, Some(named)), d) == TablesOf(db, d) - {t} + {named}
  {
  }

  // Removing no rows at all from "a" then gives the Draft two versions of one table and none of the other.
  lemma RevertCanDoubleATable()
    ensures Consistent(RenamedInTurn())
    ensures InDraft(RenamedInTurn(), 1, 5) && FoundInParent(RenamedInTurn(), 1, 5, Some(2))
    ensures var after := RevertTable(RenamedInTurn(), 1, 5, Some(2));
      && LinksExist(after) && !TableIdentities(after)
      && TablesOf(after, 1) == {2, 4}
  {
    RenamedInTurnIsConsistent();
    RenamedInTurnReverts();
    RenamedInTurnTables();
    RenamedInTurnDoesNotFit();
    hide RenamedInTurn, Safe, Shaped, RevertTable, Reverts, FitsDraft, TablesOf, TableIdentities;
    RevertKeepsIdentities(RenamedInTurn(), 1, 5, Some(2));
    RevertedToNamed(RenamedInTurn(), 1, 5, 2);
    assert {4, 5} - {5} + {2} == {2, 4};
  }

  // The Draft removed Head's table "a" and created another, empty table of that name.
  function Recreated(): Db {
    Db(ChangedBranch(),
       map[2 := TableVersion(2, "a", true, false, 0), 3 := TableVersion(3, "a", false, false, 0)],
       map[],
       {TableLink(0, 2), TableLink(1, 3)},
       {}, {}, 8)
  }

  lemma RecreatedTables()
    ensures TablesOf(Recreated(), 0) == {2} && TablesOf(Recreated(), 1) == {3}
  {
  }

  lemma RecreatedIsShaped()
    ensures Safe(Recreated()) && RowIdentities(Recreated()) && TableIdentities(Recreated())
       && MutableIsOwned(Recreated())
    ensures Recreated().revisions == ChangedBranch()
  {
  }

  lemma RecreatedFlag()
    ensures FlagsExact(Recreated())
  {
    RecreatedTables();
  }

  lemma RecreatedIsConsistent()
    ensures Consistent(Recreated())
  {
    hide Recreated, ChangedBranch, History, RowIdentities, TableIdentities, MutableIsOwned, FlagsExact, LinksExist,
        IdsIssued, ReadonlyRows, CommittedLocked;
    RecreatedIsShaped();
    ChangedBranchHasHistory();
    RecreatedFlag();
  }

  lemma RecreatedReverts()
    ensures LinksExist(Recreated()) && InDraft(Recreated(), 1, 3)
    ensures FoundInParent(Recreated(), 1, 3, Some(2)) && Reverts(Recreated(), 1, 3, Some(2))
    ensures FitsDraft(Recreated(), 1, 3, 2) && !LinksIdentity(Recreated(), 0, 3)
    ensures Recreated().tables[3].createdId == 3 && Recreated().tables[2].createdId == 2
  {
    RecreatedTables();
    assert RowsOfIdentity(Recreated(), 3, 0) == {} && RowsOfIdentity(Recreated(), 3, 1) == {};
  }

  // Removing no rows from that table then takes it out of the Draft, although Head has no version of it: the table
  // that existed in the Draft only is lost, and Head's removed table is back.
  lemma RevertCanLoseADraftOnlyTable()
    ensures Consistent(Recreated()) && InDraft(Recreated(), 1, 3) && FoundInParent(Recreated(), 1, 3, Some(2))
    ensures !LinksIdentity(Recreated(), 0, 3) && FitsDraft(Recreated(), 1, 3, 2)
    ensures var after := RevertTable(Recreated(), 1, 3, Some(2));
      && LinksExist(after) && TableIdentities(after)
      && TablesOf(after, 1) == {2} && !LinksIdentity(after, 1, 3)
  {
    RecreatedIsConsistent();
    RecreatedReverts();
    RecreatedTables();
    hide Recreated, Safe, Shaped, RevertTable, Reverts, FitsDraft, TablesOf, TableIdentities, LinksIdentity, LinksExist;
    ConsistentParts(Recreated());
    LostTable(Recreated());
  }

  lemma LostTable(db: Db)
    requires Consistent(db) && InDraft(db, 1, 3) && FoundInParent(db, 1, 3, Some(2)) && LinksExist(db)
    requires Reverts(db, 1, 3, Some(2)) && FitsDraft(db, 1, 3, 2) && TablesOf(db, 1) == {3}
    requires db.tables[3].createdId == 3 && db.tables[2].createdId == 2
    ensures var after := RevertTable(db, 1, 3, Some(2));
      LinksExist(after) && TableIdentities(after) && TablesOf(after, 1) == {2} && !LinksIdentity(after, 1, 3)
  {
    hide *;
    ConsistentCanRevert(db, 1, 3, Some(2));
    CanRevertParts(db, 1, 3, Some(2));
    RevertsToSome(db, 1, 3, Some(2));
    RevertTableIs(db, 1, 3, Some(2));
    RevertsToItselfIs(db, 1, 3, Some(2));
    TablesAfterRevert(db, 1, 3, Some(2));
    RevertKeepsIdentities(db, 1, 3, Some(2));
    RevertKeepsTheTable(db, 1, 3, Some(2));
    assert {3} - {3} + {2} == {2};
  }

  lemma ConsistentCanRevert(db: Db, d: Id, t: Id, named: Option<Id>)
    requires Consistent(db) && InDraft(db, d, t) && FoundInParent(db, d, t, named)
    ensures CanRevert(db, d, t, named)
  {
  }
}
