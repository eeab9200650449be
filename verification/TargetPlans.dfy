/** The write plans of partial commits and reverts: what a plan says about one table, when it fits the two
  * revisions it was planned for, and how writing one planned table lets the store grow. */
module TargetPlans {
  import opened Wrappers
  import opened VersionStore
  import opened StoreShape
  import opened ContentDiff
  import opened VersionWriter
  import opened WriterProperties

  datatype TargetTable =
    | Linked(versionId: Option<Id>)
    | Mixed(source: Id, editInPlace: bool, changes: RowLinkChanges)

  datatype RenumberedRows = RenumberedRows(replaced: seq<Id>, newRows: seq<NewRow>)

  datatype TablePlan = TablePlan(
    identity: Id, head: Option<Id>, draft: Option<Id>, target: TargetTable,
    relinkCandidate: bool, renumbered: Option<RenumberedRows>)

  // ---- When a plan fits --------------------------------------------------------------------

  // The rows a version ends up with belong to different identities.
  ghost predicate ChangesFit(db: Db, base: set<Id>, changes: RowLinkChanges) {
    var target := TargetRows(base, changes);
    && KnownIdentities(db, changes.newRows)
    && target <= db.rows.Keys && UniqueIdentities(db, target)
    && (forall i, j | 0 <= i < |changes.newRows| && 0 <= j < |changes.newRows| ::
          changes.newRows[i].createdId == changes.newRows[j].createdId ==> i == j)
    && (forall i, x | 0 <= i < |changes.newRows| && x in target ::
          db.rows[x].createdId != changes.newRows[i].createdId)
  }

  // The plan names the only version of its table that the revision links, if there is one.
  ghost predicate NamesVersion(db: Db, revision: Id, identity: Id, version: Option<Id>)
    requires LinksExist(db)
  {
    TablesExist(db, revision);
    forall t | t in TablesOf(db, revision) :: db.tables[t].createdId == identity <==> version == Some(t)
  }

  ghost predicate VersionOf(db: Db, version: Option<Id>, identity: Id) {
    version.Some? ==> version.value in db.tables && db.tables[version.value].createdId == identity
  }

  ghost predicate LinkedBy(db: Db, revision: Id, version: Option<Id>) {
    version.Some? ==> TableLink(revision, version.value) in db.tableLinks
  }

  ghost predicate TargetFits(db: Db, plan: TablePlan) {
    match plan.target
    case Linked(version) => version.Some? ==> version == plan.head || version == plan.draft
    case Mixed(source, _, changes) =>
      && (Some(source) == plan.head || Some(source) == plan.draft)
      && CanCopy(db, source, changes) && ChangesFit(db, RowsOf(db, source), changes)
  }

  ghost predicate PlanFits(db: Db, head: Id, draft: Id, plan: TablePlan) {
    && LinkedBy(db, head, plan.head) && LinkedBy(db, draft, plan.draft)
    && VersionOf(db, plan.head, plan.identity) && VersionOf(db, plan.draft, plan.identity)
    && TargetFits(db, plan)
  }

  // ---- How the store grows -----------------------------------------------------------------

  ghost predicate GrewTables(a: map<Id, TableVersion>, b: map<Id, TableVersion>, first: Id) {
    && (forall t | t in a :: t in b && (b[t] == a[t] || b[t] == a[t].(readonly := true)))
    && (forall t | t in b && t !in a :: first <= t)
  }

  ghost predicate GrewRows(a: map<Id, RowVersion>, b: map<Id, RowVersion>) {
    forall x | x in a :: x in b && (b[x] == a[x] || b[x] == a[x].(readonly := true))
  }

  // New versions beside the existing ones, which at most became readonly.
  ghost predicate Grew(a: Db, b: Db) {
    && b.revisions == a.revisions && b.tableLinks == a.tableLinks && a.nextId <= b.nextId
    && GrewTables(a.tables, b.tables, a.nextId) && GrewRows(a.rows, b.rows)
    && (forall l | l in a.rowLinks :: l in b.rowLinks)
    && (forall l | l in b.rowLinks && l.table in a.tables :: l in a.rowLinks)
  }

  lemma GrewIsTransitive(a: Db, b: Db, c: Db)
    requires Grew(a, b) && Grew(b, c)
    ensures Grew(a, c)
  {
  }

  lemma CopyGrows(db: Db, source: Id, changes: RowLinkChanges, readonly: bool)
    requires Safe(db) && source in db.tables
    ensures Grew(db, Copied(db, source, changes, readonly))
  {
  }

  lemma LockGrows(db: Db, table: Id, head: Option<Id>)
    ensures Grew(db, LockedIntoHead(db, table, head))
  {
  }

  lemma SameRowsAfterGrowth(a: Db, b: Db, t: Id)
    requires Grew(a, b) && t in a.tables
    ensures RowsOf(b, t) == RowsOf(a, t)
  {
  }

  lemma SameTablesAfterGrowth(a: Db, b: Db)
    requires Grew(a, b)
    ensures forall r :: TablesOf(b, r) == TablesOf(a, r)
  {
  }

  lemma ChangesFitAfterGrowth(a: Db, b: Db, base: set<Id>, changes: RowLinkChanges)
    requires Grew(a, b) && ChangesFit(a, base, changes)
    ensures ChangesFit(b, base, changes)
  {
  }

  lemma CanCopyAfterGrowth(a: Db, b: Db, source: Id, changes: RowLinkChanges)
    requires Grew(a, b) && CanCopy(a, source, changes) && ChangesFit(a, RowsOf(a, source), changes)
    ensures CanCopy(b, source, changes) && ChangesFit(b, RowsOf(b, source), changes)
  {
    SameRowsAfterGrowth(a, b, source);
    ChangesFitAfterGrowth(a, b, RowsOf(a, source), changes);
  }

  // ---- A fitting copy keeps one version per row --------------------------------------------

  lemma NewRowIsStored(rows: map<Id, RowVersion>, first: Id, newRows: seq<NewRow>, readonly: bool, x: Id)
    requires x in IdsFrom(first, |newRows|)
    ensures x in rows + NewRowVersions(first, newRows, readonly)
    ensures (rows + NewRowVersions(first, newRows, readonly))[x].createdId == newRows[x - first].createdId
  {
  }

  lemma FittingRowsAreUnique(db: Db, base: set<Id>, first: Id, changes: RowLinkChanges, readonly: bool, after: Db)
    requires IdsIssued(db) && db.nextId <= first && ChangesFit(db, base, changes)
    requires after.rows == db.rows + NewRowVersions(first, changes.newRows, readonly)
    ensures var rows := TargetRows(base, changes) + IdsFrom(first, |changes.newRows|);
      rows <= after.rows.Keys && UniqueIdentities(after, rows)
  {
    var rows := TargetRows(base, changes) + IdsFrom(first, |changes.newRows|);
    forall x | x in rows
      ensures x in after.rows
      ensures x in TargetRows(base, changes) && x !in IdsFrom(first, |changes.newRows|) ==>
        x in db.rows && after.rows[x] == db.rows[x]
      ensures x in IdsFrom(first, |changes.newRows|) ==> after.rows[x].createdId == changes.newRows[x - first].createdId
    {
      if x in IdsFrom(first, |changes.newRows|) {
        NewRowIsStored(db.rows, first, changes.newRows, readonly, x);
      }
    }
  }

  lemma UniqueRowsOfOneTable(a: Db, b: Db, table: Id)
    requires LinksExist(a) && RowIdentities(a) && LinksExist(b)
    requires forall l | l in b.rowLinks && l.table != table ::
      l in a.rowLinks && b.rows[l.row].createdId == a.rows[l.row].createdId
    requires RowsOf(b, table) <= b.rows.Keys && UniqueIdentities(b, RowsOf(b, table))
    ensures RowIdentities(b)
  {
  }

  lemma FittingCopyKeepsRowIdentities(db: Db, source: Id, changes: RowLinkChanges, readonly: bool)
    requires Safe(db) && RowIdentities(db) && source in db.tables && ChangesFit(db, RowsOf(db, source), changes)
    requires LinksExist(Copied(db, source, changes, readonly))
    ensures RowIdentities(Copied(db, source, changes, readonly))
  {
    hide RowIdentities, ChangesFit, UniqueIdentities, TargetRows, NewRowVersions, CopiedLinks, RowsOf, IdsFrom;
    var copied := Copied(db, source, changes, readonly);
    CopiedRows(db, source, changes, readonly);
    CopyLeavesOtherRows(db, source, changes, readonly);
    assert copied.rows == db.rows + NewRowVersions(db.nextId + 1, changes.newRows, readonly);
    assert IdsIssued(db) && LinksExist(db);
    hide *;
    FittingRowsAreUnique(db, RowsOf(db, source), db.nextId + 1, changes, readonly, copied);
    UniqueRowsOfOneTable(db, copied, db.nextId);
  }

  lemma CopyLeavesOtherRows(db: Db, source: Id, changes: RowLinkChanges, readonly: bool)
    requires Safe(db) && source in db.tables
    ensures var copied := Copied(db, source, changes, readonly);
      forall l | l in copied.rowLinks && l.table != db.nextId ::
        l in db.rowLinks && l.row in copied.rows && copied.rows[l.row] == db.rows[l.row]
  {
  }

  lemma CopyKeepsLinks(db: Db, source: Id, changes: RowLinkChanges, readonly: bool)
    requires LinksExist(db) && CanCopy(db, source, changes)
    ensures LinksExist(Copied(db, source, changes, readonly))
  {
  }

  // ---- Progress of the writes --------------------------------------------------------------

  // From a consistent store, after some of the planned tables are written.
  ghost predicate Progress(a: Db, b: Db) {
    Safe(b) && KeepsCommitted(a, b) && RowIdentities(b) && Grew(a, b)
  }

  lemma CopyProgress(a: Db, b: Db, source: Id, changes: RowLinkChanges)
    requires Progress(a, b) && CanCopy(a, source, changes) && ChangesFit(a, RowsOf(a, source), changes)
    ensures CanCopy(b, source, changes)
    ensures Progress(a, Copied(b, source, changes, false))
  {
    var copied := Copied(b, source, changes, false);
    CanCopyAfterGrowth(a, b, source, changes);
    CopyIsSafe(b, source, changes);
    assert Safe(copied);
    CopyGrows(b, source, changes, false);
    FittingCopyKeepsRowIdentities(b, source, changes, false);
    hide *;
    KeepsIsTransitive(a, b, copied);
    GrewIsTransitive(a, b, copied);
  }

  lemma LockProgress(a: Db, b: Db, table: Id, head: Option<Id>)
    requires Progress(a, b) && table in b.tables
    requires head.Some? ==> head.value in b.tables && b.tables[head.value].readonly
    ensures Progress(a, LockedIntoHead(b, table, head))
    ensures var locked := LockedIntoHead(b, table, head);
      locked.tables.Keys == b.tables.Keys && locked.tables[table] == b.tables[table].(readonly := true)
  {
    var locked := LockedIntoHead(b, table, head);
    LockIsSafe(b, table, head);
    LockGrows(b, table, head);
    assert RowIdentities(locked);
    assert locked.tables.Keys == b.tables.Keys && locked.tables[table] == b.tables[table].(readonly := true);
    hide *;
    KeepsIsTransitive(a, b, locked);
    GrewIsTransitive(a, b, locked);
  }

  lemma GrownOwners(a: Db, b: Db)
    requires LinksExist(a) && MutableIsOwned(a) && LinksExist(b) && Grew(a, b)
    ensures MutableIsOwned(b)
  {
  }

  lemma GrownTables(a: Db, b: Db)
    requires LinksExist(a) && TableIdentities(a) && FlagsExact(a) && LinksExist(b) && Grew(a, b)
    ensures TableIdentities(b) && FlagsExact(b)
  {
    SameTablesAfterGrowth(a, b);
    hide TablesOf;
  }
}
