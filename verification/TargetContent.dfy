/** The content that a plan asks for, table by table, and what a revision contains once its planned tables are
  * relinked to versions with that content. */
module TargetContent {
  import opened Wrappers
  import opened VersionStore
  import opened StoreShape
  import opened ContentDiff
  import opened VersionWriter
  import opened WriterProperties
  import opened DraftFollowsHead
  import opened Transition
  import opened TargetPlans
  import opened TargetCommitProperties

  // ---- Planned content ---------------------------------------------------------------------

  function NewCellOf(newRow: NewRow): Cell {
    Cell(newRow.createdId, ComparedOf(RowVersion(newRow.createdId, false, newRow.columns)))
  }

  function NewCells(newRows: seq<NewRow>): set<Cell> {
    set i | 0 <= i < |newRows| :: NewCellOf(newRows[i])
  }

  // The rows that are not removed, and the added ones.
  function ChangedRows(base: set<Id>, changes: RowLinkChanges): set<Id> {
    (set x | x in base && x !in changes.removed) + (set x | x in changes.added)
  }

  lemma ChangedRowsAreTarget(base: set<Id>, changes: RowLinkChanges)
    ensures TargetRows(base, changes) == ChangedRows(base, changes)
  {
  }

  predicate CanChange(db: Db, source: Id, changes: RowLinkChanges) {
    source in db.tables && ChangedRows(RowsOf(db, source), changes) <= db.rows.Keys
  }

  // The source's identity and public id, with its rows changed.
  function ChangedContent(db: Db, source: Id, changes: RowLinkChanges): TableContent
    requires CanChange(db, source, changes)
  {
    TableContent(db.tables[source].createdId, db.tables[source].id,
                 RowsContent(db, ChangedRows(RowsOf(db, source), changes)) + NewCells(changes.newRows))
  }

  predicate VersionExists(db: Db, version: Option<Id>) {
    version.Some? ==> version.value in db.tables
  }

  function VersionContent(db: Db, version: Option<Id>): Option<TableContent>
    requires LinksExist(db) && VersionExists(db, version)
  {
    if version.Some? then Some(ContentOf(db, version.value)) else None
  }

  predicate Targetable(db: Db, target: TargetTable) {
    match target
    case Linked(version) => VersionExists(db, version)
    case Mixed(source, _, changes) => CanChange(db, source, changes)
  }

  predicate Plannable(db: Db, plan: TablePlan) {
    && Targetable(db, plan.target) && VersionExists(db, plan.draft)
    && (plan.renumbered.Some? && plan.draft.Some? ==>
          CanChange(db, plan.draft.value,
                    RowLinkChanges(plan.renumbered.value.replaced, [], plan.renumbered.value.newRows)))
  }

  // What the plan asks for: in the new Head of a partial commit, in the Draft after a partial revert.
  function TargetContentOf(db: Db, target: TargetTable): Option<TableContent>
    requires LinksExist(db) && Targetable(db, target)
  {
    match target
    case Linked(version) => VersionContent(db, version)
    case Mixed(source, _, changes) => Some(ChangedContent(db, source, changes))
  }

  ghost predicate AllTargetable(db: Db, plans: seq<TablePlan>) {
    forall i | 0 <= i < |plans| :: Targetable(db, plans[i].target)
  }

  function TargetContents(db: Db, plans: seq<TablePlan>): seq<Option<TableContent>>
    requires LinksExist(db) && AllTargetable(db, plans)
  {
    seq(|plans|, i requires 0 <= i < |plans| => TargetContentOf(db, plans[i].target))
  }

  // What stays in the next Draft of a partial commit: the Draft's table, with the new rows for the replaced ones.
  function NextContentOf(db: Db, plan: TablePlan): Option<TableContent>
    requires LinksExist(db) && Plannable(db, plan)
  {
    if plan.renumbered.Some? && plan.draft.Some? then
      Some(ChangedContent(db, plan.draft.value,
                          RowLinkChanges(plan.renumbered.value.replaced, [], plan.renumbered.value.newRows)))
    else
      VersionContent(db, plan.draft)
  }

  lemma FittingTargetExists(db: Db, head: Id, draft: Id, plan: TablePlan)
    requires PlanFits(db, head, draft, plan)
    ensures Targetable(db, plan.target)
  {
  }

  lemma FittingPlanIsPlannable(db: Db, head: Id, draft: Id, plan: TablePlan)
    requires PlanFits(db, head, draft, plan) && RenumberingFits(db, plan)
    ensures Plannable(db, plan)
  {
  }

  // ---- Versions with a content -------------------------------------------------------------

  ghost predicate HasContent(db: Db, version: Option<Id>, content: Option<TableContent>)
    requires LinksExist(db)
  {
    && (version.Some? <==> content.Some?)
    && (version.Some? ==> version.value in db.tables && ContentOf(db, version.value) == content.value)
  }

  lemma NewIdIsIssued(first: Id, newRows: seq<NewRow>, readonly: bool, i: nat)
    requires i < |newRows|
    ensures first + i in NewRowVersions(first, newRows, readonly)
    ensures var row := NewRowVersions(first, newRows, readonly)[first + i];
      Cell(row.createdId, ComparedOf(row)) == NewCellOf(newRows[i])
  {
    assert IsFrom(first + i, first, |newRows|);
  }

  lemma NewRowsContent(db: Db, target: set<Id>, first: Id, newRows: seq<NewRow>, readonly: bool, after: Db)
    requires IdsIssued(db) && db.nextId <= first && target <= db.rows.Keys
    requires after.rows == db.rows + NewRowVersions(first, newRows, readonly)
    ensures target + IdsFrom(first, |newRows|) <= after.rows.Keys
    ensures RowsContent(after, target + IdsFrom(first, |newRows|)) == RowsContent(db, target) + NewCells(newRows)
  {
    var inserted, ids := NewRowVersions(first, newRows, readonly), IdsFrom(first, |newRows|);
    assert inserted.Keys == ids;
    assert forall x | x in target :: x in after.rows && after.rows[x] == db.rows[x];
    assert forall x | x in ids :: after.rows[x] == inserted[x];
    hide IdsFrom, NewRowVersions, ComparedOf, NewCellOf, IdsIssued;
    forall cell | cell in RowsContent(db, target) + NewCells(newRows)
      ensures cell in RowsContent(after, target + ids)
    {
      if i :| 0 <= i < |newRows| && cell == NewCellOf(newRows[i]) {
        NewIdIsIssued(first, newRows, readonly, i);
        assert first + i in target + ids;
      }
    }
    forall x | x in ids
      ensures Cell(after.rows[x].createdId, ComparedOf(after.rows[x])) in NewCells(newRows)
    {
      IssuedIdIsNew(first, newRows, x);
      NewIdIsIssued(first, newRows, readonly, x - first);
    }
  }

  lemma IssuedIdIsNew(first: Id, newRows: seq<NewRow>, x: Id)
    requires x in IdsFrom(first, |newRows|)
    ensures first <= x < first + |newRows|
  {
  }

  lemma ChangedVersion(db: Db, source: Id, changes: RowLinkChanges, first: Id, readonly: bool, after: Db, v: Id)
    requires IdsIssued(db) && db.nextId <= first && CanChange(db, source, changes) && LinksExist(after)
    requires after.rows == db.rows + NewRowVersions(first, changes.newRows, readonly)
    requires v in after.tables && after.tables[v] == db.tables[source].(readonly := after.tables[v].readonly)
    requires RowsOf(after, v) == TargetRows(RowsOf(db, source), changes) + IdsFrom(first, |changes.newRows|)
    ensures HasContent(after, Some(v), Some(ChangedContent(db, source, changes)))
  {
    ChangedRowsAreTarget(RowsOf(db, source), changes);
    hide RowsOf, TargetRows, ChangedRows, NewRowVersions, RowsContent, NewCells, IdsIssued, LinksExist, IdsFrom;
    NewRowsContent(db, TargetRows(RowsOf(db, source), changes), first, changes.newRows, readonly, after);
  }

  lemma CopiedColumns(db: Db, source: Id, changes: RowLinkChanges, readonly: bool)
    requires source in db.tables
    ensures var copied := Copied(db, source, changes, readonly);
      && copied.rows == db.rows + NewRowVersions(db.nextId + 1, changes.newRows, readonly)
      && db.nextId in copied.tables && copied.tables[db.nextId] == db.tables[source].(readonly := readonly)
  {
    hide NewRowVersions, CopiedLinks;
  }

  lemma CopiedContent(db: Db, source: Id, changes: RowLinkChanges, readonly: bool)
    requires Safe(db) && source in db.tables && CanChange(db, source, changes)
    requires LinksExist(Copied(db, source, changes, readonly))
    ensures HasContent(Copied(db, source, changes, readonly), Some(db.nextId),
                       Some(ChangedContent(db, source, changes)))
  {
    hide *;
    SourceIsSafe(db, source, changes);
    CopiedRows(db, source, changes, readonly);
    CopiedColumns(db, source, changes, readonly);
    ChangedVersion(db, source, changes, db.nextId + 1, readonly, Copied(db, source, changes, readonly), db.nextId);
  }

  lemma SourceIsSafe(db: Db, source: Id, changes: RowLinkChanges)
    requires Safe(db) && CanChange(db, source, changes)
    ensures IdsIssued(db) && LinksExist(db) && source in db.tables
  {
  }

  lemma EditedContent(db: Db, version: Id, changes: RowLinkChanges)
    requires Safe(db) && CanChange(db, version, changes) && LinksExist(Edited(db, version, changes))
    ensures HasContent(Edited(db, version, changes), Some(version), Some(ChangedContent(db, version, changes)))
  {
    var edited := Edited(db, version, changes);
    EditedRows(db, version, changes);
    assert edited.rows == db.rows + NewRowVersions(db.nextId, changes.newRows, false);
    assert edited.tables == db.tables && version in db.tables && IdsIssued(db);
    hide *;
    ChangedVersion(db, version, changes, db.nextId, false, edited, version);
  }

  // The version to link has the candidate's content, whichever it is.
  lemma LinkedContent(db: Db, relinkCandidate: bool, candidate: Option<Id>, head: Option<Id>, identity: Id,
                      content: Option<TableContent>)
    requires LinksExist(db) && RowIdentities(db) && HasContent(db, candidate, content)
    requires VersionOf(db, candidate, identity) && VersionOf(db, head, identity)
    ensures HasContent(db, VersionToLink(db, relinkCandidate, candidate, head), content)
  {
    if candidate.Some? && head.Some? {
      ContentDiffIsExact(db, head.value, candidate.value);
      hide TableVersionContentDiffers;
    }
  }

  // ---- The content of a relinked revision --------------------------------------------------

  lemma PlanOf(plans: seq<TablePlan>, identity: Id) returns (i: nat)
    requires identity in Identities(plans)
    ensures i < |plans| && plans[i].identity == identity
  {
    i :| 0 <= i < |plans| && Identities(plans)[i] == identity;
  }

  // What is known of the links once all plans are written.
  ghost predicate Relinked(w: Db, linked: set<Id>, relinked: set<Id>, plans: seq<TablePlan>, versions: seq<Option<Id>>)
    requires linked <= w.tables.Keys
  {
    && |versions| == |plans|
    && relinked <= w.tables.Keys && DistinctIdentities(w, relinked)
    && (forall i, t | 0 <= i < |plans| && t in relinked ::
          w.tables[t].createdId == plans[i].identity <==> versions[i] == Some(t))
    && (forall i | 0 <= i < |plans| && versions[i].Some? :: versions[i].value in relinked)
    && (forall t | t in w.tables && w.tables[t].createdId !in Identities(plans) :: t in relinked <==> t in linked)
  }

  lemma RelinkedBy(w: Db, linked: set<Id>, replacements: seq<TableLinkReplacement>, plans: seq<TablePlan>,
                   versions: seq<Option<Id>>)
    requires linked <= w.tables.Keys && DistinctIdentities(w, linked)
    requires StayOnIdentities(w, linked, replacements, Identities(plans))
    requires |versions| == |replacements| && forall i | 0 <= i < |versions| :: versions[i] == replacements[i].version
    ensures Relinked(w, linked, RelinkedTables(linked, replacements), plans, versions)
  {
    hide DistinctIdentities;
    RelinkKeepsIdentities(w, linked, replacements, Identities(plans));
    forall i | 0 <= i < |plans| && versions[i].Some?
      ensures versions[i].value in RelinkedTables(linked, replacements)
    {
      assert replacements[i].version.Some?;
    }
  }

  lemma RelinkedExist(w: Db, linked: set<Id>, relinked: set<Id>, plans: seq<TablePlan>, versions: seq<Option<Id>>)
    requires linked <= w.tables.Keys && Relinked(w, linked, relinked, plans, versions)
    ensures relinked <= w.tables.Keys && DistinctIdentities(w, relinked)
  {
  }

  // The content of the tables no plan names, and the planned contents.
  function RelinkedContent(db: Db, linked: set<Id>, plans: seq<TablePlan>, contents: seq<Option<TableContent>>):
      set<TableContent>
    requires LinksExist(db) && linked <= db.tables.Keys
  {
    (set t | t in linked && db.tables[t].createdId !in Identities(plans) :: ContentOf(db, t))
    + (set i | 0 <= i < |contents| && contents[i].Some? :: contents[i].value)
  }

  ghost predicate KeepsUnplanned(a: Db, w: Db, linked: set<Id>, plans: seq<TablePlan>)
    requires LinksExist(a) && LinksExist(w) && linked <= a.tables.Keys
  {
    forall t | t in linked ::
      && t in w.tables && w.tables[t].createdId == a.tables[t].createdId
      && (a.tables[t].createdId !in Identities(plans) ==> ContentOf(w, t) == ContentOf(a, t))
  }

  lemma RelinkedTablesContain(a: Db, w: Db, linked: set<Id>, relinked: set<Id>, plans: seq<TablePlan>,
                              versions: seq<Option<Id>>, contents: seq<Option<TableContent>>)
    requires LinksExist(a) && LinksExist(w) && linked <= a.tables.Keys && linked <= w.tables.Keys
    requires KeepsUnplanned(a, w, linked, plans) && Relinked(w, linked, relinked, plans, versions)
    requires |contents| == |plans| && forall i | 0 <= i < |plans| :: HasContent(w, versions[i], contents[i])
    ensures relinked <= w.tables.Keys
    ensures ContentsOf(w, relinked) == RelinkedContent(a, linked, plans, contents)
  {
    hide ContentOf, DistinctIdentities, LinksExist, Identities;
    forall c | c in ContentsOf(w, relinked)
      ensures c in RelinkedContent(a, linked, plans, contents)
    {
      var t :| t in relinked && c == ContentOf(w, t);
      if w.tables[t].createdId in Identities(plans) {
        var i := PlanOf(plans, w.tables[t].createdId);
        assert versions[i] == Some(t) && contents[i] == Some(c);
      } else {
        assert t in linked;
      }
    }
    forall c | c in RelinkedContent(a, linked, plans, contents)
      ensures c in ContentsOf(w, relinked)
    {
      if i :| 0 <= i < |contents| && contents[i] == Some(c) {
        assert HasContent(w, versions[i], contents[i]) && versions[i].value in relinked;
      } else {
        var t :| t in linked && a.tables[t].createdId !in Identities(plans) && c == ContentOf(a, t);
        assert t in relinked;
      }
    }
  }
}
