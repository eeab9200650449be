/** What a partial revert keeps, for every list of plans that fits the two revisions. */
module TargetRevertProperties {
  import opened Wrappers
  import opened VersionStore
  import opened StatementSafety
  import opened StoreShape
  import opened ContentDiff
  import opened VersionWriter
  import opened WriterProperties
  import opened DraftFollowsHead
  import opened DraftWrites
  import opened DraftWriteEffects
  import opened DraftRemovals
  import opened Transition
  import opened TargetPlans
  import opened TargetCommit
  import opened TargetCommitProperties
  import opened TargetRevert

  // Only the Draft's own version that can still change is edited in place.
  ghost predicate EditsOwn(db: Db, plan: TablePlan) {
    plan.target.Mixed? && plan.target.editInPlace ==>
      Some(plan.target.source) == plan.draft && plan.target.source in db.tables
         && !db.tables[plan.target.source].readonly
  }

  ghost predicate RevertPlanFits(db: Db, head: Id, draft: Id, plan: TablePlan) {
    PlanFits(db, head, draft, plan) && EditsOwn(db, plan)
  }

  // Plans of different tables, each of which fits on its own: enough for everything committed.
  ghost predicate RevertPlansFit(db: Db, head: Id, draft: Id, plans: seq<TablePlan>) {
    && Committable(db, head, draft) && Distinct(Identities(plans))
    && forall i | 0 <= i < |plans| :: RevertPlanFits(db, head, draft, plans[i])
  }

  ghost predicate NameDraftVersions(db: Db, draft: Id, plans: seq<TablePlan>)
    requires LinksExist(db)
  {
    forall i | 0 <= i < |plans| :: NamesVersion(db, draft, plans[i].identity, plans[i].draft)
  }

  // Together they also name the Draft's versions of their tables: enough for a consistent store.
  ghost predicate RevertFits(db: Db, head: Id, draft: Id, plans: seq<TablePlan>) {
    Consistent(db) && RevertPlansFit(db, head, draft, plans) && NameDraftVersions(db, draft, plans)
  }

  // ---- How the store changes ---------------------------------------------------------------

  // New versions beside the existing ones; only tables of the identities `done` got other row links.
  ghost predicate Rewrote(a: Db, b: Db, done: seq<Id>) {
    && b.revisions == a.revisions && b.tableLinks == a.tableLinks && a.nextId <= b.nextId
    && (forall t | t in a.tables :: t in b.tables && b.tables[t] == a.tables[t])
    && (forall t | t in b.tables && t !in a.tables :: a.nextId <= t)
    && (forall x | x in a.rows :: x in b.rows && b.rows[x] == a.rows[x])
    && (forall l: RowLink | l.table in a.tables && a.tables[l.table].createdId !in done ::
          l in b.rowLinks <==> l in a.rowLinks)
  }

  ghost predicate RevertProgress(a: Db, b: Db, done: seq<Id>) {
    Safe(b) && KeepsCommitted(a, b) && RowIdentities(b) && Rewrote(a, b, done)
  }

  lemma RewroteIsTransitive(a: Db, b: Db, c: Db, done: seq<Id>, identity: Id)
    requires Rewrote(a, b, done) && Rewrote(b, c, [identity])
    ensures Rewrote(a, c, done + [identity])
  {
  }

  lemma SameRowsAfterRewrite(a: Db, b: Db, done: seq<Id>, t: Id)
    requires Rewrote(a, b, done) && t in a.tables && a.tables[t].createdId !in done
    ensures RowsOf(b, t) == RowsOf(a, t)
  {
  }

  lemma FitsAfterRewrite(a: Db, b: Db, done: seq<Id>, source: Id, changes: RowLinkChanges)
    requires Rewrote(a, b, done) && source in a.tables && a.tables[source].createdId !in done
    requires CanCopy(a, source, changes) && ChangesFit(a, RowsOf(a, source), changes)
    ensures CanCopy(b, source, changes) && ChangesFit(b, RowsOf(b, source), changes)
  {
    SameRowsAfterRewrite(a, b, done, source);
    var rows := RowsOf(a, source);
    hide RowsOf;
    assert TargetRows(rows, changes) <= b.rows.Keys;
  }

  lemma CopyRewrites(b: Db, source: Id, changes: RowLinkChanges, identity: Id)
    requires Safe(b) && source in b.tables
    ensures Rewrote(b, Copied(b, source, changes, false), [identity])
  {
  }

  lemma EditRewrites(b: Db, version: Id, changes: RowLinkChanges)
    requires Safe(b) && version in b.tables
    ensures Rewrote(b, Edited(b, version, changes), [b.tables[version].createdId])
  {
  }

  lemma EditLeavesOtherRows(db: Db, version: Id, changes: RowLinkChanges)
    requires Safe(db)
    ensures var edited := Edited(db, version, changes);
      forall l | l in edited.rowLinks && l.table != version ::
        l in db.rowLinks && l.row in edited.rows && edited.rows[l.row] == db.rows[l.row]
  {
  }

  lemma FittingEditKeepsRowIdentities(db: Db, version: Id, changes: RowLinkChanges)
    requires Safe(db) && RowIdentities(db) && version in db.tables && ChangesFit(db, RowsOf(db, version), changes)
    requires LinksExist(Edited(db, version, changes))
    ensures RowIdentities(Edited(db, version, changes))
  {
    hide RowIdentities, ChangesFit, UniqueIdentities, TargetRows, NewRowVersions, RowsOf, IdsFrom;
    var edited := Edited(db, version, changes);
    EditedRows(db, version, changes);
    EditLeavesOtherRows(db, version, changes);
    assert edited.rows == db.rows + NewRowVersions(db.nextId, changes.newRows, false);
    assert IdsIssued(db) && LinksExist(db);
    hide *;
    FittingRowsAreUnique(db, RowsOf(db, version), db.nextId, changes, false, edited);
    UniqueRowsOfOneTable(db, edited, version);
  }

  // ---- One table ---------------------------------------------------------------------------

  // A written version is of the plan's table; one that can still change is the Draft's own or new.
  ghost predicate Written(a: Db, b: Db, plan: TablePlan, version: Option<Id>) {
    && VersionOf(b, version, plan.identity)
    && (version.Some? && !b.tables[version.value].readonly ==> version == plan.draft || a.nextId <= version.value)
  }

  lemma CopyReverts(a: Db, b: Db, done: seq<Id>, plan: TablePlan)
    requires RevertProgress(a, b, done) && plan.identity !in done && TargetFits(a, plan)
    requires plan.target.Mixed? && !plan.target.editInPlace
    requires VersionOf(a, plan.head, plan.identity) && VersionOf(a, plan.draft, plan.identity)
    ensures TableWritten(b, plan.target).Success?
    ensures var one := TableWritten(b, plan.target).value;
      RevertProgress(a, one.db, done + [plan.identity]) && Written(a, one.db, plan, one.version)
  {
    var source, changes := plan.target.source, plan.target.changes;
    var copied := Copied(b, source, changes, false);
    assert source in a.tables && a.tables[source].createdId == plan.identity;
    FitsAfterRewrite(a, b, done, source, changes);
    CopyIsSafe(b, source, changes);
    FittingCopyKeepsRowIdentities(b, source, changes, false);
    CopyRewrites(b, source, changes, plan.identity);
    assert TableWritten(b, plan.target) == Success(Step(copied, Some(b.nextId)));
    assert Written(a, copied, plan, Some(b.nextId));
    RewrittenProgress(a, b, copied, done, plan.identity);
  }

  lemma RewrittenProgress(a: Db, b: Db, c: Db, done: seq<Id>, identity: Id)
    requires RevertProgress(a, b, done)
    requires Safe(c) && KeepsCommitted(b, c) && RowIdentities(c) && Rewrote(b, c, [identity])
    ensures RevertProgress(a, c, done + [identity])
  {
    hide Safe, KeepsCommitted, RowIdentities, Rewrote;
    KeepsIsTransitive(a, b, c);
    RewroteIsTransitive(a, b, c, done, identity);
  }

  lemma EditReverts(a: Db, b: Db, done: seq<Id>, plan: TablePlan)
    requires RevertProgress(a, b, done) && plan.identity !in done && TargetFits(a, plan) && EditsOwn(a, plan)
    requires plan.target.Mixed? && plan.target.editInPlace
    requires VersionOf(a, plan.draft, plan.identity)
    ensures TableWritten(b, plan.target).Success?
    ensures var one := TableWritten(b, plan.target).value;
      RevertProgress(a, one.db, done + [plan.identity]) && Written(a, one.db, plan, one.version)
  {
    var source, changes := plan.target.source, plan.target.changes;
    var edited := Edited(b, source, changes);
    assert source in a.tables && a.tables[source].createdId == plan.identity;
    FitsAfterRewrite(a, b, done, source, changes);
    EditAndCopySucceedTogether(b, source, changes);
    EditIsSafe(b, source, changes);
    FittingEditKeepsRowIdentities(b, source, changes);
    EditRewrites(b, source, changes);
    assert TableWritten(b, plan.target) == Success(Step(edited, Some(source)));
    assert Written(a, edited, plan, Some(source));
    RewrittenProgress(a, b, edited, done, plan.identity);
  }

  lemma LinkReverts(a: Db, b: Db, done: seq<Id>, plan: TablePlan)
    requires RevertProgress(a, b, done) && TargetFits(a, plan) && plan.target.Linked?
    requires VersionOf(a, plan.head, plan.identity) && VersionOf(a, plan.draft, plan.identity)
    requires plan.head.Some? ==> a.tables[plan.head.value].readonly
    ensures TableWritten(b, plan.target).Success?
    ensures var one := TableWritten(b, plan.target).value;
      RevertProgress(a, one.db, done + [plan.identity]) && Written(a, one.db, plan, one.version)
  {
  }

  lemma TableReverts(a: Db, b: Db, done: seq<Id>, head: Id, draft: Id, plan: TablePlan)
    requires Committable(a, head, draft) && RevertPlanFits(a, head, draft, plan)
    requires RevertProgress(a, b, done) && plan.identity !in done
    ensures LinksExist(b) && TableReverted(b, plan).Success?
    ensures var one := TableReverted(b, plan).value;
      && RevertProgress(a, one.db, done + [plan.identity])
      && one.tables[0].plan == plan && Written(a, one.db, plan, one.tables[0].written)
  {
    assert head in a.revisions && !a.revisions[head].isDraft by { HeadIsPlaced(a.revisions, head, draft, a.nextId); }
    assert plan.head.Some? ==> plan.head.value in a.tables && a.tables[plan.head.value].readonly;
    assert LinksExist(b);
    RewrittenHead(a, b, plan);
    hide Committable, RevertProgress, TargetFits, TableWritten, Written;
    if plan.target.Linked? {
      LinkReverts(a, b, done, plan);
    } else if plan.target.editInPlace {
      EditReverts(a, b, done, plan);
    } else {
      CopyReverts(a, b, done, plan);
    }
    FollowedIsWritten(a, done + [plan.identity], plan, TableWritten(b, plan.target).value);
  }

  lemma RewrittenHead(a: Db, b: Db, plan: TablePlan)
    requires VersionOf(a, plan.head, plan.identity)
    ensures forall c, done | RevertProgress(a, c, done) :: VersionOf(c, plan.head, plan.identity)
  {
  }

  lemma FollowedIsWritten(a: Db, done: seq<Id>, plan: TablePlan, one: Step)
    requires RevertProgress(a, one.db, done) && Written(a, one.db, plan, one.version)
    requires VersionOf(a, plan.head, plan.identity)
    requires plan.head.Some? ==> a.tables[plan.head.value].readonly
    ensures LinksExist(one.db)
    ensures Written(a, one.db, plan, VersionToLink(one.db, plan.relinkCandidate, one.version, plan.head))
  {
  }

  // ---- Over all plans ----------------------------------------------------------------------

  ghost predicate AllReverted(a: Db, b: Db, plans: seq<TablePlan>, tables: seq<RevertedTable>) {
    && |tables| == |plans|
    && (forall i | 0 <= i < |plans| :: tables[i].plan == plans[i] && Written(a, b, plans[i], tables[i].written))
  }

  lemma AllRevertedAfter(a: Db, b: Db, c: Db, done: seq<Id>, plans: seq<TablePlan>, tables: seq<RevertedTable>)
    requires AllReverted(a, b, plans, tables) && Rewrote(b, c, done)
    ensures AllReverted(a, c, plans, tables)
  {
  }

  lemma TableRevertedRewrites(b: Db, plan: TablePlan)
    requires Safe(b) && TableReverted(b, plan).Success?
    requires plan.target.Mixed? ==>
      plan.target.source in b.tables && b.tables[plan.target.source].createdId == plan.identity
    ensures Rewrote(b, TableReverted(b, plan).value.db, [plan.identity])
  {
    if plan.target.Mixed? {
      if plan.target.editInPlace {
        EditRewrites(b, plan.target.source, plan.target.changes);
      } else {
        CopyRewrites(b, plan.target.source, plan.target.changes, plan.identity);
      }
    }
  }

  lemma OneMoreReverted(a: Db, b: Db, head: Id, draft: Id, plans: seq<TablePlan>, plan: TablePlan,
                        tables: seq<RevertedTable>)
    requires Committable(a, head, draft) && RevertPlanFits(a, head, draft, plan)
    requires RevertProgress(a, b, Identities(plans)) && plan.identity !in Identities(plans)
    requires AllReverted(a, b, plans, tables)
    ensures LinksExist(b) && TableReverted(b, plan).Success?
    ensures var one := TableReverted(b, plan).value;
      && RevertProgress(a, one.db, Identities(plans + [plan]))
      && AllReverted(a, one.db, plans + [plan], tables + one.tables)
  {
    SourceIsKept(a, b, Identities(plans), head, draft, plan);
    IdentitiesAppend(plans, plan);
    hide *;
    TableReverts(a, b, Identities(plans), head, draft, plan);
    TableRevertedRewrites(b, plan);
    AllRevertedAfter(a, b, TableReverted(b, plan).value.db, [plan.identity], plans, tables);
    RevertedAppend(a, TableReverted(b, plan).value, plans, plan, tables);
  }

  lemma SourceIsKept(a: Db, b: Db, done: seq<Id>, head: Id, draft: Id, plan: TablePlan)
    requires Committable(a, head, draft) && RevertPlanFits(a, head, draft, plan) && RevertProgress(a, b, done)
    ensures Safe(b) && LinksExist(b)
    ensures plan.target.Mixed? ==>
      plan.target.source in b.tables && b.tables[plan.target.source].createdId == plan.identity
  {
    hide Committable, KeepsCommitted, RowIdentities;
  }

  lemma IdentitiesAppend(plans: seq<TablePlan>, plan: TablePlan)
    ensures Identities(plans + [plan]) == Identities(plans) + [plan.identity]
  {
  }

  lemma RevertedAppend(a: Db, one: RevertedTables, plans: seq<TablePlan>, plan: TablePlan, tables: seq<RevertedTable>)
    requires AllReverted(a, one.db, plans, tables) && |one.tables| == 1
    requires one.tables[0].plan == plan && Written(a, one.db, plan, one.tables[0].written)
    ensures AllReverted(a, one.db, plans + [plan], tables + one.tables)
  {
  }

  lemma FirstIdentities(plans: seq<TablePlan>)
    requires plans != [] && Distinct(Identities(plans))
    ensures Distinct(Identities(plans[..|plans| - 1]))
    ensures plans[|plans| - 1].identity !in Identities(plans[..|plans| - 1])
  {
    var rest := plans[..|plans| - 1];
    assert Identities(rest) == Identities(plans)[..|rest|];
    assert plans[|plans| - 1].identity == Identities(plans)[|rest|];
  }

  lemma FirstRevertPlans(a: Db, head: Id, draft: Id, plans: seq<TablePlan>)
    requires plans != [] && RevertPlansFit(a, head, draft, plans)
    ensures RevertPlansFit(a, head, draft, plans[..|plans| - 1])
    ensures Committable(a, head, draft) && RevertPlanFits(a, head, draft, plans[|plans| - 1])
    ensures plans[|plans| - 1].identity !in Identities(plans[..|plans| - 1])
    ensures plans == plans[..|plans| - 1] + [plans[|plans| - 1]]
  {
    FirstIdentities(plans);
  }

  lemma TablesRevertedInSteps(db: Db, plans: seq<TablePlan>)
    requires LinksExist(db)
    ensures plans == [] ==> TablesReverted(db, plans) == Success(RevertedTables(db, []))
    ensures plans != [] && TablesReverted(db, plans[..|plans| - 1]).Success? ==>
      var done := TablesReverted(db, plans[..|plans| - 1]).value;
      && LinksExist(done.db)
      && (TableReverted(done.db, plans[|plans| - 1]).Success? ==>
            var last := TableReverted(done.db, plans[|plans| - 1]).value;
            TablesReverted(db, plans) == Success(RevertedTables(last.db, done.tables + last.tables)))
  {
  }

  lemma NothingIsReverted(a: Db, head: Id, draft: Id)
    requires Committable(a, head, draft)
    ensures RevertProgress(a, a, Identities([])) && AllReverted(a, a, [], [])
  {
    assert Identities([]) == [];
  }

  lemma {:induction false} AllPlansReverted(a: Db, head: Id, draft: Id, plans: seq<TablePlan>)
    requires RevertPlansFit(a, head, draft, plans)
    ensures LinksExist(a) && TablesReverted(a, plans).Success?
    ensures RevertProgress(a, TablesReverted(a, plans).value.db, Identities(plans))
    ensures AllReverted(a, TablesReverted(a, plans).value.db, plans, TablesReverted(a, plans).value.tables)
  {
    assert Committable(a, head, draft);
    hide *;
    CommittableParts(a, head, draft);
    TablesRevertedInSteps(a, plans);
    if plans == [] {
      NothingIsReverted(a, head, draft);
    } else {
      var rest := plans[..|plans| - 1];
      FirstRevertPlans(a, head, draft, plans);
      AllPlansReverted(a, head, draft, rest);
      var done := TablesReverted(a, rest).value;
      OneMoreReverted(a, done.db, head, draft, rest, plans[|plans| - 1], done.tables);
    }
  }

  // ---- The links of the Draft --------------------------------------------------------------

  function Replacements(tables: seq<RevertedTable>): seq<TableLinkReplacement> {
    seq(|tables|, i requires 0 <= i < |tables| => TableLinkReplacement(tables[i].plan.draft, tables[i].written))
  }

  ghost predicate DifferentDrafts(tables: seq<RevertedTable>) {
    forall i, j | 0 <= i < |tables| && 0 <= j < |tables| && tables[i].plan.draft.Some? ::
      tables[i].plan.draft == tables[j].plan.draft ==> i == j
  }

  lemma StaysLinked(linked: set<Id>, tables: seq<RevertedTable>, t: Id)
    requires t in linked && t !in Disconnected(tables)
    ensures t in RelinkedTables(linked, Replacements(tables))
  {
  }

  lemma WasLinked(linked: set<Id>, tables: seq<RevertedTable>, t: Id)
    requires forall i | 0 <= i < |tables| && tables[i].plan.draft.Some? :: tables[i].plan.draft.value in linked
    requires DifferentDrafts(tables) && t in RelinkedTables(linked, Replacements(tables))
    ensures t in linked - Disconnected(tables) + Connected(tables)
  {
    if t in LinkedInstead(Replacements(tables)) {
      var i :| 0 <= i < |tables| && Replacements(tables)[i].version == Some(t);
      assert tables[i].written == Some(t);
      if !IsRelinked(tables[i]) {
        assert forall j | 0 <= j < |tables| && tables[j].plan.draft == Some(t) :: j == i;
      }
    } else {
      assert forall i | 0 <= i < |tables| && tables[i].plan.draft == Some(t) ::
        Replacements(tables)[i].replaced == Some(t);
    }
  }

  // Changing only the links that differ is replacing all of them.
  lemma OnlyDifferentLinks(linked: set<Id>, tables: seq<RevertedTable>)
    requires forall i | 0 <= i < |tables| && tables[i].plan.draft.Some? :: tables[i].plan.draft.value in linked
    requires DifferentDrafts(tables)
    ensures linked - Disconnected(tables) + Connected(tables) == RelinkedTables(linked, Replacements(tables))
  {
    forall t: Id
      ensures t in linked - Disconnected(tables) + Connected(tables)
         <==> t in RelinkedTables(linked, Replacements(tables))
    {
      if t in Connected(tables) {
        var i :| 0 <= i < |tables| && IsRelinked(tables[i]) && tables[i].written == Some(t);
        assert Replacements(tables)[i].version == Some(t);
      } else if t in linked && t !in Disconnected(tables) {
        StaysLinked(linked, tables, t);
      } else if t in RelinkedTables(linked, Replacements(tables)) {
        WasLinked(linked, tables, t);
      }
    }
  }

  lemma DraftsDiffer(a: Db, head: Id, draft: Id, plans: seq<TablePlan>, tables: seq<RevertedTable>)
    requires RevertPlansFit(a, head, draft, plans)
    requires |tables| == |plans| && forall i | 0 <= i < |plans| :: tables[i].plan == plans[i]
    ensures DifferentDrafts(tables)
    ensures forall i | 0 <= i < |tables| && tables[i].plan.draft.Some? ::
      tables[i].plan.draft.value in TablesOf(a, draft)
  {
    assert forall i | 0 <= i < |plans| :: RevertPlanFits(a, head, draft, plans[i]);
    hide Committable, TargetFits, EditsOwn;
    forall i, j | 0 <= i < |tables| && 0 <= j < |tables| && tables[i].plan.draft.Some?
                  && tables[i].plan.draft == tables[j].plan.draft
      ensures i == j
    {
      assert VersionOf(a, plans[i].draft, plans[i].identity) && VersionOf(a, plans[j].draft, plans[j].identity);
      assert Identities(plans)[i] == Identities(plans)[j];
    }
  }

  lemma RevertedVersionsStay(a: Db, plans: seq<TablePlan>, reverted: RevertedTables, t: Id)
    requires AllReverted(a, reverted.db, plans, reverted.tables) && t in Connected(reverted.tables)
    requires forall i | 0 <= i < |plans| :: VersionOf(a, plans[i].draft, plans[i].identity)
    ensures t in reverted.db.tables
    ensures reverted.db.tables[t].readonly || a.nextId <= t || exists i :: 0 <= i < |plans| && plans[i].draft == Some(t)
  {
    var i :| 0 <= i < |plans| && reverted.tables[i].written == Some(t);
    assert Written(a, reverted.db, plans[i], Some(t));
  }

  // The Draft's links afterwards: each readonly, new, or linked by the Draft before.
  lemma DraftTablesFit(a: Db, head: Id, draft: Id, plans: seq<TablePlan>, reverted: RevertedTables)
    requires RevertPlansFit(a, head, draft, plans) && LinksExist(a) && Rewrote(a, reverted.db, Identities(plans))
    requires AllReverted(a, reverted.db, plans, reverted.tables)
    ensures DraftTables(reverted, draft) <= reverted.db.tables.Keys
    ensures forall t | t in DraftTables(reverted, draft) ::
      t in TablesOf(a, draft) || a.nextId <= t || reverted.db.tables[t].readonly
  {
    assert forall i | 0 <= i < |plans| :: RevertPlanFits(a, head, draft, plans[i]);
    TablesExist(a, draft);
    SameTablesAfterRewrite(a, reverted.db, Identities(plans));
    hide Committable, TargetFits, EditsOwn, Written, Disconnected, Connected, LinksExist;
    forall t | t in DraftTables(reverted, draft) && t in Connected(reverted.tables)
      ensures t in reverted.db.tables
      ensures t in TablesOf(a, draft) || a.nextId <= t || reverted.db.tables[t].readonly
    {
      RevertedVersionsStay(a, plans, reverted, t);
    }
  }

  lemma SameTablesAfterRewrite(a: Db, b: Db, done: seq<Id>)
    requires Rewrote(a, b, done)
    ensures forall r :: TablesOf(b, r) == TablesOf(a, r)
  {
  }

  lemma DraftLinksStay(a: Db, draft: Id, plans: seq<TablePlan>, reverted: RevertedTables)
    requires LinksExist(a) && NameDraftVersions(a, draft, plans) && Distinct(Identities(plans))
    requires Rewrote(a, reverted.db, Identities(plans)) && AllReverted(a, reverted.db, plans, reverted.tables)
    ensures TablesOf(reverted.db, draft) == TablesOf(a, draft) && TablesOf(a, draft) <= reverted.db.tables.Keys
    ensures StayOnIdentities(reverted.db, TablesOf(a, draft), Replacements(reverted.tables), Identities(plans))
  {
    TablesExist(a, draft);
    SameTablesAfterRewrite(a, reverted.db, Identities(plans));
    hide TablesOf, LinksExist;
    forall i | 0 <= i < |plans|
      ensures StaysOnIdentity(reverted.db, TablesOf(a, draft), Replacements(reverted.tables)[i], plans[i].identity)
    {
      assert NamesVersion(a, draft, plans[i].identity, plans[i].draft);
      assert Written(a, reverted.db, plans[i], reverted.tables[i].written);
    }
  }

  lemma DistinctAfterRewrite(a: Db, b: Db, done: seq<Id>, tables: set<Id>)
    requires tables <= a.tables.Keys && DistinctIdentities(a, tables) && Rewrote(a, b, done)
    ensures tables <= b.tables.Keys && DistinctIdentities(b, tables)
  {
  }

  lemma DraftTablesAre(reverted: RevertedTables, draft: Id)
    ensures DraftTables(reverted, draft)
         == TablesOf(reverted.db, draft) - Disconnected(reverted.tables) + Connected(reverted.tables)
  {
  }

  lemma RevertedPlans(a: Db, b: Db, plans: seq<TablePlan>, tables: seq<RevertedTable>)
    requires AllReverted(a, b, plans, tables)
    ensures |tables| == |plans| && forall i | 0 <= i < |plans| :: tables[i].plan == plans[i]
  {
  }

  // One version per table, where the plans name the Draft's versions.
  lemma DraftTablesAreDistinct(a: Db, head: Id, draft: Id, plans: seq<TablePlan>, reverted: RevertedTables)
    requires RevertFits(a, head, draft, plans) && Rewrote(a, reverted.db, Identities(plans))
    requires AllReverted(a, reverted.db, plans, reverted.tables)
    ensures TablesOf(a, draft) <= reverted.db.tables.Keys && DistinctIdentities(reverted.db, TablesOf(a, draft))
    ensures StayOnIdentities(reverted.db, TablesOf(a, draft), Replacements(reverted.tables), Identities(plans))
    ensures DraftTables(reverted, draft) == RelinkedTables(TablesOf(a, draft), Replacements(reverted.tables))
    ensures DraftTables(reverted, draft) <= reverted.db.tables.Keys
    ensures DistinctIdentities(reverted.db, DraftTables(reverted, draft))
  {
    hide *;
    RevertFitsMeans(a, head, draft, plans);
    RevertedPlans(a, reverted.db, plans, reverted.tables);
    DraftLinksStay(a, draft, plans, reverted);
    DraftsDiffer(a, head, draft, plans, reverted.tables);
    OnlyDifferentLinks(TablesOf(a, draft), reverted.tables);
    DraftTablesAre(reverted, draft);
    TablesAreDistinct(a, draft);
    DistinctAfterRewrite(a, reverted.db, Identities(plans), TablesOf(a, draft));
    RelinkKeepsIdentities(reverted.db, TablesOf(a, draft), Replacements(reverted.tables), Identities(plans));
  }

  lemma RevertFitsMeans(db: Db, head: Id, draft: Id, plans: seq<TablePlan>)
    requires RevertFits(db, head, draft, plans)
    ensures LinksExist(db) && TableIdentities(db) && Consistent(db) && RevertPlansFit(db, head, draft, plans)
    ensures NameDraftVersions(db, draft, plans) && Distinct(Identities(plans))
  {
  }

  lemma RevertPlansMean(db: Db, head: Id, draft: Id, plans: seq<TablePlan>)
    requires RevertPlansFit(db, head, draft, plans)
    ensures Guarded(db) && Committable(db, head, draft)
  {
  }

  lemma RevertWrote(a: Db, reverted: RevertedTables, draft: Id, done: seq<Id>)
    requires Safe(a) && IsDraft(a, draft) && Rewrote(a, reverted.db, done) && LinksExist(reverted.db)
    requires DraftTables(reverted, draft) <= reverted.db.tables.Keys
    requires forall t | t in DraftTables(reverted, draft) ::
      t in TablesOf(a, draft) || a.nextId <= t || reverted.db.tables[t].readonly
    ensures CanRelink(reverted, draft)
    ensures Wrote(a, SetTables(reverted.db, draft, DraftTables(reverted, draft)), draft)
    ensures TablesOf(SetTables(reverted.db, draft, DraftTables(reverted, draft)), draft) == DraftTables(reverted, draft)
  {
    var tables := DraftTables(reverted, draft);
    hide DraftTables;
    assert forall t | t in TablesOf(a, draft) :: TableLink(draft, t) in a.tableLinks;
  }

  lemma RelinkedIsSafe(a: Db, b: Db, draft: Id, tables: set<Id>)
    requires Safe(b) && KeepsCommitted(a, b) && RowIdentities(b) && IsDraft(b, draft) && tables <= b.tables.Keys
    ensures Safe(SetTables(b, draft, tables)) && KeepsCommitted(a, SetTables(b, draft, tables))
    ensures RowIdentities(SetTables(b, draft, tables))
  {
    var c := SetTables(b, draft, tables);
    SetTablesIsSafe(b, draft, tables);
    assert RowIdentities(c);
    hide *;
    KeepsIsTransitive(a, b, c);
  }

  lemma RevertProgressMeans(a: Db, b: Db, done: seq<Id>)
    requires RevertProgress(a, b, done)
    ensures Safe(b) && LinksExist(b) && KeepsCommitted(a, b) && RowIdentities(b) && Rewrote(a, b, done)
    ensures b.revisions == a.revisions
  {
  }

  lemma TargetRevertedIs(reverted: RevertedTables, head: Id, draft: Id)
    requires LinksExist(reverted.db) && CanRelink(reverted, draft)
    ensures var relinked := SetTables(reverted.db, draft, DraftTables(reverted, draft));
      && LinksExist(relinked) && draft in relinked.revisions && relinked.tables == reverted.db.tables
      && relinked.revisions == reverted.db.revisions
      && TargetReverted(reverted, head, draft) == WithFlag(relinked, draft, HasTableDiffs(relinked, head, draft))
  {
    RelinkKeepsLinks(reverted, draft);
  }

  // What the writes and the new links are, before the flag.
  lemma RevertedWrite(db: Db, head: Id, draft: Id, plans: seq<TablePlan>)
    requires RevertPlansFit(db, head, draft, plans)
    ensures LinksExist(db) && TablesReverted(db, plans).Success?
    ensures var reverted := TablesReverted(db, plans).value;
      && RevertProgress(db, reverted.db, Identities(plans)) && AllReverted(db, reverted.db, plans, reverted.tables)
      && LinksExist(reverted.db) && CanRelink(reverted, draft)
      && DraftTables(reverted, draft) <= reverted.db.tables.Keys
      && var relinked := SetTables(reverted.db, draft, DraftTables(reverted, draft));
      && Wrote(db, relinked, draft) && Safe(relinked) && LinksExist(relinked) && KeepsCommitted(db, relinked)
      && RowIdentities(relinked)
      && TablesOf(relinked, draft) == DraftTables(reverted, draft)
  {
    hide *;
    RevertPlansMean(db, head, draft, plans);
    CommittableParts(db, head, draft);
    AllPlansReverted(db, head, draft, plans);
    var reverted := TablesReverted(db, plans).value;
    RevertProgressMeans(db, reverted.db, Identities(plans));
    DraftTablesFit(db, head, draft, plans, reverted);
    RevertWrote(db, reverted, draft, Identities(plans));
    SameDraft(db, reverted.db, draft);
    RelinkedIsSafe(db, reverted.db, draft, DraftTables(reverted, draft));
    SafeHasLinks(SetTables(reverted.db, draft, DraftTables(reverted, draft)));
  }

  // A partial revert whose plans fit one by one is written and keeps everything committed.
  lemma TargetRevertIsGuarded(db: Db, head: Id, draft: Id, plans: seq<TablePlan>)
    requires RevertPlansFit(db, head, draft, plans)
    ensures LinksExist(db) && TablesReverted(db, plans).Success?
    ensures var reverted := TablesReverted(db, plans).value;
      && CanRelink(reverted, draft)
      && Guarded(TargetReverted(reverted, head, draft))
      && KeepsCommitted(db, TargetReverted(reverted, head, draft))
  {
    hide *;
    RevertPlansMean(db, head, draft, plans);
    RevertedWrite(db, head, draft, plans);
    var reverted := TablesReverted(db, plans).value;
    TargetRevertedIs(reverted, head, draft);
    var relinked := SetTables(reverted.db, draft, DraftTables(reverted, draft));
    WriteIsGuarded(db, relinked, draft, HasTableDiffs(relinked, head, draft));
  }

  // Main result of a partial revert: where the plans also name the Draft's versions of their tables, it keeps the
  // store consistent and all committed content as it was.
  lemma TargetRevertIsConsistent(db: Db, head: Id, draft: Id, plans: seq<TablePlan>)
    requires RevertFits(db, head, draft, plans)
    ensures LinksExist(db) && TablesReverted(db, plans).Success?
    ensures var reverted := TablesReverted(db, plans).value;
      && CanRelink(reverted, draft)
      && Consistent(TargetReverted(reverted, head, draft))
      && KeepsCommitted(db, TargetReverted(reverted, head, draft))
  {
    hide *;
    RevertFitsMeans(db, head, draft, plans);
    RevertPlansMean(db, head, draft, plans);
    CommittableParts(db, head, draft);
    RevertedWrite(db, head, draft, plans);
    var reverted := TablesReverted(db, plans).value;
    RevertProgressMeans(db, reverted.db, Identities(plans));
    TargetRevertedIs(reverted, head, draft);
    var relinked := SetTables(reverted.db, draft, DraftTables(reverted, draft));
    DraftTablesAreDistinct(db, head, draft, plans, reverted);
    DistinctInSameTables(reverted.db, relinked, DraftTables(reverted, draft));
    RevertIdentities(db, relinked, draft);
    ComputedFlagIsConsistent(db, relinked, draft);
    FlagAgainstHead(relinked, head, draft);
  }

  lemma FlagAgainstHead(db: Db, head: Id, draft: Id)
    requires LinksExist(db) && draft in db.revisions && db.revisions[draft].parent == Some(head)
    ensures WithComputedFlag(db, draft) == WithFlag(db, draft, HasTableDiffs(db, head, draft))
  {
  }

  lemma DistinctInSameTables(a: Db, b: Db, tables: set<Id>)
    requires a.tables == b.tables && tables <= a.tables.Keys && DistinctIdentities(a, tables)
    ensures DistinctIdentities(b, tables)
  {
  }

  lemma RevertIdentities(a: Db, c: Db, draft: Id)
    requires Consistent(a) && Wrote(a, c, draft) && Safe(c)
    requires TablesOf(c, draft) <= c.tables.Keys && DistinctIdentities(c, TablesOf(c, draft))
    ensures TableIdentities(c)
  {
    WroteKeepsIdentities(a, c, draft);
  }
}
