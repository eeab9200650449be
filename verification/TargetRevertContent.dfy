/** What a partial revert means for content: the Draft contains its tables with the planned ones as planned, however
  * they were written and whether or not they then followed Head. */
module TargetRevertContent {
  import opened Wrappers
  import opened VersionStore
  import opened ContentDiff
  import opened VersionWriter
  import opened DraftFollowsHead
  import opened TargetPlans
  import opened TargetCommit
  import opened TargetCommitProperties
  import opened TargetContent
  import opened TargetRevert
  import opened TargetRevertProperties

  // ---- Writes of other tables change no content --------------------------------------------

  lemma SameContentAfterRewrite(a: Db, b: Db, done: seq<Id>, t: Id)
    requires LinksExist(a) && LinksExist(b) && Rewrote(a, b, done) && t in a.tables && a.tables[t].createdId !in done
    ensures t in b.tables && ContentOf(b, t) == ContentOf(a, t)
  {
    SameRowsAfterRewrite(a, b, done, t);
  }

  lemma SameHasContentAfterRewrite(b: Db, c: Db, identity: Id, version: Option<Id>, own: Id,
                                   content: Option<TableContent>)
    requires LinksExist(b) && LinksExist(c) && Rewrote(b, c, [identity]) && own != identity
    requires VersionOf(b, version, own) && HasContent(b, version, content)
    ensures VersionOf(c, version, own) && HasContent(c, version, content)
  {
    if version.Some? {
      SameContentAfterRewrite(b, c, [identity], version.value);
    }
  }

  lemma SameChangedAfterRewrite(a: Db, b: Db, done: seq<Id>, source: Id, changes: RowLinkChanges)
    requires Rewrote(a, b, done) && CanChange(a, source, changes) && a.tables[source].createdId !in done
    ensures CanChange(b, source, changes) && ChangedContent(b, source, changes) == ChangedContent(a, source, changes)
  {
    SameRowsAfterRewrite(a, b, done, source);
    hide RowsOf, ChangedRows;
  }

  // ---- One table ---------------------------------------------------------------------------

  lemma TargetIdentity(a: Db, head: Id, draft: Id, plan: TablePlan)
    requires PlanFits(a, head, draft, plan)
    ensures Targetable(a, plan.target)
    ensures match plan.target
            case Linked(version) => VersionOf(a, version, plan.identity)
            case Mixed(source, _, changes) =>
              source in a.tables && a.tables[source].createdId == plan.identity && CanCopy(a, source, changes)
              && CanChange(a, source, changes)
  {
  }

  lemma WrittenContains(a: Db, b: Db, done: seq<Id>, head: Id, draft: Id, plan: TablePlan)
    requires LinksExist(a) && PlanFits(a, head, draft, plan) && Targetable(a, plan.target) && Safe(b) && LinksExist(b)
    requires Rewrote(a, b, done) && plan.identity !in done && TableWritten(b, plan.target).Success?
    ensures var one := TableWritten(b, plan.target).value;
      LinksExist(one.db) && HasContent(one.db, one.version, TargetContentOf(a, plan.target))
  {
    TableWrittenKeepsLinks(b, plan.target);
    TargetIdentity(a, head, draft, plan);
    var one := TableWritten(b, plan.target).value;
    match plan.target {
      case Linked(version) =>
        hide PlanFits, Rewrote, HasContent, LinksExist, Safe;
        LinkedContains(a, b, done, version, plan.identity);
      case Mixed(source, editInPlace, changes) =>
        assert one == if editInPlace then Step(Edited(b, source, changes), Some(source))
                      else Step(Copied(b, source, changes, false), Some(b.nextId));
        hide *;
        SameChangedAfterRewrite(a, b, done, source, changes);
        TargetContentIs(a, source, editInPlace, changes);
        if editInPlace {
          EditedContent(b, source, changes);
        } else {
          CopiedContent(b, source, changes, false);
        }
    }
  }

  lemma TargetContentIs(a: Db, source: Id, editInPlace: bool, changes: RowLinkChanges)
    requires LinksExist(a) && CanChange(a, source, changes)
    ensures Targetable(a, Mixed(source, editInPlace, changes))
    ensures TargetContentOf(a, Mixed(source, editInPlace, changes)) == Some(ChangedContent(a, source, changes))
  {
  }

  lemma LinkedContains(a: Db, b: Db, done: seq<Id>, version: Option<Id>, identity: Id)
    requires LinksExist(a) && LinksExist(b) && Rewrote(a, b, done) && identity !in done
       && VersionOf(a, version, identity)
    ensures Targetable(a, Linked(version))
    ensures HasContent(b, version, TargetContentOf(a, Linked(version)))
  {
    if version.Some? {
      SameContentAfterRewrite(a, b, done, version.value);
    }
  }

  // A reverted table is a version of the plan's table with the planned content.
  ghost predicate RevertedAs(a: Db, b: Db, table: RevertedTable)
    requires LinksExist(a) && LinksExist(b)
  {
    && Targetable(a, table.plan.target) && VersionOf(b, table.written, table.plan.identity)
    && HasContent(b, table.written, TargetContentOf(a, table.plan.target))
  }

  lemma RevertedAsAfterRewrite(a: Db, b: Db, c: Db, identity: Id, table: RevertedTable)
    requires LinksExist(a) && LinksExist(b) && LinksExist(c) && Rewrote(b, c, [identity])
    requires RevertedAs(a, b, table) && table.plan.identity != identity
    ensures RevertedAs(a, c, table)
  {
    hide HasContent, Rewrote, LinksExist, TargetContentOf;
    SameHasContentAfterRewrite(b, c, identity, table.written, table.plan.identity,
                               TargetContentOf(a, table.plan.target));
  }

  lemma TableRevertedIs(b: Db, plan: TablePlan)
    requires LinksExist(b) && TableReverted(b, plan).Success?
    ensures TableWritten(b, plan.target).Success? && LinksExist(TableWritten(b, plan.target).value.db)
    ensures var one := TableWritten(b, plan.target).value;
      TableReverted(b, plan) == Success(RevertedTables(one.db, [RevertedTable(plan,
        VersionToLink(one.db, plan.relinkCandidate, one.version, plan.head))]))
  {
    TableWrittenKeepsLinks(b, plan.target);
    hide TableWritten;
  }

  lemma WrittenIdentity(a: Db, b: Db, plan: TablePlan, version: Option<Id>)
    requires Written(a, b, plan, version)
    ensures VersionOf(b, version, plan.identity)
  {
  }

  lemma HeadAfterRewrite(a: Db, b: Db, head: Id, draft: Id, plan: TablePlan, done: seq<Id>)
    requires RevertPlanFits(a, head, draft, plan) && Rewrote(a, b, done)
    ensures VersionOf(b, plan.head, plan.identity) && PlanFits(a, head, draft, plan)
  {
  }

  lemma OneMoreContains(a: Db, b: Db, head: Id, draft: Id, plans: seq<TablePlan>, plan: TablePlan,
                        tables: seq<RevertedTable>)
    requires LinksExist(a) && Committable(a, head, draft) && RevertPlanFits(a, head, draft, plan)
    requires RevertProgress(a, b, Identities(plans)) && plan.identity !in Identities(plans)
    requires AllReverted(a, b, plans, tables)
    ensures LinksExist(b) && TableReverted(b, plan).Success?
    ensures var written := TableReverted(b, plan).value;
      && LinksExist(written.db) && Rewrote(b, written.db, [plan.identity]) && |written.tables| == 1
      && written.tables[0].plan == plan && RevertedAs(a, written.db, written.tables[0])
  {
    hide *;
    RevertProgressMeans(a, b, Identities(plans));
    SourceIsKept(a, b, Identities(plans), head, draft, plan);
    TableReverts(a, b, Identities(plans), head, draft, plan);
    TableRevertedRewrites(b, plan);
    TableRevertedIs(b, plan);
    var one := TableWritten(b, plan.target).value;
    RevertProgressMeans(a, one.db, Identities(plans) + [plan.identity]);
    HeadAfterRewrite(a, one.db, head, draft, plan, Identities(plans) + [plan.identity]);
    TargetIdentity(a, head, draft, plan);
    WrittenContains(a, b, Identities(plans), head, draft, plan);
    WrittenHasIdentity(a, b, Identities(plans), head, draft, plan);
    LinkedContent(one.db, plan.relinkCandidate, one.version, plan.head, plan.identity, TargetContentOf(a, plan.target));
    var written := TableReverted(b, plan).value;
    WrittenIdentity(a, one.db, plan, written.tables[0].written);
    RevertedAsOf(a, one.db, written.tables[0]);
  }

  lemma RevertedAsOf(a: Db, b: Db, table: RevertedTable)
    requires LinksExist(a) && LinksExist(b) && Targetable(a, table.plan.target)
    requires VersionOf(b, table.written, table.plan.identity)
    requires HasContent(b, table.written, TargetContentOf(a, table.plan.target))
    ensures RevertedAs(a, b, table)
  {
  }

  lemma WrittenHasIdentity(a: Db, b: Db, done: seq<Id>, head: Id, draft: Id, plan: TablePlan)
    requires PlanFits(a, head, draft, plan) && Rewrote(a, b, done) && TableWritten(b, plan.target).Success?
    ensures VersionOf(TableWritten(b, plan.target).value.db, TableWritten(b, plan.target).value.version, plan.identity)
  {
    TargetIdentity(a, head, draft, plan);
  }

  // ---- Over all plans ----------------------------------------------------------------------

  ghost predicate AllRevertedAs(a: Db, b: Db, tables: seq<RevertedTable>)
    requires LinksExist(a) && LinksExist(b)
  {
    forall i | 0 <= i < |tables| :: RevertedAs(a, b, tables[i])
  }

  lemma AllRevertedAsAppend(a: Db, b: Db, c: Db, plans: seq<TablePlan>, identity: Id,
                            first: seq<RevertedTable>, second: seq<RevertedTable>)
    requires LinksExist(a) && LinksExist(b) && LinksExist(c) && Rewrote(b, c, [identity])
    requires |first| == |plans| && forall i | 0 <= i < |plans| :: first[i].plan == plans[i]
    requires identity !in Identities(plans)
    requires AllRevertedAs(a, b, first) && |second| == 1 && RevertedAs(a, c, second[0])
    ensures AllRevertedAs(a, c, first + second)
  {
    hide RevertedAs, LinksExist, Rewrote;
    forall i | 0 <= i < |first|
      ensures RevertedAs(a, c, first[i])
    {
      assert first[i].plan.identity == Identities(plans)[i];
      RevertedAsAfterRewrite(a, b, c, identity, first[i]);
    }
  }

  lemma {:induction false} AllPlansRevertedAs(a: Db, head: Id, draft: Id, plans: seq<TablePlan>)
    requires LinksExist(a) && RevertPlansFit(a, head, draft, plans)
    ensures TablesReverted(a, plans).Success?
    ensures AllRevertedAs(a, TablesReverted(a, plans).value.db, TablesReverted(a, plans).value.tables)
  {
    AllPlansReverted(a, head, draft, plans);
    if plans != [] {
      var rest, plan := plans[..|plans| - 1], plans[|plans| - 1];
      hide *;
      FirstRevertPlans(a, head, draft, plans);
      AllPlansRevertedAs(a, head, draft, rest);
      AllPlansReverted(a, head, draft, rest);
      var done := TablesReverted(a, rest).value;
      RevertedPlans(a, done.db, rest, done.tables);
      OneMoreContains(a, done.db, head, draft, rest, plan, done.tables);
      var last := TableReverted(done.db, plan).value;
      TablesRevertedInSteps(a, plans);
      AllRevertedAsAppend(a, done.db, last.db, rest, plan.identity, done.tables, last.tables);
    }
  }

  // ---- What the Draft contains -------------------------------------------------------------

  function WrittenVersions(tables: seq<RevertedTable>): seq<Option<Id>> {
    seq(|tables|, i requires 0 <= i < |tables| => tables[i].written)
  }

  lemma FittingTargetsExist(db: Db, head: Id, draft: Id, plans: seq<TablePlan>)
    requires RevertPlansFit(db, head, draft, plans)
    ensures AllTargetable(db, plans)
  {
    forall i | 0 <= i < |plans|
      ensures Targetable(db, plans[i].target)
    {
      assert RevertPlanFits(db, head, draft, plans[i]);
      FittingTargetExists(db, head, draft, plans[i]);
    }
  }

  lemma RevertedContents(a: Db, b: Db, plans: seq<TablePlan>, tables: seq<RevertedTable>)
    requires LinksExist(a) && LinksExist(b) && AllTargetable(a, plans) && AllRevertedAs(a, b, tables)
    requires |tables| == |plans| && forall i | 0 <= i < |plans| :: tables[i].plan == plans[i]
    ensures |TargetContents(a, plans)| == |WrittenVersions(tables)| == |plans|
    ensures forall i | 0 <= i < |plans| :: HasContent(b, WrittenVersions(tables)[i], TargetContents(a, plans)[i])
  {
    hide LinksExist, HasContent, Targetable;
    forall i | 0 <= i < |plans|
      ensures HasContent(b, WrittenVersions(tables)[i], TargetContents(a, plans)[i])
    {
      assert RevertedAs(a, b, tables[i]);
    }
  }

  lemma RewrittenUnplanned(a: Db, w: Db, linked: set<Id>, plans: seq<TablePlan>)
    requires LinksExist(a) && LinksExist(w) && Rewrote(a, w, Identities(plans)) && linked <= a.tables.Keys
    ensures KeepsUnplanned(a, w, linked, plans)
  {
    forall t | t in linked && a.tables[t].createdId !in Identities(plans)
      ensures ContentOf(w, t) == ContentOf(a, t)
    {
      SameContentAfterRewrite(a, w, Identities(plans), t);
    }
  }

  lemma ReplacementVersions(tables: seq<RevertedTable>)
    ensures |WrittenVersions(tables)| == |Replacements(tables)| == |tables|
    ensures forall i | 0 <= i < |tables| :: WrittenVersions(tables)[i] == Replacements(tables)[i].version
  {
  }

  lemma RevertedStore(reverted: RevertedTables, head: Id, draft: Id)
    requires LinksExist(reverted.db) && CanRelink(reverted, draft)
    ensures var after := TargetReverted(reverted, head, draft);
      && LinksExist(after)
      && after.tables == reverted.db.tables && after.rows == reverted.db.rows && after.rowLinks == reverted.db.rowLinks
      && TablesOf(after, draft) == DraftTables(reverted, draft)
  {
    RelinkKeepsLinks(reverted, draft);
    hide DraftTables, HasTableDiffs;
    SetTablesLinks(reverted.db, draft, DraftTables(reverted, draft));
    var relinked := SetTables(reverted.db, draft, DraftTables(reverted, draft));
    assert TablesOf(TargetReverted(reverted, head, draft), draft) == TablesOf(relinked, draft);
  }

  lemma SetTablesLinks(db: Db, d: Id, tables: set<Id>)
    ensures TablesOf(SetTables(db, d, tables), d) == tables
  {
  }

  // Main result: the Draft contains its tables with the planned ones as planned.
  lemma PartialRevertContent(db: Db, head: Id, draft: Id, plans: seq<TablePlan>)
    requires RevertFits(db, head, draft, plans)
    ensures LinksExist(db) && AllTargetable(db, plans) && TablesOf(db, draft) <= db.tables.Keys
    ensures TablesReverted(db, plans).Success?
    ensures var reverted := TablesReverted(db, plans).value;
      && CanRelink(reverted, draft)
      && var after := TargetReverted(reverted, head, draft);
      && LinksExist(after)
      && RevisionContent(after, draft) == RelinkedContent(db, TablesOf(db, draft), plans, TargetContents(db, plans))
  {
    hide *;
    RevertFitsMeans(db, head, draft, plans);
    FittingTargetsExist(db, head, draft, plans);
    TablesExist(db, draft);
    RevertedWrite(db, head, draft, plans);
    AllPlansRevertedAs(db, head, draft, plans);
    var reverted := TablesReverted(db, plans).value;
    var w, tables := reverted.db, reverted.tables;
    RevertProgressMeans(db, w, Identities(plans));
    RevertedPlans(db, w, plans, tables);
    DraftTablesAreDistinct(db, head, draft, plans, reverted);
    ReplacementVersions(tables);
    RelinkedBy(w, TablesOf(db, draft), Replacements(tables), plans, WrittenVersions(tables));
    RewrittenUnplanned(db, w, TablesOf(db, draft), plans);
    RevertedContents(db, w, plans, tables);
    RelinkedTablesContain(db, w, TablesOf(db, draft), DraftTables(reverted, draft), plans, WrittenVersions(tables),
                          TargetContents(db, plans));
    RevertedStore(reverted, head, draft);
    RevisionContentIs(w, TargetReverted(reverted, head, draft), draft, DraftTables(reverted, draft));
  }
}
