/** What a partial commit keeps, for every list of plans that fits the two revisions, and what its flag means. */
module TargetCommitProperties {
  import opened Wrappers
  import opened VersionStore
  import opened StoreShape
  import opened ContentDiff
  import opened VersionWriter
  import opened WriterProperties
  import opened DraftFollowsHead
  import opened DraftWrites
  import opened DraftWriteEffects
  import opened Transition
  import opened TargetPlans
  import opened TargetCommit

  ghost predicate RenumberingFits(db: Db, plan: TablePlan) {
    plan.renumbered.Some? ==>
      && plan.draft.Some?
      && CanCopy(db, plan.draft.value, RenumberedChanges(plan.renumbered.value))
      && ChangesFit(db, RowsOf(db, plan.draft.value), RenumberedChanges(plan.renumbered.value))
  }

  ghost predicate CommitPlanFits(db: Db, head: Id, draft: Id, plan: TablePlan) {
    PlanFits(db, head, draft, plan) && RenumberingFits(db, plan)
  }

  function Identities(plans: seq<TablePlan>): seq<Id> {
    seq(|plans|, i requires 0 <= i < |plans| => plans[i].identity)
  }

  ghost predicate Committable(db: Db, head: Id, draft: Id) {
    Guarded(db) && IsDraft(db, draft) && db.revisions[draft].parent == Some(head)
  }

  // Each plan fits on its own: enough for everything committed.
  ghost predicate CommitPlansFit(db: Db, head: Id, draft: Id, plans: seq<TablePlan>) {
    Committable(db, head, draft) && forall i | 0 <= i < |plans| :: CommitPlanFits(db, head, draft, plans[i])
  }

  ghost predicate NameVersions(db: Db, head: Id, draft: Id, plans: seq<TablePlan>)
    requires LinksExist(db)
  {
    forall i | 0 <= i < |plans| ::
      && NamesVersion(db, head, plans[i].identity, plans[i].head)
      && NamesVersion(db, draft, plans[i].identity, plans[i].draft)
  }

  // Together they also name the versions of different tables: enough for a consistent store.
  ghost predicate CommitFits(db: Db, head: Id, draft: Id, plans: seq<TablePlan>) {
    && Consistent(db) && CommitPlansFit(db, head, draft, plans)
    && NameVersions(db, head, draft, plans) && Distinct(Identities(plans))
  }

  // ---- What was written for one table ------------------------------------------------------

  ghost predicate InHead(b: Db, plan: TablePlan, version: Option<Id>) {
    VersionOf(b, version, plan.identity) && (version.Some? ==> b.tables[version.value].readonly)
  }

  ghost predicate InNextDraft(a: Db, b: Db, plan: TablePlan, version: Option<Id>) {
    && VersionOf(b, version, plan.identity)
    && (version.Some? && !b.tables[version.value].readonly ==> version == plan.draft || a.nextId <= version.value)
  }

  lemma HeadStaysReadonly(a: Db, b: Db, head: Id, version: Option<Id>)
    requires Safe(a) && head in a.revisions && !a.revisions[head].isDraft && LinkedBy(a, head, version) && Grew(a, b)
    ensures version.Some? ==> version.value in b.tables && b.tables[version.value].readonly
  {
  }

  lemma CopyThenLockProgress(a: Db, b: Db, source: Id, changes: RowLinkChanges, head: Option<Id>)
    requires Progress(a, b) && CanCopy(a, source, changes) && ChangesFit(a, RowsOf(a, source), changes)
    requires head.Some? ==> head.value in b.tables && b.tables[head.value].readonly
    ensures CanCopy(b, source, changes)
    ensures var after := LockedIntoHead(Copied(b, source, changes, true), b.nextId, head);
      && Progress(a, after)
      && b.nextId in after.tables && after.tables[b.nextId] == b.tables[source].(readonly := true)
  {
    CopyProgress(a, b, source, changes);
    var copied := Copied(b, source, changes, false);
    assert head.Some? ==> head.value < b.nextId;
    assert head.Some? ==> head.value in copied.tables && copied.tables[head.value].readonly;
    assert b.nextId in copied.tables && copied.tables[b.nextId] == b.tables[source].(readonly := false);
    ReadonlyCopyThenLock(b, source, changes, head);
    hide *;
    LockProgress(a, copied, b.nextId, head);
  }

  lemma VersionAfterGrowth(a: Db, b: Db, version: Option<Id>, identity: Id)
    requires Grew(a, b) && VersionOf(a, version, identity)
    ensures VersionOf(b, version, identity)
  {
  }

  lemma HeadTableWritten(a: Db, b: Db, head: Id, draft: Id, plan: TablePlan)
    requires Committable(a, head, draft) && CommitPlanFits(a, head, draft, plan) && Progress(a, b)
    ensures HeadTable(b, plan).Success?
    ensures Progress(a, HeadTable(b, plan).value.db)
    ensures InHead(HeadTable(b, plan).value.db, plan, HeadTable(b, plan).value.version)
  {
    assert head in a.revisions && !a.revisions[head].isDraft by { HeadIsPlaced(a.revisions, head, draft, a.nextId); }
    assert Grew(a, b);
    hide Progress, Grew, VersionOf, TargetFits, RowIdentities, MutableIsOwned, History;
    HeadStaysReadonly(a, b, head, plan.head);
    VersionAfterGrowth(a, b, plan.head, plan.identity);
    VersionAfterGrowth(a, b, plan.draft, plan.identity);
    if plan.target.Mixed? {
      MixedHeadWritten(a, b, plan);
    } else {
      LinkedHeadWritten(a, b, plan);
    }
  }

  lemma MixedHeadWritten(a: Db, b: Db, plan: TablePlan)
    requires Progress(a, b) && TargetFits(a, plan) && plan.target.Mixed?
    requires VersionOf(b, plan.head, plan.identity) && VersionOf(b, plan.draft, plan.identity)
    requires plan.head.Some? ==> plan.head.value in b.tables && b.tables[plan.head.value].readonly
    ensures HeadTable(b, plan).Success?
    ensures Progress(a, HeadTable(b, plan).value.db)
    ensures InHead(HeadTable(b, plan).value.db, plan, HeadTable(b, plan).value.version)
  {
    hide LockedIntoHead, Copied, ChangesFit, Progress, CanCopy;
    CopyThenLockProgress(a, b, plan.target.source, plan.target.changes, plan.head);
  }

  lemma LinkedHeadWritten(a: Db, b: Db, plan: TablePlan)
    requires Progress(a, b) && TargetFits(a, plan) && plan.target.Linked?
    requires VersionOf(b, plan.head, plan.identity) && VersionOf(b, plan.draft, plan.identity)
    requires plan.head.Some? ==> plan.head.value in b.tables && b.tables[plan.head.value].readonly
    ensures HeadTable(b, plan).Success?
    ensures Progress(a, HeadTable(b, plan).value.db)
    ensures InHead(HeadTable(b, plan).value.db, plan, HeadTable(b, plan).value.version)
  {
    hide LockedIntoHead, Progress;
    var version := plan.target.versionId;
    if version.Some? && version != plan.head {
      LockProgress(a, b, version.value, plan.head);
    }
  }

  lemma NextDraftTableWritten(a: Db, b: Db, head: Id, draft: Id, plan: TablePlan, version: Option<Id>)
    requires Committable(a, head, draft) && CommitPlanFits(a, head, draft, plan) && Progress(a, b)
    requires InHead(b, plan, version)
    ensures LinksExist(b) && NextDraftTable(b, plan, version).Success?
    ensures Progress(a, NextDraftTable(b, plan, version).value.db)
    ensures InNextDraft(a, NextDraftTable(b, plan, version).value.db, plan,
                        NextDraftTable(b, plan, version).value.version)
    ensures Grew(b, NextDraftTable(b, plan, version).value.db)
  {
    hide Committable, KeepsCommitted, RowIdentities, VersionOf, ChangesFit, CanCopy, TargetFits;
    VersionAfterGrowth(a, b, plan.draft, plan.identity);
    if plan.renumbered.Some? {
      RenumberedWritten(a, b, plan);
    } else {
      GrewIsReflexive(b);
      FollowedWritten(a, b, plan, version);
    }
  }

  lemma GrewIsReflexive(db: Db)
    ensures Grew(db, db)
  {
  }

  lemma RenumberedWritten(a: Db, b: Db, plan: TablePlan)
    requires Progress(a, b) && RenumberingFits(a, plan) && plan.renumbered.Some?
    requires plan.draft.Some? && VersionOf(b, plan.draft, plan.identity)
    ensures LinksExist(b)
    ensures forall version :: NextDraftTable(b, plan, version) == NextDraftTable(b, plan, None)
    ensures NextDraftTable(b, plan, None).Success?
    ensures Progress(a, NextDraftTable(b, plan, None).value.db)
    ensures InNextDraft(a, NextDraftTable(b, plan, None).value.db, plan, NextDraftTable(b, plan, None).value.version)
    ensures Grew(b, NextDraftTable(b, plan, None).value.db)
  {
    var changes := RenumberedChanges(plan.renumbered.value);
    CopyProgress(a, b, plan.draft.value, changes);
    CopyGrows(b, plan.draft.value, changes, false);
    hide Progress, KeepsCommitted, RowIdentities, ChangesFit, CanCopy, NewRowVersions, CopiedLinks;
  }

  lemma FollowedWritten(a: Db, b: Db, plan: TablePlan, version: Option<Id>)
    requires LinksExist(b) && InHead(b, plan, version) && VersionOf(b, plan.draft, plan.identity)
    ensures InNextDraft(a, b, plan, VersionToLink(b, plan.relinkCandidate, plan.draft, version))
  {
  }

  // ---- Over all plans ----------------------------------------------------------------------

  ghost predicate AllWritten(a: Db, b: Db, plans: seq<TablePlan>, tables: seq<CommittedVersion>) {
    && |tables| == |plans|
    && (forall i | 0 <= i < |plans| ::
          && tables[i].plan == plans[i]
          && InHead(b, plans[i], tables[i].head) && InNextDraft(a, b, plans[i], tables[i].nextDraft))
  }

  lemma AllWrittenAfterGrowth(a: Db, b: Db, c: Db, plans: seq<TablePlan>, tables: seq<CommittedVersion>)
    requires AllWritten(a, b, plans, tables) && Grew(b, c)
    ensures AllWritten(a, c, plans, tables)
  {
  }

  lemma OneMoreWritten(a: Db, b: Db, head: Id, draft: Id, plans: seq<TablePlan>, plan: TablePlan,
                       tables: seq<CommittedVersion>)
    requires Committable(a, head, draft) && CommitPlanFits(a, head, draft, plan) && Progress(a, b)
    requires AllWritten(a, b, plans, tables)
    ensures LinksExist(b) && TableCommitted(b, plan).Success?
    ensures var written := TableCommitted(b, plan).value;
      Progress(a, written.db) && AllWritten(a, written.db, plans + [plan], tables + written.tables)
  {
    assert Safe(b);
    TableCommittedInSteps(b, plan);
    hide *;
    HeadTableWritten(a, b, head, draft, plan);
    var one := HeadTable(b, plan).value;
    HeadTableGrows(b, plan);
    NextDraftTableWritten(a, one.db, head, draft, plan, one.version);
    var two := NextDraftTable(one.db, plan, one.version).value;
    AllWrittenAfterGrowth(a, b, one.db, plans, tables);
    AllWrittenAfterGrowth(a, one.db, two.db, plans, tables);
    HeadStaysWritten(one.db, two.db, plan, one.version);
    WrittenAppend(a, two.db, plans, plan, tables, CommittedVersion(plan, one.version, two.version));
  }

  lemma TableCommittedInSteps(b: Db, plan: TablePlan)
    requires LinksExist(b)
    ensures HeadTable(b, plan).Success? ==>
      var one := HeadTable(b, plan).value;
      && LinksExist(one.db)
      && (NextDraftTable(one.db, plan, one.version).Success? ==>
            var two := NextDraftTable(one.db, plan, one.version).value;
            TableCommitted(b, plan)
                 == Success(WrittenTables(two.db, [CommittedVersion(plan, one.version, two.version)])))
  {
    StepsKeepLinks(b, plan);
    hide LinksExist, HeadTable, NextDraftTable;
  }

  lemma WrittenAppend(a: Db, b: Db, plans: seq<TablePlan>, plan: TablePlan, tables: seq<CommittedVersion>,
                      last: CommittedVersion)
    requires AllWritten(a, b, plans, tables) && last.plan == plan
    requires InHead(b, plan, last.head) && InNextDraft(a, b, plan, last.nextDraft)
    ensures AllWritten(a, b, plans + [plan], tables + [last])
  {
  }

  lemma HeadStaysWritten(b: Db, c: Db, plan: TablePlan, version: Option<Id>)
    requires InHead(b, plan, version) && Grew(b, c)
    ensures InHead(c, plan, version)
  {
  }

  lemma HeadTableGrows(b: Db, plan: TablePlan)
    requires Safe(b) && HeadTable(b, plan).Success?
    ensures Grew(b, HeadTable(b, plan).value.db)
  {
    match plan.target {
      case Mixed(source, _, changes) =>
        var copied := Copied(b, source, changes, true);
        CopyGrows(b, source, changes, true);
        LockGrows(copied, b.nextId, plan.head);
        hide *;
        GrewIsTransitive(b, copied, LockedIntoHead(copied, b.nextId, plan.head));
      case Linked(version) =>
        if version.Some? {
          LockGrows(b, version.value, plan.head);
        }
    }
  }

  lemma NothingWritten(db: Db)
    requires Safe(db) && RowIdentities(db)
    ensures Progress(db, db)
  {
  }

  lemma {:induction false} AllPlansWritten(a: Db, head: Id, draft: Id, plans: seq<TablePlan>)
    requires CommitPlansFit(a, head, draft, plans)
    ensures TablesCommitted(a, plans).Success?
    ensures Progress(a, TablesCommitted(a, plans).value.db)
    ensures AllWritten(a, TablesCommitted(a, plans).value.db, plans, TablesCommitted(a, plans).value.tables)
  {
    if plans == [] {
      NothingWritten(a);
    } else {
      var rest := plans[..|plans| - 1];
      assert plans == rest + [plans[|plans| - 1]];
      assert LinksExist(a) && CommitPlansFit(a, head, draft, rest);
      assert Committable(a, head, draft) && CommitPlanFits(a, head, draft, plans[|plans| - 1]);
      TablesCommittedInSteps(a, plans);
      hide *;
      AllPlansWritten(a, head, draft, rest);
      var done := TablesCommitted(a, rest).value;
      OneMoreWritten(a, done.db, head, draft, rest, plans[|plans| - 1], done.tables);
    }
  }

  lemma TablesCommittedInSteps(db: Db, plans: seq<TablePlan>)
    requires LinksExist(db) && plans != []
    ensures TablesCommitted(db, plans[..|plans| - 1]).Success? ==>
      var done := TablesCommitted(db, plans[..|plans| - 1]).value;
      && LinksExist(done.db)
      && (TableCommitted(done.db, plans[|plans| - 1]).Success? ==>
            var last := TableCommitted(done.db, plans[|plans| - 1]).value;
            TablesCommitted(db, plans) == Success(WrittenTables(last.db, done.tables + last.tables)))
  {
  }

  // ---- The links of the new Head and the next Draft ----------------------------------------

  lemma HeadLinksStay(a: Db, head: Id, draft: Id, plans: seq<TablePlan>, written: WrittenTables)
    requires LinksExist(a) && NameVersions(a, head, draft, plans) && Distinct(Identities(plans)) && Grew(a, written.db)
    requires AllWritten(a, written.db, plans, written.tables)
    ensures TablesOf(written.db, head) == TablesOf(a, head) && TablesOf(a, head) <= written.db.tables.Keys
    ensures StayOnIdentities(written.db, TablesOf(a, head), HeadLinks(written.tables), Identities(plans))
  {
    SameTablesAfterGrowth(a, written.db);
    TablesExist(a, head);
    hide TablesOf;
    forall i | 0 <= i < |plans|
      ensures StaysOnIdentity(written.db, TablesOf(a, head), HeadLinks(written.tables)[i], plans[i].identity)
    {
      assert NamesVersion(a, head, plans[i].identity, plans[i].head);
    }
  }

  lemma NextDraftLinksStay(a: Db, head: Id, draft: Id, plans: seq<TablePlan>, written: WrittenTables)
    requires LinksExist(a) && NameVersions(a, head, draft, plans) && Distinct(Identities(plans)) && Grew(a, written.db)
    requires AllWritten(a, written.db, plans, written.tables)
    ensures TablesOf(written.db, draft) == TablesOf(a, draft) && TablesOf(a, draft) <= written.db.tables.Keys
    ensures StayOnIdentities(written.db, TablesOf(a, draft), NextDraftLinks(written.tables), Identities(plans))
  {
    SameTablesAfterGrowth(a, written.db);
    TablesExist(a, draft);
    hide TablesOf;
    forall i | 0 <= i < |plans|
      ensures StaysOnIdentity(written.db, TablesOf(a, draft), NextDraftLinks(written.tables)[i], plans[i].identity)
    {
      assert NamesVersion(a, draft, plans[i].identity, plans[i].draft);
    }
  }

  lemma DistinctAfterGrowth(a: Db, b: Db, tables: set<Id>)
    requires tables <= a.tables.Keys && DistinctIdentities(a, tables) && Grew(a, b)
    ensures tables <= b.tables.Keys && DistinctIdentities(b, tables)
  {
  }

  lemma WrittenHeadTable(a: Db, plans: seq<TablePlan>, written: WrittenTables, t: Id)
    requires AllWritten(a, written.db, plans, written.tables) && t in LinkedInstead(HeadLinks(written.tables))
    ensures t in written.db.tables && written.db.tables[t].readonly
  {
    var i :| 0 <= i < |written.tables| && HeadLinks(written.tables)[i].version == Some(t);
    assert InHead(written.db, plans[i], written.tables[i].head);
  }

  lemma NewHeadTablesAreReadonly(a: Db, head: Id, draft: Id, plans: seq<TablePlan>, written: WrittenTables)
    requires Committable(a, head, draft) && Grew(a, written.db)
    requires AllWritten(a, written.db, plans, written.tables)
    ensures HeadTables(written, head) <= written.db.tables.Keys
    ensures forall t | t in HeadTables(written, head) :: written.db.tables[t].readonly
  {
    HeadIsPlaced(a.revisions, head, draft, a.nextId);
    SameTablesAfterGrowth(a, written.db);
    assert Safe(a);
    hide AllWritten, LinkedInstead, HeadLinks, History, RowIdentities, MutableIsOwned, Guarded;
    forall t | t in HeadTables(written, head)
      ensures t in written.db.tables && written.db.tables[t].readonly
    {
      if t in LinkedInstead(HeadLinks(written.tables)) {
        WrittenHeadTable(a, plans, written, t);
      } else {
        assert TableLink(head, t) in a.tableLinks;
      }
    }
  }

  lemma NextDraftTablesExist(a: Db, draft: Id, plans: seq<TablePlan>, written: WrittenTables)
    requires LinksExist(written.db) && AllWritten(a, written.db, plans, written.tables)
    ensures NextDraftTables(written, draft) <= written.db.tables.Keys
  {
    TablesExist(written.db, draft);
    hide TablesOf, LinksExist;
    forall t | t in LinkedInstead(NextDraftLinks(written.tables))
      ensures t in written.db.tables
    {
      var i :| 0 <= i < |written.tables| && NextDraftLinks(written.tables)[i].version == Some(t);
      assert InNextDraft(a, written.db, plans[i], written.tables[i].nextDraft);
    }
  }

  lemma NextDraftOwnsItsTables(a: Db, head: Id, draft: Id, plans: seq<TablePlan>, written: WrittenTables)
    requires CommitPlansFit(a, head, draft, plans) && Grew(a, written.db) && LinksExist(written.db)
    requires AllWritten(a, written.db, plans, written.tables) && MutableIsOwned(written.db)
    requires NextDraftTables(written, draft) <= written.db.tables.Keys
    ensures HandedOver(written.db, draft, NextDraftTables(written, draft))
  {
    assert LinksExist(a) && written.db.tableLinks == a.tableLinks && IdsIssued(a);
    SameTablesAfterGrowth(a, written.db);
    hide CommitPlansFit, AllWritten, NextDraftTables, Grew, TablesOf, LinksExist, IdsIssued;
    forall t | t in NextDraftTables(written, draft) && t in a.tables && !written.db.tables[t].readonly
      ensures TableLink(draft, t) in written.db.tableLinks
    {
      NextDraftTableWasLinked(a, head, draft, plans, written, t);
    }
    LinkedTablesExist(a);
  }

  lemma LinkedTablesExist(db: Db)
    requires LinksExist(db)
    ensures forall l | l in db.tableLinks :: l.table in db.tables
  {
  }

  lemma NextDraftTableWasLinked(a: Db, head: Id, draft: Id, plans: seq<TablePlan>, written: WrittenTables, t: Id)
    requires CommitPlansFit(a, head, draft, plans) && AllWritten(a, written.db, plans, written.tables) && IdsIssued(a)
    requires written.db.tableLinks == a.tableLinks && TablesOf(written.db, draft) == TablesOf(a, draft)
    requires t in NextDraftTables(written, draft) && t in written.db.tables && !written.db.tables[t].readonly
    requires t in a.tables
    ensures TableLink(draft, t) in written.db.tableLinks
  {
    assert t < a.nextId;
    hide Guarded, KeepsCommitted, TargetFits, RenumberingFits, IdsIssued;
    if t in LinkedInstead(NextDraftLinks(written.tables)) {
      var i :| 0 <= i < |written.tables| && NextDraftLinks(written.tables)[i].version == Some(t);
      assert InNextDraft(a, written.db, plans[i], written.tables[i].nextDraft);
      assert CommitPlanFits(a, head, draft, plans[i]);
    }
  }

  lemma CommittableParts(db: Db, head: Id, draft: Id)
    requires Committable(db, head, draft)
    ensures Safe(db) && LinksExist(db) && RowIdentities(db) && MutableIsOwned(db) && History(db.revisions)
    ensures IsDraft(db, draft) && db.revisions[draft].parent == Some(head)
    ensures head in db.revisions && draft in db.revisions
  {
    HeadIsPlaced(db.revisions, head, draft, db.nextId);
  }

  lemma ProgressMeans(a: Db, b: Db)
    requires Progress(a, b)
    ensures Safe(b) && LinksExist(b) && KeepsCommitted(a, b) && RowIdentities(b) && Grew(a, b)
    ensures b.revisions == a.revisions
  {
  }

  lemma CommitPlansMean(db: Db, head: Id, draft: Id, plans: seq<TablePlan>)
    requires CommitPlansFit(db, head, draft, plans)
    ensures Committable(db, head, draft) && forall i | 0 <= i < |plans| :: CommitPlanFits(db, head, draft, plans[i])
  {
  }

  lemma CanAdvanceToOf(db: Db, head: Id, draft: Id, headTables: set<Id>, nextTables: set<Id>)
    requires Safe(db) && History(db.revisions) && IsDraft(db, draft) && db.revisions[draft].parent == Some(head)
    requires headTables <= db.tables.Keys && nextTables <= db.tables.Keys
    requires forall t | t in headTables :: db.tables[t].readonly
    ensures CanAdvanceTo(db, head, draft, headTables, nextTables)
  {
  }

  lemma CanAdvanceWrittenOf(written: WrittenTables, head: Id, draft: Id)
    requires head in written.db.revisions && draft in written.db.revisions
    requires HeadTables(written, head) <= written.db.tables.Keys
       && NextDraftTables(written, draft) <= written.db.tables.Keys
    ensures CanAdvanceWritten(written, head, draft)
  {
  }

  lemma SameDraft(a: Db, b: Db, draft: Id)
    requires b.revisions == a.revisions && IsDraft(a, draft)
    ensures IsDraft(b, draft) && b.revisions[draft] == a.revisions[draft]
  {
  }

  lemma ReadyToAdvance(a: Db, head: Id, draft: Id, plans: seq<TablePlan>, written: WrittenTables)
    requires CommitPlansFit(a, head, draft, plans) && Progress(a, written.db)
    requires AllWritten(a, written.db, plans, written.tables)
    ensures CanAdvanceWritten(written, head, draft)
    ensures CanAdvanceTo(written.db, head, draft, HeadTables(written, head), NextDraftTables(written, draft))
    ensures LinksExist(written.db) && MutableIsOwned(written.db) && RowIdentities(written.db)
    ensures NextDraftTables(written, draft) <= written.db.tables.Keys
       && HandedOver(written.db, draft, NextDraftTables(written, draft))
  {
    hide *;
    CommitPlansMean(a, head, draft, plans);
    CommittableParts(a, head, draft);
    ProgressMeans(a, written.db);
    SameDraft(a, written.db, draft);
    GrownOwners(a, written.db);
    NewHeadTablesAreReadonly(a, head, draft, plans, written);
    NextDraftTablesExist(a, draft, plans, written);
    NextDraftOwnsItsTables(a, head, draft, plans, written);
    CanAdvanceWrittenOf(written, head, draft);
    CanAdvanceToOf(written.db, head, draft, HeadTables(written, head), NextDraftTables(written, draft));
  }

  lemma CommitFitsMeans(db: Db, head: Id, draft: Id, plans: seq<TablePlan>)
    requires CommitFits(db, head, draft, plans)
    ensures LinksExist(db) && TableIdentities(db) && FlagsExact(db) && CommitPlansFit(db, head, draft, plans)
    ensures NameVersions(db, head, draft, plans) && Distinct(Identities(plans))
  {
  }

  lemma WrittenRelinks(written: WrittenTables, head: Id, draft: Id)
    ensures HeadTables(written, head) == RelinkedTables(TablesOf(written.db, head), HeadLinks(written.tables))
    ensures NextDraftTables(written, draft)
         == RelinkedTables(TablesOf(written.db, draft), NextDraftLinks(written.tables))
  {
  }

  lemma ReadyToStayConsistent(a: Db, head: Id, draft: Id, plans: seq<TablePlan>, written: WrittenTables)
    requires CommitFits(a, head, draft, plans) && Progress(a, written.db)
    requires AllWritten(a, written.db, plans, written.tables)
    ensures HeadTables(written, head) <= written.db.tables.Keys
       && NextDraftTables(written, draft) <= written.db.tables.Keys
    ensures DistinctIdentities(written.db, HeadTables(written, head))
    ensures DistinctIdentities(written.db, NextDraftTables(written, draft))
    ensures LinksExist(written.db) && TableIdentities(written.db) && FlagsExact(written.db)
  {
    hide *;
    CommitFitsMeans(a, head, draft, plans);
    ProgressMeans(a, written.db);
    GrownTables(a, written.db);
    HeadLinksStay(a, head, draft, plans, written);
    NextDraftLinksStay(a, head, draft, plans, written);
    TablesAreDistinct(written.db, head);
    TablesAreDistinct(written.db, draft);
    WrittenRelinks(written, head, draft);
    RelinkKeepsIdentities(written.db, TablesOf(a, head), HeadLinks(written.tables), Identities(plans));
    RelinkKeepsIdentities(written.db, TablesOf(a, draft), NextDraftLinks(written.tables), Identities(plans));
  }

  lemma TargetCommittedIs(written: WrittenTables, head: Id, draft: Id)
    requires LinksExist(written.db) && CanAdvanceWritten(written, head, draft)
    ensures written.db.nextId in AdvancedTo(written, head, draft).revisions
       && LinksExist(AdvancedTo(written, head, draft))
    ensures AdvancedTo(written, head, draft)
         == Advance(written.db, head, draft, Some(HeadTables(written, head)), NextDraftTables(written, draft))
    ensures TargetCommitted(written, head, draft)
         == WithFlag(AdvancedTo(written, head, draft), written.db.nextId,
                     HasTableDiffs(AdvancedTo(written, head, draft), draft, written.db.nextId))
  {
    AdvancedLinksExist(written, head, draft);
  }

  lemma CanAdvanceWrittenMeans(written: WrittenTables, head: Id, draft: Id)
    requires CanAdvanceWritten(written, head, draft)
    ensures head in written.db.revisions && draft in written.db.revisions
    ensures HeadTables(written, head) <= written.db.tables.Keys
       && NextDraftTables(written, draft) <= written.db.tables.Keys
  {
  }

  // A partial commit whose plans fit one by one is written and keeps everything committed.
  lemma TargetCommitIsGuarded(db: Db, head: Id, draft: Id, plans: seq<TablePlan>)
    requires CommitPlansFit(db, head, draft, plans)
    ensures TablesCommitted(db, plans).Success?
    ensures var written := TablesCommitted(db, plans).value;
      && CanAdvanceWritten(written, head, draft)
      && Guarded(TargetCommitted(written, head, draft))
      && KeepsCommitted(db, TargetCommitted(written, head, draft))
  {
    hide *;
    CommitPlansMean(db, head, draft, plans);
    CommittableParts(db, head, draft);
    AllPlansWritten(db, head, draft, plans);
    var written := TablesCommitted(db, plans).value;
    ProgressMeans(db, written.db);
    ReadyToAdvance(db, head, draft, plans, written);
    TargetCommittedIs(written, head, draft);
    var advanced := AdvancedTo(written, head, draft);
    FlaggedAdvanceIsGuarded(written.db, head, draft, HeadTables(written, head), NextDraftTables(written, draft),
                            HasTableDiffs(advanced, draft, written.db.nextId));
    KeepsIsTransitive(db, written.db, TargetCommitted(written, head, draft));
  }

  // Main result of a partial commit: where the plans also name the versions of different tables, it keeps the store
  // consistent and all committed content as it was; the new Head and the next Draft link what was planned.
  lemma TargetCommitIsConsistent(db: Db, head: Id, draft: Id, plans: seq<TablePlan>)
    requires CommitFits(db, head, draft, plans)
    ensures TablesCommitted(db, plans).Success?
    ensures var written := TablesCommitted(db, plans).value;
      && CanAdvanceWritten(written, head, draft)
      && Consistent(TargetCommitted(written, head, draft))
      && KeepsCommitted(db, TargetCommitted(written, head, draft))
  {
    hide *;
    CommitFitsMeans(db, head, draft, plans);
    CommitPlansMean(db, head, draft, plans);
    CommittableParts(db, head, draft);
    AllPlansWritten(db, head, draft, plans);
    var written := TablesCommitted(db, plans).value;
    ProgressMeans(db, written.db);
    ReadyToAdvance(db, head, draft, plans, written);
    ReadyToStayConsistent(db, head, draft, plans, written);
    ShapedOf(written.db);
    CanAdvanceWrittenMeans(written, head, draft);
    TargetFlag(db, head, draft, plans, written);
    AdvanceIsConsistent(written.db, head, draft, HeadTables(written, head), NextDraftTables(written, draft));
    KeepsIsTransitive(db, written.db, TargetCommitted(written, head, draft));
  }

  // The flag computed by the query is the comparison of the two sets of links.
  lemma TargetFlag(db: Db, head: Id, draft: Id, plans: seq<TablePlan>, written: WrittenTables)
    requires LinksExist(written.db) && TableIdentities(written.db) && CanAdvanceWritten(written, head, draft)
    requires CanAdvanceTo(written.db, head, draft, HeadTables(written, head), NextDraftTables(written, draft))
    requires DistinctIdentities(written.db, HeadTables(written, head))
    requires DistinctIdentities(written.db, NextDraftTables(written, draft))
    ensures TargetCommitted(written, head, draft)
         == WithNextFlag(written.db, head, draft, HeadTables(written, head), NextDraftTables(written, draft))
  {
    var headTables, nextTables := HeadTables(written, head), NextDraftTables(written, draft);
    AdvancedLinksExist(written, head, draft);
    var advanced := AdvancedTo(written, head, draft);
    hide HeadTables, NextDraftTables, DistinctIdentities, TableIdentities, History;
    AdvanceKeepsTableIdentities(written.db, head, draft, headTables, nextTables);
    AdvanceTables(written.db, head, draft, headTables, nextTables);
    HasTableDiffsIsLinkDifference(advanced, draft, written.db.nextId);
  }
}
