/** Which versions a partial commit and a partial revert link: the version a plan names or a new one, and Head's where
  * the planned content is Head's and the table may follow it. */
module PlannedVersions {
  import opened Wrappers
  import opened VersionStore
  import opened StoreShape
  import opened ContentDiff
  import opened DraftFollowsHead
  import opened Transition
  import opened TargetPlans
  import opened TargetCommit
  import opened TargetCommitProperties
  import opened TargetContent
  import opened TargetRevert
  import opened TargetRevertProperties
  import opened TargetRevertContent
  import opened CommitResults
  import opened PartialResults

  // ---- The partial commit ------------------------------------------------------------------

  // An assembled table gets a new version, a linked one the version that the plan names, a renumbered one a new version
  // in the next Draft.
  ghost predicate CommittedAsPlanned(a: Db, c: CommittedVersion) {
    && (match c.plan.target
        case Linked(version) => c.head == version
        case Mixed(_, _, _) => c.head.Some? && c.head.value !in a.tables)
    && (c.plan.renumbered.Some? ==> c.nextDraft.Some? && c.nextDraft.value !in a.tables)
  }

  lemma NewIdIsNew(a: Db, b: Db)
    requires Safe(a) && Grew(a, b)
    ensures b.nextId !in a.tables
  {
  }

  lemma HeadVersionIs(b: Db, plan: TablePlan)
    requires HeadTable(b, plan).Success?
    ensures match plan.target
            case Linked(version) => HeadTable(b, plan).value.version == version
            case Mixed(_, _, _) => HeadTable(b, plan).value.version == Some(b.nextId)
  {
  }

  lemma OneCommittedAsPlanned(a: Db, b: Db, head: Id, draft: Id, plan: TablePlan)
    requires Committable(a, head, draft) && CommitPlanFits(a, head, draft, plan) && Progress(a, b)
    ensures LinksExist(b) && TableCommitted(b, plan).Success?
    ensures forall c | c in TableCommitted(b, plan).value.tables :: CommittedAsPlanned(a, c)
  {
    hide *;
    CommittableParts(a, head, draft);
    ProgressMeans(a, b);
    TableCommittedInSteps(b, plan);
    HeadTableWritten(a, b, head, draft, plan);
    var one := HeadTable(b, plan).value;
    ProgressMeans(a, one.db);
    NextDraftTableWritten(a, one.db, head, draft, plan, one.version);
    var two := NextDraftTable(one.db, plan, one.version).value;
    HeadVersionIs(b, plan);
    NewIdIsNew(a, b);
    NewIdIsNew(a, one.db);
    if plan.renumbered.Some? {
      RenumberedVersion(one.db, plan, one.version);
    }
    CommittedAsPlannedOf(a, CommittedVersion(plan, one.version, two.version));
  }

  lemma CommittedAsPlannedOf(a: Db, c: CommittedVersion)
    requires match c.plan.target
             case Linked(version) => c.head == version
             case Mixed(_, _, _) => c.head.Some? && c.head.value !in a.tables
    requires c.plan.renumbered.Some? ==> c.nextDraft.Some? && c.nextDraft.value !in a.tables
    ensures CommittedAsPlanned(a, c)
  {
  }

  lemma {:induction false} AllCommittedAsPlanned(a: Db, head: Id, draft: Id, plans: seq<TablePlan>)
    requires CommitPlansFit(a, head, draft, plans)
    ensures LinksExist(a) && TablesCommitted(a, plans).Success?
    ensures forall c | c in TablesCommitted(a, plans).value.tables :: CommittedAsPlanned(a, c)
  {
    if plans != [] {
      FirstCommitPlans(a, head, draft, plans);
    }
    assert plans == [] ==> LinksExist(a) && TablesCommitted(a, plans) == Success(WrittenTables(a, []));
    hide *;
    CommitPlansMean(a, head, draft, plans);
    CommittableParts(a, head, draft);
    if plans != [] {
      var rest := plans[..|plans| - 1];
      TablesCommittedInSteps(a, plans);
      AllPlansWritten(a, head, draft, rest);
      var done := TablesCommitted(a, rest).value;
      OneCommittedAsPlanned(a, done.db, head, draft, plans[|plans| - 1]);
      AllCommittedAsPlanned(a, head, draft, rest);
    }
  }

  lemma CommittedLinks(db: Db, head: Id, draft: Id, plans: seq<TablePlan>)
    requires CommitPlansFit(db, head, draft, plans)
    ensures LinksExist(db) && TablesCommitted(db, plans).Success?
    ensures CanAdvanceWritten(TablesCommitted(db, plans).value, head, draft)
    ensures var written := TablesCommitted(db, plans).value;
      var after := TargetCommitted(written, head, draft);
      && TablesOf(after, draft) == HeadTables(written, head)
      && TablesOf(after, written.db.nextId) == NextDraftTables(written, draft)
  {
    hide *;
    WrittenStore(db, head, draft, plans);
    var written := TablesCommitted(db, plans).value;
    var w, headTables, nextTables := written.db, HeadTables(written, head), NextDraftTables(written, draft);
    CanAdvanceWrittenMeans(written, head, draft);
    TargetCommittedIs(written, head, draft);
    AdvanceResult(w, head, draft, headTables, nextTables);
    var advanced := AdvancedTo(written, head, draft);
    FlagChangesOnlyTheFlag(w, advanced, head, draft, w.nextId, HasTableDiffs(advanced, draft, w.nextId));
  }

  // The new Head links the version a plan names, or a new one for an assembled table; the next Draft links a new one
  // for a renumbered table.
  lemma CommitLinksAsPlanned(db: Db, head: Id, draft: Id, plans: seq<TablePlan>, i: nat)
    requires CommitPlansFit(db, head, draft, plans) && i < |plans|
    ensures LinksExist(db) && TablesCommitted(db, plans).Success?
    ensures CanAdvanceWritten(TablesCommitted(db, plans).value, head, draft)
    ensures var written, plan := TablesCommitted(db, plans).value, plans[i];
      var after := TargetCommitted(written, head, draft);
      && (plan.target.Linked? && plan.target.versionId.Some? ==> plan.target.versionId.value in TablesOf(after, draft))
      && (plan.target.Mixed? ==> LinksNew(db, after, draft, plan.identity))
      && (plan.renumbered.Some? ==> LinksNew(db, after, written.db.nextId, plan.identity))
  {
    hide *;
    CommitPlansMean(db, head, draft, plans);
    CommittedLinks(db, head, draft, plans);
    AllPlansWritten(db, head, draft, plans);
    AllCommittedAsPlanned(db, head, draft, plans);
    var written := TablesCommitted(db, plans).value;
    PlannedTable(db, written.db, plans, written.tables, i);
    var c := written.tables[i];
    PlannedLinks(db, written, head, draft, c);
    SameTablesAfter(written, head, draft);
    var after := TargetCommitted(written, head, draft);
    if c.plan.target.Mixed? {
      LinksNewOf(db, after, draft, c.plan.identity, c.head.value);
    }
    if c.plan.renumbered.Some? {
      LinksNewOf(db, after, written.db.nextId, c.plan.identity, c.nextDraft.value);
    }
  }

  // The revision links a version of that table that the store before did not have.
  ghost predicate LinksNew(a: Db, b: Db, r: Id, identity: Id) {
    exists t :: t in TablesOf(b, r) && t !in a.tables && t in b.tables && b.tables[t].createdId == identity
  }

  lemma LinksNewOf(a: Db, b: Db, r: Id, identity: Id, t: Id)
    requires t in TablesOf(b, r) && t !in a.tables && t in b.tables && b.tables[t].createdId == identity
    ensures LinksNew(a, b, r, identity)
  {
  }

  lemma PlannedTable(a: Db, b: Db, plans: seq<TablePlan>, tables: seq<CommittedVersion>, i: nat)
    requires AllWritten(a, b, plans, tables) && i < |plans|
    ensures i < |tables| && tables[i] in tables && tables[i].plan == plans[i]
    ensures tables[i].head.Some? ==>
      tables[i].head.value in b.tables && b.tables[tables[i].head.value].createdId == plans[i].identity
    ensures tables[i].nextDraft.Some? ==>
      tables[i].nextDraft.value in b.tables && b.tables[tables[i].nextDraft.value].createdId == plans[i].identity
  {
    assert InHead(b, plans[i], tables[i].head) && InNextDraft(a, b, plans[i], tables[i].nextDraft);
  }

  lemma PlannedLinks(a: Db, written: WrittenTables, head: Id, draft: Id, c: CommittedVersion)
    requires c in written.tables && CommittedAsPlanned(a, c)
    ensures c.plan.target.Linked? && c.plan.target.versionId.Some? ==>
      c.plan.target.versionId.value in HeadTables(written, head)
    ensures c.plan.target.Mixed? ==>
      c.head.Some? && c.head.value !in a.tables && c.head.value in HeadTables(written, head)
    ensures c.plan.renumbered.Some? ==>
      c.nextDraft.Some? && c.nextDraft.value !in a.tables && c.nextDraft.value in NextDraftTables(written, draft)
  {
    WrittenFor(written.tables, c);
    if c.head.Some? {
      WrittenIsLinked(written, head, draft, c.head.value);
    }
    if c.nextDraft.Some? {
      WrittenIsLinked(written, head, draft, c.nextDraft.value);
    }
    hide HeadTables, NextDraftTables, ForHead, ForNextDraft;
  }

  lemma SameTablesAfter(written: WrittenTables, head: Id, draft: Id)
    requires LinksExist(written.db) && CanAdvanceWritten(written, head, draft)
    ensures TargetCommitted(written, head, draft).tables == written.db.tables
  {
    hide HeadTables, NextDraftTables, HasTableDiffs;
  }

  // ---- The partial revert ------------------------------------------------------------------

  // A table that may follow Head links Head's version where the planned content is Head's; one that may not links the
  // version the plan names or edits, or a new one.
  ghost predicate RevertedAsPlanned(a: Db, table: RevertedTable)
    requires LinksExist(a)
  {
    var plan := table.plan;
    && Targetable(a, plan.target) && VersionExists(a, plan.head)
    && (plan.relinkCandidate && plan.head.Some? && TargetContentOf(a, plan.target) == VersionContent(a, plan.head) ==>
          table.written == plan.head)
    && (!plan.relinkCandidate ==>
          match plan.target
          case Linked(version) => table.written == version
          case Mixed(source, editInPlace, _) =>
            table.written.Some?
            && if editInPlace then table.written.value == source else table.written.value !in a.tables)
  }

  // A committed version keeps its content whatever else is written.
  lemma CommittedContentStays(a: Db, b: Db, done: seq<Id>, t: Id)
    requires LinksExist(a) && LinksExist(b) && KeepsCommitted(a, b) && Rewrote(a, b, done)
    requires t in a.tables && CommittedTable(a, t)
    ensures t in b.tables && ContentOf(b, t) == ContentOf(a, t)
  {
    hide CommittedTable;
  }

  lemma HeadVersionIsCommitted(a: Db, head: Id, draft: Id, plan: TablePlan)
    requires Committable(a, head, draft) && RevertPlanFits(a, head, draft, plan)
    ensures VersionExists(a, plan.head) && (plan.head.Some? ==> CommittedTable(a, plan.head.value))
  {
    HeadIsPlaced(a.revisions, head, draft, a.nextId);
    if plan.head.Some? {
      assert TableLink(head, plan.head.value) in a.tableLinks && CommittedRevision(a, head);
    }
  }

  // Where the contents are equal, the version to link is Head's.
  lemma EqualContentFollows(w: Db, candidate: Option<Id>, head: Option<Id>)
    requires LinksExist(w) && RowIdentities(w) && VersionExists(w, candidate) && VersionExists(w, head) && head.Some?
    requires VersionContent(w, candidate) == VersionContent(w, head)
    ensures VersionToLink(w, true, candidate, head) == head
  {
    ContentDiffIsExact(w, head.value, candidate.value);
  }

  lemma WrittenVersionIs(a: Db, b: Db, plan: TablePlan)
    requires Safe(a) && a.nextId <= b.nextId && LinksExist(b) && TableWritten(b, plan.target).Success?
    ensures match plan.target
            case Linked(version) => TableWritten(b, plan.target).value.version == version
            case Mixed(source, editInPlace, _) =>
              var version := TableWritten(b, plan.target).value.version;
              version.Some? && if editInPlace then version.value == source else version.value !in a.tables
  {
  }

  lemma SameVersionContentAs(w: Db, version: Option<Id>, content: Option<TableContent>)
    requires LinksExist(w) && HasContent(w, version, content)
    ensures VersionExists(w, version) && VersionContent(w, version) == content
  {
  }

  lemma CommittedVersionContent(a: Db, w: Db, done: seq<Id>, version: Option<Id>)
    requires LinksExist(a) && LinksExist(w) && KeepsCommitted(a, w) && Rewrote(a, w, done) && VersionExists(a, version)
    requires version.Some? ==> CommittedTable(a, version.value)
    ensures VersionExists(w, version) && VersionContent(w, version) == VersionContent(a, version)
  {
    hide *;
    if version.Some? {
      VersionContentIs(a, version);
      CommittedContentStays(a, w, done, version.value);
      VersionContentIs(w, version);
    } else {
      NoVersionContent(a, w);
    }
  }

  lemma VersionContentIs(a: Db, version: Option<Id>)
    requires LinksExist(a) && version.Some?
    ensures VersionExists(a, version) <==> version.value in a.tables
    ensures version.value in a.tables ==> VersionContent(a, version) == Some(ContentOf(a, version.value))
  {
  }

  lemma NoVersionContent(a: Db, b: Db)
    requires LinksExist(a) && LinksExist(b)
    ensures VersionExists(a, None) && VersionContent(a, None) == None
    ensures VersionExists(b, None) && VersionContent(b, None) == None
  {
  }

  lemma OneRevertedAsPlanned(a: Db, b: Db, head: Id, draft: Id, done: seq<Id>, plan: TablePlan)
    requires LinksExist(a) && Committable(a, head, draft) && RevertPlanFits(a, head, draft, plan)
    requires RevertProgress(a, b, done) && plan.identity !in done
    ensures LinksExist(b) && TableReverted(b, plan).Success?
    ensures |TableReverted(b, plan).value.tables| == 1
    ensures RevertedAsPlanned(a, TableReverted(b, plan).value.tables[0])
  {
    hide *;
    CommittableParts(a, head, draft);
    RevertProgressMeans(a, b, done);
    SourceIsKept(a, b, done, head, draft, plan);
    TableReverts(a, b, done, head, draft, plan);
    TableRevertedIs(b, plan);
    var one := TableWritten(b, plan.target).value;
    RevertProgressMeans(a, one.db, done + [plan.identity]);
    HeadAfterRewrite(a, one.db, head, draft, plan, done + [plan.identity]);
    TargetIdentity(a, head, draft, plan);
    WrittenContains(a, b, done, head, draft, plan);
    HeadVersionIsCommitted(a, head, draft, plan);
    CommittedVersionContent(a, one.db, done + [plan.identity], plan.head);
    SameVersionContentAs(one.db, one.version, TargetContentOf(a, plan.target));
    RewroteNextId(a, b, done);
    WrittenVersionIs(a, b, plan);
    if plan.relinkCandidate && plan.head.Some? && TargetContentOf(a, plan.target) == VersionContent(a, plan.head) {
      EqualContentFollows(one.db, one.version, plan.head);
    }
    if !plan.relinkCandidate {
      NoCandidateStays(one.db, one.version, plan.head);
    }
    RevertedAsPlannedOf(a, TableReverted(b, plan).value.tables[0]);
  }

  lemma NoCandidateStays(w: Db, candidate: Option<Id>, head: Option<Id>)
    requires LinksExist(w)
    ensures VersionToLink(w, false, candidate, head) == candidate
  {
  }

  lemma RewroteNextId(a: Db, b: Db, done: seq<Id>)
    requires Rewrote(a, b, done)
    ensures a.nextId <= b.nextId
  {
  }

  lemma RevertedAsPlannedOf(a: Db, table: RevertedTable)
    requires LinksExist(a) && Targetable(a, table.plan.target) && VersionExists(a, table.plan.head)
    requires
      table.plan.relinkCandidate && table.plan.head.Some?
      && TargetContentOf(a, table.plan.target) == VersionContent(a, table.plan.head) ==>
      table.written == table.plan.head
    requires !table.plan.relinkCandidate ==>
      match table.plan.target
      case Linked(version) => table.written == version
      case Mixed(source, editInPlace, _) =>
        table.written.Some? && if editInPlace then table.written.value == source else table.written.value !in a.tables
    ensures RevertedAsPlanned(a, table)
  {
    hide Targetable, VersionExists, TargetContentOf, VersionContent, LinksExist;
  }

  lemma {:induction false} AllRevertedAsPlanned(a: Db, head: Id, draft: Id, plans: seq<TablePlan>)
    requires RevertPlansFit(a, head, draft, plans)
    ensures LinksExist(a) && TablesReverted(a, plans).Success?
    ensures forall table | table in TablesReverted(a, plans).value.tables :: RevertedAsPlanned(a, table)
  {
    hide *;
    RevertPlansMean(a, head, draft, plans);
    CommittableParts(a, head, draft);
    TablesRevertedInSteps(a, plans);
    if plans != [] {
      var rest := plans[..|plans| - 1];
      FirstRevertPlans(a, head, draft, plans);
      AllPlansReverted(a, head, draft, rest);
      AllRevertedAsPlanned(a, head, draft, rest);
      var done := TablesReverted(a, rest).value;
      OneRevertedAsPlanned(a, done.db, head, draft, Identities(rest), plans[|plans| - 1]);
    }
  }

  // The links of the Draft after the revert, read off what was written for one plan.
  lemma DraftLinksWritten(db: Db, head: Id, draft: Id, plans: seq<TablePlan>, i: nat)
    requires RevertFits(db, head, draft, plans) && i < |plans|
    ensures LinksExist(db) && TablesReverted(db, plans).Success? && CanRelink(TablesReverted(db, plans).value, draft)
    ensures var reverted := TablesReverted(db, plans).value;
      var after := TargetReverted(reverted, head, draft);
      && i < |reverted.tables| && reverted.tables[i] in reverted.tables && reverted.tables[i].plan == plans[i]
      && after.tables == reverted.db.tables
      && forall t | t in reverted.db.tables && reverted.db.tables[t].createdId == plans[i].identity ::
           t in TablesOf(after, draft) <==> reverted.tables[i].written == Some(t)
  {
    hide *;
    RevertFitsMeans(db, head, draft, plans);
    RevertedWrite(db, head, draft, plans);
    var reverted := TablesReverted(db, plans).value;
    RevertProgressMeans(db, reverted.db, Identities(plans));
    RevertedPlans(db, reverted.db, plans, reverted.tables);
    RevertedStore(reverted, head, draft);
    DraftTablesAreDistinct(db, head, draft, plans, reverted);
    RelinkKeepsIdentities(reverted.db, TablesOf(db, draft), Replacements(reverted.tables), Identities(plans));
    ReplacementAt(reverted.tables, plans, i, TablesOf(db, draft));
  }

  lemma ReplacementAt(tables: seq<RevertedTable>, plans: seq<TablePlan>, i: nat, linked: set<Id>)
    requires |tables| == |plans| && i < |plans|
    ensures i < |Identities(plans)| && Identities(plans)[i] == plans[i].identity
    ensures i < |Replacements(tables)| && Replacements(tables)[i].version == tables[i].written
    ensures tables[i].written.Some? ==> tables[i].written.value in RelinkedTables(linked, Replacements(tables))
  {
    if tables[i].written.Some? {
      assert Replacements(tables)[i].version == Some(tables[i].written.value);
    }
  }

  lemma WrittenOfPlan(db: Db, head: Id, draft: Id, plans: seq<TablePlan>, i: nat)
    requires RevertFits(db, head, draft, plans) && i < |plans|
    ensures LinksExist(db) && TablesReverted(db, plans).Success?
    ensures var reverted := TablesReverted(db, plans).value;
      && LinksExist(reverted.db) && i < |reverted.tables|
      && RevertedAsPlanned(db, reverted.tables[i]) && RevertedAs(db, reverted.db, reverted.tables[i])
      && VersionOf(reverted.db, plans[i].head, plans[i].identity)
      && VersionExists(db, plans[i].head) && VersionExists(reverted.db, plans[i].head)
      && VersionContent(reverted.db, plans[i].head) == VersionContent(db, plans[i].head)
  {
    FitsAt(db, head, draft, plans, i);
    hide *;
    RevertFitsMeans(db, head, draft, plans);
    RevertPlansMean(db, head, draft, plans);
    CommittableParts(db, head, draft);
    RevertedWrite(db, head, draft, plans);
    AllPlansRevertedAs(db, head, draft, plans);
    AllRevertedAsPlanned(db, head, draft, plans);
    var reverted := TablesReverted(db, plans).value;
    RevertProgressMeans(db, reverted.db, Identities(plans));
    RevertedPlans(db, reverted.db, plans, reverted.tables);
    HeadVersionIsCommitted(db, head, draft, plans[i]);
    HeadAfterRewrite(db, reverted.db, head, draft, plans[i], Identities(plans));
    CommittedVersionContent(db, reverted.db, Identities(plans), plans[i].head);
    RevertedAsAt(db, reverted.db, reverted.tables, i);
    assert reverted.tables[i] in reverted.tables;
  }

  lemma FitsAt(db: Db, head: Id, draft: Id, plans: seq<TablePlan>, i: nat)
    requires RevertFits(db, head, draft, plans) && i < |plans|
    ensures RevertPlanFits(db, head, draft, plans[i])
  {
  }

  lemma RevertedAsAt(a: Db, b: Db, tables: seq<RevertedTable>, i: nat)
    requires LinksExist(a) && LinksExist(b) && AllRevertedAs(a, b, tables) && i < |tables|
    ensures RevertedAs(a, b, tables[i])
  {
  }

  lemma RevertedAsMeans(a: Db, b: Db, table: RevertedTable)
    requires LinksExist(a) && LinksExist(b) && RevertedAs(a, b, table)
    ensures Targetable(a, table.plan.target) && VersionOf(b, table.written, table.plan.identity)
    ensures VersionExists(b, table.written)
    ensures VersionContent(b, table.written) == TargetContentOf(a, table.plan.target)
  {
  }

  // A reverted table that may follow Head links Head's version exactly when the planned content is Head's; one that may
  // not links the version the plan names or edits, or a new one.
  lemma RevertLinksAsPlanned(db: Db, head: Id, draft: Id, plans: seq<TablePlan>, i: nat)
    requires RevertFits(db, head, draft, plans) && i < |plans|
    ensures LinksExist(db) && TablesReverted(db, plans).Success? && CanRelink(TablesReverted(db, plans).value, draft)
    ensures Targetable(db, plans[i].target) && VersionExists(db, plans[i].head)
    ensures var after, plan := TargetReverted(TablesReverted(db, plans).value, head, draft), plans[i];
      && (plan.relinkCandidate && plan.head.Some? ==>
            (plan.head.value in TablesOf(after, draft)
             <==> TargetContentOf(db, plan.target) == VersionContent(db, plan.head)))
      && (!plan.relinkCandidate ==>
            match plan.target
            case Linked(version) => version.Some? ==> version.value in TablesOf(after, draft)
            case Mixed(source, editInPlace, _) =>
              if editInPlace then source in TablesOf(after, draft) else LinksNew(db, after, draft, plan.identity))
  {
    hide TargetReverted, TablesReverted, CanRelink, RevertFits, TablesOf, LinksExist, RevertedAs, TargetContentOf,
      VersionContent, Targetable, LinksNew;
    DraftLinksWritten(db, head, draft, plans, i);
    WrittenOfPlan(db, head, draft, plans, i);
    var reverted := TablesReverted(db, plans).value;
    var table := reverted.tables[i];
    RevertedAsMeans(db, reverted.db, table);
    if !plans[i].relinkCandidate && table.written.Some? && table.written.value !in db.tables {
      LinksNewOf(db, TargetReverted(reverted, head, draft), draft, plans[i].identity, table.written.value);
    }
  }
}
