/** Committing a part of a Draft: each planned table gets a version in Head and one in the next Draft, all other
  * tables keep their links, and the revisions advance. */
module TargetCommit {
  import opened Wrappers
  import opened VersionStore
  import opened ContentDiff
  import opened VersionWriter
  import opened DraftFollowsHead
  import opened DraftWrites
  import opened Transition
  import opened TargetPlans

  datatype CommittedVersion = CommittedVersion(plan: TablePlan, head: Option<Id>, nextDraft: Option<Id>)

  datatype CommitError = WriteFailed(write: WriteError) | TransitionFailed(transition: TransitionError)

  datatype TargetPlan = TargetPlan(branch: Id, head: Id, draft: Id, tables: seq<TablePlan>)

  // ---- What the writes of one table promise ------------------------------------------------

  datatype Step = Step(db: Db, version: Option<Id>)

  function HeadTable(db: Db, plan: TablePlan): Result<Step, WriteError> {
    match plan.target
    case Mixed(source, _, changes) =>
      if source !in db.tables then
        Failure(TableVersionMissing(source))
      else if !CanCopy(db, source, changes) then
        Failure(ConstraintViolation)
      else
        Success(Step(LockedIntoHead(Copied(db, source, changes, true), db.nextId, plan.head), Some(db.nextId)))
    case Linked(version) =>
      if version.Some? && version != plan.head then
        Success(Step(LockedIntoHead(db, version.value, plan.head), version))
      else
        Success(Step(db, version))
  }

  function RenumberedChanges(rows: RenumberedRows): RowLinkChanges {
    RowLinkChanges(rows.replaced, [], rows.newRows)
  }

  function NextDraftTable(db: Db, plan: TablePlan, head: Option<Id>): Result<Step, WriteError>
    requires LinksExist(db)
  {
    if plan.renumbered.None? then
      Success(Step(db, VersionToLink(db, plan.relinkCandidate, plan.draft, head)))
    else if plan.draft.None? then
      Failure(NoVersionOn(plan.identity))
    else if plan.draft.value !in db.tables then
      Failure(TableVersionMissing(plan.draft.value))
    else
      var changes := RenumberedChanges(plan.renumbered.value);
      if !CanCopy(db, plan.draft.value, changes) then
        Failure(ConstraintViolation)
      else
        Success(Step(Copied(db, plan.draft.value, changes, false), Some(db.nextId)))
  }

  lemma StepsKeepLinks(db: Db, plan: TablePlan)
    requires LinksExist(db)
    ensures HeadTable(db, plan).Success? ==> LinksExist(HeadTable(db, plan).value.db)
    ensures forall head :: NextDraftTable(db, plan, head).Success? ==>
      LinksExist(NextDraftTable(db, plan, head).value.db)
  {
    if plan.target.Mixed? && CanCopy(db, plan.target.source, plan.target.changes) {
      CopyKeepsLinks(db, plan.target.source, plan.target.changes, true);
    }
    if plan.renumbered.Some? && plan.draft.Some?
       && CanCopy(db, plan.draft.value, RenumberedChanges(plan.renumbered.value)) {
      CopyKeepsLinks(db, plan.draft.value, RenumberedChanges(plan.renumbered.value), false);
    }
  }

  datatype WrittenTables = WrittenTables(db: Db, tables: seq<CommittedVersion>)

  function TableCommitted(db: Db, plan: TablePlan): (r: Result<WrittenTables, WriteError>)
    requires LinksExist(db)
    ensures r.Success? ==> LinksExist(r.value.db) && |r.value.tables| == 1
  {
    StepsKeepLinks(db, plan);
    match HeadTable(db, plan)
    case Failure(error) => Failure(error)
    case Success(head) =>
      StepsKeepLinks(head.db, plan);
      match NextDraftTable(head.db, plan, head.version)
      case Failure(error) => Failure(error)
      case Success(next) => Success(WrittenTables(next.db, [CommittedVersion(plan, head.version, next.version)]))
  }

  function TablesCommitted(db: Db, plans: seq<TablePlan>): (r: Result<WrittenTables, WriteError>)
    requires LinksExist(db)
    ensures r.Success? ==> LinksExist(r.value.db) && |r.value.tables| == |plans|
  {
    if plans == [] then
      Success(WrittenTables(db, []))
    else
      match TablesCommitted(db, plans[..|plans| - 1])
      case Failure(error) => Failure(error)
      case Success(done) =>
        match TableCommitted(done.db, plans[|plans| - 1])
        case Failure(error) => Failure(error)
        case Success(last) => Success(WrittenTables(last.db, done.tables + last.tables))
  }

  lemma {:induction false} FailureStays(db: Db, plans: seq<TablePlan>, n: nat)
    requires LinksExist(db) && n <= |plans| && TablesCommitted(db, plans[..n]).Failure?
    ensures TablesCommitted(db, plans).Failure?
       && TablesCommitted(db, plans).error == TablesCommitted(db, plans[..n]).error
  {
    if n < |plans| {
      assert plans[..|plans| - 1][..n] == plans[..n];
      FailureStays(db, plans[..|plans| - 1], n);
    } else {
      assert plans[..n] == plans;
    }
  }

  function HeadLinks(tables: seq<CommittedVersion>): seq<TableLinkReplacement> {
    seq(|tables|, i requires 0 <= i < |tables| => TableLinkReplacement(tables[i].plan.head, tables[i].head))
  }

  function NextDraftLinks(tables: seq<CommittedVersion>): seq<TableLinkReplacement> {
    seq(|tables|, i requires 0 <= i < |tables| => TableLinkReplacement(tables[i].plan.draft, tables[i].nextDraft))
  }

  function HeadTables(written: WrittenTables, head: Id): set<Id> {
    RelinkedTables(TablesOf(written.db, head), HeadLinks(written.tables))
  }

  function NextDraftTables(written: WrittenTables, draft: Id): set<Id> {
    RelinkedTables(TablesOf(written.db, draft), NextDraftLinks(written.tables))
  }

  predicate CanAdvanceWritten(written: WrittenTables, head: Id, draft: Id) {
    && head in written.db.revisions && draft in written.db.revisions
    && HeadTables(written, head) <= written.db.tables.Keys && NextDraftTables(written, draft) <= written.db.tables.Keys
  }

  function AdvancedTo(written: WrittenTables, head: Id, draft: Id): Db
    requires head in written.db.revisions && draft in written.db.revisions
  {
    Advance(written.db, head, draft, Some(HeadTables(written, head)), NextDraftTables(written, draft))
  }

  lemma AdvancedLinksExist(written: WrittenTables, head: Id, draft: Id)
    requires LinksExist(written.db) && CanAdvanceWritten(written, head, draft)
    ensures LinksExist(AdvancedTo(written, head, draft))
  {
  }

  function TargetCommitted(written: WrittenTables, head: Id, draft: Id): Db
    requires LinksExist(written.db) && CanAdvanceWritten(written, head, draft)
  {
    AdvancedLinksExist(written, head, draft);
    var advanced := AdvancedTo(written, head, draft);
    WithFlag(advanced, written.db.nextId, HasTableDiffs(advanced, draft, written.db.nextId))
  }

  // The handler opens the next Draft on the branch its plan names.
  function TargetCommittedOn(written: WrittenTables, branch: Id, head: Id, draft: Id): Db
    requires LinksExist(written.db) && CanAdvanceWritten(written, head, draft)
  {
    var promoted := DraftPromoted(HeadRetired(written.db, head), draft, Some(HeadTables(written, head)));
    var advanced := NextDraftOpened(promoted, branch, draft, NextDraftTables(written, draft));
    OpenedLinksExist(written, branch, head, draft);
    WithFlag(advanced, written.db.nextId, HasTableDiffs(advanced, draft, written.db.nextId))
  }

  lemma OpenedLinksExist(written: WrittenTables, branch: Id, head: Id, draft: Id)
    requires LinksExist(written.db) && CanAdvanceWritten(written, head, draft)
    ensures var promoted := DraftPromoted(HeadRetired(written.db, head), draft, Some(HeadTables(written, head)));
      LinksExist(NextDraftOpened(promoted, branch, draft, NextDraftTables(written, draft)))
  {
  }

  // On the Draft's own branch that is the transition.
  lemma NextDraftStaysOnBranch(written: WrittenTables, head: Id, draft: Id)
    requires LinksExist(written.db) && CanAdvanceWritten(written, head, draft)
    ensures TargetCommittedOn(written, written.db.revisions[draft].branch, head, draft)
         == TargetCommitted(written, head, draft)
  {
    hide HeadTables, NextDraftTables, HasTableDiffs;
    AdvancedLinksExist(written, head, draft);
    OpenedLinksExist(written, written.db.revisions[draft].branch, head, draft);
  }

  // ---- The handler -------------------------------------------------------------------------

  class DraftRevisionCommitToTargetHandler {
    const transaction: Transaction
    const versionWriter: AssembledVersionWriter
    const transition: CommitTransition

    constructor (transaction: Transaction, versionWriter: AssembledVersionWriter, transition: CommitTransition)
      ensures this.transaction == transaction && this.versionWriter == versionWriter && this.transition == transition
    {
      this.transaction := transaction;
      this.versionWriter := versionWriter;
      this.transition := transition;
    }

    predicate Wired() {
      versionWriter.transaction == transaction && transition.transaction == transaction
    }

    method WriteHeadTable(plan: TablePlan) returns (r: Result<Option<Id>, WriteError>)
      requires Wired()
      modifies transaction
      ensures var expected := HeadTable(old(transaction.db), plan);
        && (r.Success? <==> expected.Success?)
        && (r.Success? ==> transaction.db == expected.value.db && r.value == expected.value.version)
    {
      match plan.target
      case Mixed(source, _, changes) =>
        var written := versionWriter.CreateReadonlyTableVersion(source, changes);
        if written.Failure? {
          return Failure(written.error);
        }
        versionWriter.LockLinkedIntoHead(written.value.versionId, plan.head);
        r := Success(Some(written.value.versionId));
      case Linked(version) =>
        if version.Some? && version != plan.head {
          versionWriter.LockLinkedIntoHead(version.value, plan.head);
        }
        r := Success(version);
    }

    method WriteNextDraftTable(plan: TablePlan, head: Option<Id>) returns (r: Result<Option<Id>, WriteError>)
      requires Wired() && LinksExist(transaction.db)
      modifies transaction
      ensures var expected := NextDraftTable(old(transaction.db), plan, head);
        && (r.Success? <==> expected.Success?)
        && (r.Success? ==> transaction.db == expected.value.db && r.value == expected.value.version)
    {
      if plan.renumbered.Some? {
        if plan.draft.None? {
          return Failure(NoVersionOn(plan.identity));
        }
        var rows := plan.renumbered.value;
        var written := versionWriter.CreateTableVersion(plan.draft.value,
                                                        RowLinkChanges(rows.replaced, [], rows.newRows));
        if written.Failure? {
          return Failure(written.error);
        }
        return Success(Some(written.value.versionId));
      }
      r := Success(VersionToLink(transaction.db, plan.relinkCandidate, plan.draft, head));
    }

    method CommitTables(plans: seq<TablePlan>) returns (r: Result<seq<CommittedVersion>, WriteError>)
      requires Wired() && LinksExist(transaction.db)
      modifies transaction
      ensures var expected := TablesCommitted(old(transaction.db), plans);
        && (r.Success? <==> expected.Success?)
        && (r.Success? ==> WrittenTables(transaction.db, r.value) == expected.value)
    {
      ghost var db := transaction.db;
      var tables: seq<CommittedVersion> := [];
      for i := 0 to |plans|
        invariant TablesCommitted(db, plans[..i]) == Success(WrittenTables(transaction.db, tables))
        invariant LinksExist(transaction.db)
      {
        assert plans[..i + 1][..i] == plans[..i];
        StepsKeepLinks(transaction.db, plans[i]);
        var head := WriteHeadTable(plans[i]);
        if head.Failure? {
          FailureStays(db, plans, i + 1);
          return Failure(head.error);
        }
        StepsKeepLinks(transaction.db, plans[i]);
        var next := WriteNextDraftTable(plans[i], head.value);
        if next.Failure? {
          FailureStays(db, plans, i + 1);
          return Failure(next.error);
        }
        tables := tables + [CommittedVersion(plans[i], head.value, next.value)];
      }
      assert plans[..|plans|] == plans;
      r := Success(tables);
    }

    method Execute(plan: TargetPlan) returns (r: Result<Id, CommitError>)
      requires Wired() && LinksExist(transaction.db)
      modifies transaction
      ensures var written := TablesCommitted(old(transaction.db), plan.tables);
        && (r.Success? ==>
              && written.Success? && CanAdvanceWritten(written.value, plan.head, plan.draft)
              && transaction.db == TargetCommittedOn(written.value, plan.branch, plan.head, plan.draft)
              && r.value == written.value.db.nextId)
        && (r.Failure? && r.error.WriteFailed? ==> written.Failure?)
        && (r.Failure? && r.error.TransitionFailed? ==>
              written.Success? && !CanAdvanceWritten(written.value, plan.head, plan.draft))
    {
      var tables := CommitTables(plan.tables);
      if tables.Failure? {
        return Failure(WriteFailed(tables.error));
      }
      ghost var written := WrittenTables(transaction.db, tables.value);
      var headTables := transition.RelinkedTablesOf(plan.head, HeadLinks(tables.value));
      var nextDraftTables := transition.RelinkedTablesOf(plan.draft, NextDraftLinks(tables.value));
      var retired := transition.RetireHead(plan.head);
      if retired.Failure? {
        return Failure(TransitionFailed(retired.error));
      }
      var promoted := transition.PromoteDraftToHead(plan.draft, Some(headTables));
      if promoted.Failure? {
        return Failure(TransitionFailed(promoted.error));
      }
      var next := transition.OpenNextDraft(plan.branch, plan.draft, nextDraftTables);
      if next.Failure? {
        return Failure(TransitionFailed(next.error));
      }
      OpenedLinksExist(written, plan.branch, plan.head, plan.draft);
      var hasChanges := HasTableDiffs(transaction.db, plan.draft, next.value);
      transaction.db := WithFlag(transaction.db, next.value, hasChanges);
      r := Success(next.value);
    }
  }
}
