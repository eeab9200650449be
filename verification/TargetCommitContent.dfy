/** What a partial commit means for content: the new Head contains what was planned, the next Draft what the Draft
  * contained, with its rows renumbered; it reports changes exactly when that differs from the new Head, a table was
  * renumbered, or a table kept its own version although Head has the same content. */
module TargetCommitContent {
  import opened Wrappers
  import opened VersionStore
  import opened StoreShape
  import opened ContentDiff
  import opened VersionWriter
  import opened DraftFollowsHead
  import opened DraftWrites
  import opened DraftWriteEffects
  import opened Transition
  import opened TargetPlans
  import opened TargetCommit
  import opened TargetCommitProperties
  import opened TargetContent

  // ---- Growth changes no content -----------------------------------------------------------

  lemma SameContent(a: Db, b: Db, t: Id)
    requires LinksExist(a) && LinksExist(b) && Grew(a, b) && t in a.tables
    ensures t in b.tables && ContentOf(b, t) == ContentOf(a, t)
  {
  }

  lemma SameVersionToLink(a: Db, b: Db, relinkCandidate: bool, candidate: Option<Id>, head: Option<Id>)
    requires LinksExist(a) && RowIdentities(a) && LinksExist(b) && RowIdentities(b) && Grew(a, b)
    requires candidate.Some? ==> candidate.value in a.tables
    requires head.Some? ==> head.value in a.tables
    ensures VersionToLink(b, relinkCandidate, candidate, head) == VersionToLink(a, relinkCandidate, candidate, head)
  {
    if candidate.Some? && head.Some? {
      SameContent(a, b, candidate.value);
      SameContent(a, b, head.value);
      ContentDiffIsExact(a, head.value, candidate.value);
      ContentDiffIsExact(b, head.value, candidate.value);
    }
  }

  lemma SameHasContent(b: Db, c: Db, version: Option<Id>, content: Option<TableContent>)
    requires LinksExist(b) && LinksExist(c) && Grew(b, c) && HasContent(b, version, content)
    ensures HasContent(c, version, content)
  {
    if version.Some? {
      SameContent(b, c, version.value);
    }
  }

  lemma SameChangedContent(a: Db, b: Db, source: Id, changes: RowLinkChanges)
    requires Grew(a, b) && CanChange(a, source, changes)
    ensures CanChange(b, source, changes) && ChangedContent(b, source, changes) == ChangedContent(a, source, changes)
  {
    SameRowsAfterGrowth(a, b, source);
    hide RowsOf, ChangedRows;
  }

  lemma SameVersionContent(a: Db, b: Db, version: Option<Id>)
    requires LinksExist(a) && LinksExist(b) && Grew(a, b) && VersionExists(a, version)
    ensures HasContent(b, version, VersionContent(a, version))
  {
    if version.Some? {
      SameContent(a, b, version.value);
    }
  }

  // ---- Every planned table gets its planned content ----------------------------------------

  lemma HeadTableContains(a: Db, b: Db, head: Id, draft: Id, plan: TablePlan)
    requires LinksExist(a) && Progress(a, b) && CommitPlanFits(a, head, draft, plan) && Plannable(a, plan)
    requires HeadTable(b, plan).Success? && Progress(a, HeadTable(b, plan).value.db)
    ensures LinksExist(HeadTable(b, plan).value.db)
    ensures HasContent(HeadTable(b, plan).value.db, HeadTable(b, plan).value.version, TargetContentOf(a, plan.target))
  {
    ProgressMeans(a, b);
    var one := HeadTable(b, plan).value;
    ProgressMeans(a, one.db);
    match plan.target {
      case Mixed(source, _, changes) =>
        assert CanCopy(a, source, changes) && CanCopy(b, source, changes);
        assert one == Step(LockedIntoHead(Copied(b, source, changes, true), b.nextId, plan.head), Some(b.nextId));
        assert CanChange(a, source, changes)
           && TargetContentOf(a, plan.target) == Some(ChangedContent(a, source, changes));
        hide *;
        CopiedHeadContains(a, b, source, changes, plan.head);
      case Linked(version) =>
        assert VersionExists(a, version) && TargetContentOf(a, plan.target) == VersionContent(a, version);
        assert one.version == version;
        hide *;
        SameVersionContent(a, one.db, version);
    }
  }

  lemma CopiedHeadContains(a: Db, b: Db, source: Id, changes: RowLinkChanges, head: Option<Id>)
    requires LinksExist(a) && Safe(b) && LinksExist(b) && Grew(a, b) && CanCopy(b, source, changes)
    requires source in b.tables && CanChange(a, source, changes)
    ensures var after := LockedIntoHead(Copied(b, source, changes, true), b.nextId, head);
      LinksExist(after) ==> HasContent(after, Some(b.nextId), Some(ChangedContent(a, source, changes)))
  {
    var copied := Copied(b, source, changes, true);
    var after := LockedIntoHead(copied, b.nextId, head);
    hide *;
    CopyKeepsLinks(b, source, changes, true);
    SameChangedContent(a, b, source, changes);
    CopiedContent(b, source, changes, true);
    LockGrows(copied, b.nextId, head);
    if LinksExist(after) {
      SameHasContent(copied, after, Some(b.nextId), Some(ChangedContent(a, source, changes)));
    }
  }

  lemma RenumberedContains(a: Db, b: Db, plan: TablePlan, head: Option<Id>)
    requires LinksExist(a) && Progress(a, b) && Plannable(a, plan) && LinksExist(b)
    requires plan.renumbered.Some? && plan.draft.Some? && VersionExists(b, head)
    requires NextDraftTable(b, plan, head).Success?
    ensures LinksExist(NextDraftTable(b, plan, head).value.db)
    ensures HasContent(NextDraftTable(b, plan, head).value.db, NextDraftTable(b, plan, head).value.version,
                       NextContentOf(a, plan))
    ensures NextDraftTable(b, plan, head).value.version != head
  {
    var source, changes := plan.draft.value, RenumberedChanges(plan.renumbered.value);
    ProgressMeans(a, b);
    assert NextDraftTable(b, plan, head) == Success(Step(Copied(b, source, changes, false), Some(b.nextId)));
    assert CanCopy(b, source, changes) && NextContentOf(a, plan) == Some(ChangedContent(a, source, changes));
    assert CanChange(a, source, changes);
    assert head != Some(b.nextId);
    hide *;
    CopyKeepsLinks(b, source, changes, false);
    SameChangedContent(a, b, source, changes);
    CopiedContent(b, source, changes, false);
  }

  lemma FollowedContains(a: Db, b: Db, plan: TablePlan, head: Option<Id>)
    requires LinksExist(a) && LinksExist(b) && RowIdentities(b) && Grew(a, b) && Plannable(a, plan)
    requires plan.renumbered.None? && VersionOf(b, head, plan.identity) && VersionOf(a, plan.draft, plan.identity)
    ensures NextDraftTable(b, plan, head).Success?
    ensures LinksExist(NextDraftTable(b, plan, head).value.db)
    ensures NextDraftTable(b, plan, head).value.version == VersionToLink(b, plan.relinkCandidate, plan.draft, head)
    ensures NextDraftTable(b, plan, head).value.db == b
    ensures HasContent(b, NextDraftTable(b, plan, head).value.version, NextContentOf(a, plan))
  {
    SameVersionContent(a, b, plan.draft);
    VersionAfterGrowth(a, b, plan.draft, plan.identity);
    hide HasContent, VersionContent, VersionToLink, RowIdentities, LinksExist, Grew, VersionOf;
    LinkedContent(b, plan.relinkCandidate, plan.draft, head, plan.identity, VersionContent(a, plan.draft));
  }

  // A written table has the planned content in Head and in the next Draft, where it follows Head unless renumbered.
  ghost predicate WrittenAs(a: Db, b: Db, table: CommittedVersion)
    requires LinksExist(a) && LinksExist(b)
  {
    var plan := table.plan;
    && Plannable(a, plan) && VersionExists(b, plan.draft)
    && HasContent(b, table.head, TargetContentOf(a, plan.target))
       && HasContent(b, table.nextDraft, NextContentOf(a, plan))
    && (if plan.renumbered.Some? then table.nextDraft != table.head
        else table.nextDraft == VersionToLink(b, plan.relinkCandidate, plan.draft, table.head))
  }

  lemma WrittenAsAfterGrowth(a: Db, b: Db, c: Db, table: CommittedVersion)
    requires LinksExist(a) && LinksExist(b) && RowIdentities(b) && LinksExist(c) && RowIdentities(c) && Grew(b, c)
    requires WrittenAs(a, b, table)
    ensures WrittenAs(a, c, table)
  {
    var plan := table.plan;
    assert VersionExists(c, plan.draft);
    assert table.head.Some? ==> table.head.value in b.tables;
    hide LinksExist, RowIdentities, Grew, HasContent, VersionToLink, TargetContentOf, NextContentOf, Plannable;
    SameHasContent(b, c, table.head, TargetContentOf(a, plan.target));
    SameHasContent(b, c, table.nextDraft, NextContentOf(a, plan));
    SameVersionToLink(b, c, plan.relinkCandidate, plan.draft, table.head);
  }

  lemma PlanMeans(a: Db, b: Db, head: Id, draft: Id, plan: TablePlan)
    requires CommitPlanFits(a, head, draft, plan) && Grew(a, b)
    ensures Plannable(a, plan) && VersionOf(a, plan.draft, plan.identity) && VersionExists(b, plan.draft)
    ensures plan.renumbered.Some? ==> plan.draft.Some?
  {
    FittingPlanIsPlannable(a, head, draft, plan);
  }

  lemma HeadVersionExists(b: Db, plan: TablePlan, version: Option<Id>)
    requires InHead(b, plan, version)
    ensures VersionExists(b, version) && VersionOf(b, version, plan.identity)
  {
  }

  lemma OneMoreContains(a: Db, b: Db, head: Id, draft: Id, plan: TablePlan)
    requires LinksExist(a) && Committable(a, head, draft) && CommitPlanFits(a, head, draft, plan) && Progress(a, b)
    ensures LinksExist(b) && TableCommitted(b, plan).Success?
    ensures var written := TableCommitted(b, plan).value;
      && LinksExist(written.db) && RowIdentities(written.db) && Grew(b, written.db)
      && |written.tables| == 1 && WrittenAs(a, written.db, written.tables[0])
  {
    hide *;
    ProgressMeans(a, b);
    PlanMeans(a, b, head, draft, plan);
    HeadTableWritten(a, b, head, draft, plan);
    HeadTableGrows(b, plan);
    var one := HeadTable(b, plan).value;
    ProgressMeans(a, one.db);
    PlanMeans(a, one.db, head, draft, plan);
    HeadVersionExists(one.db, plan, one.version);
    HeadTableContains(a, b, head, draft, plan);
    NextDraftTableWritten(a, one.db, head, draft, plan, one.version);
    var two := NextDraftTable(one.db, plan, one.version).value;
    ProgressMeans(a, two.db);
    PlanMeans(a, two.db, head, draft, plan);
    GrewIsTransitive(b, one.db, two.db);
    TableCommittedInSteps(b, plan);
    SameHasContent(one.db, two.db, one.version, TargetContentOf(a, plan.target));
    if plan.renumbered.Some? {
      RenumberedContains(a, one.db, plan, one.version);
    } else {
      FollowedContains(a, one.db, plan, one.version);
    }
    WrittenAsOf(a, two.db, CommittedVersion(plan, one.version, two.version));
  }

  lemma WrittenAsOf(a: Db, b: Db, table: CommittedVersion)
    requires LinksExist(a) && LinksExist(b) && Plannable(a, table.plan) && VersionExists(b, table.plan.draft)
    requires HasContent(b, table.head, TargetContentOf(a, table.plan.target))
    requires HasContent(b, table.nextDraft, NextContentOf(a, table.plan))
    requires table.plan.renumbered.Some? ==> table.nextDraft != table.head
    requires table.plan.renumbered.None? ==>
      table.nextDraft == VersionToLink(b, table.plan.relinkCandidate, table.plan.draft, table.head)
    ensures WrittenAs(a, b, table)
  {
  }

  ghost predicate AllWrittenAs(a: Db, b: Db, tables: seq<CommittedVersion>)
    requires LinksExist(a) && LinksExist(b)
  {
    forall i | 0 <= i < |tables| :: WrittenAs(a, b, tables[i])
  }

  lemma AllWrittenAsAppend(a: Db, b: Db, c: Db, first: seq<CommittedVersion>, second: seq<CommittedVersion>)
    requires LinksExist(a) && LinksExist(b) && RowIdentities(b) && LinksExist(c) && RowIdentities(c) && Grew(b, c)
    requires AllWrittenAs(a, b, first) && |second| == 1 && WrittenAs(a, c, second[0])
    ensures AllWrittenAs(a, c, first + second)
  {
    hide WrittenAs, RowIdentities, LinksExist, Grew;
    forall i | 0 <= i < |first|
      ensures WrittenAs(a, c, first[i])
    {
      WrittenAsAfterGrowth(a, b, c, first[i]);
    }
  }

  lemma FirstAndLast(head: Id, draft: Id, db: Db, plans: seq<TablePlan>)
    requires plans != [] && CommitPlansFit(db, head, draft, plans)
    ensures CommitPlansFit(db, head, draft, plans[..|plans| - 1])
    ensures Committable(db, head, draft) && CommitPlanFits(db, head, draft, plans[|plans| - 1])
  {
  }

  lemma {:induction false} AllPlansContain(a: Db, head: Id, draft: Id, plans: seq<TablePlan>)
    requires LinksExist(a) && CommitPlansFit(a, head, draft, plans)
    ensures TablesCommitted(a, plans).Success?
    ensures AllWrittenAs(a, TablesCommitted(a, plans).value.db, TablesCommitted(a, plans).value.tables)
  {
    AllPlansWritten(a, head, draft, plans);
    if plans != [] {
      var rest, plan := plans[..|plans| - 1], plans[|plans| - 1];
      hide *;
      FirstAndLast(head, draft, a, plans);
      AllPlansContain(a, head, draft, rest);
      AllPlansWritten(a, head, draft, rest);
      var done := TablesCommitted(a, rest).value;
      ProgressMeans(a, done.db);
      OneMoreContains(a, done.db, head, draft, plan);
      var last := TableCommitted(done.db, plan).value;
      TablesCommittedInSteps(a, plans);
      AllWrittenAsAppend(a, done.db, last.db, done.tables, last.tables);
    }
  }

  // ---- The links, seen as a Draft that follows Head ----------------------------------------

  ghost predicate Follows(b: Db, tables: seq<CommittedVersion>)
    requires LinksExist(b)
  {
    forall i | 0 <= i < |tables| ::
      tables[i].nextDraft == VersionToLink(b, tables[i].plan.relinkCandidate, tables[i].plan.draft, tables[i].head)
  }

  ghost function Candidates(plans: seq<TablePlan>): set<Id> {
    set i | 0 <= i < |plans| && plans[i].relinkCandidate :: plans[i].identity
  }

  lemma CandidateOfPlan(plans: seq<TablePlan>, i: nat)
    requires i < |plans| && Distinct(Identities(plans))
    ensures plans[i].identity in Candidates(plans) <==> plans[i].relinkCandidate
  {
    if plans[i].identity in Candidates(plans) {
      var j :| 0 <= j < |plans| && plans[j].relinkCandidate && plans[j].identity == plans[i].identity;
      assert Identities(plans)[i] == Identities(plans)[j];
    }
  }

  lemma FollowedOfPlanned(w: Db, parents: set<Id>, linked: set<Id>, plans: seq<TablePlan>,
                          heads: seq<Option<Id>>, headLinks: set<Id>, i: nat, t: Id)
    requires LinksExist(w) && headLinks <= w.tables.Keys && Relinked(w, headLinks, parents, plans, heads)
    requires Distinct(Identities(plans)) && i < |plans| && t in w.tables && w.tables[t].createdId == plans[i].identity
    ensures Followed(w, parents, Candidates(plans), t)
         == VersionToLink(w, plans[i].relinkCandidate, Some(t), heads[i]).value
  {
    CandidateOfPlan(plans, i);
    assert heads[i].Some? ==> heads[i].value in parents;
    assert heads[i].Some? ==> HasVersionIn(w, t, parents);
    assert HeadVersionOf(w, parents, t) == heads[i];
  }

  // The next Draft links, for each table of the Draft, the version that following Head gives.
  lemma NextDraftIsFollowed(w: Db, parents: set<Id>, headLinks: set<Id>, linked: set<Id>, next: set<Id>,
                            plans: seq<TablePlan>, tables: seq<CommittedVersion>,
                            heads: seq<Option<Id>>, nexts: seq<Option<Id>>)
    requires LinksExist(w) && headLinks <= w.tables.Keys && linked <= w.tables.Keys
    requires Relinked(w, headLinks, parents, plans, heads) && Relinked(w, linked, next, plans, nexts)
    requires Distinct(Identities(plans)) && |tables| == |plans| && Follows(w, tables)
    requires forall i | 0 <= i < |plans| ::
      tables[i].plan == plans[i] && tables[i].head == heads[i] && tables[i].nextDraft == nexts[i]
    requires forall i, t | 0 <= i < |plans| && t in linked ::
      w.tables[t].createdId == plans[i].identity <==> plans[i].draft == Some(t)
    requires forall i | 0 <= i < |plans| && plans[i].draft.Some? :: plans[i].draft.value in linked
    ensures next == FollowedTables(w, parents, Candidates(plans), linked)
  {
    var followed := FollowedTables(w, parents, Candidates(plans), linked);
    forall t | t in linked
      ensures Followed(w, parents, Candidates(plans), t) in next
    {
      FollowedIsNext(w, parents, headLinks, linked, next, plans, tables, heads, nexts, t);
    }
    forall t | t in next
      ensures t in followed
    {
      if w.tables[t].createdId in Identities(plans) {
        var i := PlanOf(plans, w.tables[t].createdId);
        assert nexts[i] == Some(t);
        var u := plans[i].draft.value;
        FollowedOfPlanned(w, parents, linked, plans, heads, headLinks, i, u);
        assert t == Followed(w, parents, Candidates(plans), u);
      } else {
        assert t in linked;
        UnplannedStays(w, parents, plans, t);
        assert t == Followed(w, parents, Candidates(plans), t);
      }
    }
  }

  lemma UnplannedStays(w: Db, parents: set<Id>, plans: seq<TablePlan>, t: Id)
    requires LinksExist(w) && parents <= w.tables.Keys && t in w.tables && w.tables[t].createdId !in Identities(plans)
    ensures Followed(w, parents, Candidates(plans), t) == t
  {
    assert forall i | 0 <= i < |plans| :: Identities(plans)[i] == plans[i].identity;
  }

  lemma FollowedIsNext(w: Db, parents: set<Id>, headLinks: set<Id>, linked: set<Id>, next: set<Id>,
                       plans: seq<TablePlan>, tables: seq<CommittedVersion>,
                       heads: seq<Option<Id>>, nexts: seq<Option<Id>>, t: Id)
    requires LinksExist(w) && headLinks <= w.tables.Keys && linked <= w.tables.Keys
    requires Relinked(w, headLinks, parents, plans, heads) && Relinked(w, linked, next, plans, nexts)
    requires Distinct(Identities(plans)) && |tables| == |plans| && Follows(w, tables)
    requires forall i | 0 <= i < |plans| ::
      tables[i].plan == plans[i] && tables[i].head == heads[i] && tables[i].nextDraft == nexts[i]
    requires forall i, t | 0 <= i < |plans| && t in linked ::
      w.tables[t].createdId == plans[i].identity <==> plans[i].draft == Some(t)
    requires t in linked
    ensures Followed(w, parents, Candidates(plans), t) in next
  {
  }

  // ---- End to end --------------------------------------------------------------------------

  function HeadVersions(tables: seq<CommittedVersion>): seq<Option<Id>> {
    seq(|tables|, i requires 0 <= i < |tables| => tables[i].head)
  }

  function NextVersions(tables: seq<CommittedVersion>): seq<Option<Id>> {
    seq(|tables|, i requires 0 <= i < |tables| => tables[i].nextDraft)
  }

  lemma DraftNamesItsVersions(a: Db, w: Db, head: Id, draft: Id, plans: seq<TablePlan>)
    requires CommitPlansFit(a, head, draft, plans) && LinksExist(a) && NameVersions(a, head, draft, plans) && Grew(a, w)
    ensures TablesOf(a, draft) <= w.tables.Keys
    ensures forall i, t | 0 <= i < |plans| && t in TablesOf(a, draft) ::
      w.tables[t].createdId == plans[i].identity <==> plans[i].draft == Some(t)
    ensures forall i | 0 <= i < |plans| && plans[i].draft.Some? :: plans[i].draft.value in TablesOf(a, draft)
  {
    TablesExist(a, draft);
    hide LinksExist, Committable, TargetFits, RenumberingFits;
    forall i, t | 0 <= i < |plans| && t in TablesOf(a, draft)
      ensures w.tables[t].createdId == plans[i].identity <==> plans[i].draft == Some(t)
    {
      assert NamesVersion(a, draft, plans[i].identity, plans[i].draft);
    }
    forall i | 0 <= i < |plans| && plans[i].draft.Some?
      ensures plans[i].draft.value in TablesOf(a, draft)
    {
      assert CommitPlanFits(a, head, draft, plans[i]);
    }
  }

  predicate NothingRenumbered(plans: seq<TablePlan>) {
    forall i | 0 <= i < |plans| :: plans[i].renumbered.None?
  }

  lemma WrittenTablesFollow(a: Db, b: Db, plans: seq<TablePlan>, tables: seq<CommittedVersion>)
    requires LinksExist(a) && LinksExist(b) && AllWrittenAs(a, b, tables) && NothingRenumbered(plans)
    requires |tables| == |plans| && forall i | 0 <= i < |plans| :: tables[i].plan == plans[i]
    ensures Follows(b, tables)
  {
    forall i | 0 <= i < |tables|
      ensures tables[i].nextDraft
           == VersionToLink(b, tables[i].plan.relinkCandidate, tables[i].plan.draft, tables[i].head)
    {
      assert WrittenAs(a, b, tables[i]);
    }
  }

  // All that is known of the written tables and of the links of the new Head and the next Draft.
  ghost predicate CommitRelinks(a: Db, head: Id, draft: Id, plans: seq<TablePlan>, written: WrittenTables)
    requires LinksExist(a)
  {
    var w, tables := written.db, written.tables;
    && LinksExist(w) && RowIdentities(w) && Grew(a, w)
    && |tables| == |plans| && (forall i | 0 <= i < |plans| :: tables[i].plan == plans[i]) && AllWrittenAs(a, w, tables)
    && TablesOf(a, head) <= w.tables.Keys && TablesOf(a, draft) <= w.tables.Keys
    && DistinctIdentities(w, TablesOf(a, head)) && DistinctIdentities(w, TablesOf(a, draft))
    && Relinked(w, TablesOf(a, head), HeadTables(written, head), plans, HeadVersions(tables))
    && Relinked(w, TablesOf(a, draft), NextDraftTables(written, draft), plans, NextVersions(tables))
  }

  lemma CommitRelinksAll(a: Db, head: Id, draft: Id, plans: seq<TablePlan>)
    requires CommitFits(a, head, draft, plans)
    ensures LinksExist(a) && TablesCommitted(a, plans).Success?
    ensures CommitRelinks(a, head, draft, plans, TablesCommitted(a, plans).value)
  {
    hide *;
    CommitFitsMeans(a, head, draft, plans);
    AllPlansWritten(a, head, draft, plans);
    AllPlansContain(a, head, draft, plans);
    var written := TablesCommitted(a, plans).value;
    ProgressMeans(a, written.db);
    LinksStayOnIdentities(a, head, draft, plans, written);
    WrittenLinks(a, head, draft, plans, written);
    RelinkedBy(written.db, TablesOf(a, head), HeadLinks(written.tables), plans, HeadVersions(written.tables));
    RelinkedBy(written.db, TablesOf(a, draft), NextDraftLinks(written.tables), plans, NextVersions(written.tables));
    CommitRelinksOf(a, head, draft, plans, written);
  }

  lemma CommitRelinksOf(a: Db, head: Id, draft: Id, plans: seq<TablePlan>, written: WrittenTables)
    requires LinksExist(a) && LinksExist(written.db) && RowIdentities(written.db) && Grew(a, written.db)
    requires AllWritten(a, written.db, plans, written.tables) && AllWrittenAs(a, written.db, written.tables)
    requires TablesOf(a, head) <= written.db.tables.Keys && TablesOf(a, draft) <= written.db.tables.Keys
    requires DistinctIdentities(written.db, TablesOf(a, head)) && DistinctIdentities(written.db, TablesOf(a, draft))
    requires Relinked(written.db, TablesOf(a, head), HeadTables(written, head), plans, HeadVersions(written.tables))
    requires Relinked(written.db, TablesOf(a, draft), NextDraftTables(written, draft), plans,
                      NextVersions(written.tables))
    ensures CommitRelinks(a, head, draft, plans, written)
  {
    hide LinksExist, RowIdentities, Grew, AllWrittenAs, DistinctIdentities, Relinked, TablesOf, HeadTables,
        NextDraftTables;
  }

  lemma CommitLinksFollow(a: Db, head: Id, draft: Id, plans: seq<TablePlan>, written: WrittenTables)
    requires CommitPlansFit(a, head, draft, plans) && LinksExist(a) && NameVersions(a, head, draft, plans)
    requires Distinct(Identities(plans)) && NothingRenumbered(plans) && CommitRelinks(a, head, draft, plans, written)
    ensures LinksExist(written.db) && HeadTables(written, head) <= written.db.tables.Keys
    ensures NextDraftTables(written, draft)
         == FollowedTables(written.db, HeadTables(written, head), Candidates(plans), TablesOf(a, draft))
  {
    CommitRelinksMean(a, head, draft, plans, written);
    var tables := written.tables;
    assert forall i | 0 <= i < |plans| ::
      tables[i].plan == plans[i] && tables[i].head == HeadVersions(tables)[i]
         && tables[i].nextDraft == NextVersions(tables)[i];
    hide *;
    WrittenTablesFollow(a, written.db, plans, written.tables);
    DraftNamesItsVersions(a, written.db, head, draft, plans);
    RelinkedExist(written.db, TablesOf(a, head), HeadTables(written, head), plans, HeadVersions(written.tables));
    NextDraftIsFollowed(written.db, HeadTables(written, head), TablesOf(a, head), TablesOf(a, draft),
                        NextDraftTables(written, draft), plans, written.tables,
                        HeadVersions(written.tables), NextVersions(written.tables));
  }

  lemma CommitRelinksMean(a: Db, head: Id, draft: Id, plans: seq<TablePlan>, written: WrittenTables)
    requires LinksExist(a) && CommitRelinks(a, head, draft, plans, written)
    ensures LinksExist(written.db) && RowIdentities(written.db) && Grew(a, written.db)
    ensures |written.tables| == |plans| && forall i | 0 <= i < |plans| :: written.tables[i].plan == plans[i]
    ensures AllWrittenAs(a, written.db, written.tables)
    ensures TablesOf(a, head) <= written.db.tables.Keys && TablesOf(a, draft) <= written.db.tables.Keys
    ensures DistinctIdentities(written.db, TablesOf(a, head)) && DistinctIdentities(written.db, TablesOf(a, draft))
    ensures Relinked(written.db, TablesOf(a, head), HeadTables(written, head), plans, HeadVersions(written.tables))
    ensures Relinked(written.db, TablesOf(a, draft), NextDraftTables(written, draft), plans,
                     NextVersions(written.tables))
  {
  }

  lemma WrittenLinks(a: Db, head: Id, draft: Id, plans: seq<TablePlan>, written: WrittenTables)
    requires AllWritten(a, written.db, plans, written.tables)
    requires TablesOf(written.db, head) == TablesOf(a, head) && TablesOf(written.db, draft) == TablesOf(a, draft)
    ensures HeadTables(written, head) == RelinkedTables(TablesOf(a, head), HeadLinks(written.tables))
    ensures NextDraftTables(written, draft) == RelinkedTables(TablesOf(a, draft), NextDraftLinks(written.tables))
    ensures var tables, heads, nexts := written.tables, HeadVersions(written.tables), NextVersions(written.tables);
      && |tables| == |plans| && |heads| == |HeadLinks(tables)| && |nexts| == |NextDraftLinks(tables)|
      && (forall i | 0 <= i < |heads| :: heads[i] == HeadLinks(tables)[i].version)
      && (forall i | 0 <= i < |nexts| :: nexts[i] == NextDraftLinks(tables)[i].version)
      && (forall i | 0 <= i < |plans| ::
          tables[i].plan == plans[i] && tables[i].head == heads[i] && tables[i].nextDraft == nexts[i])
  {
  }

  lemma LinksStayOnIdentities(a: Db, head: Id, draft: Id, plans: seq<TablePlan>, written: WrittenTables)
    requires CommitFits(a, head, draft, plans) && Grew(a, written.db)
    requires AllWritten(a, written.db, plans, written.tables)
    ensures TablesOf(written.db, head) == TablesOf(a, head) && TablesOf(written.db, draft) == TablesOf(a, draft)
    ensures TablesOf(a, head) <= written.db.tables.Keys && TablesOf(a, draft) <= written.db.tables.Keys
    ensures DistinctIdentities(written.db, TablesOf(a, head)) && DistinctIdentities(written.db, TablesOf(a, draft))
    ensures StayOnIdentities(written.db, TablesOf(a, head), HeadLinks(written.tables), Identities(plans))
    ensures StayOnIdentities(written.db, TablesOf(a, draft), NextDraftLinks(written.tables), Identities(plans))
  {
    hide *;
    CommitFitsMeans(a, head, draft, plans);
    TablesAreDistinct(a, head);
    TablesAreDistinct(a, draft);
    HeadLinksStay(a, head, draft, plans, written);
    NextDraftLinksStay(a, head, draft, plans, written);
    DistinctAfterGrowth(a, written.db, TablesOf(a, head));
    DistinctAfterGrowth(a, written.db, TablesOf(a, draft));
  }

  // ---- What the new Head and the next Draft contain ----------------------------------------

  ghost predicate AllPlannable(db: Db, plans: seq<TablePlan>) {
    forall i | 0 <= i < |plans| :: Plannable(db, plans[i])
  }

  function NextContents(db: Db, plans: seq<TablePlan>): seq<Option<TableContent>>
    requires LinksExist(db) && AllPlannable(db, plans)
  {
    seq(|plans|, i requires 0 <= i < |plans| => NextContentOf(db, plans[i]))
  }

  lemma FittingPlansArePlannable(db: Db, head: Id, draft: Id, plans: seq<TablePlan>)
    requires CommitPlansFit(db, head, draft, plans)
    ensures AllPlannable(db, plans) && AllTargetable(db, plans)
  {
    forall i | 0 <= i < |plans|
      ensures Plannable(db, plans[i])
    {
      FittingPlanIsPlannable(db, head, draft, plans[i]);
    }
  }

  lemma GrownUnplanned(a: Db, w: Db, r: Id, plans: seq<TablePlan>)
    requires LinksExist(a) && LinksExist(w) && Grew(a, w) && TablesOf(a, r) <= a.tables.Keys
    ensures KeepsUnplanned(a, w, TablesOf(a, r), plans)
  {
    forall t | t in TablesOf(a, r)
      ensures t in w.tables && ContentOf(w, t) == ContentOf(a, t)
    {
      SameContent(a, w, t);
    }
  }

  lemma WrittenContents(a: Db, head: Id, draft: Id, plans: seq<TablePlan>, written: WrittenTables)
    requires LinksExist(a) && AllPlannable(a, plans) && AllTargetable(a, plans)
       && CommitRelinks(a, head, draft, plans, written)
    ensures LinksExist(written.db) && |written.tables| == |plans|
    ensures forall i | 0 <= i < |plans| ::
      && HasContent(written.db, HeadVersions(written.tables)[i], TargetContents(a, plans)[i])
      && HasContent(written.db, NextVersions(written.tables)[i], NextContents(a, plans)[i])
  {
    CommitRelinksMean(a, head, draft, plans, written);
    hide LinksExist, CommitRelinks, HasContent, Plannable, VersionToLink;
    forall i | 0 <= i < |plans|
      ensures HasContent(written.db, HeadVersions(written.tables)[i], TargetContents(a, plans)[i])
      ensures HasContent(written.db, NextVersions(written.tables)[i], NextContents(a, plans)[i])
    {
      assert WrittenAs(a, written.db, written.tables[i]);
    }
  }

  lemma ContentsSizes(a: Db, plans: seq<TablePlan>)
    requires LinksExist(a) && AllPlannable(a, plans) && AllTargetable(a, plans)
    ensures |TargetContents(a, plans)| == |NextContents(a, plans)| == |plans|
  {
  }

  lemma CommitContents(a: Db, head: Id, draft: Id, plans: seq<TablePlan>, written: WrittenTables)
    requires LinksExist(a) && AllPlannable(a, plans) && AllTargetable(a, plans)
       && CommitRelinks(a, head, draft, plans, written)
    ensures LinksExist(written.db)
    ensures HeadTables(written, head) <= written.db.tables.Keys
       && NextDraftTables(written, draft) <= written.db.tables.Keys
    ensures TablesOf(a, head) <= a.tables.Keys && TablesOf(a, draft) <= a.tables.Keys
    ensures ContentsOf(written.db, HeadTables(written, head))
         == RelinkedContent(a, TablesOf(a, head), plans, TargetContents(a, plans))
    ensures ContentsOf(written.db, NextDraftTables(written, draft))
         == RelinkedContent(a, TablesOf(a, draft), plans, NextContents(a, plans))
  {
    hide *;
    CommitRelinksMean(a, head, draft, plans, written);
    TablesExist(a, head);
    TablesExist(a, draft);
    GrownUnplanned(a, written.db, head, plans);
    GrownUnplanned(a, written.db, draft, plans);
    WrittenContents(a, head, draft, plans, written);
    ContentsSizes(a, plans);
    RelinkedTablesContain(a, written.db, TablesOf(a, head), HeadTables(written, head), plans,
                          HeadVersions(written.tables), TargetContents(a, plans));
    RelinkedTablesContain(a, written.db, TablesOf(a, draft), NextDraftTables(written, draft), plans,
                          NextVersions(written.tables), NextContents(a, plans));
  }

  lemma CommittedLinks(db: Db, head: Id, draft: Id, plans: seq<TablePlan>)
    requires CommitFits(db, head, draft, plans)
    ensures TablesCommitted(db, plans).Success?
    ensures var written := TablesCommitted(db, plans).value;
      && CanAdvanceWritten(written, head, draft)
      && var after := TargetCommitted(written, head, draft);
      && LinksExist(after)
      && TablesOf(after, draft) == HeadTables(written, head)
      && TablesOf(after, written.db.nextId) == NextDraftTables(written, draft)
      && after.tables == written.db.tables && after.rows == written.db.rows && after.rowLinks == written.db.rowLinks
      && IsDraft(after, written.db.nextId)
      && (after.revisions[written.db.nextId].hasChanges
          <==> NextDraftTables(written, draft) != HeadTables(written, head))
  {
    hide *;
    CommitFitsMeans(db, head, draft, plans);
    CommitPlansMean(db, head, draft, plans);
    CommittableParts(db, head, draft);
    AllPlansWritten(db, head, draft, plans);
    var written := TablesCommitted(db, plans).value;
    ProgressMeans(db, written.db);
    ReadyToAdvance(db, head, draft, plans, written);
    ReadyToStayConsistent(db, head, draft, plans, written);
    CanAdvanceWrittenMeans(written, head, draft);
    TargetCommitIsConsistent(db, head, draft, plans);
    ConsistentParts(TargetCommitted(written, head, draft));
    TargetFlag(db, head, draft, plans, written);
    AdvancedTables(written.db, head, draft, HeadTables(written, head), NextDraftTables(written, draft),
                   TargetCommitted(written, head, draft));
    AdvancedVersions(written.db, head, draft, HeadTables(written, head), NextDraftTables(written, draft));
  }

  lemma AdvancedVersions(w: Db, head: Id, draft: Id, headTables: set<Id>, nextTables: set<Id>)
    requires head in w.revisions && draft in w.revisions
    ensures var after := WithNextFlag(w, head, draft, headTables, nextTables);
      && after.tables == w.tables && after.rows == w.rows && after.rowLinks == w.rowLinks
      && IsDraft(after, w.nextId)
      && (after.revisions[w.nextId].hasChanges <==> nextTables != headTables)
  {
  }

  // Main result: the new Head contains Head's tables with the planned ones as planned, and the next Draft the Draft's
  // tables with the renumbered ones renumbered.
  lemma PartialCommitContent(db: Db, head: Id, draft: Id, plans: seq<TablePlan>)
    requires CommitFits(db, head, draft, plans)
    ensures LinksExist(db) && AllPlannable(db, plans) && AllTargetable(db, plans)
    ensures TablesOf(db, head) <= db.tables.Keys && TablesOf(db, draft) <= db.tables.Keys
    ensures TablesCommitted(db, plans).Success?
    ensures var written := TablesCommitted(db, plans).value;
      && CanAdvanceWritten(written, head, draft)
      && var after := TargetCommitted(written, head, draft);
      && LinksExist(after)
      && RevisionContent(after, draft) == RelinkedContent(db, TablesOf(db, head), plans, TargetContents(db, plans))
      && RevisionContent(after, written.db.nextId)
         == RelinkedContent(db, TablesOf(db, draft), plans, NextContents(db, plans))
  {
    hide *;
    CommitFitsMeans(db, head, draft, plans);
    FittingPlansArePlannable(db, head, draft, plans);
    CommitRelinksAll(db, head, draft, plans);
    CommittedLinks(db, head, draft, plans);
    var written := TablesCommitted(db, plans).value;
    CommitContents(db, head, draft, plans, written);
    var after := TargetCommitted(written, head, draft);
    RevisionContentIs(written.db, after, draft, HeadTables(written, head));
    RevisionContentIs(written.db, after, written.db.nextId, NextDraftTables(written, draft));
  }

  // ---- When nothing is renumbered the Draft's content stays --------------------------------

  lemma KeptContent(db: Db, head: Id, draft: Id, plans: seq<TablePlan>, t: Id)
    requires CommitPlansFit(db, head, draft, plans) && LinksExist(db) && NameVersions(db, head, draft, plans)
    requires NothingRenumbered(plans) && AllPlannable(db, plans) && t in TablesOf(db, draft) && t in db.tables
    requires TablesOf(db, draft) <= db.tables.Keys
    ensures ContentOf(db, t) in RelinkedContent(db, TablesOf(db, draft), plans, NextContents(db, plans))
  {
    hide CommitPlansFit, LinksExist, TablesOf, ContentOf, AllPlannable;
    if db.tables[t].createdId in Identities(plans) {
      var i := PlanOf(plans, db.tables[t].createdId);
      assert NamesVersion(db, draft, plans[i].identity, plans[i].draft);
      assert Plannable(db, plans[i]) by { PlannableAt(db, plans, i); }
      assert NextContents(db, plans)[i] == Some(ContentOf(db, t));
    }
  }

  lemma PlannableAt(db: Db, plans: seq<TablePlan>, i: nat)
    requires AllPlannable(db, plans) && i < |plans|
    ensures Plannable(db, plans[i])
  {
  }

  lemma NextDraftContentStays(db: Db, head: Id, draft: Id, plans: seq<TablePlan>)
    requires CommitPlansFit(db, head, draft, plans) && LinksExist(db) && NameVersions(db, head, draft, plans)
    requires NothingRenumbered(plans) && AllPlannable(db, plans)
    ensures TablesOf(db, draft) <= db.tables.Keys
    ensures RelinkedContent(db, TablesOf(db, draft), plans, NextContents(db, plans)) == RevisionContent(db, draft)
  {
    TablesExist(db, draft);
    assert forall i | 0 <= i < |plans| :: CommitPlanFits(db, head, draft, plans[i]);
    assert forall i | 0 <= i < |plans| && plans[i].draft.Some? :: plans[i].draft.value in TablesOf(db, draft);
    forall t | t in TablesOf(db, draft)
      ensures ContentOf(db, t) in RelinkedContent(db, TablesOf(db, draft), plans, NextContents(db, plans))
    {
      KeptContent(db, head, draft, plans, t);
    }
    hide LinksExist, TablesOf, ContentOf, CommitPlanFits, CommitPlansFit, NameVersions;
    forall c | c in RelinkedContent(db, TablesOf(db, draft), plans, NextContents(db, plans))
      ensures c in RevisionContent(db, draft)
    {
      if i :| 0 <= i < |plans| && NextContents(db, plans)[i] == Some(c) {
        assert NextContents(db, plans)[i] == NextContentOf(db, plans[i]);
      }
    }
  }

  // ---- The flag ----------------------------------------------------------------------------

  // Some planned table kept its own version in the next Draft although the new Head has the same content.
  ghost predicate SomeKeptAlthoughEqual(w: Db, parents: set<Id>, plans: seq<TablePlan>, linked: set<Id>)
    requires LinksExist(w) && parents <= w.tables.Keys && linked <= w.tables.Keys
  {
    exists t :: t in linked && KeptAlthoughEqual(w, parents, Candidates(plans), t)
  }

  // A renumbered table is a new version that the new Head does not link.
  lemma RenumberedDiffers(a: Db, head: Id, draft: Id, plans: seq<TablePlan>, written: WrittenTables, i: nat)
    requires CommitPlansFit(a, head, draft, plans) && LinksExist(a) && CommitRelinks(a, head, draft, plans, written)
    requires i < |plans| && plans[i].renumbered.Some?
    ensures NextDraftTables(written, draft) != HeadTables(written, head)
  {
    CommitRelinksMean(a, head, draft, plans, written);
    assert CommitPlanFits(a, head, draft, plans[i]) && plans[i].draft.Some?;
    assert WrittenAs(a, written.db, written.tables[i]);
    hide LinksExist, CommitRelinks, CommitPlansFit, CommitPlanFits, NextDraftTables, HeadTables, DistinctIdentities;
    var heads, nexts := HeadVersions(written.tables), NextVersions(written.tables);
    assert nexts[i].Some? && nexts[i] != heads[i];
    assert nexts[i].value in NextDraftTables(written, draft);
  }

  // The next Draft reports changes exactly when a table was renumbered, the new Head contains something else, or some
  // table that was no relink candidate kept a version with Head's content.
  lemma PartialCommitFlag(db: Db, head: Id, draft: Id, plans: seq<TablePlan>)
    requires CommitFits(db, head, draft, plans)
    ensures TablesCommitted(db, plans).Success?
    ensures var written := TablesCommitted(db, plans).value;
      && CanAdvanceWritten(written, head, draft) && LinksExist(written.db)
      && HeadTables(written, head) <= written.db.tables.Keys && TablesOf(db, draft) <= written.db.tables.Keys
      && var after := TargetCommitted(written, head, draft);
      && var next := written.db.nextId;
      && LinksExist(after) && IsDraft(after, next)
      && (after.revisions[next].hasChanges <==>
            || !NothingRenumbered(plans)
            || RevisionContent(after, next) != RevisionContent(after, draft)
            || SomeKeptAlthoughEqual(written.db, HeadTables(written, head), plans, TablesOf(db, draft)))
  {
    hide *;
    CommitFitsMeans(db, head, draft, plans);
    CommitRelinksAll(db, head, draft, plans);
    CommittedLinks(db, head, draft, plans);
    var written := TablesCommitted(db, plans).value;
    CommitRelinksMean(db, head, draft, plans, written);
    RelinkedExist(written.db, TablesOf(db, head), HeadTables(written, head), plans, HeadVersions(written.tables));
    if NothingRenumbered(plans) {
      CommitLinksFollow(db, head, draft, plans, written);
      FollowingFlag(written.db, TargetCommitted(written, head, draft), HeadTables(written, head), plans,
                    TablesOf(db, draft), draft, written.db.nextId);
    } else {
      var i := SomeRenumbered(plans);
      RenumberedDiffers(db, head, draft, plans, written, i);
    }
  }

  lemma SomeRenumbered(plans: seq<TablePlan>) returns (i: nat)
    requires !NothingRenumbered(plans)
    ensures i < |plans| && plans[i].renumbered.Some?
  {
    i :| 0 <= i < |plans| && plans[i].renumbered.Some?;
  }

  lemma FollowingFlag(w: Db, after: Db, parents: set<Id>, plans: seq<TablePlan>, linked: set<Id>, draft: Id, next: Id)
    requires LinksExist(w) && RowIdentities(w) && LinksExist(after)
    requires after.tables == w.tables && after.rows == w.rows && after.rowLinks == w.rowLinks
    requires parents <= w.tables.Keys && linked <= w.tables.Keys
    requires DistinctIdentities(w, parents) && DistinctIdentities(w, linked)
    requires TablesOf(after, draft) == parents
    requires TablesOf(after, next) == FollowedTables(w, parents, Candidates(plans), linked)
    ensures FollowedTables(w, parents, Candidates(plans), linked) != parents <==>
      RevisionContent(after, next) != RevisionContent(after, draft) || SomeKeptAlthoughEqual(w, parents, plans, linked)
  {
    hide LinksExist, RowIdentities, DistinctIdentities, FollowedTables, ContentsOf, RevisionContent,
        KeptAlthoughEqual, TablesOf, Candidates;
    FollowingKeepsContent(w, parents, Candidates(plans), linked);
    FollowedDraftDiffersExactly(w, parents, Candidates(plans), linked);
    RevisionContentIs(w, after, draft, parents);
    RevisionContentIs(w, after, next, FollowedTables(w, parents, Candidates(plans), linked));
  }

  // Without renumbered rows the next Draft contains what the Draft contained.
  lemma PartialCommitKeepsDraftContent(db: Db, head: Id, draft: Id, plans: seq<TablePlan>)
    requires CommitFits(db, head, draft, plans) && NothingRenumbered(plans)
    ensures LinksExist(db) && TablesCommitted(db, plans).Success?
    ensures var written := TablesCommitted(db, plans).value;
      && CanAdvanceWritten(written, head, draft)
      && var after := TargetCommitted(written, head, draft);
      && LinksExist(after) && RevisionContent(after, written.db.nextId) == RevisionContent(db, draft)
  {
    hide *;
    CommitFitsMeans(db, head, draft, plans);
    PartialCommitContent(db, head, draft, plans);
    NextDraftContentStays(db, head, draft, plans);
  }
}
