/** What a partial commit and a partial revert leave in the store besides the planned content: exactly which existing
  * versions become readonly, where every new version is linked, and which row links change. */
module PartialResults {
  import opened Wrappers
  import opened VersionStore
  import opened ContentDiff
  import opened VersionWriter
  import opened WriterProperties
  import opened DraftWrites
  import opened DraftWriteEffects
  import opened Transition
  import opened TargetPlans
  import opened TargetCommit
  import opened TargetCommitProperties
  import opened TargetRevert
  import opened TargetRevertProperties
  import opened CommitResults

  // ---- What the writes of a partial commit touch -------------------------------------------

  ghost predicate ForHead(tables: seq<CommittedVersion>, t: Id) {
    exists c :: c in tables && c.head == Some(t)
  }

  ghost predicate ForNextDraft(tables: seq<CommittedVersion>, t: Id) {
    exists c :: c in tables && c.nextDraft == Some(t)
  }

  ghost predicate HeldForHead(b: Db, tables: seq<CommittedVersion>, x: Id) {
    exists t :: ForHead(tables, t) && RowLink(x, t) in b.rowLinks
  }

  // Only what is written for Head becomes readonly, and every new table version is written for Head or the next Draft.
  ghost predicate TouchedOnly(a: Db, b: Db, tables: seq<CommittedVersion>) {
    && (forall t | t in a.tables && t in b.tables && b.tables[t] != a.tables[t] :: ForHead(tables, t))
    && (forall x | x in a.rows && x in b.rows && b.rows[x] != a.rows[x] :: HeldForHead(b, tables, x))
    && (forall t | t in b.tables && t !in a.tables :: ForHead(tables, t) || ForNextDraft(tables, t))
  }

  lemma NothingTouched(db: Db, tables: seq<CommittedVersion>)
    ensures TouchedOnly(db, db, tables)
  {
    hide ForHead, ForNextDraft, HeldForHead;
  }

  lemma TouchedInTurn(a: Db, b: Db, c: Db, tables: seq<CommittedVersion>)
    requires Grew(a, b) && Grew(b, c) && TouchedOnly(a, b, tables) && TouchedOnly(b, c, tables)
    ensures TouchedOnly(a, c, tables)
  {
    hide ForHead, ForNextDraft;
  }

  lemma LockTouches(b: Db, table: Id, head: Option<Id>, tables: seq<CommittedVersion>)
    requires ForHead(tables, table)
    ensures TouchedOnly(b, LockedIntoHead(b, table, head), tables)
  {
    var c := LockedIntoHead(b, table, head);
    forall x | x in RowsOf(b, table)
      ensures HeldForHead(c, tables, x)
    {
      assert RowLink(x, table) in c.rowLinks;
    }
    hide ForHead, ForNextDraft, HeldForHead;
  }

  lemma CopyTouches(b: Db, source: Id, changes: RowLinkChanges, readonly: bool, tables: seq<CommittedVersion>)
    requires Safe(b) && source in b.tables && (ForHead(tables, b.nextId) || ForNextDraft(tables, b.nextId))
    ensures TouchedOnly(b, Copied(b, source, changes, readonly), tables)
  {
    ExistingRowsStay(b, source, changes, readonly);
    hide ForHead, ForNextDraft, HeldForHead;
  }

  lemma HeadTableTouches(b: Db, plan: TablePlan, tables: seq<CommittedVersion>)
    requires Safe(b) && HeadTable(b, plan).Success?
    requires HeadTable(b, plan).value.version.Some? ==> ForHead(tables, HeadTable(b, plan).value.version.value)
    ensures TouchedOnly(b, HeadTable(b, plan).value.db, tables)
  {
    match plan.target {
      case Mixed(source, _, changes) =>
        var copied := Copied(b, source, changes, true);
        hide *;
        CopyGrows(b, source, changes, true);
        LockGrows(copied, b.nextId, plan.head);
        CopyTouches(b, source, changes, true, tables);
        LockTouches(copied, b.nextId, plan.head, tables);
        TouchedInTurn(b, copied, LockedIntoHead(copied, b.nextId, plan.head), tables);
      case Linked(version) =>
        hide TouchedOnly, LockedIntoHead, ForHead;
        NothingTouched(b, tables);
        if version.Some? {
          LockTouches(b, version.value, plan.head, tables);
        }
    }
  }

  lemma NextDraftTableTouches(b: Db, plan: TablePlan, head: Option<Id>, tables: seq<CommittedVersion>)
    requires Safe(b) && NextDraftTable(b, plan, head).Success?
    requires plan.renumbered.Some? ==> ForNextDraft(tables, b.nextId)
    ensures TouchedOnly(b, NextDraftTable(b, plan, head).value.db, tables)
    ensures Grew(b, NextDraftTable(b, plan, head).value.db)
  {
    hide TouchedOnly, Copied, ForNextDraft, Grew;
    NothingTouched(b, tables);
    GrewIsReflexive(b);
    if plan.renumbered.Some? {
      CopyGrows(b, plan.draft.value, RenumberedChanges(plan.renumbered.value), false);
      CopyTouches(b, plan.draft.value, RenumberedChanges(plan.renumbered.value), false, tables);
    }
  }

  lemma RenumberedVersion(b: Db, plan: TablePlan, head: Option<Id>)
    requires LinksExist(b) && plan.renumbered.Some? && NextDraftTable(b, plan, head).Success?
    ensures NextDraftTable(b, plan, head).value.version == Some(b.nextId)
  {
  }

  lemma TableCommittedTouches(a: Db, b: Db, head: Id, draft: Id, plan: TablePlan, tables: seq<CommittedVersion>)
    requires Committable(a, head, draft) && CommitPlanFits(a, head, draft, plan) && Progress(a, b)
    ensures LinksExist(b) && TableCommitted(b, plan).Success?
    ensures var written := TableCommitted(b, plan).value;
      (forall c | c in written.tables :: c in tables) ==> TouchedOnly(b, written.db, tables) && Grew(b, written.db)
  {
    hide *;
    ProgressMeans(a, b);
    TableCommittedInSteps(b, plan);
    HeadTableWritten(a, b, head, draft, plan);
    var one := HeadTable(b, plan).value;
    ProgressMeans(a, one.db);
    NextDraftTableWritten(a, one.db, head, draft, plan, one.version);
    var two := NextDraftTable(one.db, plan, one.version).value;
    var written := TableCommitted(b, plan).value;
    assert written.tables == [CommittedVersion(plan, one.version, two.version)];
    if forall c | c in written.tables :: c in tables {
      assert CommittedVersion(plan, one.version, two.version) in written.tables;
      WrittenFor(tables, CommittedVersion(plan, one.version, two.version));
      HeadTableTouches(b, plan, tables);
      HeadTableGrows(b, plan);
      if plan.renumbered.Some? {
        RenumberedVersion(one.db, plan, one.version);
      }
      NextDraftTableTouches(one.db, plan, one.version, tables);
      TouchedInTurn(b, one.db, two.db, tables);
      GrewIsTransitive(b, one.db, two.db);
    }
  }

  lemma WrittenFor(tables: seq<CommittedVersion>, c: CommittedVersion)
    requires c in tables
    ensures c.head.Some? ==> ForHead(tables, c.head.value)
    ensures c.nextDraft.Some? ==> ForNextDraft(tables, c.nextDraft.value)
  {
  }

  lemma FirstCommitPlans(a: Db, head: Id, draft: Id, plans: seq<TablePlan>)
    requires plans != [] && CommitPlansFit(a, head, draft, plans)
    ensures CommitPlansFit(a, head, draft, plans[..|plans| - 1])
    ensures Committable(a, head, draft) && CommitPlanFits(a, head, draft, plans[|plans| - 1])
  {
  }

  lemma {:induction false} PlansTouch(a: Db, head: Id, draft: Id, plans: seq<TablePlan>, tables: seq<CommittedVersion>)
    requires CommitPlansFit(a, head, draft, plans)
    ensures LinksExist(a) && TablesCommitted(a, plans).Success?
    ensures (forall c | c in TablesCommitted(a, plans).value.tables :: c in tables) ==>
      TouchedOnly(a, TablesCommitted(a, plans).value.db, tables)
  {
    if plans != [] {
      FirstCommitPlans(a, head, draft, plans);
    }
    assert plans == [] ==> LinksExist(a) && TablesCommitted(a, plans) == Success(WrittenTables(a, []));
    hide *;
    CommitPlansMean(a, head, draft, plans);
    CommittableParts(a, head, draft);
    if plans == [] {
      NothingTouched(a, tables);
    } else {
      var rest, last := plans[..|plans| - 1], plans[|plans| - 1];
      TablesCommittedInSteps(a, plans);
      AllPlansWritten(a, head, draft, rest);
      var done := TablesCommitted(a, rest).value;
      TableCommittedTouches(a, done.db, head, draft, last, tables);
      var written := TableCommitted(done.db, last).value;
      assert TablesCommitted(a, plans).value.tables == done.tables + written.tables;
      if forall c | c in done.tables + written.tables :: c in tables {
        PlansTouch(a, head, draft, rest, tables);
        ProgressMeans(a, done.db);
        TouchedInTurn(a, done.db, written.db, tables);
      }
    }
  }

  // ---- The partial commit ------------------------------------------------------------------

  // Existing versions keep their columns and rows; exactly the given tables and the rows they hold became readonly.
  ghost predicate KeptAndLocked(a: Db, b: Db, tables: set<Id>) {
    && (forall t | t in a.tables ::
          && t in b.tables && b.tables[t] == a.tables[t].(readonly := a.tables[t].readonly || t in tables)
          && RowsOf(b, t) == RowsOf(a, t))
    && (forall x | x in a.rows ::
          x in b.rows && b.rows[x] == a.rows[x].(readonly := a.rows[x].readonly || HeldBySome(b, x, tables)))
  }

  lemma TouchedIsLocked(a: Db, b: Db, written: seq<CommittedVersion>, tables: set<Id>)
    requires Safe(b) && Grew(a, b) && TouchedOnly(a, b, written) && tables <= b.tables.Keys
    requires forall t | t in tables :: b.tables[t].readonly
    requires forall t | ForHead(written, t) :: t in tables
    ensures KeptAndLocked(a, b, tables)
  {
    forall t | t in a.tables {
      SameRowsAfterGrowth(a, b, t);
    }
    forall x | x in a.rows && b.rows[x] != a.rows[x]
      ensures HeldBySome(b, x, tables)
    {
      assert HeldForHead(b, written, x);
    }
    hide ForHead, ForNextDraft, HeldForHead, RowsOf;
  }

  lemma WrittenIsLinked(written: WrittenTables, head: Id, draft: Id, t: Id)
    ensures ForHead(written.tables, t) ==> t in HeadTables(written, head)
    ensures ForNextDraft(written.tables, t) ==> t in NextDraftTables(written, draft)
  {
    if ForHead(written.tables, t) {
      var i :| 0 <= i < |written.tables| && written.tables[i].head == Some(t);
      assert HeadLinks(written.tables)[i].version == Some(t);
    }
    if ForNextDraft(written.tables, t) {
      var i :| 0 <= i < |written.tables| && written.tables[i].nextDraft == Some(t);
      assert NextDraftLinks(written.tables)[i].version == Some(t);
    }
  }

  lemma FlagChangesOnlyTheFlag(a: Db, b: Db, head: Id, draft: Id, next: Id, hasChanges: bool)
    requires RevisionsAdvance(a, b, head, draft, next, false) && OtherLinksStay(a, b, {draft, next})
    ensures next in b.revisions
    ensures var c := WithFlag(b, next, hasChanges);
      && RevisionsAdvance(a, c, head, draft, next, hasChanges) && OtherLinksStay(a, c, {draft, next})
      && c.tables == b.tables && c.rows == b.rows && c.rowLinks == b.rowLinks
      && TablesOf(c, draft) == TablesOf(b, draft) && TablesOf(c, next) == TablesOf(b, next)
  {
    FlaggedTables(b, next, hasChanges);
    hide TablesOf;
  }

  lemma WrittenStore(db: Db, head: Id, draft: Id, plans: seq<TablePlan>)
    requires CommitPlansFit(db, head, draft, plans)
    ensures LinksExist(db) && TablesCommitted(db, plans).Success?
    ensures var written := TablesCommitted(db, plans).value;
      && Safe(written.db) && Grew(db, written.db) && LinksExist(written.db) && CanAdvanceWritten(written, head, draft)
      && CanAdvanceTo(written.db, head, draft, HeadTables(written, head), NextDraftTables(written, draft))
      && KeptAndLocked(db, written.db, HeadTables(written, head))
      && (forall t | t in written.db.tables && t !in db.tables ::
            t in HeadTables(written, head) || t in NextDraftTables(written, draft))
  {
    hide *;
    CommitPlansMean(db, head, draft, plans);
    CommittableParts(db, head, draft);
    AllPlansWritten(db, head, draft, plans);
    var written := TablesCommitted(db, plans).value;
    ProgressMeans(db, written.db);
    ReadyToAdvance(db, head, draft, plans, written);
    PlansTouch(db, head, draft, plans, written.tables);
    forall t {
      WrittenIsLinked(written, head, draft, t);
    }
    HeadTablesAreReadonly(written, head, draft);
    TouchedIsLocked(db, written.db, written.tables, HeadTables(written, head));
    NewIsWritten(db, written.db, written.tables);
  }

  lemma HeadTablesAreReadonly(written: WrittenTables, head: Id, draft: Id)
    requires CanAdvanceTo(written.db, head, draft, HeadTables(written, head), NextDraftTables(written, draft))
    ensures HeadTables(written, head) <= written.db.tables.Keys
    ensures forall t | t in HeadTables(written, head) :: written.db.tables[t].readonly
  {
    hide HeadTables, NextDraftTables;
  }

  lemma NewIsWritten(a: Db, b: Db, tables: seq<CommittedVersion>)
    requires TouchedOnly(a, b, tables)
    ensures forall t | t in b.tables && t !in a.tables :: ForHead(tables, t) || ForNextDraft(tables, t)
  {
    hide ForHead, ForNextDraft;
  }

  // The revisions advance; of the versions that existed exactly those that the new Head links, and their rows, have
  // become readonly, and nothing else about them changes; every new table version is linked by the new Head or the
  // next Draft.
  lemma PartCommittedResult(db: Db, head: Id, draft: Id, plans: seq<TablePlan>)
    requires CommitPlansFit(db, head, draft, plans)
    ensures LinksExist(db) && TablesCommitted(db, plans).Success?
    ensures CanAdvanceWritten(TablesCommitted(db, plans).value, head, draft)
    ensures var written := TablesCommitted(db, plans).value;
      var after, next := TargetCommitted(written, head, draft), written.db.nextId;
      && next in after.revisions
      && RevisionsAdvance(db, after, head, draft, next, after.revisions[next].hasChanges)
      && OtherLinksStay(db, after, {draft, next})
      && KeptAndLocked(db, after, TablesOf(after, draft))
      && (forall t | t in after.tables && t !in db.tables :: t in TablesOf(after, draft) || t in TablesOf(after, next))
  {
    hide *;
    WrittenStore(db, head, draft, plans);
    var written := TablesCommitted(db, plans).value;
    var w, headTables, nextTables := written.db, HeadTables(written, head), NextDraftTables(written, draft);
    CanAdvanceWrittenMeans(written, head, draft);
    TargetCommittedIs(written, head, draft);
    AdvanceResult(w, head, draft, headTables, nextTables);
    var advanced := AdvancedTo(written, head, draft);
    var hasChanges := HasTableDiffs(advanced, draft, w.nextId);
    FlagChangesOnlyTheFlag(w, advanced, head, draft, w.nextId, hasChanges);
    SeenFromBefore(db, w, TargetCommitted(written, head, draft), head, draft, hasChanges);
  }

  lemma SeenFromBefore(a: Db, w: Db, after: Db, head: Id, draft: Id, hasChanges: bool)
    requires Grew(a, w) && RevisionsAdvance(w, after, head, draft, w.nextId, hasChanges)
    requires OtherLinksStay(w, after, {draft, w.nextId}) && KeptAndLocked(a, w, TablesOf(after, draft))
    requires after.tables == w.tables && after.rows == w.rows && after.rowLinks == w.rowLinks
    ensures w.nextId in after.revisions && after.revisions[w.nextId].hasChanges == hasChanges
    ensures RevisionsAdvance(a, after, head, draft, w.nextId, hasChanges)
    ensures OtherLinksStay(a, after, {draft, w.nextId}) && KeptAndLocked(a, after, TablesOf(after, draft))
  {
    assert forall r :: TablesOf(w, r) == TablesOf(a, r);
    assert forall t :: RowsOf(after, t) == RowsOf(w, t);
    assert forall x :: HeldBySome(after, x, TablesOf(after, draft)) <==> HeldBySome(w, x, TablesOf(after, draft));
    hide TablesOf, RowsOf, HeldBySome;
  }

  // ---- The partial revert ------------------------------------------------------------------

  // The Draft's own versions that the plans edit.
  ghost predicate IsEdited(plans: seq<TablePlan>, t: Id) {
    exists p :: p in plans && p.target.Mixed? && p.target.editInPlace && p.target.source == t
  }

  ghost predicate OthersKeepRows(a: Db, b: Db, plans: seq<TablePlan>) {
    forall t | t in a.tables && !IsEdited(plans, t) :: RowsOf(b, t) == RowsOf(a, t)
  }

  lemma WriteKeepsOtherRows(b: Db, plan: TablePlan, plans: seq<TablePlan>)
    requires Safe(b) && TableReverted(b, plan).Success? && plan in plans
    ensures OthersKeepRows(b, TableReverted(b, plan).value.db, plans)
  {
    if plan.target.Mixed? {
      var source, changes := plan.target.source, plan.target.changes;
      if plan.target.editInPlace {
        assert IsEdited(plans, source);
        hide IsEdited;
        EditedRows(b, source, changes);
      } else {
        hide IsEdited;
        CopiedRows(b, source, changes, false);
      }
    }
  }

  lemma RevertedPrefix(a: Db, head: Id, draft: Id, plans: seq<TablePlan>)
    requires plans != [] && RevertPlansFit(a, head, draft, plans)
    ensures var rest, last := plans[..|plans| - 1], plans[|plans| - 1];
      && RevertPlansFit(a, head, draft, rest) && LinksExist(a) && TablesReverted(a, rest).Success?
      && var done := TablesReverted(a, rest).value;
      && Safe(done.db) && LinksExist(done.db) && Rewrote(a, done.db, Identities(rest))
      && TableReverted(done.db, last).Success?
      && TablesReverted(a, plans).Success?
      && TablesReverted(a, plans).value.db == TableReverted(done.db, last).value.db
  {
    hide *;
    var rest := plans[..|plans| - 1];
    FirstRevertPlans(a, head, draft, plans);
    AllPlansReverted(a, head, draft, rest);
    var done := TablesReverted(a, rest).value;
    RevertProgressMeans(a, done.db, Identities(rest));
    OneMoreReverted(a, done.db, head, draft, rest, plans[|plans| - 1], done.tables);
    TablesRevertedInSteps(a, plans);
  }

  lemma {:induction false} RevertKeepsOtherRows(a: Db, head: Id, draft: Id, plans: seq<TablePlan>, all: seq<TablePlan>)
    requires RevertPlansFit(a, head, draft, plans) && forall p | p in plans :: p in all
    ensures LinksExist(a) && TablesReverted(a, plans).Success?
    ensures OthersKeepRows(a, TablesReverted(a, plans).value.db, all)
  {
    assert plans == [] ==> LinksExist(a) && TablesReverted(a, plans) == Success(RevertedTables(a, []));
    if plans == [] {
    } else {
      hide *;
      RevertedPrefix(a, head, draft, plans);
      var rest := plans[..|plans| - 1];
      var done := TablesReverted(a, rest).value.db;
      RevertKeepsOtherRows(a, head, draft, rest, all);
      WriteKeepsOtherRows(done, plans[|plans| - 1], all);
      OtherRowsInTurn(a, done, TablesReverted(a, plans).value.db, Identities(rest), all);
    }
  }

  lemma OtherRowsInTurn(a: Db, b: Db, c: Db, done: seq<Id>, plans: seq<TablePlan>)
    requires Rewrote(a, b, done) && OthersKeepRows(a, b, plans) && OthersKeepRows(b, c, plans)
    ensures OthersKeepRows(a, c, plans)
  {
    hide IsEdited, RowsOf;
  }

  // Existing table and row versions keep their columns, and their rows unless the Draft's own version is edited in
  // place; no other revision is touched, and the flag says whether the Draft links other versions than Head.
  lemma PartRevertedResult(db: Db, head: Id, draft: Id, plans: seq<TablePlan>)
    requires RevertFits(db, head, draft, plans)
    ensures LinksExist(db) && TablesReverted(db, plans).Success? && CanRelink(TablesReverted(db, plans).value, draft)
    ensures var after := TargetReverted(TablesReverted(db, plans).value, head, draft);
      && draft in db.revisions
      && after.revisions
           == db.revisions[draft := db.revisions[draft].(hasChanges := TablesOf(after, draft) != TablesOf(after, head))]
      && OtherLinksStay(db, after, {draft})
      && (forall t | t in db.tables :: t in after.tables && after.tables[t] == db.tables[t])
      && (forall x | x in db.rows :: x in after.rows && after.rows[x] == db.rows[x])
      && OthersKeepRows(db, after, plans)
  {
    hide *;
    RevertFitsMeans(db, head, draft, plans);
    RevertPlansMean(db, head, draft, plans);
    CommittableParts(db, head, draft);
    RevertedWrite(db, head, draft, plans);
    var reverted := TablesReverted(db, plans).value;
    RevertProgressMeans(db, reverted.db, Identities(plans));
    TargetRevertedIs(reverted, head, draft);
    RevertKeepsOtherRows(db, head, draft, plans, plans);
    var relinked := SetTables(reverted.db, draft, DraftTables(reverted, draft));
    RevertedColumns(db, reverted.db, relinked, head, draft, Identities(plans), DraftTables(reverted, draft),
                    HasTableDiffs(relinked, head, draft), plans);
    TargetRevertIsConsistent(db, head, draft, plans);
    ConsistentFlag(TargetReverted(reverted, head, draft), head, draft);
  }

  lemma RevertedColumns(a: Db, w: Db, relinked: Db, head: Id, draft: Id, done: seq<Id>, tables: set<Id>,
                        hasChanges: bool, plans: seq<TablePlan>)
    requires Rewrote(a, w, done) && OthersKeepRows(a, w, plans) && relinked == SetTables(w, draft, tables)
    requires draft in a.revisions && a.revisions[draft].isDraft && a.revisions[draft].parent == Some(head)
    ensures draft in relinked.revisions
    ensures var after := WithFlag(relinked, draft, hasChanges);
      && after.revisions == a.revisions[draft := a.revisions[draft].(hasChanges := hasChanges)]
      && IsDraft(after, draft) && after.revisions[draft].parent == Some(head)
      && after.revisions[draft].hasChanges == hasChanges
      && OtherLinksStay(a, after, {draft})
      && (forall t | t in a.tables :: t in after.tables && after.tables[t] == a.tables[t])
      && (forall x | x in a.rows :: x in after.rows && after.rows[x] == a.rows[x])
      && OthersKeepRows(a, after, plans)
  {
    var after := WithFlag(relinked, draft, hasChanges);
    assert forall r | r != draft :: TablesOf(after, r) == TablesOf(a, r);
    assert forall t :: RowsOf(after, t) == RowsOf(w, t);
    hide IsEdited, TablesOf, RowsOf;
  }

  lemma ConsistentFlag(db: Db, head: Id, draft: Id)
    requires Consistent(db) && IsDraft(db, draft) && db.revisions[draft].parent == Some(head)
    ensures db.revisions[draft].hasChanges <==> TablesOf(db, draft) != TablesOf(db, head)
  {
  }
}
