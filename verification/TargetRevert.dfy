/** Reverting a part of a Draft: each planned table gets its version written, by editing the Draft's own version or
  * by a copy, or linked; it follows Head where it may; only replaced links change; the flag is computed again. */
module TargetRevert {
  import opened Wrappers
  import opened VersionStore
  import opened StatementSafety
  import opened ContentDiff
  import opened VersionWriter
  import opened DraftFollowsHead
  import opened DraftWrites
  import opened Transition
  import opened TargetPlans
  import opened TargetCommit

  datatype RevertedTable = RevertedTable(plan: TablePlan, written: Option<Id>)

  datatype RevertedTables = RevertedTables(db: Db, tables: seq<RevertedTable>)

  // ---- What the writes promise -------------------------------------------------------------

  function TableWritten(db: Db, target: TargetTable): Result<Step, WriteError> {
    match target
    case Linked(version) => Success(Step(db, version))
    case Mixed(source, editInPlace, changes) =>
      if editInPlace then
        if CanEdit(db, source, changes) then Success(Step(Edited(db, source, changes), Some(source)))
        else Failure(ConstraintViolation)
      else if source !in db.tables then
        Failure(TableVersionMissing(source))
      else if CanCopy(db, source, changes) then
        Success(Step(Copied(db, source, changes, false), Some(db.nextId)))
      else
        Failure(ConstraintViolation)
  }

  lemma TableWrittenKeepsLinks(db: Db, target: TargetTable)
    requires LinksExist(db)
    ensures TableWritten(db, target).Success? ==> LinksExist(TableWritten(db, target).value.db)
  {
  }

  function TableReverted(db: Db, plan: TablePlan): (r: Result<RevertedTables, WriteError>)
    requires LinksExist(db)
    ensures r.Success? ==> LinksExist(r.value.db) && |r.value.tables| == 1
  {
    TableWrittenKeepsLinks(db, plan.target);
    match TableWritten(db, plan.target)
    case Failure(error) => Failure(error)
    case Success(one) =>
      var version := VersionToLink(one.db, plan.relinkCandidate, one.version, plan.head);
      Success(RevertedTables(one.db, [RevertedTable(plan, version)]))
  }

  function TablesReverted(db: Db, plans: seq<TablePlan>): (r: Result<RevertedTables, WriteError>)
    requires LinksExist(db)
    ensures r.Success? ==> LinksExist(r.value.db) && |r.value.tables| == |plans|
  {
    if plans == [] then
      Success(RevertedTables(db, []))
    else
      match TablesReverted(db, plans[..|plans| - 1])
      case Failure(error) => Failure(error)
      case Success(done) =>
        match TableReverted(done.db, plans[|plans| - 1])
        case Failure(error) => Failure(error)
        case Success(last) => Success(RevertedTables(last.db, done.tables + last.tables))
  }

  lemma {:induction false} RevertFailureStays(db: Db, plans: seq<TablePlan>, n: nat)
    requires LinksExist(db) && n <= |plans| && TablesReverted(db, plans[..n]).Failure?
    ensures TablesReverted(db, plans).Failure?
       && TablesReverted(db, plans).error == TablesReverted(db, plans[..n]).error
  {
    if n < |plans| {
      assert plans[..|plans| - 1][..n] == plans[..n];
      RevertFailureStays(db, plans[..|plans| - 1], n);
    } else {
      assert plans[..n] == plans;
    }
  }

  predicate IsRelinked(table: RevertedTable) {
    table.plan.draft != table.written
  }

  function Disconnected(tables: seq<RevertedTable>): set<Id> {
    set i | 0 <= i < |tables| && IsRelinked(tables[i]) && tables[i].plan.draft.Some? :: tables[i].plan.draft.value
  }

  function Connected(tables: seq<RevertedTable>): set<Id> {
    set i | 0 <= i < |tables| && IsRelinked(tables[i]) && tables[i].written.Some? :: tables[i].written.value
  }

  function DraftTables(reverted: RevertedTables, draft: Id): set<Id> {
    TablesOf(reverted.db, draft) - Disconnected(reverted.tables) + Connected(reverted.tables)
  }

  predicate CanRelink(reverted: RevertedTables, draft: Id) {
    draft in reverted.db.revisions && DraftTables(reverted, draft) <= reverted.db.tables.Keys
  }

  lemma RelinkKeepsLinks(reverted: RevertedTables, draft: Id)
    requires LinksExist(reverted.db) && CanRelink(reverted, draft)
    ensures LinksExist(SetTables(reverted.db, draft, DraftTables(reverted, draft)))
  {
  }

  function TargetReverted(reverted: RevertedTables, head: Id, draft: Id): Db
    requires LinksExist(reverted.db) && CanRelink(reverted, draft)
  {
    RelinkKeepsLinks(reverted, draft);
    var relinked := SetTables(reverted.db, draft, DraftTables(reverted, draft));
    WithFlag(relinked, draft, HasTableDiffs(relinked, head, draft))
  }

  // ---- The handler -------------------------------------------------------------------------

  class DraftRevisionRevertToTargetHandler {
    const transaction: Transaction
    const versionWriter: AssembledVersionWriter

    constructor (transaction: Transaction, versionWriter: AssembledVersionWriter)
      ensures this.transaction == transaction && this.versionWriter == versionWriter
    {
      this.transaction := transaction;
      this.versionWriter := versionWriter;
    }

    method WriteTable(target: TargetTable) returns (r: Result<Option<Id>, WriteError>)
      requires versionWriter.transaction == transaction
      modifies transaction
      ensures var expected := TableWritten(old(transaction.db), target);
        && (r.Success? <==> expected.Success?)
        && (r.Success? ==> transaction.db == expected.value.db && r.value == expected.value.version)
    {
      match target
      case Linked(version) =>
        r := Success(version);
      case Mixed(source, editInPlace, changes) =>
        var written;
        if editInPlace {
          written := versionWriter.EditTableVersion(source, changes);
        } else {
          written := versionWriter.CreateTableVersion(source, changes);
        }
        r := if written.Success? then Success(Some(written.value.versionId)) else Failure(written.error);
    }

    method RevertTables(plans: seq<TablePlan>) returns (r: Result<seq<RevertedTable>, WriteError>)
      requires versionWriter.transaction == transaction && LinksExist(transaction.db)
      modifies transaction
      ensures var expected := TablesReverted(old(transaction.db), plans);
        && (r.Success? <==> expected.Success?)
        && (r.Success? ==> RevertedTables(transaction.db, r.value) == expected.value)
    {
      ghost var db := transaction.db;
      var tables: seq<RevertedTable> := [];
      for i := 0 to |plans|
        invariant TablesReverted(db, plans[..i]) == Success(RevertedTables(transaction.db, tables))
        invariant LinksExist(transaction.db)
      {
        assert plans[..i + 1][..i] == plans[..i];
        TableWrittenKeepsLinks(transaction.db, plans[i].target);
        var written := WriteTable(plans[i].target);
        if written.Failure? {
          RevertFailureStays(db, plans, i + 1);
          return Failure(written.error);
        }
        var version := VersionToLink(transaction.db, plans[i].relinkCandidate, written.value, plans[i].head);
        tables := tables + [RevertedTable(plans[i], version)];
      }
      assert plans[..|plans|] == plans;
      r := Success(tables);
    }

    method RelinkDraftTables(draft: Id, tables: seq<RevertedTable>) returns (r: Result<(), WriteError>)
      modifies transaction
      ensures var reverted := RevertedTables(old(transaction.db), tables);
        && (CanRelink(reverted, draft) ==> r.Success?)
        && (r.Success? ==> transaction.db == SetTables(old(transaction.db), draft, DraftTables(reverted, draft)))
        && (r.Success? && LinksExist(old(transaction.db)) && draft in old(transaction.db).revisions ==>
            CanRelink(reverted, draft))
    {
      if forall i | 0 <= i < |tables| :: !IsRelinked(tables[i]) {
        assert DraftTables(RevertedTables(transaction.db, tables), draft) == TablesOf(transaction.db, draft);
        SetSameTables(transaction.db, draft);
        assert LinksExist(transaction.db) ==> TablesOf(transaction.db, draft) <= transaction.db.tables.Keys by {
          if LinksExist(transaction.db) {
            TablesExist(transaction.db, draft);
          }
        }
        return Success(());
      }
      var linked := TablesOf(transaction.db, draft) - Disconnected(tables) + Connected(tables);
      if draft !in transaction.db.revisions || !(linked <= transaction.db.tables.Keys) {
        return Failure(ConstraintViolation);
      }
      transaction.db := SetTables(transaction.db, draft, linked);
      r := Success(());
    }

    method Execute(head: Id, draft: Id, plans: seq<TablePlan>) returns (r: Result<Id, WriteError>)
      requires versionWriter.transaction == transaction && LinksExist(transaction.db)
      modifies transaction
      ensures var reverted := TablesReverted(old(transaction.db), plans);
        && (r.Success? <==> reverted.Success? && CanRelink(reverted.value, draft))
        && (r.Success? ==> transaction.db == TargetReverted(reverted.value, head, draft) && r.value == draft)
    {
      var tables := RevertTables(plans);
      if tables.Failure? {
        return Failure(tables.error);
      }
      ghost var reverted := RevertedTables(transaction.db, tables.value);
      var relinked := RelinkDraftTables(draft, tables.value);
      if relinked.Failure? {
        return Failure(relinked.error);
      }
      if draft !in transaction.db.revisions {
        return Failure(ConstraintViolation);
      }
      RelinkKeepsLinks(reverted, draft);
      transaction.db := WithFlag(transaction.db, draft, HasTableDiffs(transaction.db, head, draft));
      r := Success(draft);
    }
  }
}
