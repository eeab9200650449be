# Verified model of the version store and its write protocol

This project models the parts of the headless CMS engine that decide whether stored content can be trusted, and proves
what they promise. `dafny verify dfyconfig.toml` checks all of it.

**The version store** (`VersionStore` to `CommittedVersions`). Revisions link table versions, table versions link row
versions. A Draft copies a version before it changes it, a commit locks what it links into Head. Each SQL statement is a
function on a `Db` value; the services and handlers are classes whose methods change the `Db` of a `Transaction` and are
proved against specification functions. `Safe` says that committed tables are locked and locked tables hold locked rows;
`Guarded` adds one version per row in a table, one owner for every version that can still change, and a linear branch
history. Every write is proved to keep that and to leave committed content unchanged. `Consistent` adds one version per
table in a revision and a "has changes" flag that is exact. A write keeps that too, except a removal of rows that goes
back to another table of the same public id, and plans that name other versions than those linked; for the removal
the exact condition is proved. What each write leaves in the stored columns and links is said in `DraftWriteResults`,
`DraftRemovalResults`, `CommitResults`, `PartialResults` and `PlannedVersions`. `CommittedVersions` puts all writes into
one run.

**The branch write fence** (`EscalationSlots`, `FenceProtocol`, `FenceProperties`, `FenceGuarantees`, `FenceLaws`,
`EscalationWaits`, `OperationDeadline`). Shared writers, escalated attempts, their exclusive holders, slots and the
connection pool are one interleaving machine. An advisory lock is a shared set and an exclusive owner per branch; a
snapshot is taken at the first statement. `FenceLaws` says what that means in the events of a run alone. Waits and
deadlines are modelled over a real-valued clock with whole-millisecond budgets.

**Smaller cores.** Views that follow schema patches (`ViewsMigration`, `ViewsProperties`, `MigratedViews`), byte
accounting of stored files (`FileBlobs`, `FileBlobsProperties`), the row-change queries (`RowChanges`, `RowChangeFacts`)
and keyset iteration (`KeysetIteration`).

What is assumed of the environment: generated ids are fresh (one counter issues them), link rows cascade with the rows
they link (the migrations under `prisma/migrations` declare it), a transaction that fails leaves no trace, and hashes of
row data are compared instead of the data. A precondition `LinksExist` stands for the foreign keys.

Plans of partial commits and reverts come from the planner, which is not part of this model. `CommitPlansFit` and
`RevertPlansFit` say what it provides for each plan: it builds on a version of its table that Head or the Draft links,
replaces row versions identity by identity
(`src/features/partial-changes/assembly/target-assembler.ts:457-475`), and edits in place only a mutable version of the
Draft (`src/features/partial-changes/assembly/outcome-rules.ts:127-136`). `CommitFits` and `RevertFits` add that the plans
name the versions of different tables that Head and the Draft link
(`src/features/partial-changes/writing/target-write-plan-mapping.ts:76-124`).

Where the code does not do what its documentation says, the code is modelled:

- `docs/versioning.md:404` promises that tables which exist only in the Draft are never reverted. The code looks Head's
  table up by public id, so an emptied table that took the name of a removed one is lost
  (`RevertByPublicId.RevertCanLoseADraftOnlyTable`); `RevertByPublicId.DraftOnlyTableSurvives` says exactly when it is not.
  By the same lookup tables renamed in turn can leave two versions of one table in the Draft
  (`RevertByPublicId.RevertCanDoubleATable`).
- `src/infrastructure/database/operation-deadline.ts:16-18` promises a lead of 100 ms; rounding can take almost one of them
  (`EscalationWaits.RollbackLead`, `EscalationWaits.RollbackLeadIsCut`).
- Two tombstoning calls in one millisecond share their marker and can take the same bytes twice
  (`FileBlobsProperties.ReusedMarkerCountsTwice`).

## Model

| member | source | states |
|---|---|---|
| VersionWriter.AssembledVersionWriter.CreateTableVersion | src/features/draft-revision/services/assembled-version-writer.service.ts:44-49 | succeeds exactly when the source exists and the row links can be inserted; then the store is the old one plus a mutable copy, and ids are aligned with the new rows |
| VersionWriter.AssembledVersionWriter.CreateReadonlyTableVersion | src/features/draft-revision/services/assembled-version-writer.service.ts:51-56 | the same with the copy and its new rows readonly |
| VersionWriter.AssembledVersionWriter.EditTableVersion | src/features/draft-revision/services/assembled-version-writer.service.ts:58-73 | succeeds exactly when the links can be inserted; then only the links of the version and the new rows change |
| VersionWriter.AssembledVersionWriter.LockLinkedIntoHead | src/features/draft-revision/services/assembled-version-writer.service.ts:75-81 | locks the version and the rows the previous Head version lacks, and nothing else |
| VersionWriter.AssembledVersionWriter.CopyVersion | src/features/draft-revision/services/assembled-version-writer.service.ts:83-101 | the copy both creating methods share, tied to one function of the old store |
| VersionWriter.AssembledVersionWriter.InsertRowVersions | src/features/draft-revision/services/assembled-version-writer.service.ts:195-211 | the batch loop inserts every new row exactly once and returns the ids in input order, as one insert would |
| VersionWriter.AssembledVersionWriter.InsertRowBatch | src/features/draft-revision/services/assembled-version-writer.service.ts:213-246 | one batch: the rows are stored and linked under consecutive new ids |
| WriterProperties.EditAndCopyAgree | src/features/draft-revision/services/assembled-version-writer.service.ts:58-101 | editing a version in place and copying it with the same changes succeed together and give the same rows, (source minus removed) plus added plus the new rows position by position; the copy leaves its source links alone |
| WriterProperties.WritesSucceedExactly | src/features/draft-revision/services/assembled-version-writer.service.ts:58-168 | a copy succeeds exactly when the source exists and each added row is named once, exists, and is not among the rows kept; an edit likewise, and one that adds nothing also without its table |
| WriterProperties.ExistingRowsStay | src/features/draft-revision/services/assembled-version-writer.service.ts:120-168 | neither way of writing changes an existing row version |
| WriterProperties.CopyIsSafe | src/features/draft-revision/services/assembled-version-writer.service.ts:83-101 | a copy keeps the store safe and all committed content |
| WriterProperties.EditIsSafe | src/features/draft-revision/services/assembled-version-writer.service.ts:58-73 | so does an edit of a version that is not readonly |
| WriterProperties.EditOfCommittedVersion | src/features/draft-revision/services/assembled-version-writer.service.ts:58-73 | the code does not look at readonly: an edit of a committed version leaves committed content alone if and only if it ends with the same links and adds no row |
| WriterProperties.LockOfTheDifference | src/features/draft-revision/services/assembled-version-writer.service.ts:177-193 | locking only the rows missing in the previous Head version makes every row readonly if and only if the shared rows already were |
| WriterProperties.LockIsSafe | src/features/draft-revision/services/assembled-version-writer.service.ts:75-81 | with the previous Head version locked, that lock is always enough |
| WriterProperties.ReadonlyCopyThenLock | src/features/draft-revision/commands/handlers/draft-revision-commit-to-target.handler.ts:112-127 | before the lock a readonly copy and a mutable copy end in the same state |
| VersionStore.CommittedIsReadonly | src/__tests__/assertions/committed-versions-guard.ts:132-172 | in a safe store everything reachable from a committed revision is readonly |
| VersionStore.KeepsIsTransitive | src/__tests__/assertions/committed-versions-guard.ts:83-101 | steps that each keep committed content keep it together |
| StatementSafety.DeleteRowsIsSafe | src/features/draft-revision/commands/handlers/draft-revision-remove-rows.handler.ts:101-107 | deleting rows is safe unless a committed table holds one |
| StatementSafety.LockTablesIsSafe | src/features/draft-revision/services/assembled-version-writer.service.ts:170-175 | locking tables is safe when all their rows are locked |
| StatementSafety.UpdateRevisionIsSafe | src/features/draft-revision/services/commit-transition.service.ts:58-73 | a revision may stop being a Draft only with all its tables locked |
| StatementSafety.UnlinkRowsIsSafe | src/features/draft-revision/services/assembled-version-writer.service.ts:140-153 | unlinking rows is safe for tables that can still change |
| ContentDiff.OneSidedJoinIsEnough | src/features/share/row-link-diff-sql.ts:8-34 | joining only the rows linked on one side finds a difference exactly when the full outer join of both complete row sets does, given one row per identity on each side |
| ContentDiff.ContentDiffIsExact | src/features/share/table-version-content-diff-sql.ts:12-38 | the content check answers "differs" exactly when the public id or the compared row contents differ |
| ContentDiff.ContentDiffByColumns | src/features/share/compared-columns.ts:1-7 | given one row per identity in each table, the check answers "differs" exactly when the public ids of the tables differ, a row identity is on one side only, or the two rows of one identity differ in id, hash, schemaHash, publishedAt or meta |
| ContentDiff.OneSidedJoinNeedsUniqueIdentities | src/features/share/table-version-content-diff-sql.ts:16-37 | a concrete table version that holds one identity twice, where the two joins disagree |
| ContentDiff.JoinDiffersWhenContentDoes | src/features/share/table-version-content-diff-sql.ts:20-37 | the full outer join finds a difference exactly when the sets of compared contents differ |
| ContentDiff.HasTableDiffsIsLinkDifference | src/engine-sql-queries.ts:90-121 | the check behind "has changes" is true exactly when the two revisions link different versions |
| DraftFollowsHead.FollowingKeepsContent | src/features/draft-revision/services/draft-follows-head.service.ts:9-33 | linking Head versions where the content is equal never changes what the Draft contains, and keeps one version per table |
| DraftFollowsHead.FollowedDraftDiffersExactly | src/features/draft-revision/services/draft-follows-head.service.ts:9-33 | afterwards the links differ exactly when the contents do or a table that was no candidate kept a version with Head's content |
| DraftFollowsHead.HasChangesIsExact | src/features/draft-revision/services/draft-revision-internal.service.ts:65-78 | with every table a candidate, "has changes" is the comparison of contents |
| StoreShape.AdvanceKeepsHistory | src/features/draft-revision/services/commit-transition.service.ts:51-93 | retire, promote and open keep one Head, one Draft and one start per branch, parents older and committed, no fork |
| StoreShape.BranchKeepsHistory | src/features/branch/commands/handlers/create-branch-by-revision-id.handler.ts:78-139 | a new branch adds its Head and Draft to the history and disturbs no other |
| StoreShape.ChainLeadsToStart | src/features/draft-revision/services/commit-transition.service.ts:75-93 | parents form an acyclic chain to the start of the branch |
| StoreShape.ChainOfDraftHasAll | src/features/draft-revision/services/commit-transition.service.ts:75-93 | every revision of the branch lies on the chain of its Draft |
| DraftWriteEffects.TouchOpens | src/features/draft-revision/commands/handlers/draft-revision-get-or-create-draft-table.handler.ts:19-168 | copy on write gives the Draft a mutable version of the same table with the same rows and keeps everything else |
| DraftWriteEffects.TouchedRowIsOpened | src/features/draft-revision/commands/handlers/draft-revision-get-or-create-draft-row.handler.ts:19-147 | copy on write of a row replaces it by a mutable version of the same identity |
| DraftWriteEffects.MutableVersionDiffers | src/features/draft-revision/services/draft-revision-internal.service.ts:49-54 | a Draft that holds a mutable version links other versions than its parent, so marking it as changed is exact |
| DraftWriteEffects.WriteIsConsistent | src/features/draft-revision/services/draft-revision-internal.service.ts:65-78 | a write confined to one Draft, with the flag its links call for, keeps the store consistent and committed content unchanged |
| DraftWriteEffects.ChangingWriteIsSound | src/features/draft-revision/services/draft-revision-internal.service.ts:49-54 | a write that leaves a version that can still change, and the flag set, keeps everything committed, and a consistent store consistent |
| DraftWriteEffects.CreateTableIsSound | src/features/draft-revision/commands/handlers/draft-revision-create-table.handler.ts:24-69 | so does creating a table |
| DraftWriteEffects.RenameTableIsSound | src/features/draft-revision/commands/handlers/draft-revision-rename-table.handler.ts:22-56 | so does renaming a table |
| DraftWriteEffects.CreateRowsIsSound | src/features/draft-revision/commands/handlers/draft-revision-create-rows.handler.ts:33-137 | so does creating rows |
| DraftWriteEffects.UpdateRowColumnsIsSound | src/features/draft-revision/commands/handlers/draft-revision-update-rows.handler.ts:28-103 | so does updating a row; renaming a row is the same write (draft-revision-rename-rows.handler.ts:120-141) |
| DraftWriteResults.CreatedTable | src/features/draft-revision/commands/handlers/draft-revision-create-table.handler.ts:24-69 | creating a table leaves a version of a new identity with the given id, system flag and time, mutable and empty, linked by the Draft beside its tables; all else is as it was |
| DraftWriteResults.RenamedTable | src/features/draft-revision/commands/handlers/draft-revision-rename-table.handler.ts:22-56 | renaming leaves the new id on a mutable version of the table, the old one or a copy of a committed one, with the same rows; all else is as it was |
| DraftWriteResults.CreatedRows | src/features/draft-revision/commands/handlers/draft-revision-create-rows.handler.ts:33-137 | creating rows adds exactly one mutable row version per given row, with its columns and an identity of its own, to the Draft's version of the table; all else is as it was |
| DraftWriteResults.UpdatedRow | src/features/draft-revision/commands/handlers/draft-revision-update-rows.handler.ts:28-103 | updating a row leaves one row of its identity in the Draft's version of the table, which carries the new columns; every other row, table and revision is as it was |
| DraftWriteResults.UntouchedContent | src/features/draft-revision/commands/handlers/draft-revision-update-rows.handler.ts:28-103 | so the content of every table that holds no written row is the same |
| DraftRemovalResults.HasRowDiffsIsRowDifference | src/features/draft-revision/commands/handlers/draft-revision-recompute-has-changes.handler.ts:61-101 | the row check before going back is true exactly when the two revisions hold different row versions of the table |
| DraftRemovalResults.RemovedRowsResult | src/features/draft-revision/commands/handlers/draft-revision-remove-rows.handler.ts:33-124 | removing rows takes exactly these from the Draft's version, deletes the row versions that could still change and no others, and links Head's table instead exactly when the rows left are those Head holds of the table |
| DraftRemovalResults.RemovedTable | src/features/draft-revision/commands/handlers/draft-revision-remove-table.handler.ts:23-134 | a removed table is no longer linked by the Draft; a version that could still change is deleted with the rows only it held, a committed one stays with its rows; all else is as it was |
| DraftRemovalResults.RevertedDraft | src/features/draft-revision/commands/handlers/draft-revision-revert.handler.ts:22-53 | a reverted Draft links exactly what its parent links and has no changes; no version is touched |
| DraftRemovals.RemovedRows | src/features/draft-revision/commands/handlers/draft-revision-remove-rows.handler.ts:94-124 | exactly the given rows leave the table, and no shared row version is touched |
| DraftRemovals.RevertKeepsIdentities | src/features/draft-revision/commands/handlers/draft-revision-recompute-has-changes.handler.ts:61-101 | going back to Head's table of the same public id keeps one version per table if and only if no other table of the Draft is a version of that table's identity |
| DraftRemovals.RemoveRowsIsSound | src/features/draft-revision/commands/handlers/draft-revision-remove-rows.handler.ts:33-60 | removing rows always keeps everything committed, and keeps a consistent store consistent if and only if that condition holds |
| RevertByPublicId.RevertKeepsTheTable | src/features/draft-revision/commands/handlers/draft-revision-recompute-has-changes.handler.ts:61-101 | the Draft still links a version of the reverted table if and only if it does not go back to a table of another identity |
| RevertByPublicId.ContentAfterRevert | src/features/draft-revision/commands/handlers/draft-revision-recompute-has-changes.handler.ts:61-101 | what the Draft contains after going back: Head's table of that public id in the place of its own |
| RevertByPublicId.RevertKeepsContent | src/features/draft-revision/commands/handlers/draft-revision-recompute-has-changes.handler.ts:61-101 | going back leaves the Draft's content as it was if and only if it does not go back to a table of another identity |
| RevertByPublicId.DraftOnlyTableSurvives | src/features/draft-revision/commands/handlers/draft-revision-remove-rows.handler.ts:33-60 | a table that exists in the Draft only survives the removal of its rows if and only if a row is left or Head has no table of its public id |
| RevertByPublicId.RevertCanLoseADraftOnlyTable | src/features/draft-revision/commands/handlers/draft-revision-recompute-has-changes.handler.ts:61-101 | a consistent store where a table that exists in the Draft only is lost: Head's table of that name was removed and another created in its place |
| RevertByPublicId.RevertCanDoubleATable | src/features/draft-revision/commands/handlers/draft-revision-recompute-has-changes.handler.ts:61-101 | a consistent store where tables renamed in turn end with two versions of one table and none of the other |
| DraftRemovals.RemoveTableIsSound | src/features/draft-revision/commands/handlers/draft-revision-remove-table.handler.ts:23-134 | removing a table deletes or unlinks it without touching committed content and leaves an exact flag |
| DraftRemovals.RevertDraftIsSound | src/features/draft-revision/commands/handlers/draft-revision-revert.handler.ts:22-53 | a revert makes the Draft link what Head links, with an exact flag, and keeps everything committed |
| Transition.CommitTransition.RelinkedTablesOf | src/features/draft-revision/services/commit-transition.service.ts:34-49 | the linked versions that no replacement names, and the replacing versions |
| Transition.CommitTransition.RetireHead | src/features/draft-revision/services/commit-transition.service.ts:51-56 | succeeds exactly for an existing revision, which then is no Head, no Draft and has no changes |
| Transition.CommitTransition.PromoteDraftToHead | src/features/draft-revision/services/commit-transition.service.ts:58-73 | succeeds exactly for existing records; the revision becomes Head and links the given tables, or keeps its links |
| Transition.CommitTransition.OpenNextDraft | src/features/draft-revision/services/commit-transition.service.ts:75-93 | inserts a Draft below the given revision that links the given tables |
| Transition.RelinkKeepsIdentities | src/features/draft-revision/services/commit-transition.service.ts:34-49 | when each replacement stays on its own identity, relinking keeps at most one version per table, each planned table gets exactly its version and all others keep their links |
| Transition.AdvanceIsSafe | src/features/draft-revision/services/commit-transition.service.ts:51-93 | retire, promote and open keep committed content when only locked tables are promoted |
| Transition.AdvanceKeepsOwners | src/features/draft-revision/services/commit-transition.service.ts:75-93 | a version that can still change belongs to one revision, before and after |
| Transition.FlaggedAdvanceIsGuarded | src/features/draft-revision/services/commit-transition.service.ts:51-93 | the whole transition, whatever flag the next Draft gets, keeps everything committed, also where a revision links two versions of a table |
| Transition.AdvanceIsConsistent | src/features/draft-revision/services/commit-transition.service.ts:51-93 | the whole transition leads from a ready store to a consistent one and keeps everything committed |
| NativeCommit.DraftRevisionCommitHandler.Execute | src/features/draft-revision/commands/handlers/draft-revision-commit.handler.ts:24-70 | fails exactly without Head, without Draft or without changes and then changes nothing; else the state is the commit of that Head and Draft |
| NativeCommit.LockedLastIsLockedFirst | src/features/draft-revision/commands/handlers/draft-revision-commit.handler.ts:38-63 | locking after the transition ends in the state that locking before it would have reached |
| NativeCommit.DraftLockIsEnough | src/features/draft-revision/commands/handlers/draft-revision-commit.handler.ts:72-107 | locking only what the Draft's own versions hold beyond Head's counterparts leaves every row of the Draft readonly |
| NativeCommit.CommitIsSound | src/features/draft-revision/commands/handlers/draft-revision-commit.handler.ts:24-116 | a native commit keeps everything committed unchanged, and a consistent store consistent |
| CommitResults.AdvanceResult | src/features/draft-revision/services/commit-transition.service.ts:51-93 | the old Head is neither Head nor Draft, the Draft is Head, the new revision is a Draft below it on the same branch, none of them has changes, and no other revision or link changes |
| CommitResults.CommittedResult | src/features/draft-revision/commands/handlers/draft-revision-commit.handler.ts:24-116 | after a native commit the new Head and the next Draft link and contain what the Draft did, and exactly the Draft's tables and the rows they hold have become readonly |
| TargetCommit.DraftRevisionCommitToTargetHandler.WriteHeadTable | src/features/draft-revision/commands/handlers/draft-revision-commit-to-target.handler.ts:86-127 | one planned table in Head: a locked readonly assembly, a version locked as it is linked, or nothing |
| TargetCommit.DraftRevisionCommitToTargetHandler.WriteNextDraftTable | src/features/draft-revision/commands/handlers/draft-revision-commit-to-target.handler.ts:129-158 | one planned table in the next Draft: a renumbered copy, else the version that follows Head where it may |
| TargetCommit.DraftRevisionCommitToTargetHandler.CommitTables | src/features/draft-revision/commands/handlers/draft-revision-commit-to-target.handler.ts:65-84 | the loop over the plans, tied to a function of the store before it |
| TargetCommit.DraftRevisionCommitToTargetHandler.Execute | src/features/draft-revision/commands/handlers/draft-revision-commit-to-target.handler.ts:42-63 | succeeds exactly when all writes and the transition do; then Head and next Draft link the planned versions, the next Draft is on the plan's branch, and the flag is computed from the links |
| TargetCommit.NextDraftStaysOnBranch | src/features/draft-revision/commands/handlers/draft-revision-commit-to-target.handler.ts:42-63 | on the branch of its Draft a plan ends in the state of the transition |
| TargetCommitProperties.AllPlansWritten | src/features/draft-revision/commands/handlers/draft-revision-commit-to-target.handler.ts:65-84 | every fitting list of plans is written: each Head version is locked and of its table, each next-Draft version is of its table and mutable only if new or the Draft's own |
| TargetCommitProperties.TargetCommitIsGuarded | src/features/draft-revision/commands/handlers/draft-revision-commit-to-target.handler.ts:42-185 | plans that fit one by one are written, and the partial commit keeps everything committed unchanged |
| TargetCommitProperties.TargetCommitIsConsistent | src/features/draft-revision/commands/handlers/draft-revision-commit-to-target.handler.ts:42-185 | plans that also name the versions of different tables keep the store consistent |
| TargetContent.CopiedContent | src/features/draft-revision/services/assembled-version-writer.service.ts:83-101 | a copy has its source's public id and identity, and the planned rows: the kept ones and the new ones |
| TargetContent.EditedContent | src/features/draft-revision/services/assembled-version-writer.service.ts:58-73 | so has a version edited in place |
| TargetContent.LinkedContent | src/features/draft-revision/services/draft-follows-head.service.ts:9-33 | whichever version is linked instead, the content is the candidate's |
| TargetContent.RelinkedTablesContain | src/features/draft-revision/services/commit-transition.service.ts:34-49 | relinked tables contain the content of the tables no plan names, and the planned contents |
| TargetCommitContent.PartialCommitContent | src/features/draft-revision/commands/handlers/draft-revision-commit-to-target.handler.ts:42-158 | the new Head contains Head's tables with the planned ones as planned; the next Draft contains the Draft's tables with the renumbered rows replaced by the new ones |
| TargetCommitContent.PartialCommitKeepsDraftContent | src/features/draft-revision/commands/handlers/draft-revision-commit-to-target.handler.ts:129-158 | so without renumbered rows the next Draft contains what the Draft contained |
| TargetCommitContent.PartialCommitFlag | src/features/draft-revision/commands/handlers/draft-revision-commit-to-target.handler.ts:42-63 | the next Draft reports changes exactly when a table was renumbered, the new Head contains something else, or a table that was no candidate kept a version with Head's content |
| PartialResults.PartCommittedResult | src/features/draft-revision/commands/handlers/draft-revision-commit-to-target.handler.ts:42-185 | of the versions that existed exactly those the new Head links, and their rows, have become readonly and nothing else about them changes; every new table version is linked by the new Head or the next Draft |
| PlannedVersions.CommitLinksAsPlanned | src/features/draft-revision/commands/handlers/draft-revision-commit-to-target.handler.ts:86-158 | the new Head links the very version a plan names, or a new one for an assembled table, and the next Draft a new one for a renumbered table |
| TargetCommitContent.NextDraftIsFollowed | src/features/draft-revision/commands/handlers/draft-revision-commit-to-target.handler.ts:129-142 | the next Draft links, for each table of the Draft, the version that following the new Head gives |
| TargetRevert.DraftRevisionRevertToTargetHandler.WriteTable | src/features/draft-revision/commands/handlers/draft-revision-revert-to-target.handler.ts:68-92 | one planned table: an edit in place, a copy, or a linked version |
| TargetRevert.DraftRevisionRevertToTargetHandler.RevertTables | src/features/draft-revision/commands/handlers/draft-revision-revert-to-target.handler.ts:51-66 | the loop over the plans, tied to a function of the store before it |
| TargetRevert.DraftRevisionRevertToTargetHandler.RelinkDraftTables | src/features/draft-revision/commands/handlers/draft-revision-revert-to-target.handler.ts:111-135 | only links that differ are disconnected and connected |
| TargetRevert.DraftRevisionRevertToTargetHandler.Execute | src/features/draft-revision/commands/handlers/draft-revision-revert-to-target.handler.ts:37-49 | succeeds exactly when all writes and links do and the Draft exists; then it links the written versions and the flag is computed |
| TargetRevertProperties.OnlyDifferentLinks | src/features/draft-revision/commands/handlers/draft-revision-revert-to-target.handler.ts:111-135 | changing only the links that differ is replacing all planned links |
| PartialResults.PartRevertedResult | src/features/draft-revision/commands/handlers/draft-revision-revert-to-target.handler.ts:37-135 | a partial revert changes no existing table or row version and the rows only of versions it edits in place, touches no other revision, and flags the Draft exactly when it links other versions than Head |
| PlannedVersions.RevertLinksAsPlanned | src/features/draft-revision/commands/handlers/draft-revision-revert-to-target.handler.ts:51-135 | a reverted table that may follow Head links Head's version exactly when the planned content is Head's; one that may not links the version the plan names or edits, or a new one |
| TargetRevertProperties.TargetRevertIsGuarded | src/features/draft-revision/commands/handlers/draft-revision-revert-to-target.handler.ts:37-135 | plans of different tables that fit one by one are written, edits in place included, and the partial revert keeps everything committed unchanged |
| TargetRevertProperties.TargetRevertIsConsistent | src/features/draft-revision/commands/handlers/draft-revision-revert-to-target.handler.ts:37-135 | plans that also name the Draft's versions of their tables keep the store consistent |
| TargetRevertContent.PartialRevertContent | src/features/draft-revision/commands/handlers/draft-revision-revert-to-target.handler.ts:37-135 | afterwards the Draft contains its tables with the planned ones as planned, however they were written and whether or not they followed Head |
| Branching.CreateBranchByRevisionIdHandler.Execute | src/features/branch/commands/handlers/create-branch-by-revision-id.handler.ts:25-59 | refuses a missing revision or a Draft and changes nothing then; else adds the start Head and its Draft with the source's tables |
| CommitResults.BranchedResult | src/features/branch/commands/handlers/create-branch-by-revision-id.handler.ts:78-139 | a new branch gets a start Head below the source and a Draft below that Head, both link what the source links and have no changes; nothing else is touched |
| Branching.BranchIsSound | src/features/branch/commands/handlers/create-branch-by-revision-id.handler.ts:25-139 | a new branch keeps everything committed unchanged, and a consistent store consistent |
| Cleanup.CleanupService.DeleteOrphanTables | src/infrastructure/database/cleanup.service.ts:43-62 | deletes and counts the tables no revision links and no active migration shadows |
| Cleanup.CleanupService.DeleteOrphanRows | src/infrastructure/database/cleanup.service.ts:64-74 | deletes and counts the rows no table links |
| Cleanup.CleanupService.CleanOrphanedData | src/infrastructure/database/cleanup.service.ts:29-41 | tables first, then rows |
| Cleanup.CleanupKeepsExactlyTheReachable | src/infrastructure/database/cleanup.service.ts:43-74 | exactly the versions reachable from a revision or an active migration survive, with their columns and links |
| Cleanup.CleanupIsIdempotent | src/infrastructure/database/cleanup.service.ts:29-41 | a second run deletes nothing |
| Cleanup.CleanupIsSound | src/infrastructure/database/cleanup.service.ts:43-74 | cleanup keeps everything committed unchanged, and a consistent store consistent |
| CommittedVersions.CommittedVersionsNeverChange | src/__tests__/assertions/committed-versions-guard.ts:83-172 | between any two states of any run of all these writes, every removal of rows and every fitting plan among them, everything committed in the first is still committed, readonly and the same column by column and link by link |
| CommittedVersions.RunKeepsCommitted | src/__tests__/assertions/committed-versions-guard.ts:83-101 | every such run keeps what was committed at its start |
| CommittedVersions.EveryRunKeepsTheHistory | src/features/draft-revision/services/commit-transition.service.ts:51-93 | in every state of every such run each branch has exactly one Head and one Draft, the Draft continues Head, and one chain holds all revisions |
| CommittedVersions.OrderlyRunsKeepTheFlag | src/features/draft-revision/services/draft-revision-internal.service.ts:65-78 | in every state of a run whose removals meet the condition of RemovalFits, and whose plans that of CommitFits or RevertFits, each revision links one version per table and every flag is exact |
| CommittedVersions.BranchHasOneOfEach | src/features/draft-revision/services/commit-transition.service.ts:51-93 | a branch with the history these writes keep has one Head and one Draft |
| CommittedVersions.SomeRunExists | src/features/draft-revision/commands/handlers/draft-revision-commit.handler.ts:24-57 | such runs exist, orderly ones among them |
| CommittedVersions.SomeRunIsNotOrderly | src/features/draft-revision/commands/handlers/draft-revision-remove-rows.handler.ts:33-60 | a run whose removal breaks consistency, and still changes nothing committed |
| EscalationSlots.Capacity | src/infrastructure/database/escalation-slots.ts:18-23 | at least one slot; with two connections or more, two connections fit for every slot and one more slot would not |
| EscalationSlots.EscalationSlots.Acquire | src/infrastructure/database/escalation-slots.ts:25-34 | takes a free slot or joins the end of the queue |
| EscalationSlots.EscalationSlots.Release | src/infrastructure/database/escalation-slots.ts:36-45 | hands the slot to the first in the queue, else frees it |
| EscalationSlots.EscalationSlots.StopWaiting | src/infrastructure/database/escalation-slots.ts:62-68 | takes an expired waiter out of the queue |
| EscalationSlots.SlotsAreConserved | src/infrastructure/database/escalation-slots.ts:18-68 | in every reachable state held and free slots add up to the capacity, slots are free only while nobody waits, and who expired never holds a slot later |
| EscalationSlots.ReleaseConserves | src/infrastructure/database/escalation-slots.ts:36-45 | a released slot goes to the earliest arrival still waiting, never to an expired one |
| EscalationSlots.FirstComeFirstServed | src/infrastructure/database/escalation-slots.ts:47-60 | while an earlier arrival still waits, no later one gets a slot, over any run |
| FenceProperties.InvIsKept | src/infrastructure/database/branch-fence-escalation.ts:76-115 | every step of the protocol keeps locks, connections, phases and slots matching |
| FenceProperties.StartFits | src/infrastructure/database/escalation-slots.ts:18-23 | the protocol starts with all of that in place, for every pool size |
| FenceGuarantees.ProtectedExcludes | src/infrastructure/database/exclusive-fence-holder.ts:20-63 | between snapshot and end, while its holder has not timed out, an attempt holds its branch exclusively: no shared entry is in flight, no writer can be admitted, another attempt enters exactly if its own holder of that branch timed out, and no second attempt is protected there |
| FenceGuarantees.NeverWaitsOnItself | src/infrastructure/database/branch-write-fence.service.ts:38-86 | an attempt enters its own branch without a lock, and no entry of its waits on its own holder |
| FenceGuarantees.EarlierWritesEndedBeforeSnapshot | src/infrastructure/database/operation-transaction-runner.ts:103-167 | in every interleaving a shared entry in flight earlier, of a writer or of another escalated attempt, ended before the snapshot of a protected attempt |
| FenceGuarantees.NoWriteEntersWhileProtected | src/infrastructure/database/escalating-transaction-runner.ts:36-53 | from snapshot to end no writer is admitted to the branch, and no other escalated attempt except one whose own holder of that branch timed out, however steps interleave |
| FenceGuarantees.SlotGivenBackOnce | src/infrastructure/database/branch-fence-escalation.ts:76-92 | each escalation gives its slot back exactly once if it got one, never if it was refused |
| FenceGuarantees.AllSlotsComeBack | src/infrastructure/database/branch-fence-escalation.ts:76-92 | when every escalation is over, all slots are free and nobody waits |
| FenceGuarantees.PoolIsNeverExhausted | src/infrastructure/database/escalation-slots.ts:5-23 | with at least two connections, escalated attempts hold at most half the pool for themselves, so some connection is free or belongs to work that needs no further one |
| FenceGuarantees.SingleConnectionStarves | src/infrastructure/database/escalation-slots.ts:10-23 | with one connection a reachable state has the only escalation waiting for a connection that nothing but its own end frees |
| FenceLaws.WritersEndBeforeSnapshot | src/infrastructure/database/branch-write-fence.service.ts:38-86 | in any run a writer admitted to a branch has ended before an escalation of that branch takes its snapshot, unless the holder of that escalation timed out |
| FenceLaws.AttemptsEndBeforeSnapshot | src/infrastructure/database/branch-write-fence.service.ts:38-86 | so has an escalated attempt of another branch that entered this one |
| FenceLaws.NothingEntersUntilTheEnd | src/infrastructure/database/exclusive-fence-holder.ts:20-63 | from that snapshot until the attempt ends or its holder times out no writer is admitted to the branch, and another attempt enters it or takes a snapshot of it only if its own holder of it timed out |
| FenceLaws.OnlyHoldersKeepWritersOut | src/infrastructure/database/branch-write-fence.service.ts:38-86 | a writer that cannot enter a branch waits for an escalation of that branch whose holder took the lock and has not ended |
| FenceLaws.GivenUpNeverWrites | src/infrastructure/database/branch-fence-escalation.ts:76-115 | an escalation that gave up waiting for its slot never begins, and one whose holder failed takes no snapshot and enters no branch |
| FenceLaws.WaitsForTheWriter | src/infrastructure/database/exclusive-fence-holder.ts:20-63 | a concrete state in which the holder waits for a writer and goes on when that ends |
| FenceLaws.WholeRunExists | src/infrastructure/database/branch-fence-escalation.ts:76-115 | a concrete run from the start: a writer, an escalation that waits for it, and every lock, connection and slot free at the end |
| EscalationWaits.EscalationWaits.SlotTaken | src/infrastructure/database/branch-fence-escalation.ts:147-150 | the slot wait is charged rounded up, and a passed deadline refuses |
| EscalationWaits.Session.LockWithinWaitLimit | src/infrastructure/database/branch-write-fence.service.ts:88-129 | the wait is bounded by at least one millisecond; on success the previous lock_timeout is back |
| EscalationWaits.Escalate | src/infrastructure/database/branch-fence-escalation.ts:76-115 | the stages of an escalated attempt in time: which of them refuses it, and as what failure, else the times and the timeout it gets, with the bounds below for every duration of every stage |
| EscalationWaits.AttemptUnderHolder | src/infrastructure/database/branch-fence-escalation.ts:95-115 | the attempt from its look-up on: when its wait for the lock fails and as what, else the times and the timeout it gets |
| EscalationWaits.WaitsShareTheLimit | src/infrastructure/database/branch-write-fence.service.ts:10-36 | without a deadline both waits exceed the limit by at most one millisecond, only if the slot wait used it up, and half the timeout but one millisecond is left for the write |
| EscalationWaits.AttemptEndsWithDeadline | src/infrastructure/database/branch-fence-escalation.ts:147-161 | with a deadline the timeout an attempt gets ends it less than a millisecond after that deadline, the wait for the slot taken from it |
| EscalationWaits.HolderOutlivesTheDeadline | src/infrastructure/database/exclusive-fence-holder.ts:36-49 | with a deadline the holder cannot time out before the deadline plus 29 999 ms, whatever the stages took |
| EscalationWaits.HolderBoundIsTight | src/infrastructure/database/branch-fence-escalation.ts:147-161 | that bound cannot be raised |
| EscalationWaits.BoundedWaitEndsWithDeadline | src/infrastructure/database/branch-fence-escalation.ts:169-200 | a bounded wait ends less than a millisecond after the deadline, and only a wait cut short fails as the deadline |
| EscalationWaits.RollbackLead | src/infrastructure/database/operation-deadline.ts:93-108 | with at least 100 ms left the lead before the deadline is more than 99 ms; with less the body settles at once; the full 100 ms is kept exactly when the time left is a whole number of at least 100 ms |
| EscalationWaits.RollbackLeadIsCut | src/infrastructure/database/operation-deadline.ts:93-108 | a concrete lead of 99.5 ms |
| OperationDeadline.OperationDeadline.Run | src/infrastructure/database/operation-deadline.ts:40-57 | a result is returned exactly when the limits were armed, the body succeeded before its timer and the deadline, and so did setting the limits for the commit; a failure is one of a stage, or the timeout after the timer or the deadline |
| OperationDeadline.OperationDeadline.RunAttempt | src/infrastructure/database/operation-transaction-runner.ts:153-177 | what the caller of an attempt sees: a failure of some stage as it is, or the timeout, seen only after the timer, after the deadline, or where the database ended the transaction by its timeout; a body that failed before its timer is seen as the timeout exactly for the errors that mean it, so a serialization failure always stays one and is retried |
| MigratedViews.MigrateViews | src/features/share/views-migration.service.ts:61-92 | the loop over the patches leaves of every view, under the id it had, what one pass says: columns and sorts in order, each under the last name of its field and gone with a removed one; conditions likewise, and gone where the type of their field changed; groups that held nothing dropped by removals and type changes only |
| MigratedViews.MigrationIsOnePass | src/features/share/views-migration.service.ts:125-189 | so applying the patches one after the other is that one pass, for all patches |
| MigratedViews.FieldsKeepTheirReferences | src/features/share/views-migration.service.ts:125-164 | over legal patches a column or sort of a field of the previous schema ends under the name the field then has, and goes exactly when the field is removed |
| ViewsProperties.RenamesAreTracked | src/features/share/views-migration.service.ts:125-150 | over any legal patches, adds among them, the rename map resolves every live field of the previous schema to its name there |
| ViewsProperties.ReplaceComparesWithThePreviousType | src/features/share/views-migration.service.ts:166-189 | a replace drops the filters on a field of the previous schema exactly when its previous and its new type are both known and differ |
| ViewsProperties.NamesAreTraced | src/features/share/views-migration.service.ts:125-150 | whatever the patches, a name is looked up under the name it is traced back to through the moves |
| ViewsProperties.RenamedNames | src/features/share/views-migration.service.ts:125-150 | the rename map holds exactly the names that some move went to and no later move left |
| ViewsProperties.AddedFieldIsMistaken | src/features/share/views-migration.service.ts:118-119 | an added field is taken for a field of the previous schema exactly when its name is traced back to one; for the first added field that is when its name was one, or some earlier move went to it and none left it since |
| ViewsProperties.PassedNameIsNotMistaken | src/features/share/views-migration.service.ts:125-150 | a concrete name that a move went to and another left, which is not mistaken |
| ViewsProperties.AddedFieldCanShareAnOrigin | src/features/share/views-migration.service.ts:125-150 | a concrete pair of patches after which two fields resolve to one previous field |
| ViewsProperties.RemovalKeepsTheOthers | src/features/share/views-migration.service.ts:313-333 | removing a field removes exactly its conditions at every depth and keeps the others in order |
| ViewsProperties.SurvivingGroupsHold | src/features/share/views-migration.service.ts:320-331 | every nested group that survives holds some condition, in itself or below |
| ViewsProperties.RemovedFieldIsGone | src/features/share/views-migration.service.ts:234-246 | a removed field is mentioned nowhere in the view |
| ViewsProperties.MoveKeepsMeaning | src/features/share/views-migration.service.ts:278-297 | a moved filter means over the new names what it meant over the old ones, for any meaning of conditions |
| ViewsProperties.MovingBackRestores | src/features/share/views-migration.service.ts:204-232 | moving a field and moving it back restores a view exactly when the view did not mention the target |
| FileBlobs.FileBlobCleanupService.TombstoneActive | src/features/file-usage/services/file-blob-cleanup.service.ts:88-113 | stamps the listed active blobs and returns those that then carry the marker |
| FileBlobs.FileBlobCleanupService.TryDecrementProjectCounter | src/features/file-usage/services/file-blob-cleanup.service.ts:173-188 | decrements exactly when the counter covers the amount |
| FileBlobs.FileBlobCleanupService.DecrementProjectCounter | src/features/file-usage/services/file-blob-cleanup.service.ts:115-132 | run alone it takes the amount, stops at zero, and creates a missing counter at zero |
| FileBlobsProperties.DecrementStopsAtZero | src/features/file-usage/services/file-blob-cleanup.service.ts:115-132 | what that leaves: old minus amount, never below zero, and no other counter touched |
| FileBlobs.FileBlobCleanupService.GroupBytesByProject | src/features/file-usage/services/file-blob-cleanup.service.ts:154-163 | the loop sums the bytes of each project |
| FileBlobs.FileBlobCleanupService.DecrementProjectCounters | src/features/file-usage/services/file-blob-cleanup.service.ts:165-171 | the loop decrements each project once, in any order |
| FileBlobs.FileBlobCleanupService.FinalizeAcrossProjects | src/features/file-usage/services/file-blob-cleanup.service.ts:55-78 | the result and the new blobs and counters, whole |
| FileBlobs.FileBlobCleanupService.FinalizeForSingleProject | src/features/file-usage/services/file-blob-cleanup.service.ts:28-53 | the same with all bytes taken from one project |
| FileBlobsProperties.CleanupKeepsCounters | src/features/file-usage/services/file-blob-cleanup.service.ts:55-113 | exact counters stay exact if and only if the call stamps nothing or, for every project, the marker was on no listed bytes before or nothing of the project stays active |
| FileBlobsProperties.FreshCleanupKeepsCounters | src/features/file-usage/services/file-blob-cleanup.service.ts:55-113 | with a fresh marker they always do, and each counter falls by exactly its tombstoned bytes |
| FileBlobsProperties.ReusedMarkerCountsTwice | src/features/file-usage/services/file-blob-cleanup.service.ts:95-110 | a concrete reuse of a millisecond after which a counter that was exact no longer is |
| FileBlobsProperties.FreedBytesAreTheTotal | src/features/file-usage/services/file-blob-cleanup.service.ts:72-82 | the freed bytes are the total over the projects |
| FileBlobsProperties.TombstonedBlobs | src/features/file-usage/services/file-blob-cleanup.service.ts:88-113 | the listed blobs that were not deleted get the marker and all others stay as they are; the tombstoned ones are the listed blobs that carry the marker |
| FileBlobsProperties.OrphanHashesAreExact | src/features/file-usage/services/file-blob-cleanup.service.ts:134-152 | the reported hashes are, each once, those of tombstoned blobs of which no blob that is not deleted is left |
| FileBlobsProperties.RepeatedCleanupDoesNothing | src/features/file-usage/services/file-blob-cleanup.service.ts:55-70 | repeating the call stamps nothing and changes nothing |
| FileBlobsProperties.OneProjectAgrees | src/features/file-usage/services/file-blob-cleanup.service.ts:28-53 | for blobs of one project both ways take the same bytes |
| FileBlobsProperties.CountersAreNeverNegative | src/features/file-usage/services/file-blob-cleanup.service.ts:173-249 | no interleaving of the counter statements makes a counter negative |
| RowChanges.StatsAreFilteredCounts | src/engine-sql-queries.ts:532-550 | every statistic equals the count query filtered by that kind |
| RowChangeFacts.ChangesAndTheirTypes | src/engine-sql-queries.ts:447-462 | a row without a counterpart is listed as ADDED or REMOVED; two rows of one identity are listed exactly when public id or hash differ, as RENAMED, MODIFIED or both |
| RowChangeFacts.OnlyChangesAreListed | src/engine-sql-queries.ts:456-462 | nothing else is listed |
| RowChangeFacts.ListedChanges | src/engine-sql-queries.ts:464-475 | the list holds exactly the changes whose id on either side matches the term and whose type was asked for, a row that is both for either |
| RowChangeFacts.ListIsNewestFirst | src/engine-sql-queries.ts:476-478 | rows updated later come first, and of rows updated at the same time the one of the smaller identity |
| RowChangeFacts.StatsCountIdentities | src/engine-sql-queries.ts:532-550 | with identities unique on each side, added counts those in the child revision only, removed those in the parent only, renamed and modified the common ones whose public id or hash differs, and total all of them once |
| RowChanges.TotalIsTheSumOfKinds | src/engine-sql-queries.ts:532-550 | the total is added plus removed plus renamed plus modified, less the rows that are both renamed and modified |
| RowChanges.SameChanges | src/engine-sql-queries.ts:561-611 | the queries that read fewer columns join and filter to the same changes |
| RowChanges.CountIsTheListsLength | src/engine-sql-queries.ts:598-632 | the count, taken over its own columns, is the length of the unpaginated list under the same filters, which is ordered and holds exactly the filtered changes |
| RowChanges.PageIsPart | src/engine-sql-queries.ts:476-480 | a page is the part of the list from its offset |
| RowChanges.ChangesAreTheDifferences | src/engine-sql-queries.ts:447-462 | with identities unique on each side, an identity is listed exactly when it exists on one side only or its public id or hash differ |
| RowChanges.PairsAreByIdentity | src/engine-sql-queries.ts:456-457 | each pair of the join is what the two sides hold of one identity |
| KeysetIteration.IterateMatchingRows | src/features/share/foreign-keys.service.ts:221-237 | the do-while loop terminates and yields the pages one after the other |
| KeysetIteration.IterationIsComplete | src/features/share/foreign-keys.service.ts:221-263 | every matching row is visited as often as it occurs, and no other, in id order, if and only if no page ends between two matching rows of one id |
| KeysetIteration.UniqueIdsAreVisitedOnce | src/features/share/foreign-keys.service.ts:221-263 | so it does when public ids are unique in the version |
| KeysetIteration.RepeatedIdIsSkipped | src/features/share/foreign-keys.service.ts:239-255 | a hundred and one rows of one id, of which the last is never visited |

## Left out

- The planner of partial changes, the ledger of migrations and file references of new rows: only the plans they produce enter the model.
- Checks of public ids, names and payloads in the handlers: they refuse more writes and change nothing.
- Writes of several rows at once: creating and removing take any number of rows, updating and renaming are one row per event, repeated.
- Deleting a branch or a project: it removes committed revisions on purpose, so no run contains it.
- Comments of revisions and update times of tables and rows: no property here reads them.
- Retries after serialization failures and the loss of connections: a failed transaction leaves no trace.
- The order in which PostgreSQL grants waiting advisory locks: every order is possible in the model.
- The escalation, its fence service and its holder as objects with promises: they are the steps of one interleaving machine, and their time arithmetic is a method.
- Lateness of timers and the event loop: the clock is ideal, and a wait ends no later than its limit.
- View patches of nested paths, and the normalization of patch paths: fields are top-level and named.
- SQL text, JSON path matching and parameters: each query is the relation it computes.
- EscalationSlots.EscalationSlots.Acquire: the wait itself is not a method; hand-over and expiry are separate calls.
- Cleanup.CleanupService.CleanOrphanedData: leaves out the sweep of orphaned file blobs at the end of the same method, which touches neither tables nor rows.
- OperationDeadline.OperationDeadline.Run: leaves out the two poll phases awaited after a failure past the deadline.
- Several tables of one public id in Head: the lookup by public id may find any of them.
