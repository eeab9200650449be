/** CommitTransition: retire Head, promote the Draft, open the next Draft, and the sets of tables they link.
  * The native commit is this transition with the same tables and a lock of what the Draft owned. */
module Transition {
  import opened Wrappers
  import opened VersionStore
  import opened StatementSafety
  import opened StoreShape
  import opened VersionWriter
  import opened DraftWrites
  import opened DraftWriteEffects

  datatype TableLinkReplacement = TableLinkReplacement(replaced: Option<Id>, version: Option<Id>)

  datatype TransitionError = RecordMissing | NoHead | NoDraft | NoChanges

  // ---- What the service promises -----------------------------------------------------------

  predicate IsReplaced(replacements: seq<TableLinkReplacement>, t: Id) {
    exists i :: 0 <= i < |replacements| && replacements[i].replaced == Some(t)
  }

  function LinkedInstead(replacements: seq<TableLinkReplacement>): set<Id> {
    set i | 0 <= i < |replacements| && replacements[i].version.Some? :: replacements[i].version.value
  }

  function RelinkedTables(linked: set<Id>, replacements: seq<TableLinkReplacement>): set<Id> {
    (set t | t in linked && !IsReplaced(replacements, t)) + LinkedInstead(replacements)
  }

  function HeadRetired(db: Db, head: Id): Db
    requires head in db.revisions
  {
    UpdateRevision(db, head, Retired(db.revisions[head]))
  }

  function DraftPromoted(db: Db, draft: Id, tables: Option<set<Id>>): Db
    requires draft in db.revisions
  {
    var linked := if tables.Some? then SetTables(db, draft, tables.value) else db;
    UpdateRevision(linked, draft, Promoted(db.revisions[draft]))
  }

  function NextDraftOpened(db: Db, branch: Id, parent: Id, tables: set<Id>): Db {
    InsertRevision(db, NextDraft(branch, parent), tables)
  }

  // The transition as one step.
  function Advance(db: Db, head: Id, draft: Id, headTables: Option<set<Id>>, nextTables: set<Id>): Db
    requires head in db.revisions && draft in db.revisions
  {
    NextDraftOpened(DraftPromoted(HeadRetired(db, head), draft, headTables),
                    db.revisions[draft].branch, draft, nextTables)
  }

  // ---- The service -------------------------------------------------------------------------

  class CommitTransition {
    const transaction: Transaction

    constructor (transaction: Transaction)
      ensures this.transaction == transaction
    {
      this.transaction := transaction;
    }

    method RelinkedTablesOf(revision: Id, replacements: seq<TableLinkReplacement>) returns (tables: set<Id>)
      ensures tables == RelinkedTables(TablesOf(transaction.db, revision), replacements)
    {
      var linked := TablesOf(transaction.db, revision);
      var kept := set t | t in linked && !IsReplaced(replacements, t);
      tables := kept + LinkedInstead(replacements);
    }

    method RetireHead(head: Id) returns (r: Result<(), TransitionError>)
      modifies transaction
      ensures r.Success? <==> head in old(transaction.db).revisions
      ensures r.Success? ==> transaction.db == HeadRetired(old(transaction.db), head)
    {
      if head !in transaction.db.revisions {
        return Failure(RecordMissing);
      }
      var revision := transaction.db.revisions[head];
      transaction.db := UpdateRevision(transaction.db, head,
                                       revision.(isHead := false, isDraft := false, hasChanges := false));
      r := Success(());
    }

    method PromoteDraftToHead(draft: Id, tables: Option<set<Id>>) returns (r: Result<(), TransitionError>)
      modifies transaction
      ensures r.Success? <==>
        && draft in old(transaction.db).revisions
        && (tables.Some? ==> tables.value <= old(transaction.db).tables.Keys)
      ensures r.Success? ==> transaction.db == DraftPromoted(old(transaction.db), draft, tables)
    {
      if draft !in transaction.db.revisions || (tables.Some? && !(tables.value <= transaction.db.tables.Keys)) {
        return Failure(RecordMissing);
      }
      if tables.Some? {
        transaction.db := SetTables(transaction.db, draft, tables.value);
      }
      var revision := transaction.db.revisions[draft];
      transaction.db := UpdateRevision(transaction.db, draft,
                                       revision.(isHead := true, isDraft := false, hasChanges := false));
      r := Success(());
    }

    method OpenNextDraft(branch: Id, parent: Id, tables: set<Id>) returns (r: Result<Id, TransitionError>)
      modifies transaction
      ensures r.Success? <==> parent in old(transaction.db).revisions && tables <= old(transaction.db).tables.Keys
      ensures r.Success? ==>
        && transaction.db == NextDraftOpened(old(transaction.db), branch, parent, tables)
        && r.value == old(transaction.db).nextId
    {
      if parent !in transaction.db.revisions || !(tables <= transaction.db.tables.Keys) {
        return Failure(RecordMissing);
      }
      var id := transaction.db.nextId;
      transaction.db := InsertRevision(transaction.db, Revision(branch, false, true, false, false, Some(parent)),
                                       tables);
      r := Success(id);
    }
  }

  // ---- Relinking ---------------------------------------------------------------------------

  // Each replacement stays on its own identity: it replaces the only linked version of it, if there is one,
  // by a version of it.
  ghost predicate StaysOnIdentity(db: Db, linked: set<Id>, replacement: TableLinkReplacement, identity: Id)
    requires linked <= db.tables.Keys
  {
    && (forall t | t in linked :: db.tables[t].createdId == identity <==> replacement.replaced == Some(t))
    && (replacement.version.Some? ==>
          replacement.version.value in db.tables && db.tables[replacement.version.value].createdId == identity)
  }

  ghost predicate StayOnIdentities(db: Db, linked: set<Id>, replacements: seq<TableLinkReplacement>,
                                   identities: seq<Id>)
    requires linked <= db.tables.Keys
  {
    && |replacements| == |identities| && Distinct(identities)
    && forall i | 0 <= i < |identities| :: StaysOnIdentity(db, linked, replacements[i], identities[i])
  }

  // Relinking then keeps at most one version per table, and each planned table gets exactly its version.
  lemma RelinkKeepsIdentities(db: Db, linked: set<Id>, replacements: seq<TableLinkReplacement>, identities: seq<Id>)
    requires linked <= db.tables.Keys && DistinctIdentities(db, linked)
    requires StayOnIdentities(db, linked, replacements, identities)
    ensures var relinked := RelinkedTables(linked, replacements);
      && relinked <= db.tables.Keys
      && DistinctIdentities(db, relinked)
      && (forall i, t | 0 <= i < |identities| && t in relinked ::
            db.tables[t].createdId == identities[i] <==> replacements[i].version == Some(t))
      && (forall t | t in db.tables && db.tables[t].createdId !in identities :: t in relinked <==> t in linked)
  {
  }

  // ---- The transition keeps everything -----------------------------------------------------

  ghost predicate CanAdvanceTo(db: Db, head: Id, draft: Id, headTables: set<Id>, nextTables: set<Id>) {
    && Safe(db) && History(db.revisions)
    && IsDraft(db, draft) && db.revisions[draft].parent == Some(head)
    && headTables <= db.tables.Keys && nextTables <= db.tables.Keys
    && (forall t | t in headTables :: db.tables[t].readonly)
  }

  lemma CanAdvanceRevisions(db: Db, head: Id, draft: Id, headTables: set<Id>, nextTables: set<Id>)
    requires CanAdvanceTo(db, head, draft, headTables, nextTables)
    ensures head in db.revisions && head != draft && !db.revisions[head].isDraft
    ensures CanAdvance(db.revisions, head, draft, db.nextId)
    ensures Advance(db, head, draft, Some(headTables), nextTables).revisions
         == Advanced(db.revisions, head, draft, db.nextId)
  {
    HeadIsPlaced(db.revisions, head, draft, db.nextId);
  }

  lemma PromotionIsSafe(db: Db, draft: Id, headTables: set<Id>)
    requires Safe(db) && IsDraft(db, draft) && headTables <= db.tables.Keys
    requires forall t | t in headTables :: db.tables[t].readonly
    ensures Safe(DraftPromoted(db, draft, Some(headTables)))
    ensures KeepsCommitted(db, DraftPromoted(db, draft, Some(headTables)))
  {
    var linked := SetTables(db, draft, headTables);
    SetTablesIsSafe(db, draft, headTables);
    assert TablesOf(linked, draft) == headTables;
    assert linked.tables == db.tables && linked.revisions == db.revisions;
    UpdateRevisionIsSafe(linked, draft, Promoted(db.revisions[draft]));
    hide *;
    KeepsIsTransitive(db, linked, UpdateRevision(linked, draft, Promoted(db.revisions[draft])));
  }

  lemma RetirementIsSafe(db: Db, head: Id)
    requires Safe(db) && head in db.revisions && !db.revisions[head].isDraft
    ensures Safe(HeadRetired(db, head))
    ensures KeepsCommitted(db, HeadRetired(db, head))
  {
    assert forall t | t in TablesOf(db, head) :: TableLink(head, t) in db.tableLinks;
    UpdateRevisionIsSafe(db, head, Retired(db.revisions[head]));
  }

  lemma AdvanceIsSafe(db: Db, head: Id, draft: Id, headTables: set<Id>, nextTables: set<Id>)
    requires CanAdvanceTo(db, head, draft, headTables, nextTables) && head in db.revisions
    ensures Safe(Advance(db, head, draft, Some(headTables), nextTables))
    ensures KeepsCommitted(db, Advance(db, head, draft, Some(headTables), nextTables))
  {
    CanAdvanceRevisions(db, head, draft, headTables, nextTables);
    var one := HeadRetired(db, head);
    RetirementIsSafe(db, head);
    var two := DraftPromoted(one, draft, Some(headTables));
    PromotionIsSafe(one, draft, headTables);
    var three := NextDraftOpened(two, db.revisions[draft].branch, draft, nextTables);
    assert nextTables <= two.tables.Keys && NextDraft(db.revisions[draft].branch, draft).isDraft;
    InsertRevisionIsSafe(two, NextDraft(db.revisions[draft].branch, draft), nextTables);
    hide *;
    KeepsIsTransitive(db, one, two);
    KeepsIsTransitive(db, two, three);
  }

  lemma AdvanceLinksOf(db: Db, head: Id, draft: Id, headTables: set<Id>, nextTables: set<Id>, r: Id, t: Id)
    requires head in db.revisions && draft in db.revisions && draft < db.nextId && LinksExist(db) && IdsIssued(db)
    ensures TableLink(r, t) in Advance(db, head, draft, Some(headTables), nextTables).tableLinks
       <==> if r == draft then t in headTables else if r == db.nextId then t in nextTables
            else TableLink(r, t) in db.tableLinks
  {
  }

  lemma LinkedTables(db: Db, r: Id)
    ensures forall t :: t in TablesOf(db, r) <==> TableLink(r, t) in db.tableLinks
  {
  }

  // What each revision links afterwards.
  lemma AdvanceTables(db: Db, head: Id, draft: Id, headTables: set<Id>, nextTables: set<Id>)
    requires CanAdvanceTo(db, head, draft, headTables, nextTables) && head in db.revisions
    ensures var after := Advance(db, head, draft, Some(headTables), nextTables);
      && TablesOf(after, draft) == headTables && TablesOf(after, db.nextId) == nextTables
      && (forall r | r != draft && r != db.nextId :: TablesOf(after, r) == TablesOf(db, r))
  {
    var after := Advance(db, head, draft, Some(headTables), nextTables);
    assert draft in db.revisions && draft < db.nextId && LinksExist(db) && IdsIssued(db);
    hide *;
    forall r: Id
      ensures r == draft ==> TablesOf(after, r) == headTables
      ensures r == db.nextId ==> TablesOf(after, r) == nextTables
      ensures r != draft && r != db.nextId ==> TablesOf(after, r) == TablesOf(db, r)
    {
      LinkedTables(after, r);
      LinkedTables(db, r);
      forall t: Id {
        AdvanceLinksOf(db, head, draft, headTables, nextTables, r, t);
      }
    }
  }

  // The next Draft takes over what only the old Draft could change, or versions nothing links yet.
  ghost predicate HandedOver(db: Db, draft: Id, nextTables: set<Id>)
    requires LinksExist(db) && nextTables <= db.tables.Keys
  {
    forall l | l in db.tableLinks && l.table in nextTables && !db.tables[l.table].readonly :: l.revision == draft
  }

  lemma AdvanceKeepsTableIdentities(db: Db, head: Id, draft: Id, headTables: set<Id>, nextTables: set<Id>)
    requires CanAdvanceTo(db, head, draft, headTables, nextTables) && head in db.revisions && TableIdentities(db)
    requires DistinctIdentities(db, headTables) && DistinctIdentities(db, nextTables)
    requires LinksExist(Advance(db, head, draft, Some(headTables), nextTables))
    ensures TableIdentities(Advance(db, head, draft, Some(headTables), nextTables))
  {
    var after := Advance(db, head, draft, Some(headTables), nextTables);
    AdvanceTables(db, head, draft, headTables, nextTables);
    forall k, l | k in after.tableLinks && l in after.tableLinks && k.revision == l.revision
                  && after.tables[k.table].createdId == after.tables[l.table].createdId
      ensures k.table == l.table
    {
      assert k.table in TablesOf(after, k.revision) && l.table in TablesOf(after, k.revision);
      if k.revision != draft && k.revision != db.nextId {
        assert TableLink(k.revision, k.table) in db.tableLinks && TableLink(k.revision, l.table) in db.tableLinks;
      }
    }
  }

  lemma AdvanceLinks(db: Db, head: Id, draft: Id, headTables: set<Id>, nextTables: set<Id>)
    requires CanAdvanceTo(db, head, draft, headTables, nextTables) && head in db.revisions
    ensures var after := Advance(db, head, draft, Some(headTables), nextTables);
      && after.tables == db.tables
      && forall l | l in after.tableLinks ::
           if l.revision == draft then l.table in headTables
           else if l.revision == db.nextId then l.table in nextTables
           else l in db.tableLinks
  {
    assert draft < db.nextId;
  }

  lemma AdvanceKeepsOwners(db: Db, head: Id, draft: Id, headTables: set<Id>, nextTables: set<Id>)
    requires CanAdvanceTo(db, head, draft, headTables, nextTables) && head in db.revisions && MutableIsOwned(db)
    requires HandedOver(db, draft, nextTables)
    requires LinksExist(Advance(db, head, draft, Some(headTables), nextTables))
    ensures MutableIsOwned(Advance(db, head, draft, Some(headTables), nextTables))
  {
    var after := Advance(db, head, draft, Some(headTables), nextTables);
    AdvanceLinks(db, head, draft, headTables, nextTables);
    hide Advance, History, Safe;
    forall k, l | k in after.tableLinks && l in after.tableLinks && k.table == l.table
       && !after.tables[k.table].readonly
      ensures k.revision == l.revision
    {
      assert k.table !in headTables;
    }
  }

  lemma AdvancedRevisions(db: Db, head: Id, draft: Id, headTables: set<Id>, nextTables: set<Id>)
    requires head in db.revisions && draft in db.revisions && head != draft
    ensures var after := WithNextFlag(db, head, draft, headTables, nextTables);
      after.revisions
        == db.revisions[head := Retired(db.revisions[head])][draft := Promoted(db.revisions[draft])]
             [db.nextId := NextDraft(db.revisions[draft].branch, draft).(hasChanges := nextTables != headTables)]
  {
  }

  lemma AdvancedDrafts(db: Db, head: Id, draft: Id, headTables: set<Id>, nextTables: set<Id>, after: Db)
    requires CanAdvanceTo(db, head, draft, headTables, nextTables) && head in db.revisions
    requires after == WithNextFlag(db, head, draft, headTables, nextTables)
    ensures db.nextId !in db.revisions
    ensures IsDraft(after, db.nextId) && after.revisions[db.nextId].parent == Some(draft)
    ensures after.revisions[db.nextId].hasChanges <==> nextTables != headTables
    ensures forall e | IsDraft(after, e) && e != db.nextId ::
      e != draft && e in db.revisions && after.revisions[e] == db.revisions[e]
  {
    assert db.nextId !in db.revisions;
    assert IsDraft(db, draft);
    hide CanAdvanceTo, Advance, WithNextFlag;
    CanAdvanceRevisions(db, head, draft, headTables, nextTables);
    AdvancedRevisions(db, head, draft, headTables, nextTables);
    hide *;
    DraftsAfterAdvance(db.revisions, head, draft, db.nextId, nextTables != headTables, after);
  }

  lemma DraftsAfterAdvance(revisions: map<Id, Revision>, head: Id, draft: Id, next: Id, hasChanges: bool, after: Db)
    requires head in revisions && draft in revisions && next !in revisions
    requires after.revisions == revisions[head := Retired(revisions[head])][draft := Promoted(revisions[draft])]
                                  [next := NextDraft(revisions[draft].branch, draft).(hasChanges := hasChanges)]
    ensures IsDraft(after, next) && after.revisions[next].parent == Some(draft)
    ensures after.revisions[next].hasChanges == hasChanges
    ensures forall e | IsDraft(after, e) && e != next ::
      e != draft && e in revisions && after.revisions[e] == revisions[e]
  {
  }

  lemma AdvancedTables(db: Db, head: Id, draft: Id, headTables: set<Id>, nextTables: set<Id>, after: Db)
    requires CanAdvanceTo(db, head, draft, headTables, nextTables) && head in db.revisions
    requires after == WithNextFlag(db, head, draft, headTables, nextTables)
    ensures TablesOf(after, draft) == headTables && TablesOf(after, db.nextId) == nextTables
    ensures forall r | r != draft && r != db.nextId :: TablesOf(after, r) == TablesOf(db, r)
  {
    AdvanceTables(db, head, draft, headTables, nextTables);
    FlaggedTables(Advance(db, head, draft, Some(headTables), nextTables), db.nextId, nextTables != headTables);
    hide *;
  }

  lemma OtherFlagsStayExact(a: Db, b: Db, draft: Id, next: Id)
    requires FlagsExact(a) && Chained(a.revisions) && IsDraft(a, draft) && next !in a.revisions
    requires forall e | IsDraft(b, e) && e != next :: e != draft && e in a.revisions && b.revisions[e] == a.revisions[e]
    requires forall r | r != draft && r != next :: TablesOf(b, r) == TablesOf(a, r)
    requires IsDraft(b, next) && b.revisions[next].parent == Some(draft)
    requires b.revisions[next].hasChanges <==> TablesOf(b, next) != TablesOf(b, draft)
    ensures FlagsExact(b)
  {
    hide TablesOf;
    forall e | IsDraft(b, e) && e != next && b.revisions[e].parent.Some?
      ensures b.revisions[e].hasChanges <==> TablesOf(b, e) != TablesOf(b, b.revisions[e].parent.value)
    {
      assert WellPlaced(a.revisions, e);
    }
  }

  lemma AdvanceKeepsFlags(db: Db, head: Id, draft: Id, headTables: set<Id>, nextTables: set<Id>, after: Db)
    requires CanAdvanceTo(db, head, draft, headTables, nextTables) && head in db.revisions && FlagsExact(db)
    requires after == WithNextFlag(db, head, draft, headTables, nextTables)
    ensures FlagsExact(after)
  {
    AdvancedDrafts(db, head, draft, headTables, nextTables, after);
    AdvancedTables(db, head, draft, headTables, nextTables, after);
    assert Chained(db.revisions) && IsDraft(db, draft);
    hide *;
    OtherFlagsStayExact(db, after, draft, db.nextId);
  }

  // The transition and then "has changes", which is only the comparison of the two sets of links.
  function WithNextFlag(db: Db, head: Id, draft: Id, headTables: set<Id>, nextTables: set<Id>): Db
    requires head in db.revisions && draft in db.revisions
  {
    WithFlag(Advance(db, head, draft, Some(headTables), nextTables), db.nextId, nextTables != headTables)
  }

  lemma AdvanceKeepsRows(db: Db, head: Id, draft: Id, headTables: set<Id>, nextTables: set<Id>)
    requires head in db.revisions && draft in db.revisions && LinksExist(db) && RowIdentities(db)
    requires LinksExist(Advance(db, head, draft, Some(headTables), nextTables))
    ensures RowIdentities(Advance(db, head, draft, Some(headTables), nextTables))
  {
    var after := Advance(db, head, draft, Some(headTables), nextTables);
    assert after.rows == db.rows && after.rowLinks == db.rowLinks;
  }

  lemma AdvanceIsGuarded(db: Db, head: Id, draft: Id, headTables: set<Id>, nextTables: set<Id>)
    requires CanAdvanceTo(db, head, draft, headTables, nextTables) && head in db.revisions
    requires RowIdentities(db) && MutableIsOwned(db) && HandedOver(db, draft, nextTables)
    ensures Guarded(Advance(db, head, draft, Some(headTables), nextTables))
    ensures KeepsCommitted(db, Advance(db, head, draft, Some(headTables), nextTables))
    ensures IsDraft(Advance(db, head, draft, Some(headTables), nextTables), db.nextId)
  {
    var advanced := Advance(db, head, draft, Some(headTables), nextTables);
    assert draft in db.revisions && LinksExist(db) && HandedOver(db, draft, nextTables);
    CanAdvanceRevisions(db, head, draft, headTables, nextTables);
    assert IsDraft(advanced, db.nextId);
    hide *;
    AdvanceIsSafe(db, head, draft, headTables, nextTables);
    SafeHasLinks(advanced);
    AdvanceKeepsRows(db, head, draft, headTables, nextTables);
    AdvanceKeepsOwners(db, head, draft, headTables, nextTables);
    AdvanceKeepsHistory(db.revisions, head, draft, db.nextId);
    GuardedOf(advanced);
  }

  lemma FlagIsGuarded(db: Db, d: Id, hasChanges: bool)
    requires Guarded(db) && IsDraft(db, d)
    ensures Guarded(WithFlag(db, d, hasChanges)) && KeepsCommitted(db, WithFlag(db, d, hasChanges))
  {
    var after := WithFlag(db, d, hasChanges);
    FlagIsSafe(db, d, hasChanges);
    FlaggedRows(db, d, hasChanges);
    assert MutableIsOwned(after);
    FlagKeepsHistory(db.revisions, d, hasChanges);
    assert after.revisions == db.revisions[d := db.revisions[d].(hasChanges := hasChanges)];
    hide *;
    GuardedOf(after);
  }

  // Whatever flag the next Draft gets, the transition keeps everything committed.
  lemma FlaggedAdvanceIsGuarded(db: Db, head: Id, draft: Id, headTables: set<Id>, nextTables: set<Id>, hasChanges: bool)
    requires CanAdvanceTo(db, head, draft, headTables, nextTables) && head in db.revisions
    requires RowIdentities(db) && MutableIsOwned(db) && HandedOver(db, draft, nextTables)
    ensures db.nextId in Advance(db, head, draft, Some(headTables), nextTables).revisions
    ensures var after := WithFlag(Advance(db, head, draft, Some(headTables), nextTables), db.nextId, hasChanges);
      Guarded(after) && KeepsCommitted(db, after)
  {
    var advanced := Advance(db, head, draft, Some(headTables), nextTables);
    assert draft in db.revisions && LinksExist(db) && HandedOver(db, draft, nextTables);
    AdvanceIsGuarded(db, head, draft, headTables, nextTables);
    assert IsDraft(advanced, db.nextId) && db.nextId in advanced.revisions;
    hide *;
    FlagIsGuarded(advanced, db.nextId, hasChanges);
    KeepsIsTransitive(db, advanced, WithFlag(advanced, db.nextId, hasChanges));
  }

  lemma FlagKeepsTableIdentities(db: Db, d: Id, hasChanges: bool)
    requires LinksExist(db) && TableIdentities(db) && d in db.revisions
    ensures LinksExist(WithFlag(db, d, hasChanges)) && TableIdentities(WithFlag(db, d, hasChanges))
  {
  }

  // Main result of the transition: from a store ready to advance it leads to a consistent one.
  lemma AdvanceIsConsistent(db: Db, head: Id, draft: Id, headTables: set<Id>, nextTables: set<Id>)
    requires CanAdvanceTo(db, head, draft, headTables, nextTables) && head in db.revisions
    requires Shaped(db) && FlagsExact(db)
    requires DistinctIdentities(db, headTables) && DistinctIdentities(db, nextTables)
    requires HandedOver(db, draft, nextTables)
    ensures Consistent(WithNextFlag(db, head, draft, headTables, nextTables))
    ensures KeepsCommitted(db, WithNextFlag(db, head, draft, headTables, nextTables))
  {
    var advanced := Advance(db, head, draft, Some(headTables), nextTables);
    var after := WithNextFlag(db, head, draft, headTables, nextTables);
    assert RowIdentities(db) && MutableIsOwned(db) && TableIdentities(db) && draft in db.revisions;
    assert LinksExist(db) && HandedOver(db, draft, nextTables);
    FlaggedAdvanceIsGuarded(db, head, draft, headTables, nextTables, nextTables != headTables);
    AdvanceIsSafe(db, head, draft, headTables, nextTables);
    assert after == WithFlag(advanced, db.nextId, nextTables != headTables);
    assert DistinctIdentities(db, headTables) && DistinctIdentities(db, nextTables);
    hide *;
    SafeHasLinks(advanced);
    AdvanceKeepsTableIdentities(db, head, draft, headTables, nextTables);
    FlagKeepsTableIdentities(advanced, db.nextId, nextTables != headTables);
    AdvanceKeepsFlags(db, head, draft, headTables, nextTables, after);
    ConsistentOf(after);
  }
}
