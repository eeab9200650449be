/** The shape of the store beyond safety: identities, the branch history, who owns a mutable version,
  * and the flag that says whether a Draft differs from its parent. */
module StoreShape {
  import opened Wrappers
  import opened VersionStore

  // A table version holds at most one version of a row.
  ghost predicate RowIdentities(db: Db)
    requires LinksExist(db)
  {
    forall k, l | k in db.rowLinks && l in db.rowLinks && k.table == l.table ::
      db.rows[k.row].createdId == db.rows[l.row].createdId ==> k.row == l.row
  }

  ghost predicate DistinctIdentities(db: Db, tables: set<Id>)
    requires tables <= db.tables.Keys
  {
    forall s, t | s in tables && t in tables :: db.tables[s].createdId == db.tables[t].createdId ==> s == t
  }

  // A revision links at most one version of a table.
  ghost predicate TableIdentities(db: Db)
    requires LinksExist(db)
  {
    forall k, l | k in db.tableLinks && l in db.tableLinks && k.revision == l.revision ::
      db.tables[k.table].createdId == db.tables[l.table].createdId ==> k.table == l.table
  }

  // A version that can still change belongs to one revision.
  ghost predicate MutableIsOwned(db: Db)
    requires LinksExist(db)
  {
    forall k, l | k in db.tableLinks && l in db.tableLinks && k.table == l.table ::
      !db.tables[k.table].readonly ==> k.revision == l.revision
  }

  // A parent is older and committed; only the start of a branch continues another branch; a Draft continues Head.
  ghost predicate WellPlaced(revisions: map<Id, Revision>, r: Id)
    requires r in revisions
  {
    var revision := revisions[r];
    && (revision.parent.Some? ==>
          var p := revision.parent.value;
          p in revisions && p < r && !revisions[p].isDraft)
    && (!revision.isStart ==>
          revision.parent.Some? && revisions[revision.parent.value].branch == revision.branch)
    && (revision.isDraft ==>
          !revision.isHead && !revision.isStart && revisions[revision.parent.value].isHead)
  }

  ghost predicate Chained(revisions: map<Id, Revision>) {
    forall r {:trigger WellPlaced(revisions, r)} | r in revisions :: WellPlaced(revisions, r)
  }

  predicate Continues(revisions: map<Id, Revision>, r: Id, p: Id) {
    r in revisions && !revisions[r].isStart && revisions[r].parent == Some(p)
  }

  ghost predicate NoFork(revisions: map<Id, Revision>) {
    forall r, s, p :: Continues(revisions, r, p) && Continues(revisions, s, p) ==> r == s
  }

  datatype Role = Head | Draft | Start

  predicate Plays(revision: Revision, role: Role) {
    match role
    case Head => revision.isHead
    case Draft => revision.isDraft
    case Start => revision.isStart
  }

  ghost predicate AtMostOne(revisions: map<Id, Revision>, role: Role) {
    forall r, s | r in revisions && s in revisions && Plays(revisions[r], role) && Plays(revisions[s], role) ::
      revisions[r].branch == revisions[s].branch ==> r == s
  }

  ghost predicate PlayedIn(revisions: map<Id, Revision>, branch: Id, role: Role) {
    exists r :: r in revisions && Plays(revisions[r], role) && revisions[r].branch == branch
  }

  ghost predicate AtLeastOne(revisions: map<Id, Revision>, role: Role) {
    forall r | r in revisions :: PlayedIn(revisions, revisions[r].branch, role)
  }

  ghost predicate ExactlyOne(revisions: map<Id, Revision>, role: Role) {
    AtMostOne(revisions, role) && AtLeastOne(revisions, role)
  }

  ghost predicate History(revisions: map<Id, Revision>) {
    && Chained(revisions)
    && NoFork(revisions)
    && ExactlyOne(revisions, Head)
    && ExactlyOne(revisions, Draft)
    && ExactlyOne(revisions, Start)
  }

  // The flag of a Draft says exactly whether it links other table versions than its parent.
  ghost predicate FlagsExact(db: Db) {
    forall d | d in db.revisions && db.revisions[d].isDraft && db.revisions[d].parent.Some? ::
      db.revisions[d].hasChanges <==> TablesOf(db, d) != TablesOf(db, db.revisions[d].parent.value)
  }

  // ---- What changes revisions --------------------------------------------------------------

  function Retired(revision: Revision): Revision {
    revision.(isHead := false, isDraft := false, hasChanges := false)
  }

  function Promoted(revision: Revision): Revision {
    revision.(isHead := true, isDraft := false, hasChanges := false)
  }

  function NextDraft(branch: Id, parent: Id): Revision {
    Revision(branch, false, true, false, false, Some(parent))
  }

  // A branch starts as a Head and its Draft.
  function BranchHead(branch: Id, parent: Option<Id>): Revision {
    Revision(branch, true, false, true, false, parent)
  }

  function Advanced(revisions: map<Id, Revision>, head: Id, draft: Id, next: Id): map<Id, Revision>
    requires head in revisions && draft in revisions
  {
    revisions[head := Retired(revisions[head])][draft := Promoted(revisions[draft])]
      [next := NextDraft(revisions[draft].branch, draft)]
  }

  function Branched(revisions: map<Id, Revision>, branch: Id, parent: Option<Id>, next: Id): map<Id, Revision> {
    revisions[next := BranchHead(branch, parent)][next + 1 := NextDraft(branch, next)]
  }

  lemma Player(revisions: map<Id, Revision>, r: Id, role: Role) returns (player: Id)
    requires r in revisions && AtLeastOne(revisions, role)
    ensures player in revisions && Plays(revisions[player], role) && revisions[player].branch == revisions[r].branch
  {
    assert PlayedIn(revisions, revisions[r].branch, role);
    player :| player in revisions && Plays(revisions[player], role) && revisions[player].branch == revisions[r].branch;
  }

  lemma FlagKeepsRole(revisions: map<Id, Revision>, r: Id, hasChanges: bool, role: Role)
    requires r in revisions && ExactlyOne(revisions, role)
    ensures ExactlyOne(revisions[r := revisions[r].(hasChanges := hasChanges)], role)
  {
    var after := revisions[r := revisions[r].(hasChanges := hasChanges)];
    forall s | s in after
      ensures PlayedIn(after, after[s].branch, role)
    {
      var player := Player(revisions, s, role);
      assert Plays(after[player], role);
    }
  }

  lemma FlagKeepsHistory(revisions: map<Id, Revision>, r: Id, hasChanges: bool)
    requires History(revisions) && r in revisions
    ensures History(revisions[r := revisions[r].(hasChanges := hasChanges)])
  {
    var after := revisions[r := revisions[r].(hasChanges := hasChanges)];
    forall s | s in after
      ensures WellPlaced(after, s)
    {
      assert WellPlaced(revisions, s);
    }
    forall s, t, p | Continues(after, s, p) && Continues(after, t, p)
      ensures s == t
    {
      assert Continues(revisions, s, p) && Continues(revisions, t, p);
    }
    FlagKeepsRole(revisions, r, hasChanges, Head);
    FlagKeepsRole(revisions, r, hasChanges, Draft);
    FlagKeepsRole(revisions, r, hasChanges, Start);
  }

  ghost predicate CanAdvance(revisions: map<Id, Revision>, head: Id, draft: Id, next: Id) {
    && History(revisions) && (forall r | r in revisions :: r < next)
    && draft in revisions && revisions[draft].isDraft && revisions[draft].parent == Some(head)
  }

  lemma HeadIsPlaced(revisions: map<Id, Revision>, head: Id, draft: Id, next: Id)
    requires CanAdvance(revisions, head, draft, next)
    ensures head in revisions && head < draft && revisions[head].isHead && !revisions[head].isDraft
    ensures !revisions[draft].isHead && !revisions[draft].isStart && revisions[head].branch == revisions[draft].branch
    ensures WellPlaced(revisions, head)
  {
    assert WellPlaced(revisions, draft);
  }

  // The other Drafts of the store continue other Heads: their branches are others.
  lemma OtherDraftStays(revisions: map<Id, Revision>, head: Id, draft: Id, next: Id, r: Id)
    requires CanAdvance(revisions, head, draft, next) && r in revisions && r != draft && revisions[r].isDraft
    ensures revisions[r].parent.Some? && revisions[r].parent != Some(head) && revisions[r].parent != Some(draft)
  {
    HeadIsPlaced(revisions, head, draft, next);
    assert WellPlaced(revisions, r);
    assert Plays(revisions[r], Draft) && Plays(revisions[draft], Draft);
    assert Plays(revisions[revisions[r].parent.value], Head) && Plays(revisions[head], Head);
  }

  lemma PlacedAfterAdvance(revisions: map<Id, Revision>, head: Id, draft: Id, next: Id, r: Id)
    requires head in revisions && draft in revisions && next !in revisions && r in revisions
    requires WellPlaced(revisions, r) && head < draft < next && draft != head
    requires revisions[head].isHead && !revisions[head].isDraft && revisions[draft].parent == Some(head)
    requires revisions[draft].isDraft && !revisions[draft].isStart
    requires r != draft && revisions[r].isDraft ==>
      revisions[r].parent != Some(head) && revisions[r].parent != Some(draft)
    ensures WellPlaced(Advanced(revisions, head, draft, next), r)
  {
  }

  lemma NextIsPlaced(revisions: map<Id, Revision>, head: Id, draft: Id, next: Id)
    requires head in revisions && draft in revisions && head < draft < next
    ensures WellPlaced(Advanced(revisions, head, draft, next), next)
  {
  }

  lemma ChainedAt(revisions: map<Id, Revision>, r: Id)
    requires History(revisions) && r in revisions
    ensures WellPlaced(revisions, r)
  {
  }

  lemma ChainedOf(revisions: map<Id, Revision>)
    requires forall r | r in revisions :: WellPlaced(revisions, r)
    ensures Chained(revisions)
  {
  }

  lemma CanAdvanceMeans(revisions: map<Id, Revision>, head: Id, draft: Id, next: Id)
    requires CanAdvance(revisions, head, draft, next)
    ensures History(revisions) && next !in revisions && (forall r | r in revisions :: r < next)
    ensures draft in revisions && revisions[draft].isDraft && revisions[draft].parent == Some(head)
  {
    hide History;
  }

  lemma AdvancedKeys(revisions: map<Id, Revision>, head: Id, draft: Id, next: Id)
    requires head in revisions && draft in revisions
    ensures Advanced(revisions, head, draft, next).Keys == revisions.Keys + {next}
  {
  }

  lemma AdvanceKeepsChain(revisions: map<Id, Revision>, head: Id, draft: Id, next: Id)
    requires CanAdvance(revisions, head, draft, next) && head in revisions
    ensures draft in revisions && Chained(Advanced(revisions, head, draft, next))
  {
    hide *;
    CanAdvanceMeans(revisions, head, draft, next);
    HeadIsPlaced(revisions, head, draft, next);
    AdvancedKeys(revisions, head, draft, next);
    var after := Advanced(revisions, head, draft, next);
    forall r | r in after
      ensures WellPlaced(after, r)
    {
      if r == next {
        NextIsPlaced(revisions, head, draft, next);
      } else {
        assert r in revisions;
        ChainedAt(revisions, r);
        if r != draft && revisions[r].isDraft {
          OtherDraftStays(revisions, head, draft, next, r);
        }
        PlacedAfterAdvance(revisions, head, draft, next, r);
      }
    }
    ChainedOf(after);
  }

  lemma AdvanceKeepsLine(revisions: map<Id, Revision>, head: Id, draft: Id, next: Id)
    requires CanAdvance(revisions, head, draft, next) && head in revisions
    ensures NoFork(Advanced(revisions, head, draft, next))
  {
    var after := Advanced(revisions, head, draft, next);
    forall r, p | Continues(after, r, p) && r != next
      ensures Continues(revisions, r, p) && p != draft
    {
      assert WellPlaced(revisions, r);
    }
  }

  // Who plays a role afterwards, except the newcomer, played it or was the Draft.
  lemma PlayerBefore(revisions: map<Id, Revision>, head: Id, draft: Id, next: Id, role: Role, r: Id)
    requires head in revisions && draft in revisions && next !in revisions && head != draft
    requires revisions[head].branch == revisions[draft].branch && revisions[head].isHead && !revisions[head].isDraft
    requires revisions[draft].isDraft && !revisions[draft].isHead && !revisions[draft].isStart
    requires r in Advanced(revisions, head, draft, next) && Plays(Advanced(revisions, head, draft, next)[r], role)
    ensures var before := Predecessor(head, draft, next, role, r);
      && before in revisions && Plays(revisions[before], role)
      && revisions[before].branch == Advanced(revisions, head, draft, next)[r].branch
      && Successor(head, draft, next, role, before) == r
  {
  }

  function Predecessor(head: Id, draft: Id, next: Id, role: Role, r: Id): Id {
    if r == draft && role == Head then head else if r == next && role == Draft then draft else r
  }

  lemma OnlyPlayer(revisions: map<Id, Revision>, role: Role, r: Id, s: Id)
    requires AtMostOne(revisions, role) && r in revisions && s in revisions
    requires Plays(revisions[r], role) && Plays(revisions[s], role) && revisions[r].branch == revisions[s].branch
    ensures r == s
  {
  }

  lemma AtMostOneOf(revisions: map<Id, Revision>, role: Role)
    requires forall r, s | r in revisions && s in revisions && Plays(revisions[r], role) && Plays(revisions[s], role)
                           && revisions[r].branch == revisions[s].branch :: r == s
    ensures AtMostOne(revisions, role)
  {
  }

  lemma AdvanceKeepsAtMostOne(revisions: map<Id, Revision>, head: Id, draft: Id, next: Id, role: Role)
    requires CanAdvance(revisions, head, draft, next) && head in revisions && AtMostOne(revisions, role)
    ensures draft in revisions && AtMostOne(Advanced(revisions, head, draft, next), role)
  {
    hide *;
    CanAdvanceMeans(revisions, head, draft, next);
    HeadIsPlaced(revisions, head, draft, next);
    var after := Advanced(revisions, head, draft, next);
    forall r, s | r in after && s in after && Plays(after[r], role) && Plays(after[s], role)
                  && after[r].branch == after[s].branch
      ensures r == s
    {
      PlayerBefore(revisions, head, draft, next, role, r);
      PlayerBefore(revisions, head, draft, next, role, s);
      OnlyPlayer(revisions, role, Predecessor(head, draft, next, role, r), Predecessor(head, draft, next, role, s));
    }
    AtMostOneOf(after, role);
  }

  // Who plays the role of `player` after the transition.
  function Successor(head: Id, draft: Id, next: Id, role: Role, player: Id): Id {
    if player == head && role == Head then draft else if player == draft && role == Draft then next else player
  }

  lemma SuccessorPlays(revisions: map<Id, Revision>, head: Id, draft: Id, next: Id, role: Role, player: Id, s: Id)
    requires head in revisions && draft in revisions && next !in revisions && head != draft && player in revisions
    requires revisions[head].branch == revisions[draft].branch && revisions[head].isHead && !revisions[head].isDraft
    requires revisions[draft].isDraft && !revisions[draft].isHead && !revisions[draft].isStart
    requires s in Advanced(revisions, head, draft, next)
    requires Plays(revisions[player], role)
    requires revisions[player].branch == (if s == next then revisions[draft] else revisions[s]).branch
    ensures var after, now := Advanced(revisions, head, draft, next), Successor(head, draft, next, role, player);
      now in after && Plays(after[now], role) && after[now].branch == after[s].branch
  {
  }

  lemma PlayedBy(revisions: map<Id, Revision>, r: Id, branch: Id, role: Role)
    requires r in revisions && Plays(revisions[r], role) && revisions[r].branch == branch
    ensures PlayedIn(revisions, branch, role)
  {
  }

  lemma AtLeastOneOf(revisions: map<Id, Revision>, role: Role)
    requires forall r | r in revisions :: PlayedIn(revisions, revisions[r].branch, role)
    ensures AtLeastOne(revisions, role)
  {
  }

  lemma AdvanceKeepsAtLeastOne(revisions: map<Id, Revision>, head: Id, draft: Id, next: Id, role: Role)
    requires CanAdvance(revisions, head, draft, next) && head in revisions && AtLeastOne(revisions, role)
    ensures draft in revisions && AtLeastOne(Advanced(revisions, head, draft, next), role)
  {
    hide *;
    CanAdvanceMeans(revisions, head, draft, next);
    HeadIsPlaced(revisions, head, draft, next);
    AdvancedKeys(revisions, head, draft, next);
    var after := Advanced(revisions, head, draft, next);
    forall s | s in after
      ensures PlayedIn(after, after[s].branch, role)
    {
      var player := Player(revisions, if s == next then draft else s, role);
      SuccessorPlays(revisions, head, draft, next, role, player, s);
      PlayedBy(after, Successor(head, draft, next, role, player), after[s].branch, role);
    }
    AtLeastOneOf(after, role);
  }

  lemma AdvanceKeepsRole(revisions: map<Id, Revision>, head: Id, draft: Id, next: Id, role: Role)
    requires CanAdvance(revisions, head, draft, next) && head in revisions && ExactlyOne(revisions, role)
    ensures ExactlyOne(Advanced(revisions, head, draft, next), role)
  {
    AdvanceKeepsAtMostOne(revisions, head, draft, next, role);
    AdvanceKeepsAtLeastOne(revisions, head, draft, next, role);
  }

  // Retire Head, promote the Draft, open the next Draft: the branch keeps one of each, one chain.
  lemma AdvanceKeepsHistory(revisions: map<Id, Revision>, head: Id, draft: Id, next: Id)
    requires CanAdvance(revisions, head, draft, next) && head in revisions
    ensures History(Advanced(revisions, head, draft, next))
  {
    AdvanceKeepsChain(revisions, head, draft, next);
    AdvanceKeepsLine(revisions, head, draft, next);
    AdvanceKeepsRole(revisions, head, draft, next, Head);
    AdvanceKeepsRole(revisions, head, draft, next, Draft);
    AdvanceKeepsRole(revisions, head, draft, next, Start);
  }

  ghost predicate CanBranch(revisions: map<Id, Revision>, branch: Id, parent: Option<Id>, next: Id) {
    && History(revisions) && (forall r | r in revisions :: r < next && revisions[r].branch != branch)
    && (parent.Some? ==> parent.value in revisions && !revisions[parent.value].isDraft)
  }

  lemma BranchKeepsAtLeastOne(revisions: map<Id, Revision>, branch: Id, parent: Option<Id>, next: Id, role: Role)
    requires CanBranch(revisions, branch, parent, next) && ExactlyOne(revisions, role)
    ensures AtLeastOne(Branched(revisions, branch, parent, next), role)
  {
    var after := Branched(revisions, branch, parent, next);
    forall s | s in after
      ensures PlayedIn(after, after[s].branch, role)
    {
      if s < next {
        var player := Player(revisions, s, role);
        assert Plays(after[player], role) && after[player].branch == after[s].branch;
      } else {
        assert Plays(after[if role == Draft then next + 1 else next], role);
      }
    }
  }

  lemma BranchKeepsAtMostOne(revisions: map<Id, Revision>, branch: Id, parent: Option<Id>, next: Id, role: Role)
    requires CanBranch(revisions, branch, parent, next) && AtMostOne(revisions, role)
    ensures AtMostOne(Branched(revisions, branch, parent, next), role)
  {
    hide History;
  }

  lemma BranchKeepsRole(revisions: map<Id, Revision>, branch: Id, parent: Option<Id>, next: Id, role: Role)
    requires CanBranch(revisions, branch, parent, next) && ExactlyOne(revisions, role)
    ensures ExactlyOne(Branched(revisions, branch, parent, next), role)
  {
    BranchKeepsAtMostOne(revisions, branch, parent, next, role);
    BranchKeepsAtLeastOne(revisions, branch, parent, next, role);
    hide CanBranch, AtMostOne, AtLeastOne, Branched;
  }

  lemma BranchKeepsChain(revisions: map<Id, Revision>, branch: Id, parent: Option<Id>, next: Id)
    requires CanBranch(revisions, branch, parent, next)
    ensures Chained(Branched(revisions, branch, parent, next))
  {
    var after := Branched(revisions, branch, parent, next);
    forall r | r in after
      ensures WellPlaced(after, r)
    {
      if r < next {
        assert WellPlaced(revisions, r);
      }
    }
  }

  lemma BranchKeepsLine(revisions: map<Id, Revision>, branch: Id, parent: Option<Id>, next: Id)
    requires CanBranch(revisions, branch, parent, next)
    ensures NoFork(Branched(revisions, branch, parent, next))
  {
    var after := Branched(revisions, branch, parent, next);
    forall r: Id, p: Id | Continues(after, r, p) && r < next
      ensures Continues(revisions, r, p) && p < next
    {
      assert WellPlaced(revisions, r);
    }
  }

  // A new branch adds a Head and its Draft; the other branches stay as they are.
  lemma BranchKeepsHistory(revisions: map<Id, Revision>, branch: Id, parent: Option<Id>, next: Id)
    requires CanBranch(revisions, branch, parent, next)
    ensures History(Branched(revisions, branch, parent, next))
  {
    BranchKeepsChain(revisions, branch, parent, next);
    BranchKeepsLine(revisions, branch, parent, next);
    BranchKeepsRole(revisions, branch, parent, next, Head);
    BranchKeepsRole(revisions, branch, parent, next, Draft);
    BranchKeepsRole(revisions, branch, parent, next, Start);
  }

  // ---- What the history means --------------------------------------------------------------

  ghost function ChainOf(revisions: map<Id, Revision>, r: Id): (chain: seq<Id>)
    requires History(revisions) && r in revisions
    decreases r
  {
    assert WellPlaced(revisions, r);
    if revisions[r].isStart then [r] else ChainOf(revisions, revisions[r].parent.value) + [r]
  }

  ghost predicate IsChain(revisions: map<Id, Revision>, chain: seq<Id>) {
    && chain != []
    && chain[0] in revisions && revisions[chain[0]].isStart
    && (forall i | 0 < i < |chain| ::
          && chain[i - 1] < chain[i] && Continues(revisions, chain[i], chain[i - 1])
          && revisions[chain[i]].branch == revisions[chain[0]].branch)
  }

  // The parents of a revision lead, without a cycle, to the start revision of its branch.
  lemma {:induction false} ChainLeadsToStart(revisions: map<Id, Revision>, r: Id)
    requires History(revisions) && r in revisions
    ensures IsChain(revisions, ChainOf(revisions, r))
    ensures ChainOf(revisions, r)[|ChainOf(revisions, r)| - 1] == r
    decreases r
  {
    assert WellPlaced(revisions, r);
    if !revisions[r].isStart {
      ChainLeadsToStart(revisions, revisions[r].parent.value);
    }
  }

  // Every revision of a branch lies on the chain of the branch's Draft: the history does not fork.
  lemma ChainOfDraftHasAll(revisions: map<Id, Revision>, draft: Id, r: Id)
    requires History(revisions) && draft in revisions && revisions[draft].isDraft
    requires r in revisions && revisions[r].branch == revisions[draft].branch
    ensures r in ChainOf(revisions, draft)
  {
    ChainLeadsToStart(revisions, draft);
    LiesOn(revisions, ChainOf(revisions, draft), r);
  }

  lemma {:induction false} LiesOn(revisions: map<Id, Revision>, chain: seq<Id>, r: Id)
    requires History(revisions) && IsChain(revisions, chain)
    requires chain[|chain| - 1] in revisions && revisions[chain[|chain| - 1]].isDraft
    requires r in revisions && revisions[r].branch == revisions[chain[0]].branch
    ensures r in chain
    decreases r
  {
    assert WellPlaced(revisions, r);
    if revisions[r].isStart {
      assert Plays(revisions[r], Start) && Plays(revisions[chain[0]], Start);
    } else {
      var p := revisions[r].parent.value;
      LiesOn(revisions, chain, p);
      var i :| 0 <= i < |chain| && chain[i] == p;
      assert i + 1 < |chain|;
      assert Continues(revisions, chain[i + 1], p) && Continues(revisions, r, p);
    }
  }
}
