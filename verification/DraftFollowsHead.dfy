/** DraftFollowsHead: where the content check finds no difference, the Draft links Head's version.
  * Applied to a whole Draft it keeps the content and makes the "has changes" flag exact. */
module DraftFollowsHead {
  import opened Wrappers
  import opened VersionStore
  import opened StoreShape
  import opened ContentDiff

  function VersionToLink(db: Db, relinkCandidate: bool, candidate: Option<Id>, head: Option<Id>): Option<Id>
    requires LinksExist(db)
  {
    if !relinkCandidate || candidate.None? || head.None? || candidate == head then
      candidate
    else if TableVersionContentDiffers(db, head.value, candidate.value) then
      candidate
    else
      head
  }

  // Head's version of the table that Draft version t is a version of.
  ghost function HeadVersionOf(db: Db, parents: set<Id>, t: Id): (head: Option<Id>)
    requires parents <= db.tables.Keys && t in db.tables
    ensures head.Some? <==> HasVersionIn(db, t, parents)
    ensures head.Some? ==> head.value in parents && db.tables[head.value].createdId == db.tables[t].createdId
  {
    if HasVersionIn(db, t, parents) then
      var s :| s in parents && db.tables[s].createdId == db.tables[t].createdId;
      Some(s)
    else
      None
  }

  // The version the Draft links in the place of t; `candidates` are the identities that may follow Head.
  ghost function Followed(db: Db, parents: set<Id>, candidates: set<Id>, t: Id): Id
    requires LinksExist(db) && parents <= db.tables.Keys && t in db.tables
  {
    VersionToLink(db, db.tables[t].createdId in candidates, Some(t), HeadVersionOf(db, parents, t)).value
  }

  ghost function FollowedTables(db: Db, parents: set<Id>, candidates: set<Id>, children: set<Id>): set<Id>
    requires LinksExist(db) && parents <= db.tables.Keys && children <= db.tables.Keys
  {
    set t | t in children :: Followed(db, parents, candidates, t)
  }

  ghost function ContentsOf(db: Db, tables: set<Id>): set<TableContent>
    requires LinksExist(db) && tables <= db.tables.Keys
  {
    set t | t in tables :: ContentOf(db, t)
  }

  // Revision r of store b contains what its tables contain in store a, which holds the same versions.
  lemma RevisionContentIs(a: Db, b: Db, r: Id, tables: set<Id>)
    requires LinksExist(a) && LinksExist(b) && a.tables == b.tables && a.rows == b.rows && a.rowLinks == b.rowLinks
    requires tables <= a.tables.Keys && TablesOf(b, r) == tables
    ensures RevisionContent(b, r) == ContentsOf(a, tables)
  {
  }

  lemma FollowedHasSameContent(db: Db, parents: set<Id>, candidates: set<Id>, t: Id)
    requires LinksExist(db) && RowIdentities(db) && parents <= db.tables.Keys && t in db.tables
    ensures Followed(db, parents, candidates, t) in db.tables
    ensures ContentOf(db, Followed(db, parents, candidates, t)) == ContentOf(db, t)
  {
    var head := HeadVersionOf(db, parents, t);
    if head.Some? {
      ContentDiffIsExact(db, head.value, t);
    }
  }

  // Following Head never changes what the Draft contains.
  lemma FollowingKeepsContent(db: Db, parents: set<Id>, candidates: set<Id>, children: set<Id>)
    requires LinksExist(db) && RowIdentities(db) && parents <= db.tables.Keys && children <= db.tables.Keys
    requires DistinctIdentities(db, children)
    ensures var followed := FollowedTables(db, parents, candidates, children);
      && followed <= db.tables.Keys
      && DistinctIdentities(db, followed)
      && ContentsOf(db, followed) == ContentsOf(db, children)
  {
    var followed := FollowedTables(db, parents, candidates, children);
    forall t | t in children
      ensures Followed(db, parents, candidates, t) in followed && Followed(db, parents, candidates, t) in db.tables
      ensures ContentOf(db, Followed(db, parents, candidates, t)) == ContentOf(db, t)
    {
      FollowedHasSameContent(db, parents, candidates, t);
    }
    forall s, t | s in followed && t in followed && db.tables[s].createdId == db.tables[t].createdId
      ensures s == t
    {
      var u :| u in children && s == Followed(db, parents, candidates, u);
      var v :| v in children && t == Followed(db, parents, candidates, v);
      assert ContentOf(db, u).identity == ContentOf(db, s).identity
         && ContentOf(db, v).identity == ContentOf(db, t).identity;
    }
  }

  // A version whose content is Head's but that may not follow Head.
  ghost predicate KeptAlthoughEqual(db: Db, parents: set<Id>, candidates: set<Id>, t: Id)
    requires LinksExist(db) && parents <= db.tables.Keys && t in db.tables
  {
    && db.tables[t].createdId !in candidates
    && exists s :: s in parents && s != t && ContentOf(db, s) == ContentOf(db, t)
  }

  // After every table followed Head where it may, Draft and Head link different versions exactly when their
  // contents differ or some table was kept although its content is Head's.
  lemma FollowedDraftDiffersExactly(db: Db, parents: set<Id>, candidates: set<Id>, children: set<Id>)
    requires LinksExist(db) && RowIdentities(db) && parents <= db.tables.Keys && children <= db.tables.Keys
    requires DistinctIdentities(db, parents) && DistinctIdentities(db, children)
    ensures var followed := FollowedTables(db, parents, candidates, children);
      followed != parents <==>
        || ContentsOf(db, parents) != ContentsOf(db, children)
        || (exists t :: t in children && KeptAlthoughEqual(db, parents, candidates, t))
  {
    var followed := FollowedTables(db, parents, candidates, children);
    FollowingKeepsContent(db, parents, candidates, children);
    if followed == parents {
      forall t | t in children
        ensures !KeptAlthoughEqual(db, parents, candidates, t)
      {
        if db.tables[t].createdId !in candidates {
          assert Followed(db, parents, candidates, t) == t;
          assert t in parents;
        }
      }
    } else if ContentsOf(db, parents) == ContentsOf(db, children)
              && forall t | t in children :: !KeptAlthoughEqual(db, parents, candidates, t) {
      forall t | t in children
        ensures Followed(db, parents, candidates, t) in parents
      {
        FollowsEqualVersion(db, parents, candidates, children, t);
      }
      forall s | s in parents
        ensures s in followed
      {
        assert ContentOf(db, s) in ContentsOf(db, children);
        var t :| t in children && ContentOf(db, t) == ContentOf(db, s);
        var u := Followed(db, parents, candidates, t);
        FollowedHasSameContent(db, parents, candidates, t);
        assert u in followed && u in parents && db.tables[u].createdId == db.tables[s].createdId;
      }
      assert false;
    }
  }

  lemma FollowsEqualVersion(db: Db, parents: set<Id>, candidates: set<Id>, children: set<Id>, t: Id)
    requires LinksExist(db) && RowIdentities(db) && parents <= db.tables.Keys && children <= db.tables.Keys
    requires DistinctIdentities(db, parents) && ContentsOf(db, parents) == ContentsOf(db, children)
    requires t in children && !KeptAlthoughEqual(db, parents, candidates, t)
    ensures Followed(db, parents, candidates, t) in parents
  {
    assert ContentOf(db, t) in ContentsOf(db, parents);
    var s :| s in parents && ContentOf(db, s) == ContentOf(db, t);
    assert HasVersionIn(db, t, parents);
    assert HeadVersionOf(db, parents, t) == Some(s);
    ContentDiffIsExact(db, s, t);
  }

  // With every table a candidate, the version check behind "has changes" is the comparison of contents.
  lemma HasChangesIsExact(db: Db, head: Id, draft: Id, children: set<Id>)
    requires LinksExist(db) && RowIdentities(db) && TableIdentities(db)
    requires children <= db.tables.Keys && DistinctIdentities(db, children) && head != draft && draft in db.revisions
    ensures TablesOf(db, head) <= db.tables.Keys
    ensures var everything := set t | t in children :: db.tables[t].createdId;
      var followed := FollowedTables(db, TablesOf(db, head), everything, children);
      && followed <= db.tables.Keys
      && LinksExist(SetTables(db, draft, followed))
      && (HasTableDiffs(SetTables(db, draft, followed), head, draft)
          <==> RevisionContent(db, head) != ContentsOf(db, children))
  {
    var parents := TablesOf(db, head);
    var everything := set t | t in children :: db.tables[t].createdId;
    var followed := FollowedTables(db, parents, everything, children);
    TablesAreDistinct(db, head);
    FollowingKeepsContent(db, parents, everything, children);
    var after := SetTables(db, draft, followed);
    assert TablesOf(after, draft) == followed && TablesOf(after, head) == parents;
    TableJoinDiffersWhenSetsDo(after, parents, followed);
    FollowedDraftDiffersExactly(db, parents, everything, children);
  }
}
