/** What the row-change queries say, read off the rows of the two revisions: which changes are listed and as what, in
  * which order, and how many identities each statistic counts. */
module RowChangeFacts {
  import opened Wrappers
  import opened RowChanges

  ghost predicate OnlyIn(row: Row, others: seq<Row>) {
    forall r | r in others :: r.createdId != row.createdId
  }

  // ---- The listed changes ------------------------------------------------------------------

  lemma OnlyInIsNoRow(row: Row, others: seq<Row>)
    ensures OnlyIn(row, others) <==> !HasRow(others, row.createdId)
  {
  }

  // A row without a counterpart is listed as added or removed, two rows of one identity as what differs between them.
  lemma ChangesAndTheirTypes(children: seq<Row>, parents: seq<Row>)
    ensures forall c | c in children && OnlyIn(c, parents) ::
      Pair(Some(c), None) in AllChanges(children, parents) && TypeOf(Pair(Some(c), None)) == Some(Added)
    ensures forall p | p in parents && OnlyIn(p, children) ::
      Pair(None, Some(p)) in AllChanges(children, parents) && TypeOf(Pair(None, Some(p))) == Some(Removed)
    ensures forall c, p | c in children && p in parents && c.createdId == p.createdId ::
      var pair := Pair(Some(c), Some(p));
      && (pair in AllChanges(children, parents) <==> c.id != p.id || c.hash != p.hash)
      && (TypeOf(pair) == Some(RenamedAndModified) <==> c.id != p.id && c.hash != p.hash)
      && (TypeOf(pair) == Some(Renamed) <==> c.id != p.id && c.hash == p.hash)
      && (TypeOf(pair) == Some(Modified) <==> c.id == p.id && c.hash != p.hash)
  {
    WhereOnly(Differs, Joined(children, parents));
    hide Joined, ChildPairs, LonelyParents, Where, HasRow, OnlyIn;
    forall c | c in children && OnlyIn(c, parents)
      ensures Pair(Some(c), None) in Joined(children, parents)
    {
      OnlyInIsNoRow(c, parents);
      EveryChildIsPaired(children, parents, c);
      JoinedHasBoth(children, parents);
    }
    forall p | p in parents && OnlyIn(p, children)
      ensures Pair(None, Some(p)) in Joined(children, parents)
    {
      OnlyInIsNoRow(p, children);
      EveryLonelyParentIsThere(children, parents, p);
      JoinedHasBoth(children, parents);
    }
    forall c, p | c in children && p in parents && c.createdId == p.createdId
      ensures Pair(Some(c), Some(p)) in Joined(children, parents)
    {
      RowIsThere(parents, p);
      EveryChildIsPaired(children, parents, c);
      JoinedHasBoth(children, parents);
    }
  }

  lemma JoinedHasBoth(children: seq<Row>, parents: seq<Row>)
    ensures forall q ::
      q in Joined(children, parents) <==> q in ChildPairs(children, parents) || q in LonelyParents(children, parents)
  {
  }

  lemma RowIsThere(rows: seq<Row>, row: Row)
    requires row in rows
    ensures HasRow(rows, row.createdId)
  {
  }

  // Nothing else is listed.
  lemma OnlyChangesAreListed(children: seq<Row>, parents: seq<Row>, q: Pair)
    requires q in AllChanges(children, parents)
    ensures
      || (q.child.Some? && q.parent.None? && q.child.value in children && OnlyIn(q.child.value, parents))
      || (q.child.None? && q.parent.Some? && q.parent.value in parents && OnlyIn(q.parent.value, children))
      || (q.child.Some? && q.parent.Some? && q.child.value in children && q.parent.value in parents
          && q.child.value.createdId == q.parent.value.createdId
          && (q.child.value.id != q.parent.value.id || q.child.value.hash != q.parent.value.hash))
  {
    WhereOnly(Differs, Joined(children, parents));
    ChildPairsHaveChildren(children, parents);
    LonelyParentsAreAlone(children, parents);
    JoinedHasBoth(children, parents);
    hide Joined, ChildPairs, LonelyParents, Where, HasRow, OnlyIn;
    if q.child.Some? {
      OnlyInIsNoRow(q.child.value, parents);
    }
    if q.parent.Some? {
      OnlyInIsNoRow(q.parent.value, children);
    }
  }

  // ---- Filters and order -------------------------------------------------------------------

  ghost predicate FoundBy(matches: (string, string) -> bool, term: Option<string>, q: Pair) {
    term.Some? ==> (q.parent.Some? && matches(q.parent.value.id, term.value))
                   || (q.child.Some? && matches(q.child.value.id, term.value))
  }

  ghost predicate OfTypes(types: Option<set<ChangeType>>, q: Pair) {
    types.Some? ==>
      && TypeOf(q).Some?
      && (|| TypeOf(q).value in types.value
          || (TypeOf(q).value == RenamedAndModified && (Renamed in types.value || Modified in types.value)))
  }

  lemma KeptByFilters(matches: (string, string) -> bool, filters: Filters, q: Pair)
    ensures Keeps(matches, filters)(q) == True <==> FoundBy(matches, filters.term, q) && OfTypes(filters.types, q)
  {
  }

  // The list holds the changes that the term finds on either side and that are of the asked types.
  lemma ListedChanges(matches: (string, string) -> bool, filters: Filters, children: seq<Row>, parents: seq<Row>,
                      q: Pair)
    ensures q in ChangeList(matches, filters, children, parents)
      <==> q in AllChanges(children, parents) && FoundBy(matches, filters.term, q) && OfTypes(filters.types, q)
  {
    var kept := Where(Keeps(matches, filters), AllChanges(children, parents));
    OrderedIsOrdered(kept);
    WhereOnly(Keeps(matches, filters), AllChanges(children, parents));
    KeptByFilters(matches, filters, q);
    assert q in ChangeList(matches, filters, children, parents) <==> q in multiset(Ordered(kept));
    hide Keeps, AllChanges, FoundBy, OfTypes;
  }

  // The row that a change is ordered by: the newer side, if it has one.
  function Latest(q: Pair): Row
    requires q.child.Some? || q.parent.Some?
  {
    if q.child.Some? then q.child.value else q.parent.value
  }

  // Rows updated later come first; of rows updated at the same time the one of the smaller identity.
  lemma ListIsNewestFirst(matches: (string, string) -> bool, filters: Filters, children: seq<Row>, parents: seq<Row>,
                          i: nat, j: nat)
    requires i < j < |ChangeList(matches, filters, children, parents)|
    ensures var p, q := ChangeList(matches, filters, children, parents)[i],
                        ChangeList(matches, filters, children, parents)[j];
      && (p.child.Some? || p.parent.Some?) && (q.child.Some? || q.parent.Some?)
      && Latest(p).updatedAt >= Latest(q).updatedAt
      && (Latest(p).updatedAt == Latest(q).updatedAt ==> Latest(p).createdId <= Latest(q).createdId)
  {
    var list := ChangeList(matches, filters, children, parents);
    OrderedIsOrdered(Where(Keeps(matches, filters), AllChanges(children, parents)));
    assert list[i] in list && list[j] in list;
    ListedChanges(matches, filters, children, parents, list[i]);
    ListedChanges(matches, filters, children, parents, list[j]);
    OnlyChangesAreListed(children, parents, list[i]);
    OnlyChangesAreListed(children, parents, list[j]);
    assert Precedes(list[i], list[j]);
  }

  // ---- Counting identities -----------------------------------------------------------------

  ghost predicate OneEach(s: seq<Pair>) {
    forall i, j | 0 <= i < j < |s| :: Identity(s[i]) != Identity(s[j])
  }

  lemma {:induction false} PairsOfOneIdentity(child: Row, parents: seq<Row>)
    requires UniqueIds(parents)
    ensures !HasRow(parents, child.createdId) ==> PairsOf(child, parents) == []
    ensures HasRow(parents, child.createdId) ==> |PairsOf(child, parents)| == 1
  {
    if parents != [] {
      HasRowInRest(parents, child.createdId);
      assert forall i, j | 0 <= i < j < |parents[1..]| ::
        parents[1..][i] == parents[i + 1] && parents[1..][j] == parents[j + 1];
      PairsOfOneIdentity(child, parents[1..]);
      if parents[0].createdId == child.createdId {
        assert forall i | 0 <= i < |parents[1..]| :: parents[1..][i].createdId != parents[0].createdId;
      }
    }
  }

  lemma {:induction false} OnePairPerChild(children: seq<Row>, parents: seq<Row>)
    requires UniqueIds(parents)
    ensures |ChildPairs(children, parents)| == |children|
    ensures forall i | 0 <= i < |children| :: ChildPairs(children, parents)[i].child == Some(children[i])
  {
    if children != [] {
      OnePairPerChild(children[1..], parents);
      PairsOfOneIdentity(children[0], parents);
      PairsOfOne(children[0], parents);
      var first := if HasRow(parents, children[0].createdId) then PairsOf(children[0], parents)
                   else [Pair(Some(children[0]), None)];
      assert |first| == 1 && first[0] in first && first[0].child == Some(children[0]);
      assert ChildPairs(children, parents) == first + ChildPairs(children[1..], parents);
    }
  }

  lemma {:induction false} OnePairPerLonelyParent(children: seq<Row>, parents: seq<Row>)
    requires UniqueIds(parents)
    ensures OneEach(LonelyParents(children, parents))
  {
    if parents != [] {
      assert forall i, j | 0 <= i < j < |parents[1..]| ::
        parents[1..][i] == parents[i + 1] && parents[1..][j] == parents[j + 1];
      OnePairPerLonelyParent(children, parents[1..]);
      LonelyParentsAreAlone(children, parents[1..]);
      forall q | q in LonelyParents(children, parents[1..])
        ensures Identity(q) != parents[0].createdId
      {
        var i :| 0 <= i < |parents[1..]| && parents[1..][i] == q.parent.value;
        assert parents[i + 1].createdId != parents[0].createdId;
      }
    }
  }

  lemma JoinedOneEach(children: seq<Row>, parents: seq<Row>)
    requires UniqueIds(children) && UniqueIds(parents)
    ensures OneEach(Joined(children, parents))
  {
    var first, second := ChildPairs(children, parents), LonelyParents(children, parents);
    OnePairPerChild(children, parents);
    OnePairPerLonelyParent(children, parents);
    LonelyParentsAreAlone(children, parents);
    forall i, j | 0 <= i < |first| && 0 <= j < |second|
      ensures Identity(first[i]) != Identity(second[j])
    {
      assert second[j] in second;
      assert children[i].createdId == Identity(first[i]);
    }
    hide ChildPairs, LonelyParents;
  }

  lemma {:induction false} WhereOneEach(keep: Pair -> Truth, s: seq<Pair>)
    requires OneEach(s)
    ensures OneEach(Where(keep, s))
  {
    if s != [] {
      FirstOfItsIdentity(s);
      WhereOneEach(keep, s[1..]);
      WhereOnly(keep, s[1..]);
      hide Identity;
    }
  }

  ghost function IdentitiesOf(s: seq<Pair>): set<nat> {
    set q | q in s :: Identity(q)
  }

  lemma {:induction false} CountedOnce(s: seq<Pair>)
    requires OneEach(s)
    ensures |s| == |IdentitiesOf(s)|
  {
    if s != [] {
      FirstOfItsIdentity(s);
      RestOfIdentities(s);
      hide OneEach, IdentitiesOf, Identity;
      CountedOnce(s[1..]);
    }
  }

  lemma FirstOfItsIdentity(s: seq<Pair>)
    requires s != [] && OneEach(s)
    ensures OneEach(s[1..]) && forall q | q in s[1..] :: Identity(q) != Identity(s[0])
  {
    hide Identity;
    var rest := s[1..];
    assert forall i | 0 <= i < |rest| :: rest[i] == s[i + 1];
    forall q | q in rest
      ensures Identity(q) != Identity(s[0])
    {
      var i :| 0 <= i < |rest| && rest[i] == q;
      assert s[i + 1] == q;
    }
  }

  lemma RestOfIdentities(s: seq<Pair>)
    requires s != []
    ensures IdentitiesOf(s) == IdentitiesOf(s[1..]) + {Identity(s[0])}
    ensures forall n :: n in IdentitiesOf(s[1..]) <==> exists q :: q in s[1..] && Identity(q) == n
  {
    hide Identity;
    assert s == [s[0]] + s[1..];
  }

  lemma SameKinds(q: Pair)
    ensures IsAdded(Keys(q)) == IsAdded(q) && IsRemoved(Keys(q)) == IsRemoved(q)
    ensures IsRenamed(Keys(q)) == IsRenamed(q) && IsModified(Keys(q)) == IsModified(q)
  {
  }

  // A statistic counts the identities of the changes of its kind.
  lemma CountOfKind(kind: Pair -> Truth, children: seq<Row>, parents: seq<Row>)
    requires UniqueIds(children) && UniqueIds(parents) && forall q :: kind(Keys(q)) == kind(q)
    ensures |Where(kind, KeyChanges(children, parents))| == |IdentitiesOf(Where(kind, AllChanges(children, parents)))|
  {
    SameChanges(children, parents);
    JoinedOneEach(children, parents);
    WhereOneEach(Differs, Joined(children, parents));
    WhereOneEach(kind, AllChanges(children, parents));
    CountedOnce(Where(kind, AllChanges(children, parents)));
    hide KeyChanges, OneEach, IdentitiesOf;
    WhereOfMapped(Keys, kind, kind, AllChanges(children, parents));
  }

  ghost function Unmatched(rows: seq<Row>, others: seq<Row>): set<nat> {
    set r | r in rows && OnlyIn(r, others) :: r.createdId
  }

  ghost function OtherIds(children: seq<Row>, parents: seq<Row>): set<nat> {
    set c, p | c in children && p in parents && c.createdId == p.createdId && c.id != p.id :: c.createdId
  }

  ghost function OtherHashes(children: seq<Row>, parents: seq<Row>): set<nat> {
    set c, p | c in children && p in parents && c.createdId == p.createdId && c.hash != p.hash :: c.createdId
  }

  lemma KindOf(q: Pair)
    requires q.child.Some? || q.parent.Some?
    ensures IsAdded(q) == True <==> q.parent.None?
    ensures IsRemoved(q) == True <==> q.child.None?
    ensures IsRenamed(q) == True <==> q.child.Some? && q.parent.Some? && q.child.value.id != q.parent.value.id
    ensures IsModified(q) == True <==> q.child.Some? && q.parent.Some? && q.child.value.hash != q.parent.value.hash
  {
  }

  lemma IdentityIs(q: Pair)
    ensures q.child.Some? ==> Identity(q) == q.child.value.createdId
    ensures q.child.None? && q.parent.Some? ==> Identity(q) == q.parent.value.createdId
  {
  }

  lemma AddedAndRemoved(children: seq<Row>, parents: seq<Row>)
    ensures IdentitiesOf(Where(IsAdded, AllChanges(children, parents))) == Unmatched(children, parents)
    ensures IdentitiesOf(Where(IsRemoved, AllChanges(children, parents))) == Unmatched(parents, children)
  {
    var changes := AllChanges(children, parents);
    ChangesAndTheirTypes(children, parents);
    WhereOnly(IsAdded, changes);
    WhereOnly(IsRemoved, changes);
    hide AllChanges, Where, IsAdded, IsRemoved, OnlyIn, Identity, TypeOf;
    forall q | q in changes
      ensures IsAdded(q) == True ==> Identity(q) in Unmatched(children, parents)
      ensures IsRemoved(q) == True ==> Identity(q) in Unmatched(parents, children)
    {
      OnlyChangesAreListed(children, parents, q);
      KindOf(q);
      IdentityIs(q);
    }
    forall c | c in children && OnlyIn(c, parents)
      ensures c.createdId in IdentitiesOf(Where(IsAdded, changes))
    {
      var q := Pair(Some(c), None);
      KindOf(q);
      IdentityIs(q);
      assert q in Where(IsAdded, changes);
    }
    forall p | p in parents && OnlyIn(p, children)
      ensures p.createdId in IdentitiesOf(Where(IsRemoved, changes))
    {
      var q := Pair(None, Some(p));
      KindOf(q);
      IdentityIs(q);
      assert q in Where(IsRemoved, changes);
    }
  }

  lemma RenamedAndModifiedOnes(children: seq<Row>, parents: seq<Row>)
    ensures IdentitiesOf(Where(IsRenamed, AllChanges(children, parents))) == OtherIds(children, parents)
    ensures IdentitiesOf(Where(IsModified, AllChanges(children, parents))) == OtherHashes(children, parents)
  {
    var changes := AllChanges(children, parents);
    ChangesAndTheirTypes(children, parents);
    WhereOnly(IsRenamed, changes);
    WhereOnly(IsModified, changes);
    hide AllChanges, Where, IsRenamed, IsModified, OnlyIn, Identity, TypeOf;
    forall q | q in changes
      ensures IsRenamed(q) == True ==> Identity(q) in OtherIds(children, parents)
      ensures IsModified(q) == True ==> Identity(q) in OtherHashes(children, parents)
    {
      OnlyChangesAreListed(children, parents, q);
      KindOf(q);
      IdentityIs(q);
    }
    forall c, p | c in children && p in parents && c.createdId == p.createdId
      ensures c.id != p.id ==> c.createdId in IdentitiesOf(Where(IsRenamed, changes))
      ensures c.hash != p.hash ==> c.createdId in IdentitiesOf(Where(IsModified, changes))
    {
      var q := Pair(Some(c), Some(p));
      KindOf(q);
      IdentityIs(q);
      assert c.id != p.id ==> q in Where(IsRenamed, changes);
      assert c.hash != p.hash ==> q in Where(IsModified, changes);
    }
  }

  // With each identity once on either side: "added" counts the identities that only the children have, "removed" those
  // that only the parents have, "renamed" and "modified" the common ones whose public id or hash differs.
  lemma StatsCountIdentities(children: seq<Row>, parents: seq<Row>)
    requires UniqueIds(children) && UniqueIds(parents)
    ensures var stats := StatsOf(children, parents);
      && stats.added == |Unmatched(children, parents)| && stats.removed == |Unmatched(parents, children)|
      && stats.renamed == |OtherIds(children, parents)| && stats.modified == |OtherHashes(children, parents)|
      && stats.total == |Unmatched(children, parents) + Unmatched(parents, children)
                         + OtherIds(children, parents) + OtherHashes(children, parents)|
  {
    forall q {
      SameKinds(q);
    }
    var changes := AllChanges(children, parents);
    hide AllChanges, KeyChanges, Where, IsAdded, IsRemoved, IsRenamed, IsModified, UniqueIds, Unmatched, OtherIds,
      OtherHashes;
    CountOfKind(IsAdded, children, parents);
    CountOfKind(IsRemoved, children, parents);
    CountOfKind(IsRenamed, children, parents);
    CountOfKind(IsModified, children, parents);
    AddedAndRemoved(children, parents);
    RenamedAndModifiedOnes(children, parents);
    AllKinds(children, parents);
  }

  lemma EveryChangeHasAKind(children: seq<Row>, parents: seq<Row>, q: Pair)
    requires q in AllChanges(children, parents)
    ensures IsAdded(q) == True || IsRemoved(q) == True || IsRenamed(q) == True || IsModified(q) == True
  {
    hide *;
    OnlyChangesAreListed(children, parents, q);
    KindOf(q);
  }

  lemma IdentitiesByKind(changes: seq<Pair>)
    requires forall q | q in changes ::
      IsAdded(q) == True || IsRemoved(q) == True || IsRenamed(q) == True || IsModified(q) == True
    ensures IdentitiesOf(changes) == IdentitiesOf(Where(IsAdded, changes)) + IdentitiesOf(Where(IsRemoved, changes))
                                     + IdentitiesOf(Where(IsRenamed, changes))
                                     + IdentitiesOf(Where(IsModified, changes))
  {
    WhereOnly(IsAdded, changes);
    WhereOnly(IsRemoved, changes);
    WhereOnly(IsRenamed, changes);
    WhereOnly(IsModified, changes);
    hide Where, IsAdded, IsRemoved, IsRenamed, IsModified, Identity;
  }

  lemma AllKinds(children: seq<Row>, parents: seq<Row>)
    requires UniqueIds(children) && UniqueIds(parents)
    ensures |KeyChanges(children, parents)| == |Unmatched(children, parents) + Unmatched(parents, children)
                                                + OtherIds(children, parents) + OtherHashes(children, parents)|
  {
    var changes := AllChanges(children, parents);
    assert changes == Where(Differs, Joined(children, parents));
    hide *;
    SameChanges(children, parents);
    JoinedOneEach(children, parents);
    WhereOneEach(Differs, Joined(children, parents));
    CountedOnce(changes);
    forall q | q in changes
      ensures IsAdded(q) == True || IsRemoved(q) == True || IsRenamed(q) == True || IsModified(q) == True
    {
      EveryChangeHasAKind(children, parents, q);
    }
    IdentitiesByKind(changes);
    AddedAndRemoved(children, parents);
    RenamedAndModifiedOnes(children, parents);
  }
}
