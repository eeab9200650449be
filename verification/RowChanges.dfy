/** The row-change queries between two revisions as the relations they compute, with SQL's three truth values: the
  * change list, its statistics and its count agree, and say what changed for each row identity. */
module RowChanges {
  import opened Wrappers

  datatype Row = Row(id: string, createdId: nat, hash: string, updatedAt: int)

  // ---- Three truth values ------------------------------------------------------------------

  datatype Truth = True | False | Unknown

  function Not3(a: Truth): Truth {
    match a case True => False case False => True case Unknown => Unknown
  }

  function And3(a: Truth, b: Truth): Truth {
    if a == False || b == False then False else if a == True && b == True then True else Unknown
  }

  function Or3(a: Truth, b: Truth): Truth {
    if a == True || b == True then True else if a == False && b == False then False else Unknown
  }

  function Is(b: bool): Truth {
    if b then True else False
  }

  function Equal3(a: Option<string>, b: Option<string>): Truth {
    if a.None? || b.None? then Unknown else Is(a.value == b.value)
  }

  function Differ3(a: Option<string>, b: Option<string>): Truth {
    Not3(Equal3(a, b))
  }

  // ---- The full outer join -----------------------------------------------------------------

  datatype Pair = Pair(child: Option<Row>, parent: Option<Row>)

  function IdOf(row: Option<Row>): Option<string> {
    if row.Some? then Some(row.value.id) else None
  }

  function HashOf(row: Option<Row>): Option<string> {
    if row.Some? then Some(row.value.hash) else None
  }

  predicate HasRow(rows: seq<Row>, createdId: nat) {
    exists i :: 0 <= i < |rows| && rows[i].createdId == createdId
  }

  function PairsOf(child: Row, parents: seq<Row>): seq<Pair> {
    if parents == [] then []
    else (if parents[0].createdId == child.createdId then [Pair(Some(child), Some(parents[0]))] else [])
         + PairsOf(child, parents[1..])
  }

  function ChildPairs(children: seq<Row>, parents: seq<Row>): seq<Pair> {
    if children == [] then []
    else (if HasRow(parents, children[0].createdId) then PairsOf(children[0], parents)
          else [Pair(Some(children[0]), None)])
         + ChildPairs(children[1..], parents)
  }

  function LonelyParents(children: seq<Row>, parents: seq<Row>): seq<Pair> {
    if parents == [] then []
    else (if HasRow(children, parents[0].createdId) then [] else [Pair(None, Some(parents[0]))])
         + LonelyParents(children, parents[1..])
  }

  function Joined(children: seq<Row>, parents: seq<Row>): seq<Pair> {
    ChildPairs(children, parents) + LonelyParents(children, parents)
  }

  // ---- The queries -------------------------------------------------------------------------

  function Differs(p: Pair): Truth {
    Or3(Or3(Or3(Is(p.parent.None?), Is(p.child.None?)), Differ3(IdOf(p.parent), IdOf(p.child))),
        Differ3(HashOf(p.child), HashOf(p.parent)))
  }

  function Where<A>(keep: A -> Truth, s: seq<A>): (r: seq<A>)
    ensures |r| <= |s|
  {
    if s == [] then [] else (if keep(s[0]) == True then [s[0]] else []) + Where(keep, s[1..])
  }

  function AllChanges(children: seq<Row>, parents: seq<Row>): seq<Pair> {
    Where(Differs, Joined(children, parents))
  }

  datatype ChangeType = Added | Removed | RenamedAndModified | Renamed | Modified

  function TypeOf(p: Pair): Option<ChangeType> {
    if p.parent.None? then Some(Added)
    else if p.child.None? then Some(Removed)
    else if And3(Differ3(IdOf(p.parent), IdOf(p.child)), Differ3(HashOf(p.child), HashOf(p.parent))) == True then
      Some(RenamedAndModified)
    else if Differ3(IdOf(p.parent), IdOf(p.child)) == True then Some(Renamed)
    else if Differ3(HashOf(p.child), HashOf(p.parent)) == True then Some(Modified)
    else None
  }

  function TypeIn(kind: Option<ChangeType>, types: set<ChangeType>): Truth {
    if kind.None? then Unknown else Is(kind.value in types)
  }

  // Filtering by one of its parts keeps a change that is both renamed and modified.
  function TypesKeep(types: Option<set<ChangeType>>, kind: Option<ChangeType>): Truth {
    if types.None? then True
    else
      var both := if kind.None? then Unknown else Is(kind.value == RenamedAndModified);
      Or3(TypeIn(kind, types.value),
          And3(both, Or3(Is(Renamed in types.value), Is(Modified in types.value))))
  }

  function Like(matches: (string, string) -> bool, id: Option<string>, term: string): Truth {
    if id.None? then Unknown else Is(matches(id.value, term))
  }

  function SearchKeeps(matches: (string, string) -> bool, term: Option<string>,
                       from: Option<string>, to: Option<string>): Truth
  {
    if term.None? then True else Or3(Like(matches, from, term.value), Like(matches, to, term.value))
  }

  datatype Filters = Filters(term: Option<string>, types: Option<set<ChangeType>>)

  function Keeps(matches: (string, string) -> bool, filters: Filters): Pair -> Truth {
    (p: Pair) => And3(SearchKeeps(matches, filters.term, IdOf(p.parent), IdOf(p.child)),
                      TypesKeep(filters.types, TypeOf(p)))
  }

  // The count and the statistics read fewer columns; the count keeps of each change its type and both public ids.
  function MapAll<A, B>(f: A -> B, s: seq<A>): (r: seq<B>)
    ensures |r| == |s|
  {
    if s == [] then [] else [f(s[0])] + MapAll(f, s[1..])
  }

  function KeyColumns(row: Row): Row {
    row.(updatedAt := 0)
  }

  function KeyChanges(children: seq<Row>, parents: seq<Row>): seq<Pair> {
    AllChanges(MapAll(KeyColumns, children), MapAll(KeyColumns, parents))
  }

  datatype CountedChange = CountedChange(kind: Option<ChangeType>, from: Option<string>, to: Option<string>)

  function Counted(p: Pair): CountedChange {
    CountedChange(TypeOf(p), IdOf(p.parent), IdOf(p.child))
  }

  function CountKeeps(matches: (string, string) -> bool, filters: Filters): CountedChange -> Truth {
    (c: CountedChange) => And3(SearchKeeps(matches, filters.term, c.from, c.to), TypesKeep(filters.types, c.kind))
  }

  function CountChanges(matches: (string, string) -> bool, filters: Filters, children: seq<Row>,
                        parents: seq<Row>): nat {
    |Where(CountKeeps(matches, filters), MapAll(Counted, KeyChanges(children, parents)))|
  }

  // Newest first, then by identity.
  function UpdatedAt(p: Pair): int {
    if p.child.Some? then p.child.value.updatedAt else if p.parent.Some? then p.parent.value.updatedAt else 0
  }

  function Identity(p: Pair): nat {
    if p.child.Some? then p.child.value.createdId else if p.parent.Some? then p.parent.value.createdId else 0
  }

  predicate Precedes(p: Pair, q: Pair) {
    UpdatedAt(p) > UpdatedAt(q) || (UpdatedAt(p) == UpdatedAt(q) && Identity(p) <= Identity(q))
  }

  function Inserted(p: Pair, s: seq<Pair>): (r: seq<Pair>)
    ensures |r| == |s| + 1
  {
    if s == [] then [p]
    else if Precedes(p, s[0]) then [p] + s
    else [s[0]] + Inserted(p, s[1..])
  }

  function Ordered(s: seq<Pair>): (r: seq<Pair>)
    ensures |r| == |s|
  {
    if s == [] then [] else Inserted(s[0], Ordered(s[1..]))
  }

  function Page<A>(s: seq<A>, limit: nat, offset: nat): seq<A> {
    if offset >= |s| then [] else if offset + limit >= |s| then s[offset..] else s[offset..offset + limit]
  }

  function ChangeList(matches: (string, string) -> bool, filters: Filters, children: seq<Row>,
                      parents: seq<Row>): seq<Pair> {
    Ordered(Where(Keeps(matches, filters), AllChanges(children, parents)))
  }

  function ChangesPaginated(matches: (string, string) -> bool, filters: Filters, children: seq<Row>, parents: seq<Row>,
                            limit: nat, offset: nat): seq<Pair> {
    Page(ChangeList(matches, filters, children, parents), limit, offset)
  }

  datatype Stats = Stats(total: nat, added: nat, removed: nat, renamed: nat, modified: nat)

  function BothExist(p: Pair): Truth {
    And3(Is(p.parent.Some?), Is(p.child.Some?))
  }

  function IsRenamed(p: Pair): Truth {
    var id, hash := Differ3(IdOf(p.parent), IdOf(p.child)), Equal3(HashOf(p.child), HashOf(p.parent));
    Or3(And3(And3(id, hash), BothExist(p)), And3(And3(id, Not3(hash)), BothExist(p)))
  }

  function IsModified(p: Pair): Truth {
    var id, hash := Equal3(IdOf(p.parent), IdOf(p.child)), Differ3(HashOf(p.child), HashOf(p.parent));
    Or3(And3(id, hash), And3(And3(Not3(id), hash), BothExist(p)))
  }

  function IsAdded(p: Pair): Truth {
    Is(p.parent.None?)
  }

  function IsRemoved(p: Pair): Truth {
    Is(p.child.None?)
  }

  function StatsOf(children: seq<Row>, parents: seq<Row>): Stats {
    var changes := KeyChanges(children, parents);
    Stats(|changes|, |Where(IsAdded, changes)|, |Where(IsRemoved, changes)|, |Where(IsRenamed, changes)|,
          |Where(IsModified, changes)|)
  }

  // ---- Statistics and counts agree ---------------------------------------------------------

  function OfType(t: ChangeType): Filters {
    Filters(None, Some({t}))
  }

  lemma {:induction false} WhereSame<A>(p: A -> Truth, q: A -> Truth, s: seq<A>)
    requires forall x | x in s :: p(x) == True <==> q(x) == True
    ensures Where(p, s) == Where(q, s)
  {
    if s != [] {
      assert s[0] in s;
      WhereSame(p, q, s[1..]);
    }
  }

  lemma {:induction false} WhereOnly<A>(p: A -> Truth, s: seq<A>)
    ensures forall x :: x in Where(p, s) <==> x in s && p(x) == True
  {
    if s != [] {
      WhereOnly(p, s[1..]);
    }
  }

  lemma {:induction false} WhereOfMapped<A, B>(f: A -> B, p: A -> Truth, q: B -> Truth, s: seq<A>)
    requires forall x :: q(f(x)) == p(x)
    ensures Where(q, MapAll(f, s)) == MapAll(f, Where(p, s))
  {
    if s != [] {
      assert MapAll(f, s)[1..] == MapAll(f, s[1..]);
      WhereOfMapped(f, p, q, s[1..]);
      if p(s[0]) == True {
        assert Where(p, s) == [s[0]] + Where(p, s[1..]) && Where(p, s)[1..] == Where(p, s[1..]);
      } else {
        assert Where(p, s) == Where(p, s[1..]);
      }
    }
  }

  // The count sees the filtered changes of the columns it reads.
  lemma CountOfKeys(matches: (string, string) -> bool, filters: Filters, children: seq<Row>, parents: seq<Row>)
    ensures CountChanges(matches, filters, children, parents)
         == |Where(Keeps(matches, filters), KeyChanges(children, parents))|
  {
    assert forall p :: CountKeeps(matches, filters)(Counted(p)) == Keeps(matches, filters)(p);
    WhereOfMapped(Counted, Keeps(matches, filters), CountKeeps(matches, filters), KeyChanges(children, parents));
  }

  // Every statistic is the count filtered by its kind, where both "renamed" and "modified" include rows that are both.
  lemma StatsAreFilteredCounts(matches: (string, string) -> bool, children: seq<Row>, parents: seq<Row>)
    ensures var stats := StatsOf(children, parents);
      && stats.total == CountChanges(matches, Filters(None, None), children, parents)
      && stats.added == CountChanges(matches, OfType(Added), children, parents)
      && stats.removed == CountChanges(matches, OfType(Removed), children, parents)
      && stats.renamed == CountChanges(matches, OfType(Renamed), children, parents)
      && stats.modified == CountChanges(matches, OfType(Modified), children, parents)
  {
    var changes := KeyChanges(children, parents);
    WhereOnly(Differs, Joined(MapAll(KeyColumns, children), MapAll(KeyColumns, parents)));
    EveryPairHasARow(MapAll(KeyColumns, children), MapAll(KeyColumns, parents));
    forall p | p in changes
      ensures KindsMatch(matches, p)
    {
      KindOfPair(matches, p);
    }
    hide IsAdded, IsRemoved, IsRenamed, IsModified, Keeps, CountKeeps, CountChanges, KeyChanges, Where, OfType;
    CountOfKeys(matches, Filters(None, None), children, parents);
    CountOfKeys(matches, OfType(Added), children, parents);
    CountOfKeys(matches, OfType(Removed), children, parents);
    CountOfKeys(matches, OfType(Renamed), children, parents);
    CountOfKeys(matches, OfType(Modified), children, parents);
    WhereAll(Keeps(matches, Filters(None, None)), changes);
    WhereSame(IsAdded, Keeps(matches, OfType(Added)), changes);
    WhereSame(IsRemoved, Keeps(matches, OfType(Removed)), changes);
    WhereSame(IsRenamed, Keeps(matches, OfType(Renamed)), changes);
    WhereSame(IsModified, Keeps(matches, OfType(Modified)), changes);
  }

  ghost predicate KindsMatch(matches: (string, string) -> bool, p: Pair) {
    && Keeps(matches, Filters(None, None))(p) == True
    && (IsAdded(p) == True <==> Keeps(matches, OfType(Added))(p) == True)
    && (IsRemoved(p) == True <==> Keeps(matches, OfType(Removed))(p) == True)
    && (IsRenamed(p) == True <==> Keeps(matches, OfType(Renamed))(p) == True)
    && (IsModified(p) == True <==> Keeps(matches, OfType(Modified))(p) == True)
  }

  lemma KindOfPair(matches: (string, string) -> bool, p: Pair)
    requires Differs(p) == True && (p.child.Some? || p.parent.Some?)
    ensures KindsMatch(matches, p)
  {
  }

  lemma {:induction false} WhereAll<A>(p: A -> Truth, s: seq<A>)
    requires forall x | x in s :: p(x) == True
    ensures Where(p, s) == s
  {
    if s != [] {
      assert s[0] in s;
      WhereAll(p, s[1..]);
    }
  }

  lemma {:induction false} PairsOfOne(child: Row, parents: seq<Row>)
    ensures forall p | p in PairsOf(child, parents) ::
      && p.child == Some(child) && p.parent.Some? && p.parent.value in parents
      && p.parent.value.createdId == child.createdId
  {
    if parents != [] {
      PairsOfOne(child, parents[1..]);
    }
  }

  lemma {:induction false} ChildPairsHaveChildren(children: seq<Row>, parents: seq<Row>)
    ensures forall p | p in ChildPairs(children, parents) ::
      && p.child.Some? && p.child.value in children
      && (p.parent.Some? ==> p.parent.value in parents && p.parent.value.createdId == p.child.value.createdId)
      && (p.parent.None? ==> !HasRow(parents, p.child.value.createdId))
  {
    if children != [] {
      ChildPairsHaveChildren(children[1..], parents);
      PairsOfOne(children[0], parents);
    }
  }

  lemma {:induction false} LonelyParentsAreAlone(children: seq<Row>, parents: seq<Row>)
    ensures forall p | p in LonelyParents(children, parents) ::
      p.child.None? && p.parent.Some? && p.parent.value in parents && !HasRow(children, p.parent.value.createdId)
  {
    if parents != [] {
      LonelyParentsAreAlone(children, parents[1..]);
    }
  }

  lemma EveryPairHasARow(children: seq<Row>, parents: seq<Row>)
    ensures forall p | p in Joined(children, parents) :: p.child.Some? || p.parent.Some?
  {
    ChildPairsHaveChildren(children, parents);
    LonelyParentsAreAlone(children, parents);
  }

  function One(holds: Truth): nat {
    if holds == True then 1 else 0
  }

  lemma WhereFirst<A>(keep: A -> Truth, s: seq<A>)
    requires s != []
    ensures |Where(keep, s)| == One(keep(s[0])) + |Where(keep, s[1..])|
  {
  }

  lemma OneKindEach(matches: (string, string) -> bool, p: Pair)
    requires Differs(p) == True && (p.child.Some? || p.parent.Some?)
    ensures 1 + One(Keeps(matches, OfType(RenamedAndModified))(p))
         == One(IsAdded(p)) + One(IsRemoved(p)) + One(IsRenamed(p)) + One(IsModified(p))
  {
  }

  lemma {:induction false} KindsAddUp(matches: (string, string) -> bool, changes: seq<Pair>)
    requires forall p | p in changes :: Differs(p) == True && (p.child.Some? || p.parent.Some?)
    ensures |changes| + |Where(Keeps(matches, OfType(RenamedAndModified)), changes)|
         == |Where(IsAdded, changes)| + |Where(IsRemoved, changes)| + |Where(IsRenamed, changes)|
             + |Where(IsModified, changes)|
  {
    if changes != [] {
      assert changes[0] in changes;
      OneKindEach(matches, changes[0]);
      hide Differs, IsAdded, IsRemoved, IsRenamed, IsModified, Keeps;
      KindsAddUp(matches, changes[1..]);
      WhereFirst(Keeps(matches, OfType(RenamedAndModified)), changes);
      WhereFirst(IsAdded, changes);
      WhereFirst(IsRemoved, changes);
      WhereFirst(IsRenamed, changes);
      WhereFirst(IsModified, changes);
    }
  }

  // The total is the sum of the kinds, less the rows that are renamed and modified at once.
  lemma TotalIsTheSumOfKinds(matches: (string, string) -> bool, children: seq<Row>, parents: seq<Row>)
    ensures var stats := StatsOf(children, parents);
      stats.total == stats.added + stats.removed + stats.renamed + stats.modified
                   - CountChanges(matches, OfType(RenamedAndModified), children, parents)
  {
    var keyChildren, keyParents := MapAll(KeyColumns, children), MapAll(KeyColumns, parents);
    WhereOnly(Differs, Joined(keyChildren, keyParents));
    EveryPairHasARow(keyChildren, keyParents);
    CountOfKeys(matches, OfType(RenamedAndModified), children, parents);
    KindsAddUp(matches, KeyChanges(children, parents));
  }

  // ---- The list ----------------------------------------------------------------------------

  ghost predicate IsOrdered(s: seq<Pair>) {
    forall i, j | 0 <= i < j < |s| :: Precedes(s[i], s[j])
  }

  lemma {:induction false} InsertedIsOrdered(p: Pair, s: seq<Pair>)
    requires IsOrdered(s)
    ensures IsOrdered(Inserted(p, s)) && multiset(Inserted(p, s)) == multiset(s) + multiset{p}
  {
    if s != [] {
      assert s == [s[0]] + s[1..];
      if Precedes(p, s[0]) {
        assert forall i | 0 <= i < |s| :: Precedes(p, s[i]);
      } else {
        InsertedIsOrdered(p, s[1..]);
        var rest := Inserted(p, s[1..]);
        forall i | 0 <= i < |rest|
          ensures Precedes(s[0], rest[i])
        {
          assert rest[i] in multiset(rest);
          assert rest[i] == p || rest[i] in s[1..];
        }
      }
    }
  }

  lemma {:induction false} OrderedIsOrdered(s: seq<Pair>)
    ensures IsOrdered(Ordered(s)) && multiset(Ordered(s)) == multiset(s)
  {
    if s != [] {
      OrderedIsOrdered(s[1..]);
      InsertedIsOrdered(s[0], Ordered(s[1..]));
      assert s == [s[0]] + s[1..];
    }
  }

  function KeysOfRow(row: Option<Row>): Option<Row> {
    if row.Some? then Some(KeyColumns(row.value)) else None
  }

  function Keys(p: Pair): Pair {
    Pair(KeysOfRow(p.child), KeysOfRow(p.parent))
  }

  lemma {:induction false} SameIdentities(rows: seq<Row>, createdId: nat)
    ensures HasRow(MapAll(KeyColumns, rows), createdId) <==> HasRow(rows, createdId)
  {
    if rows != [] {
      var keys := MapAll(KeyColumns, rows);
      assert keys[1..] == MapAll(KeyColumns, rows[1..]);
      SameIdentities(rows[1..], createdId);
      HasRowInRest(rows, createdId);
      HasRowInRest(keys, createdId);
    }
  }

  lemma HasRowInRest(rows: seq<Row>, createdId: nat)
    requires rows != []
    ensures HasRow(rows, createdId) <==> rows[0].createdId == createdId || HasRow(rows[1..], createdId)
  {
    if HasRow(rows, createdId) && rows[0].createdId != createdId {
      var i :| 0 <= i < |rows| && rows[i].createdId == createdId;
      assert rows[1..][i - 1].createdId == createdId;
    }
    if HasRow(rows[1..], createdId) {
      var i :| 0 <= i < |rows| - 1 && rows[1..][i].createdId == createdId;
      assert rows[i + 1].createdId == createdId;
    }
  }

  lemma {:induction false} MapOfSum<A, B>(f: A -> B, a: seq<A>, b: seq<A>)
    ensures MapAll(f, a + b) == MapAll(f, a) + MapAll(f, b)
  {
    if a == [] {
      assert a + b == b;
    } else {
      assert (a + b)[0] == a[0] && (a + b)[1..] == a[1..] + b;
      MapOfSum(f, a[1..], b);
      assert [f(a[0])] + (MapAll(f, a[1..]) + MapAll(f, b)) == ([f(a[0])] + MapAll(f, a[1..])) + MapAll(f, b);
    }
  }

  lemma {:induction false} PairsOfKeys(child: Row, parents: seq<Row>)
    ensures PairsOf(KeyColumns(child), MapAll(KeyColumns, parents)) == MapAll(Keys, PairsOf(child, parents))
  {
    if parents != [] {
      assert MapAll(KeyColumns, parents)[1..] == MapAll(KeyColumns, parents[1..]);
      PairsOfKeys(child, parents[1..]);
      var first := if parents[0].createdId == child.createdId then [Pair(Some(child), Some(parents[0]))] else [];
      MapOfSum(Keys, first, PairsOf(child, parents[1..]));
    }
  }

  lemma {:induction false} ChildPairsOfKeys(children: seq<Row>, parents: seq<Row>)
    ensures ChildPairs(MapAll(KeyColumns, children), MapAll(KeyColumns, parents))
         == MapAll(Keys, ChildPairs(children, parents))
  {
    if children != [] {
      assert MapAll(KeyColumns, children)[1..] == MapAll(KeyColumns, children[1..]);
      ChildPairsOfKeys(children[1..], parents);
      SameIdentities(parents, children[0].createdId);
      PairsOfKeys(children[0], parents);
      var first := if HasRow(parents, children[0].createdId) then PairsOf(children[0], parents)
                   else [Pair(Some(children[0]), None)];
      MapOfSum(Keys, first, ChildPairs(children[1..], parents));
    }
  }

  lemma {:induction false} LonelyParentsOfKeys(children: seq<Row>, parents: seq<Row>)
    ensures LonelyParents(MapAll(KeyColumns, children), MapAll(KeyColumns, parents))
         == MapAll(Keys, LonelyParents(children, parents))
  {
    if parents != [] {
      assert MapAll(KeyColumns, parents)[1..] == MapAll(KeyColumns, parents[1..]);
      LonelyParentsOfKeys(children, parents[1..]);
      SameIdentities(children, parents[0].createdId);
      var first := if HasRow(children, parents[0].createdId) then [] else [Pair(None, Some(parents[0]))];
      MapOfSum(Keys, first, LonelyParents(children, parents[1..]));
    }
  }

  // The queries that read fewer columns see the same changes.
  lemma SameChanges(children: seq<Row>, parents: seq<Row>)
    ensures KeyChanges(children, parents) == MapAll(Keys, AllChanges(children, parents))
  {
    ChildPairsOfKeys(children, parents);
    LonelyParentsOfKeys(children, parents);
    MapOfSum(Keys, ChildPairs(children, parents), LonelyParents(children, parents));
    WhereOfMapped(Keys, Differs, Differs, Joined(children, parents));
  }

  // The count is the length of the list without pages, which holds exactly the filtered changes, newest first.
  lemma CountIsTheListsLength(matches: (string, string) -> bool, filters: Filters, children: seq<Row>,
                              parents: seq<Row>)
    ensures var list := ChangeList(matches, filters, children, parents);
      && |list| == CountChanges(matches, filters, children, parents)
      && IsOrdered(list)
      && multiset(list) == multiset(Where(Keeps(matches, filters), AllChanges(children, parents)))
  {
    hide AllChanges, CountChanges, KeyChanges, Keeps;
    OrderedIsOrdered(Where(Keeps(matches, filters), AllChanges(children, parents)));
    SameCount(matches, filters, children, parents);
  }

  lemma KeysAreKept(matches: (string, string) -> bool, filters: Filters, p: Pair)
    ensures Keeps(matches, filters)(Keys(p)) == Keeps(matches, filters)(p)
  {
  }

  lemma SameCount(matches: (string, string) -> bool, filters: Filters, children: seq<Row>, parents: seq<Row>)
    ensures CountChanges(matches, filters, children, parents)
         == |Where(Keeps(matches, filters), AllChanges(children, parents))|
  {
    hide *;
    CountOfKeys(matches, filters, children, parents);
    SameChanges(children, parents);
    forall p {
      KeysAreKept(matches, filters, p);
    }
    WhereOfMapped(Keys, Keeps(matches, filters), Keeps(matches, filters), AllChanges(children, parents));
  }

  // A page is the part of that list from its offset.
  lemma PageIsPart(matches: (string, string) -> bool, filters: Filters, children: seq<Row>, parents: seq<Row>,
                   limit: nat, offset: nat, i: nat)
    ensures var list, page := ChangeList(matches, filters, children, parents),
                              ChangesPaginated(matches, filters, children, parents, limit, offset);
      && (i < |page| <==> i < limit && offset + i < |list|)
      && (i < |page| ==> page[i] == list[offset + i])
  {
  }

  // ---- What a change means -----------------------------------------------------------------

  ghost predicate UniqueIds(rows: seq<Row>) {
    forall i, j | 0 <= i < j < |rows| :: rows[i].createdId != rows[j].createdId
  }

  function RowOf(rows: seq<Row>, createdId: nat): Option<Row> {
    if rows == [] then None else if rows[0].createdId == createdId then Some(rows[0]) else RowOf(rows[1..], createdId)
  }

  lemma {:induction false} RowOfIsFound(rows: seq<Row>, createdId: nat)
    ensures RowOf(rows, createdId).Some? <==> HasRow(rows, createdId)
    ensures RowOf(rows, createdId).Some? ==>
      RowOf(rows, createdId).value in rows && RowOf(rows, createdId).value.createdId == createdId
  {
    if rows != [] && rows[0].createdId != createdId {
      RowOfIsFound(rows[1..], createdId);
      if i :| 0 <= i < |rows| && rows[i].createdId == createdId {
        assert rows[1..][i - 1].createdId == createdId;
      }
    }
  }

  lemma OnlyRowOf(rows: seq<Row>, row: Row)
    requires UniqueIds(rows) && row in rows
    ensures RowOf(rows, row.createdId) == Some(row)
  {
  }

  // With each identity once on either side, every pair of the join is what the two sides hold of one identity.
  lemma PairsAreByIdentity(children: seq<Row>, parents: seq<Row>, p: Pair)
    requires UniqueIds(children) && UniqueIds(parents) && p in Joined(children, parents)
    ensures p == Pair(RowOf(children, Identity(p)), RowOf(parents, Identity(p)))
  {
    ChildPairsHaveChildren(children, parents);
    LonelyParentsAreAlone(children, parents);
    RowOfIsFound(children, Identity(p));
    RowOfIsFound(parents, Identity(p));
    if p.child.Some? {
      OnlyRowOf(children, p.child.value);
    }
    if p.parent.Some? {
      OnlyRowOf(parents, p.parent.value);
    }
  }

  lemma {:induction false} PairsOfAll(child: Row, parents: seq<Row>, parent: Row)
    requires parent in parents && parent.createdId == child.createdId
    ensures Pair(Some(child), Some(parent)) in PairsOf(child, parents)
  {
    if parents[0] != parent {
      PairsOfAll(child, parents[1..], parent);
    }
  }

  lemma {:induction false} EveryChildIsPaired(children: seq<Row>, parents: seq<Row>, child: Row)
    requires child in children
    ensures HasRow(parents, child.createdId) ==>
      forall parent | parent in parents && parent.createdId == child.createdId ::
        Pair(Some(child), Some(parent)) in ChildPairs(children, parents)
    ensures !HasRow(parents, child.createdId) ==> Pair(Some(child), None) in ChildPairs(children, parents)
  {
    if children[0] == child {
      forall parent | parent in parents && parent.createdId == child.createdId
        ensures Pair(Some(child), Some(parent)) in PairsOf(child, parents)
      {
        PairsOfAll(child, parents, parent);
      }
    } else {
      EveryChildIsPaired(children[1..], parents, child);
    }
  }

  lemma {:induction false} EveryLonelyParentIsThere(children: seq<Row>, parents: seq<Row>, parent: Row)
    requires parent in parents && !HasRow(children, parent.createdId)
    ensures Pair(None, Some(parent)) in LonelyParents(children, parents)
  {
    if parents[0] != parent {
      EveryLonelyParentIsThere(children, parents[1..], parent);
    }
  }

  // An identity is listed as a change exactly when it exists on one side only, or its public id or hash differ.
  lemma ChangesAreTheDifferences(children: seq<Row>, parents: seq<Row>, identity: nat)
    requires UniqueIds(children) && UniqueIds(parents)
    ensures var child, parent := RowOf(children, identity), RowOf(parents, identity);
      (exists p :: p in AllChanges(children, parents) && Identity(p) == identity)
      <==> IdOf(child) != IdOf(parent) || HashOf(child) != HashOf(parent)
  {
    var child, parent := RowOf(children, identity), RowOf(parents, identity);
    var p := Pair(child, parent);
    RowOfIsFound(children, identity);
    RowOfIsFound(parents, identity);
    WhereOnly(Differs, Joined(children, parents));
    if child.Some? {
      EveryChildIsPaired(children, parents, child.value);
    } else if parent.Some? {
      EveryLonelyParentIsThere(children, parents, parent.value);
    }
    forall q | q in Joined(children, parents) && Identity(q) == identity
      ensures q == p
    {
      PairsAreByIdentity(children, parents, q);
    }
    EveryPairHasARow(children, parents);
    assert (child.Some? || parent.Some?) ==> p in Joined(children, parents) && Identity(p) == identity;
  }
}
