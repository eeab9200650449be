/** Keyset iteration over the matching rows of one table version: pages of fixed size, each starting after the last
  * public id of the page before. Public ids are numbered in the order in which the database compares them. */
module KeysetIteration {
  import opened Wrappers

  const ITERATION_PAGE_SIZE := 100

  datatype Row = Row(id: nat, versionId: nat)

  // ---- The query ---------------------------------------------------------------------------

  function Filter(keep: Row -> bool, rows: seq<Row>): (r: seq<Row>)
    ensures |r| <= |rows|
  {
    if rows == [] then [] else (if keep(rows[0]) then [rows[0]] else []) + Filter(keep, rows[1..])
  }

  function Insert(row: Row, rows: seq<Row>): seq<Row> {
    if rows == [] then [row]
    else if row.id <= rows[0].id then [row] + rows
    else [rows[0]] + Insert(row, rows[1..])
  }

  function OrderById(rows: seq<Row>): seq<Row> {
    if rows == [] then [] else Insert(rows[0], OrderById(rows[1..]))
  }

  function IsAfter(after: Option<nat>): Row -> bool {
    (row: Row) => after.None? || row.id > after.value
  }

  function Both(matches: Row -> bool, after: Option<nat>): Row -> bool {
    (row: Row) => matches(row) && IsAfter(after)(row)
  }

  function Take(limit: nat, rows: seq<Row>): seq<Row> {
    if |rows| <= limit then rows else rows[..limit]
  }

  function FindPage(rows: seq<Row>, matches: Row -> bool, after: Option<nat>): seq<Row> {
    Take(ITERATION_PAGE_SIZE, OrderById(Filter(Both(matches, after), rows)))
  }

  // ---- The iteration -----------------------------------------------------------------------

  function Matches(rows: seq<Row>, matches: Row -> bool): seq<Row> {
    OrderById(Filter(matches, rows))
  }

  // What the pages hold together, over the matching rows in id order.
  function Iterated(ordered: seq<Row>, after: Option<nat>): seq<Row>
    decreases |Filter(IsAfter(after), ordered)|
  {
    var page := Take(ITERATION_PAGE_SIZE, Filter(IsAfter(after), ordered));
    if |page| == ITERATION_PAGE_SIZE then
      FewerAfterPage(ordered, after, page);
      page + Iterated(ordered, Some(page[|page| - 1].id))
    else
      page
  }

  method IterateMatchingRows(rows: seq<Row>, matches: Row -> bool) returns (yielded: seq<Row>)
    ensures yielded == Iterated(Matches(rows, matches), None)
  {
    ghost var ordered := Matches(rows, matches);
    yielded := [];
    var after: Option<nat> := None;
    var full := true;
    while full
      invariant full ==> yielded + Iterated(ordered, after) == Iterated(ordered, None)
      invariant !full ==> yielded == Iterated(ordered, None)
      decreases full, |Filter(IsAfter(after), ordered)|
    {
      var page := FindPage(rows, matches, after);
      PageOfOrdered(rows, matches, after);
      yielded := yielded + page;
      full := |page| == ITERATION_PAGE_SIZE;
      if full {
        FewerAfterPage(ordered, after, page);
        after := Some(page[|page| - 1].id);
      }
    }
  }

  // ---- Pages of the ordered rows -----------------------------------------------------------

  ghost predicate Ascending(rows: seq<Row>) {
    forall i, j | 0 <= i < j < |rows| :: rows[i].id <= rows[j].id
  }

  lemma {:induction false} InsertKeepsRows(row: Row, rows: seq<Row>)
    ensures multiset(Insert(row, rows)) == multiset(rows) + multiset{row}
  {
    if rows != [] {
      assert rows == [rows[0]] + rows[1..];
      if row.id > rows[0].id {
        InsertKeepsRows(row, rows[1..]);
      }
    }
  }

  lemma {:induction false} InsertedRows(row: Row, rows: seq<Row>)
    ensures forall r :: r in Insert(row, rows) <==> r == row || r in rows
  {
    if rows != [] && row.id > rows[0].id {
      InsertedRows(row, rows[1..]);
    }
  }

  lemma FirstIsLeast(first: Row, rest: seq<Row>)
    requires Ascending(rest) && forall r | r in rest :: first.id <= r.id
    ensures Ascending([first] + rest)
  {
  }

  lemma {:induction false} InsertKeepsOrder(row: Row, rows: seq<Row>)
    requires Ascending(rows)
    ensures Ascending(Insert(row, rows))
  {
    if rows != [] {
      assert forall r | r in rows :: rows[0].id <= r.id;
      if row.id <= rows[0].id {
        FirstIsLeast(row, rows);
      } else {
        InsertKeepsOrder(row, rows[1..]);
        InsertedRows(row, rows[1..]);
        FirstIsLeast(rows[0], Insert(row, rows[1..]));
      }
    }
  }

  lemma {:induction false} OrderedById(rows: seq<Row>)
    ensures Ascending(OrderById(rows)) && multiset(OrderById(rows)) == multiset(rows)
  {
    if rows != [] {
      OrderedById(rows[1..]);
      InsertKeepsOrder(rows[0], OrderById(rows[1..]));
      InsertKeepsRows(rows[0], OrderById(rows[1..]));
      assert rows == [rows[0]] + rows[1..];
    }
  }

  lemma FilterFirst(keep: Row -> bool, row: Row, rows: seq<Row>)
    ensures Filter(keep, [row] + rows) == (if keep(row) then [row] else []) + Filter(keep, rows)
  {
  }

  lemma {:induction false} FilterSum(keep: Row -> bool, a: seq<Row>, b: seq<Row>)
    ensures Filter(keep, a + b) == Filter(keep, a) + Filter(keep, b)
  {
    if a == [] {
      assert a + b == b;
    } else {
      var first := if keep(a[0]) then [a[0]] else [];
      assert (a + b)[1..] == a[1..] + b && (a + b)[0] == a[0];
      FilterSum(keep, a[1..], b);
      assert Filter(keep, a) == first + Filter(keep, a[1..]);
      assert first + (Filter(keep, a[1..]) + Filter(keep, b)) == (first + Filter(keep, a[1..])) + Filter(keep, b);
    }
  }

  lemma InsertInFront(row: Row, rows: seq<Row>)
    requires forall r | r in rows :: row.id <= r.id
    ensures Insert(row, rows) == [row] + rows
  {
  }

  lemma InsertBehind(first: Row, row: Row, rest: seq<Row>)
    requires row.id > first.id
    ensures Insert(row, [first] + rest) == [first] + Insert(row, rest)
  {
  }

  lemma {:induction false} FilterInserted(keep: Row -> bool, row: Row, rows: seq<Row>)
    requires Ascending(rows)
    ensures Filter(keep, Insert(row, rows))
         == (if keep(row) then Insert(row, Filter(keep, rows)) else Filter(keep, rows))
  {
    if rows == [] || row.id <= rows[0].id {
      assert forall r | r in rows :: row.id <= r.id;
      FilteredIsPart(keep, rows);
      InsertInFront(row, rows);
      InsertInFront(row, Filter(keep, rows));
      FilterFirst(keep, row, rows);
    } else {
      FilterInserted(keep, row, rows[1..]);
      FilterFirst(keep, rows[0], Insert(row, rows[1..]));
      FilterFirst(keep, rows[0], rows[1..]);
      assert [rows[0]] + rows[1..] == rows;
      InsertBehind(rows[0], row, Filter(keep, rows[1..]));
      assert Insert(row, rows) == [rows[0]] + Insert(row, rows[1..]);
      assert [] + Filter(keep, rows[1..]) == Filter(keep, rows[1..]);
    }
  }

  lemma {:induction false} FilteredIsPart(keep: Row -> bool, rows: seq<Row>)
    ensures forall row :: row in Filter(keep, rows) <==> row in rows && keep(row)
  {
    if rows != [] {
      FilteredIsPart(keep, rows[1..]);
    }
  }

  // Filtering before or after ordering is the same.
  lemma {:induction false} FilterOrdered(keep: Row -> bool, rows: seq<Row>)
    ensures OrderById(Filter(keep, rows)) == Filter(keep, OrderById(rows))
  {
    if rows != [] {
      FilterOrdered(keep, rows[1..]);
      OrderedById(rows[1..]);
      FilterInserted(keep, rows[0], OrderById(rows[1..]));
      assert ([rows[0]] + Filter(keep, rows[1..]))[1..] == Filter(keep, rows[1..]);
      assert [] + Filter(keep, rows[1..]) == Filter(keep, rows[1..]);
    }
  }

  lemma {:induction false} FilterTwice(matches: Row -> bool, after: Option<nat>, rows: seq<Row>)
    ensures Filter(Both(matches, after), rows) == Filter(IsAfter(after), Filter(matches, rows))
  {
    if rows != [] {
      FilterTwice(matches, after, rows[1..]);
      FilterFirst(IsAfter(after), rows[0], Filter(matches, rows[1..]));
      assert [] + Filter(matches, rows[1..]) == Filter(matches, rows[1..]);
    }
  }

  lemma PageOfOrdered(rows: seq<Row>, matches: Row -> bool, after: Option<nat>)
    ensures FindPage(rows, matches, after) == Take(ITERATION_PAGE_SIZE, Filter(IsAfter(after), Matches(rows, matches)))
  {
    FilterTwice(matches, after, rows);
    FilterOrdered(IsAfter(after), Filter(matches, rows));
  }

  // ---- Progress ----------------------------------------------------------------------------

  lemma {:induction false} FewerPass(fewer: Row -> bool, more: Row -> bool, rows: seq<Row>, row: Row)
    requires forall r | r in rows && fewer(r) :: more(r)
    requires row in rows && more(row) && !fewer(row)
    ensures |Filter(fewer, rows)| < |Filter(more, rows)|
  {
    if row in rows[1..] {
      FewerPass(fewer, more, rows[1..], row);
    } else {
      NoMorePass(fewer, more, rows[1..]);
    }
  }

  lemma {:induction false} NoMorePass(fewer: Row -> bool, more: Row -> bool, rows: seq<Row>)
    requires forall r | r in rows && fewer(r) :: more(r)
    ensures |Filter(fewer, rows)| <= |Filter(more, rows)|
  {
    if rows != [] {
      NoMorePass(fewer, more, rows[1..]);
    }
  }

  lemma FewerAfterPage(ordered: seq<Row>, after: Option<nat>, page: seq<Row>)
    requires page == Take(ITERATION_PAGE_SIZE, Filter(IsAfter(after), ordered)) && page != []
    ensures |Filter(IsAfter(Some(page[|page| - 1].id)), ordered)| < |Filter(IsAfter(after), ordered)|
  {
    var last := page[|page| - 1];
    FilteredIsPart(IsAfter(after), ordered);
    assert last in Filter(IsAfter(after), ordered);
    FewerPass(IsAfter(Some(last.id)), IsAfter(after), ordered, last);
  }

  // ---- Which rows are visited --------------------------------------------------------------

  lemma {:induction false} AfterTheRest(rows: seq<Row>, k: nat)
    requires Ascending(rows) && 0 < k <= |rows| && (k < |rows| ==> rows[k - 1].id < rows[k].id)
    ensures Filter(IsAfter(Some(rows[k - 1].id)), rows) == rows[k..]
  {
    var keep := IsAfter(Some(rows[k - 1].id));
    assert !keep(rows[0]);
    if k > 1 {
      assert rows[1..][k - 2] == rows[k - 1] && (k < |rows| ==> rows[1..][k - 1] == rows[k]);
      AfterTheRest(rows[1..], k - 1);
      assert rows[1..][k - 1..] == rows[k..];
    } else {
      assert forall i | 0 <= i < |rows[1..]| :: rows[1..][i] == rows[i + 1];
      AllPass(keep, rows[1..]);
    }
  }

  lemma {:induction false} AllPass(keep: Row -> bool, rows: seq<Row>)
    requires forall row | row in rows :: keep(row)
    ensures Filter(keep, rows) == rows
  {
    if rows != [] {
      AllPass(keep, rows[1..]);
    }
  }

  // No page ends between two rows of one id.
  ghost predicate PagesSeparateIds(rows: seq<Row>, k: nat) {
    forall n | n % ITERATION_PAGE_SIZE == 0 && k < n < |rows| :: rows[n - 1].id != rows[n].id
  }

  function AfterFirst(rows: seq<Row>, k: nat): Option<nat>
    requires k <= |rows|
  {
    if k == 0 then None else Some(rows[k - 1].id)
  }

  lemma RestAfterFirst(rows: seq<Row>, k: nat)
    requires Ascending(rows) && k <= |rows| && (0 < k < |rows| ==> rows[k - 1].id != rows[k].id)
    ensures Filter(IsAfter(AfterFirst(rows, k)), rows) == rows[k..]
  {
    if k == 0 {
      AllPass(IsAfter(None), rows);
    } else {
      AfterTheRest(rows, k);
    }
  }

  lemma {:induction false} NonePass(keep: Row -> bool, rows: seq<Row>)
    requires forall row | row in rows :: !keep(row)
    ensures Filter(keep, rows) == []
  {
    if rows != [] {
      NonePass(keep, rows[1..]);
    }
  }

  lemma {:induction false} FilteredAscending(keep: Row -> bool, rows: seq<Row>)
    requires Ascending(rows)
    ensures Ascending(Filter(keep, rows))
  {
    if rows != [] {
      FilteredAscending(keep, rows[1..]);
      FilteredIsPart(keep, rows[1..]);
      assert forall r | r in rows[1..] :: rows[0].id <= r.id;
    }
  }

  lemma {:induction false} LaterIsStricter(rows: seq<Row>, after: Option<nat>, last: nat)
    requires after.Some? ==> after.value <= last
    ensures Filter(IsAfter(Some(last)), Filter(IsAfter(after), rows)) == Filter(IsAfter(Some(last)), rows)
  {
    if rows != [] {
      LaterIsStricter(rows[1..], after, last);
      FilterFirst(IsAfter(Some(last)), rows[0], Filter(IsAfter(after), rows[1..]));
      assert [] + Filter(IsAfter(after), rows[1..]) == Filter(IsAfter(after), rows[1..]);
    }
  }

  // After n rows in order at least n rows fewer are left.
  lemma PageIsBehind(rows: seq<Row>, after: Option<nat>, n: nat)
    requires Ascending(rows) && 0 < n <= |Filter(IsAfter(after), rows)|
    ensures var left := Filter(IsAfter(after), rows);
      |Filter(IsAfter(Some(left[n - 1].id)), rows)| <= |left| - n
  {
    var left := Filter(IsAfter(after), rows);
    var last := left[n - 1].id;
    FilteredAscending(IsAfter(after), rows);
    FilteredIsPart(IsAfter(after), rows);
    assert left[n - 1] in left;
    LaterIsStricter(rows, after, last);
    FirstOnesDrop(left, n);
  }

  lemma FirstOnesDrop(left: seq<Row>, n: nat)
    requires Ascending(left) && 0 < n <= |left|
    ensures |Filter(IsAfter(Some(left[n - 1].id)), left)| <= |left| - n
  {
    var keep := IsAfter(Some(left[n - 1].id));
    FilterSum(keep, left[..n], left[n..]);
    NonePass(keep, left[..n]);
    assert left == left[..n] + left[n..];
  }

  lemma {:induction false} VisitsNoMoreThanLeft(rows: seq<Row>, after: Option<nat>)
    requires Ascending(rows)
    ensures |Iterated(rows, after)| <= |Filter(IsAfter(after), rows)|
    decreases |Filter(IsAfter(after), rows)|
  {
    var page := Take(ITERATION_PAGE_SIZE, Filter(IsAfter(after), rows));
    if |page| == ITERATION_PAGE_SIZE {
      FewerAfterPage(rows, after, page);
      VisitsNoMoreThanLeft(rows, Some(page[|page| - 1].id));
      PageIsBehind(rows, after, ITERATION_PAGE_SIZE);
    }
  }

  // From a page that starts at row k: exactly the rows from k on are visited, in order, if and only if no later page
  // ends between two rows of one id.
  lemma {:induction false} IteratesFrom(rows: seq<Row>, k: nat)
    requires Ascending(rows) && k <= |rows| && k % ITERATION_PAGE_SIZE == 0
    requires 0 < k < |rows| ==> rows[k - 1].id != rows[k].id
    ensures Iterated(rows, AfterFirst(rows, k)) == rows[k..] <==> PagesSeparateIds(rows, k)
    decreases |rows| - k
  {
    var n := k + ITERATION_PAGE_SIZE;
    RestAfterFirst(rows, k);
    if n > |rows| {
      LastPage(rows, k);
    } else {
      hide Iterated, Filter;
      FirstPage(rows, k);
      SamePrefix(rows[k..n], Iterated(rows, AfterFirst(rows, n)), rows[n..]);
      assert rows[k..] == rows[k..n] + rows[n..];
      if n < |rows| && rows[n - 1].id == rows[n].id {
        hide PagesSeparateIds;
        TieIsSkipped(rows, n);
        VisitsNoMoreThanLeft(rows, AfterFirst(rows, n));
        TieIsSeen(rows, k);
      } else {
        hide PagesSeparateIds;
        IteratesFrom(rows, n);
        NextPages(rows, k);
      }
    }
  }

  lemma TieIsSeen(rows: seq<Row>, k: nat)
    requires k % ITERATION_PAGE_SIZE == 0
    requires var n := k + ITERATION_PAGE_SIZE; n < |rows| && rows[n - 1].id == rows[n].id
    ensures !PagesSeparateIds(rows, k)
  {
  }

  lemma OnlyPage(rows: seq<Row>, after: Option<nat>)
    requires |Filter(IsAfter(after), rows)| < ITERATION_PAGE_SIZE
    ensures Iterated(rows, after) == Filter(IsAfter(after), rows)
  {
  }

  lemma BetweenPages(k: nat, n: nat)
    requires k % ITERATION_PAGE_SIZE == 0 && k < n < k + ITERATION_PAGE_SIZE
    ensures n % ITERATION_PAGE_SIZE != 0
  {
  }

  lemma LastPage(rows: seq<Row>, k: nat)
    requires k <= |rows| < k + ITERATION_PAGE_SIZE && k % ITERATION_PAGE_SIZE == 0
    requires Filter(IsAfter(AfterFirst(rows, k)), rows) == rows[k..]
    ensures Iterated(rows, AfterFirst(rows, k)) == rows[k..] && PagesSeparateIds(rows, k)
  {
    OnlyPage(rows, AfterFirst(rows, k));
    hide Iterated, Filter;
    forall n: nat | k < n < |rows|
      ensures n % ITERATION_PAGE_SIZE != 0
    {
      BetweenPages(k, n);
    }
  }

  lemma FullPage(rows: seq<Row>, after: Option<nat>, page: seq<Row>)
    requires page == Take(ITERATION_PAGE_SIZE, Filter(IsAfter(after), rows)) && |page| == ITERATION_PAGE_SIZE
    ensures Iterated(rows, after) == page + Iterated(rows, Some(page[|page| - 1].id))
  {
  }

  lemma FirstPage(rows: seq<Row>, k: nat)
    requires k + ITERATION_PAGE_SIZE <= |rows| && Filter(IsAfter(AfterFirst(rows, k)), rows) == rows[k..]
    ensures var n := k + ITERATION_PAGE_SIZE;
      Iterated(rows, AfterFirst(rows, k)) == rows[k..n] + Iterated(rows, AfterFirst(rows, n))
  {
    hide Iterated, Filter;
    var n := k + ITERATION_PAGE_SIZE;
    var page := Take(ITERATION_PAGE_SIZE, rows[k..]);
    assert page == rows[k..n] && page[|page| - 1] == rows[n - 1];
    FullPage(rows, AfterFirst(rows, k), page);
  }

  lemma SamePrefix(prefix: seq<Row>, a: seq<Row>, b: seq<Row>)
    ensures prefix + a == prefix + b <==> a == b
  {
    assert (prefix + a)[|prefix|..] == a && (prefix + b)[|prefix|..] == b;
  }

  lemma NextPages(rows: seq<Row>, k: nat)
    requires k % ITERATION_PAGE_SIZE == 0
    requires var n := k + ITERATION_PAGE_SIZE; n < |rows| ==> rows[n - 1].id != rows[n].id
    ensures PagesSeparateIds(rows, k) <==> PagesSeparateIds(rows, k + ITERATION_PAGE_SIZE)
  {
  }

  lemma TieIsSkipped(rows: seq<Row>, n: nat)
    requires Ascending(rows) && 0 < n < |rows| && rows[n - 1].id == rows[n].id
    ensures |Filter(IsAfter(Some(rows[n - 1].id)), rows)| < |rows| - n
  {
    var keep := IsAfter(Some(rows[n - 1].id));
    assert rows == rows[..n + 1] + rows[n + 1..];
    FilterSum(keep, rows[..n + 1], rows[n + 1..]);
    NonePass(keep, rows[..n + 1]);
  }

  lemma {:induction false} FilterCounts(keep: Row -> bool, rows: seq<Row>, r: Row)
    ensures multiset(Filter(keep, rows))[r] == if keep(r) then multiset(rows)[r] else 0
  {
    if rows != [] {
      var first := if keep(rows[0]) then [rows[0]] else [];
      assert Filter(keep, rows) == first + Filter(keep, rows[1..]);
      hide Filter;
      FilterCounts(keep, rows[1..], r);
      assert rows == [rows[0]] + rows[1..];
    }
  }

  // The iteration visits every matching row exactly once, in id order, if and only if no page ends between two
  // matching rows of one id.
  lemma IterationIsComplete(rows: seq<Row>, matches: Row -> bool)
    ensures var ordered := Matches(rows, matches);
      && Ascending(ordered)
      && (forall r :: multiset(ordered)[r] == if matches(r) then multiset(rows)[r] else 0)
      && (Iterated(ordered, None) == ordered <==> PagesSeparateIds(ordered, 0))
  {
    OrderedById(Filter(matches, rows));
    forall r {
      FilterCounts(matches, rows, r);
    }
    IteratesFrom(Matches(rows, matches), 0);
  }

  ghost predicate UniqueIds(rows: seq<Row>) {
    forall i, j | 0 <= i < j < |rows| :: rows[i].id != rows[j].id
  }

  lemma {:induction false} InsertKeepsUnique(row: Row, rows: seq<Row>)
    requires UniqueIds(rows) && forall r | r in rows :: r.id != row.id
    ensures UniqueIds(Insert(row, rows))
  {
    if rows != [] && row.id > rows[0].id {
      assert forall r | r in rows[1..] :: r.id != rows[0].id;
      InsertKeepsUnique(row, rows[1..]);
      InsertedRows(row, rows[1..]);
    }
  }

  lemma {:induction false} MatchesAreUnique(rows: seq<Row>, matches: Row -> bool)
    requires UniqueIds(rows)
    ensures UniqueIds(Matches(rows, matches))
  {
    if rows != [] {
      MatchesAreUnique(rows[1..], matches);
      if matches(rows[0]) {
        assert Filter(matches, rows)[1..] == Filter(matches, rows[1..]);
        FilteredIsPart(matches, rows[1..]);
        SameRows(Filter(matches, rows[1..]));
        assert forall r | r in rows[1..] :: r.id != rows[0].id;
        InsertKeepsUnique(rows[0], Matches(rows[1..], matches));
      } else {
        assert [] + Filter(matches, rows[1..]) == Filter(matches, rows[1..]);
      }
    }
  }

  lemma SameRows(rows: seq<Row>)
    ensures forall r :: r in OrderById(rows) <==> r in rows
  {
    OrderedById(rows);
    assert forall r :: r in OrderById(rows) <==> r in multiset(OrderById(rows));
  }

  // So every matching row is visited exactly once when public ids are unique in the table version.
  lemma UniqueIdsAreVisitedOnce(rows: seq<Row>, matches: Row -> bool)
    requires UniqueIds(rows)
    ensures var yielded := Iterated(Matches(rows, matches), None);
      && Ascending(yielded)
      && (forall r :: multiset(yielded)[r] == if matches(r) then multiset(rows)[r] else 0)
  {
    IterationIsComplete(rows, matches);
    MatchesAreUnique(rows, matches);
  }

  // A hundred and one rows of one id: the last is never visited.
  lemma RepeatedIdIsSkipped(rows: seq<Row>)
    requires |rows| == 101 && forall i | 0 <= i < |rows| :: rows[i].id == 7
    ensures Iterated(rows, None) == rows[..100]
  {
    AllPass(IsAfter(None), rows);
    NonePass(IsAfter(Some(7)), rows);
    assert rows[..100] + [] == rows[..100];
  }
}
