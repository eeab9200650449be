/** What differs between two versions: the content check over one-sided links, and the version checks
  * behind the "has changes" flag. */
module ContentDiff {
  import opened VersionStore
  import opened StoreShape

  // The compared columns; "data" is compared through "hash".
  datatype ComparedColumns = ComparedColumns(id: string, hash: string, schemaHash: string, publishedAt: int,
                                             meta: string)

  function ComparedOf(row: RowVersion): ComparedColumns {
    ComparedColumns(row.columns.id, row.columns.hash, row.columns.schemaHash, row.columns.publishedAt, row.columns.meta)
  }

  // ---- Queries -----------------------------------------------------------------------------

  function RowLinksMissingIn(db: Db, table: Id, other: Id): (rows: set<Id>) {
    set l | l in db.rowLinks && l.table == table && RowLink(l.row, other) !in db.rowLinks :: l.row
  }

  predicate HasPartner(db: Db, x: Id, others: set<Id>)
    requires x in db.rows && others <= db.rows.Keys
  {
    exists y :: y in others && db.rows[y].createdId == db.rows[x].createdId
  }

  // A full outer join by createdId that keeps rows without a partner and pairs with different columns.
  predicate FullJoinDiffers(db: Db, from: set<Id>, to: set<Id>)
    requires from <= db.rows.Keys && to <= db.rows.Keys
  {
    || (exists x :: x in from && !HasPartner(db, x, to))
    || (exists y :: y in to && !HasPartner(db, y, from))
    || (exists x, y :: x in from && y in to && db.rows[x].createdId == db.rows[y].createdId
                       && ComparedOf(db.rows[x]) != ComparedOf(db.rows[y]))
  }

  predicate TableColumnsDiffer(db: Db, from: Id, to: Id) {
    from in db.tables && to in db.tables && db.tables[from].id != db.tables[to].id
  }

  predicate TableVersionContentDiffers(db: Db, from: Id, to: Id)
    requires LinksExist(db)
  {
    TableColumnsDiffer(db, from, to)
    || FullJoinDiffers(db, RowLinksMissingIn(db, from, to), RowLinksMissingIn(db, to, from))
  }

  predicate HasVersionIn(db: Db, t: Id, others: set<Id>)
    requires t in db.tables && others <= db.tables.Keys
  {
    exists s :: s in others && db.tables[s].createdId == db.tables[t].createdId
  }

  predicate VersionsDiffer(db: Db, s: Id, t: Id)
    requires s in db.tables && t in db.tables
  {
    db.tables[s].createdId == db.tables[t].createdId && (db.tables[s].id != db.tables[t].id || s != t)
  }

  // The same join of two sets of table versions, which keeps pairs with another public id or version.
  predicate TableJoinDiffers(db: Db, parents: set<Id>, children: set<Id>)
    requires parents <= db.tables.Keys && children <= db.tables.Keys
  {
    || (exists t :: t in children && !HasVersionIn(db, t, parents))
    || (exists s :: s in parents && !HasVersionIn(db, s, children))
    || (exists s, t :: s in parents && t in children && VersionsDiffer(db, s, t))
  }

  lemma TablesExist(db: Db, revision: Id)
    requires LinksExist(db)
    ensures TablesOf(db, revision) <= db.tables.Keys
  {
  }

  predicate HasTableDiffs(db: Db, from: Id, to: Id)
    requires LinksExist(db)
  {
    TablesExist(db, from);
    TablesExist(db, to);
    TableJoinDiffers(db, TablesOf(db, from), TablesOf(db, to))
  }

  // ---- The content of versions and revisions -----------------------------------------------

  datatype Cell = Cell(identity: Id, columns: ComparedColumns)

  datatype TableContent = TableContent(identity: Id, id: string, rows: set<Cell>)

  function RowsContent(db: Db, rows: set<Id>): set<Cell>
    requires rows <= db.rows.Keys
  {
    set x | x in rows :: Cell(db.rows[x].createdId, ComparedOf(db.rows[x]))
  }

  function ContentOf(db: Db, table: Id): TableContent
    requires LinksExist(db) && table in db.tables
  {
    assert forall x | x in RowsOf(db, table) :: RowLink(x, table) in db.rowLinks;
    TableContent(db.tables[table].createdId, db.tables[table].id, RowsContent(db, RowsOf(db, table)))
  }

  function RevisionContent(db: Db, revision: Id): set<TableContent>
    requires LinksExist(db)
  {
    set t | t in TablesOf(db, revision) :: ContentOf(db, t)
  }

  // ---- The content check is exact ----------------------------------------------------------

  lemma RowsExist(db: Db, table: Id)
    requires LinksExist(db)
    ensures RowsOf(db, table) <= db.rows.Keys
  {
  }

  ghost predicate UniqueIdentities(db: Db, rows: set<Id>)
    requires rows <= db.rows.Keys
  {
    forall x, y | x in rows && y in rows :: db.rows[x].createdId == db.rows[y].createdId ==> x == y
  }

  lemma RowsAreUnique(db: Db, table: Id)
    requires LinksExist(db) && RowIdentities(db)
    ensures RowsOf(db, table) <= db.rows.Keys && UniqueIdentities(db, RowsOf(db, table))
  {
  }

  // Joining only the rows linked on one side finds what joining both complete row sets finds.
  lemma OneSidedJoinIsEnough(db: Db, from: set<Id>, to: set<Id>)
    requires from <= db.rows.Keys && to <= db.rows.Keys
    requires UniqueIdentities(db, from) && UniqueIdentities(db, to)
    ensures FullJoinDiffers(db, from - to, to - from) <==> FullJoinDiffers(db, from, to)
  {
    if FullJoinDiffers(db, from - to, to - from) {
      PartOfJoinDiffers(db, from, to);
    }
    if FullJoinDiffers(db, from, to) {
      JoinDiffersInPart(db, from, to);
    }
  }

  lemma PartOfJoinDiffers(db: Db, from: set<Id>, to: set<Id>)
    requires from <= db.rows.Keys && to <= db.rows.Keys
    requires UniqueIdentities(db, from) && UniqueIdentities(db, to)
    requires FullJoinDiffers(db, from - to, to - from)
    ensures FullJoinDiffers(db, from, to)
  {
  }

  lemma JoinDiffersInPart(db: Db, from: set<Id>, to: set<Id>)
    requires from <= db.rows.Keys && to <= db.rows.Keys
    requires UniqueIdentities(db, from) && UniqueIdentities(db, to)
    requires FullJoinDiffers(db, from, to)
    ensures FullJoinDiffers(db, from - to, to - from)
  {
    if x :| x in from && !HasPartner(db, x, to) {
      assert x in from - to && !HasPartner(db, x, to - from);
    } else if y :| y in to && !HasPartner(db, y, from) {
      assert y in to - from && !HasPartner(db, y, from - to);
    } else {
      var x, y :| x in from && y in to && db.rows[x].createdId == db.rows[y].createdId
                  && ComparedOf(db.rows[x]) != ComparedOf(db.rows[y]);
      assert x in from - to && y in to - from;
    }
  }

  lemma JoinDiffersWhenContentDoes(db: Db, from: set<Id>, to: set<Id>)
    requires from <= db.rows.Keys && to <= db.rows.Keys
    requires UniqueIdentities(db, from) && UniqueIdentities(db, to)
    ensures FullJoinDiffers(db, from, to) <==> RowsContent(db, from) != RowsContent(db, to)
  {
    if !FullJoinDiffers(db, from, to) {
      forall x | x in from
        ensures Cell(db.rows[x].createdId, ComparedOf(db.rows[x])) in RowsContent(db, to)
      {
        assert HasPartner(db, x, to);
      }
      forall y | y in to
        ensures Cell(db.rows[y].createdId, ComparedOf(db.rows[y])) in RowsContent(db, from)
      {
        assert HasPartner(db, y, from);
      }
    }
    if RowsContent(db, from) == RowsContent(db, to) {
      forall x | x in from
        ensures HasPartner(db, x, to)
      {
        assert Cell(db.rows[x].createdId, ComparedOf(db.rows[x])) in RowsContent(db, to);
      }
      forall y | y in to
        ensures HasPartner(db, y, from)
      {
        assert Cell(db.rows[y].createdId, ComparedOf(db.rows[y])) in RowsContent(db, from);
      }
      forall x, y | x in from && y in to && db.rows[x].createdId == db.rows[y].createdId
        ensures ComparedOf(db.rows[x]) == ComparedOf(db.rows[y])
      {
        assert Cell(db.rows[x].createdId, ComparedOf(db.rows[x])) in RowsContent(db, to);
      }
    }
  }

  // The check says "differs" exactly when the public ids or the contents do.
  lemma ContentDiffIsExact(db: Db, from: Id, to: Id)
    requires LinksExist(db) && RowIdentities(db) && from in db.tables && to in db.tables
    ensures TableVersionContentDiffers(db, from, to)
        <==> ContentOf(db, from).id != ContentOf(db, to).id || ContentOf(db, from).rows != ContentOf(db, to).rows
  {
    var f, t := RowsOf(db, from), RowsOf(db, to);
    RowsAreUnique(db, from);
    RowsAreUnique(db, to);
    assert RowLinksMissingIn(db, from, to) == f - t && RowLinksMissingIn(db, to, from) == t - f;
    OneSidedJoinIsEnough(db, f, t);
    JoinDiffersWhenContentDoes(db, f, t);
  }

  ghost predicate OnOneSideOnly(db: Db, s: Id, t: Id)
    requires LinksExist(db)
  {
    exists x :: RowLink(x, s) in db.rowLinks
                && forall y | RowLink(y, t) in db.rowLinks :: db.rows[y].createdId != db.rows[x].createdId
  }

  // Column by column: a row identity is on one side only, or two rows of one identity differ in their public id, their
  // hashes, their time of publication or their meta.
  lemma ContentDiffByColumns(db: Db, from: Id, to: Id)
    requires LinksExist(db) && RowIdentities(db) && from in db.tables && to in db.tables
    ensures TableVersionContentDiffers(db, from, to) <==>
      || db.tables[from].id != db.tables[to].id
      || OnOneSideOnly(db, from, to) || OnOneSideOnly(db, to, from)
      || exists x, y ::
           && RowLink(x, from) in db.rowLinks && RowLink(y, to) in db.rowLinks
           && db.rows[x].createdId == db.rows[y].createdId
           && var a, b := db.rows[x].columns, db.rows[y].columns;
              || a.id != b.id || a.hash != b.hash || a.schemaHash != b.schemaHash
              || a.publishedAt != b.publishedAt || a.meta != b.meta
  {
    var f, t := RowsOf(db, from), RowsOf(db, to);
    RowsAreUnique(db, from);
    RowsAreUnique(db, to);
    assert RowLinksMissingIn(db, from, to) == f - t && RowLinksMissingIn(db, to, from) == t - f;
    OneSidedJoinIsEnough(db, f, t);
    LonelyRows(db, from, to);
    LonelyRows(db, to, from);
    PairedRows(db, from, to);
    hide RowIdentities, UniqueIdentities, OnOneSideOnly, HasPartner, RowsOf, ComparedOf;
  }

  lemma LonelyRows(db: Db, s: Id, t: Id)
    requires LinksExist(db) && RowsOf(db, s) <= db.rows.Keys && RowsOf(db, t) <= db.rows.Keys
    ensures OnOneSideOnly(db, s, t) <==> exists x :: x in RowsOf(db, s) && !HasPartner(db, x, RowsOf(db, t))
  {
    if OnOneSideOnly(db, s, t) {
      var x :| RowLink(x, s) in db.rowLinks
               && forall y | RowLink(y, t) in db.rowLinks :: db.rows[y].createdId != db.rows[x].createdId;
      assert x in RowsOf(db, s) && !HasPartner(db, x, RowsOf(db, t));
    }
    if x :| x in RowsOf(db, s) && !HasPartner(db, x, RowsOf(db, t)) {
      forall y | RowLink(y, t) in db.rowLinks
        ensures db.rows[y].createdId != db.rows[x].createdId
      {
        assert y in RowsOf(db, t);
      }
      assert RowLink(x, s) in db.rowLinks;
    }
  }

  lemma PairedRows(db: Db, from: Id, to: Id)
    requires LinksExist(db) && RowsOf(db, from) <= db.rows.Keys && RowsOf(db, to) <= db.rows.Keys
    ensures (exists x, y :: x in RowsOf(db, from) && y in RowsOf(db, to) && db.rows[x].createdId == db.rows[y].createdId
                            && ComparedOf(db.rows[x]) != ComparedOf(db.rows[y]))
      <==> exists x, y ::
             && RowLink(x, from) in db.rowLinks && RowLink(y, to) in db.rowLinks
             && db.rows[x].createdId == db.rows[y].createdId
             && var a, b := db.rows[x].columns, db.rows[y].columns;
                || a.id != b.id || a.hash != b.hash || a.schemaHash != b.schemaHash
                || a.publishedAt != b.publishedAt || a.meta != b.meta
  {
    forall x, y
      ensures x in RowsOf(db, from) <==> RowLink(x, from) in db.rowLinks
      ensures y in RowsOf(db, to) <==> RowLink(y, to) in db.rowLinks
    {
    }
    hide RowsOf;
  }

  // Two versions of a table; the second holds two equal versions of the row that the first holds once.
  function DoubledRow(columns: RowColumns): Db {
    var table, row := TableVersion(4, "t", true, false, 0), RowVersion(0, true, columns);
    Db(map[], map[5 := table, 6 := table], map[1 := row, 2 := row], {},
       {RowLink(1, 5), RowLink(1, 6), RowLink(2, 6)}, {}, 7)
  }

  lemma DoubledRows(columns: RowColumns)
    ensures var db := DoubledRow(columns);
      && LinksExist(db) && !RowIdentities(db)
      && RowsOf(db, 5) == {1} && RowsOf(db, 6) == {1, 2}
      && RowLinksMissingIn(db, 5, 6) == {} && RowLinksMissingIn(db, 6, 5) == {2}
  {
    var db := DoubledRow(columns);
    assert RowLink(1, 6) in db.rowLinks && RowLink(2, 6) in db.rowLinks;
  }

  // There the one-sided join of the query finds a difference, although the complete join and the contents show none.
  lemma OneSidedJoinNeedsUniqueIdentities(columns: RowColumns)
    ensures var db := DoubledRow(columns);
      && LinksExist(db) && !RowIdentities(db) && RowsOf(db, 5) <= db.rows.Keys && RowsOf(db, 6) <= db.rows.Keys
      && TableVersionContentDiffers(db, 5, 6)
      && !FullJoinDiffers(db, RowsOf(db, 5), RowsOf(db, 6))
      && ContentOf(db, 5) == ContentOf(db, 6)
  {
    var db := DoubledRow(columns);
    DoubledRows(columns);
    assert 2 in RowLinksMissingIn(db, 6, 5) && !HasPartner(db, 2, RowLinksMissingIn(db, 5, 6));
    assert 1 in RowsOf(db, 5) && 1 in RowsOf(db, 6);
    assert HasPartner(db, 1, RowsOf(db, 6)) && HasPartner(db, 2, RowsOf(db, 5)) && HasPartner(db, 1, RowsOf(db, 5));
    var cell := Cell(0, ComparedOf(RowVersion(0, true, columns)));
    assert cell in RowsContent(db, {1}) && cell in RowsContent(db, {1, 2});
    assert RowsContent(db, {1}) == {cell} && RowsContent(db, {1, 2}) == {cell};
  }

  // ---- The version check -------------------------------------------------------------------

  lemma TableJoinDiffersWhenSetsDo(db: Db, parents: set<Id>, children: set<Id>)
    requires parents <= db.tables.Keys && children <= db.tables.Keys
    requires DistinctIdentities(db, parents) && DistinctIdentities(db, children)
    ensures TableJoinDiffers(db, parents, children) <==> parents != children
  {
  }

  lemma TablesAreDistinct(db: Db, revision: Id)
    requires LinksExist(db) && TableIdentities(db)
    ensures TablesOf(db, revision) <= db.tables.Keys && DistinctIdentities(db, TablesOf(db, revision))
  {
  }

  // The version check says "differs" exactly when the two revisions link different versions.
  lemma HasTableDiffsIsLinkDifference(db: Db, from: Id, to: Id)
    requires LinksExist(db) && TableIdentities(db)
    ensures HasTableDiffs(db, from, to) <==> TablesOf(db, from) != TablesOf(db, to)
  {
  }
}
