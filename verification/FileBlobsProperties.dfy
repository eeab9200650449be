/** What cleaning up blobs keeps: exact counters, conserved bytes, exact orphan hashes, idempotence, and counters that
  * are never negative. */
module FileBlobsProperties {
  import opened Wrappers
  import opened FileBlobs

  // Each project's counter is the sum of its active blobs.
  ghost predicate CounterExact(blobs: seq<Blob>, usage: map<string, int>, project: string) {
    CounterOf(usage, project) == BytesOf(Active(blobs), project)
  }

  ghost predicate CountersExact(blobs: seq<Blob>, usage: map<string, int>) {
    forall p :: CounterExact(blobs, usage, p)
  }

  // The marker was on no bytes of the project's listed blobs, or nothing of the project stays active.
  ghost predicate CountsOnce(blobs: seq<Blob>, ids: set<nat>, marker: Time, project: string) {
    BytesOf(MarkedBy(blobs, ids, marker), project) == 0 || BytesOf(Active(Stamped(blobs, ids, marker)), project) == 0
  }

  // ---- Bytes are conserved -----------------------------------------------------------------

  lemma {:induction false} TombstonedBytes(blobs: seq<Blob>, ids: set<nat>, marker: Time, project: string)
    ensures BytesOf(Active(blobs), project) + BytesOf(MarkedBy(blobs, ids, marker), project)
         == BytesOf(Active(Stamped(blobs, ids, marker)), project)
             + BytesOf(MarkedBy(Stamped(blobs, ids, marker), ids, marker), project)
  {
    if blobs != [] {
      var rest := blobs[1..];
      TombstonedBytes(rest, ids, marker, project);
      var stamped := Stamped(blobs, ids, marker);
      assert stamped[1..] == Stamped(rest, ids, marker) && stamped[0] == Stamp(blobs[0], ids, marker);
      FirstActive(blobs, project);
      FirstActive(stamped, project);
      FirstMarked(blobs, ids, marker, project);
      FirstMarked(stamped, ids, marker, project);
    }
  }

  function Share(counts: bool, blob: Blob, project: string): nat {
    if counts && blob.project == project then blob.size else 0
  }

  lemma FirstActive(blobs: seq<Blob>, project: string)
    requires blobs != []
    ensures BytesOf(Active(blobs), project)
         == Share(IsActive(blobs[0]), blobs[0], project) + BytesOf(Active(blobs[1..]), project)
  {
    if IsActive(blobs[0]) {
      assert Active(blobs)[1..] == Active(blobs[1..]);
    } else {
      assert Active(blobs) == Active(blobs[1..]);
    }
  }

  lemma FirstMarked(blobs: seq<Blob>, ids: set<nat>, marker: Time, project: string)
    requires blobs != []
    ensures BytesOf(MarkedBy(blobs, ids, marker), project)
         == Share(blobs[0].id in ids && blobs[0].deletedAt == Some(marker), blobs[0], project)
          + BytesOf(MarkedBy(blobs[1..], ids, marker), project)
  {
    if blobs[0].id in ids && blobs[0].deletedAt == Some(marker) {
      assert MarkedBy(blobs, ids, marker)[1..] == MarkedBy(blobs[1..], ids, marker);
    } else {
      assert MarkedBy(blobs, ids, marker) == MarkedBy(blobs[1..], ids, marker);
    }
  }

  // ---- Counters stay exact -----------------------------------------------------------------

  // Cleaning up keeps exact counters exact if and only if it stamps nothing or counts the bytes of every project once.
  lemma CleanupKeepsCounters(blobs: seq<Blob>, usage: map<string, int>, after: map<string, int>, ids: set<nat>,
                             marker: Time)
    requires CountersExact(blobs, usage) && CountersFinalized(blobs, usage, after, ids, marker)
    ensures CountersExact(Stamped(blobs, ids, marker), after)
       <==> !StampsAny(blobs, ids) || forall p :: CountsOnce(blobs, ids, marker, p)
  {
    if StampsAny(blobs, ids) {
      forall p
        ensures CounterExact(Stamped(blobs, ids, marker), after, p) <==> CountsOnce(blobs, ids, marker, p)
      {
        assert CounterExact(blobs, usage, p);
        CounterIsKept(blobs, usage, after, ids, marker, p);
      }
      hide CounterExact, CountsOnce;
    } else {
      assert Stamped(blobs, ids, marker) == blobs;
    }
  }

  lemma CounterIsKept(blobs: seq<Blob>, usage: map<string, int>, after: map<string, int>, ids: set<nat>, marker: Time,
                      p: string)
    requires CounterOf(usage, p) == BytesOf(Active(blobs), p)
    requires var bytes := BytesByProject(MarkedBy(Stamped(blobs, ids, marker), ids, marker));
      DecrementedBy(usage, after, bytes, bytes.Keys)
    ensures CounterOf(after, p) == BytesOf(Active(Stamped(blobs, ids, marker)), p)
       <==> BytesOf(MarkedBy(blobs, ids, marker), p) == 0 || BytesOf(Active(Stamped(blobs, ids, marker)), p) == 0
  {
    var stamped := Stamped(blobs, ids, marker);
    var bytes := BytesByProject(MarkedBy(stamped, ids, marker));
    TombstonedBytes(blobs, ids, marker, p);
    CounterAfter(usage, after, bytes, p);
    assert BytesOf(MarkedBy(stamped, ids, marker), p) == (if p in bytes then bytes[p] else 0);
  }

  lemma CounterAfter(usage: map<string, int>, after: map<string, int>, bytes: map<string, nat>, p: string)
    requires DecrementedBy(usage, after, bytes, bytes.Keys) && CounterOf(usage, p) >= 0
    ensures var amount := if p in bytes then bytes[p] else 0;
      CounterOf(after, p) == if CounterOf(usage, p) >= amount then CounterOf(usage, p) - amount else 0
  {
  }

  lemma {:induction false} FreshMarkerMarksNothing(blobs: seq<Blob>, ids: set<nat>, marker: Time)
    requires forall i | 0 <= i < |blobs| :: blobs[i].deletedAt != Some(marker)
    ensures MarkedBy(blobs, ids, marker) == []
  {
    if blobs != [] {
      assert forall i | 0 <= i < |blobs[1..]| :: blobs[1..][i] == blobs[i + 1];
      FreshMarkerMarksNothing(blobs[1..], ids, marker);
    }
  }

  // With a marker that is on no blob yet, exact counters stay exact and each project's counter falls by exactly its
  // tombstoned bytes.
  lemma FreshCleanupKeepsCounters(blobs: seq<Blob>, usage: map<string, int>, after: map<string, int>, ids: set<nat>,
                                  marker: Time)
    requires CountersExact(blobs, usage) && forall i | 0 <= i < |blobs| :: blobs[i].deletedAt != Some(marker)
    requires CountersFinalized(blobs, usage, after, ids, marker)
    ensures CountersExact(Stamped(blobs, ids, marker), after)
    ensures forall p ::
      CounterOf(usage, p) - CounterOf(after, p) == BytesOf(MarkedBy(Stamped(blobs, ids, marker), ids, marker), p)
  {
    FreshMarkerMarksNothing(blobs, ids, marker);
    CleanupKeepsCounters(blobs, usage, after, ids, marker);
    assert forall p :: CountsOnce(blobs, ids, marker, p);
    forall p
      ensures CounterOf(usage, p) - CounterOf(after, p)
           == BytesOf(MarkedBy(Stamped(blobs, ids, marker), ids, marker), p)
    {
      assert CounterExact(blobs, usage, p) && CounterExact(Stamped(blobs, ids, marker), after, p);
      TombstonedBytes(blobs, ids, marker, p);
    }
  }

  // Two tombstoning calls in one millisecond: the first stamped the blob of 5 bytes.
  function StampedTwice(): seq<Blob> {
    [Blob(0, "p", "x", 5, Some(7)), Blob(1, "p", "y", 1, None), Blob(2, "p", "z", 9, None)]
  }

  lemma StampedTwiceBytes()
    ensures StampsAny(StampedTwice(), {0, 1})
    ensures BytesOf(Active(StampedTwice()), "p") == 10
    ensures BytesOf(MarkedBy(StampedTwice(), {0, 1}, 7), "p") == 5
    ensures BytesOf(Active(Stamped(StampedTwice(), {0, 1}, 7)), "p") == 9
  {
    var a, b, c := Blob(0, "p", "x", 5, Some(7)), Blob(1, "p", "y", 1, None), Blob(2, "p", "z", 9, None);
    var d := b.(deletedAt := Some(7));
    assert StampedTwice()[1] == b;
    assert StampedTwice() == [a, b, c] && Stamped(StampedTwice(), {0, 1}, 7) == [a, d, c];
    assert [a, b, c][1..] == [b, c] && [a, d, c][1..] == [d, c] && [b, c][1..] == [c] && [d, c][1..] == [c];
    assert Active([a, b, c]) == [b, c] && Active([a, d, c]) == [c];
    assert MarkedBy([b, c], {0, 1}, 7) == [] && MarkedBy([a, b, c], {0, 1}, 7) == [a];
  }

  lemma {:induction false} ActiveOfOneProject(blobs: seq<Blob>, project: string)
    requires forall i | 0 <= i < |blobs| :: blobs[i].project == project
    ensures forall i | 0 <= i < |Active(blobs)| :: Active(blobs)[i].project == project
  {
    if blobs != [] {
      assert forall i | 0 <= i < |blobs[1..]| :: blobs[1..][i] == blobs[i + 1];
      ActiveOfOneProject(blobs[1..], project);
    }
  }

  lemma StampedTwiceIsExact()
    ensures CountersExact(StampedTwice(), map["p" := 10])
  {
    StampedTwiceBytes();
    ActiveOfOneProject(StampedTwice(), "p");
    OneProjectAgrees(Active(StampedTwice()), "p");
  }

  // The second call takes those 5 bytes again: counters that were exact no longer are.
  lemma ReusedMarkerCountsTwice(after: map<string, int>)
    requires CountersFinalized(StampedTwice(), map["p" := 10], after, {0, 1}, 7)
    ensures CountersExact(StampedTwice(), map["p" := 10])
    ensures !CountersExact(Stamped(StampedTwice(), {0, 1}, 7), after)
  {
    StampedTwiceIsExact();
    StampedTwiceBytes();
    assert !CountsOnce(StampedTwice(), {0, 1}, 7, "p");
    hide *;
    CleanupKeepsCounters(StampedTwice(), map["p" := 10], after, {0, 1}, 7);
  }

  // ---- The total ---------------------------------------------------------------------------

  function SumOver(projects: seq<string>, blobs: seq<Blob>): nat {
    if projects == [] then 0 else BytesOf(blobs, projects[0]) + SumOver(projects[1..], blobs)
  }

  ghost predicate NoneTwice(projects: seq<string>) {
    forall i, j | 0 <= i < j < |projects| :: projects[i] != projects[j]
  }

  lemma {:induction false} OneMoreBlob(projects: seq<string>, blob: Blob, rest: seq<Blob>)
    requires NoneTwice(projects)
    ensures SumOver(projects, [blob] + rest)
         == SumOver(projects, rest) + (if blob.project in projects then blob.size else 0)
  {
    assert ([blob] + rest)[1..] == rest;
    if projects != [] {
      assert forall i | 0 <= i < |projects| - 1 :: projects[1..][i] == projects[i + 1];
      OneMoreBlob(projects[1..], blob, rest);
      assert projects[0] !in projects[1..];
    }
  }

  // The freed bytes are the total by which the counters of the projects fall.
  lemma {:induction false} FreedBytesAreTheTotal(projects: seq<string>, blobs: seq<Blob>)
    requires NoneTwice(projects) && forall i | 0 <= i < |blobs| :: blobs[i].project in projects
    ensures Bytes(blobs) == SumOver(projects, blobs)
  {
    if blobs == [] {
      NothingToSum(projects);
    } else {
      assert forall i | 0 <= i < |blobs[1..]| :: blobs[1..][i] == blobs[i + 1];
      FreedBytesAreTheTotal(projects, blobs[1..]);
      OneMoreBlob(projects, blobs[0], blobs[1..]);
      assert [blobs[0]] + blobs[1..] == blobs;
    }
  }

  lemma {:induction false} NothingToSum(projects: seq<string>)
    ensures SumOver(projects, []) == 0
  {
    if projects != [] {
      NothingToSum(projects[1..]);
    }
  }

  // ---- Orphan hashes -----------------------------------------------------------------------

  lemma {:induction false} HashesOnce(blobs: seq<Blob>)
    ensures NoneTwice(UniqueHashes(blobs))
    ensures forall h :: h in UniqueHashes(blobs) <==> exists i :: 0 <= i < |blobs| && blobs[i].hash == h
  {
    if blobs != [] {
      var first := blobs[..|blobs| - 1];
      HashesOnce(first);
      forall h
        ensures h in UniqueHashes(blobs) <==> exists i :: 0 <= i < |blobs| && blobs[i].hash == h
      {
        if i :| 0 <= i < |blobs| && blobs[i].hash == h {
          assert i == |blobs| - 1 || first[i].hash == h;
        }
        if i :| 0 <= i < |first| && first[i].hash == h {
          assert blobs[i].hash == h;
        }
        assert blobs[|blobs| - 1].hash in UniqueHashes(blobs);
      }
    }
  }

  lemma {:induction false} UnusedAreFiltered(blobs: seq<Blob>, hashes: seq<string>)
    requires NoneTwice(hashes)
    ensures NoneTwice(UnusedHashes(blobs, hashes))
    ensures forall h :: h in UnusedHashes(blobs, hashes) <==> h in hashes && !IsUsed(blobs, h)
  {
    if hashes != [] {
      assert forall i | 0 <= i < |hashes| - 1 :: hashes[1..][i] == hashes[i + 1];
      UnusedAreFiltered(blobs, hashes[1..]);
      assert hashes[0] !in hashes[1..];
    }
  }

  // The reported hashes are, each once, those of tombstoned blobs that no project uses any more.
  lemma OrphanHashesAreExact(blobs: seq<Blob>, tombstoned: seq<Blob>)
    ensures var hashes := UnusedHashes(blobs, UniqueHashes(tombstoned));
      && NoneTwice(hashes)
      && (forall h :: h in hashes
            <==> (exists i :: 0 <= i < |tombstoned| && tombstoned[i].hash == h)
                 && (forall i | 0 <= i < |blobs| && blobs[i].hash == h :: blobs[i].deletedAt.Some?))
  {
    HashesOnce(tombstoned);
    UnusedAreFiltered(blobs, UniqueHashes(tombstoned));
  }

  // ---- What is tombstoned ------------------------------------------------------------------

  lemma {:induction false} MarkedOnes(blobs: seq<Blob>, ids: set<nat>, marker: Time, blob: Blob)
    ensures multiset(MarkedBy(blobs, ids, marker))[blob]
         == if blob.id in ids && blob.deletedAt == Some(marker) then multiset(blobs)[blob] else 0
  {
    if blobs != [] {
      var first := if blobs[0].id in ids && blobs[0].deletedAt == Some(marker) then [blobs[0]] else [];
      assert MarkedBy(blobs, ids, marker) == first + MarkedBy(blobs[1..], ids, marker);
      hide MarkedBy;
      MarkedOnes(blobs[1..], ids, marker, blob);
      assert blobs == [blobs[0]] + blobs[1..];
    }
  }

  // The listed blobs that were not deleted get the marker, all others stay as they are; what is then freed and reported
  // are the listed blobs that carry the marker, those of an earlier call with it included.
  lemma TombstonedBlobs(blobs: seq<Blob>, ids: set<nat>, marker: Time)
    ensures var after := Stamped(blobs, ids, marker);
      && |after| == |blobs|
      && (forall i | 0 <= i < |blobs| ::
            after[i] == if blobs[i].id in ids && blobs[i].deletedAt.None? then blobs[i].(deletedAt := Some(marker))
                        else blobs[i])
      && (StampsAny(blobs, ids) <==> exists i :: 0 <= i < |blobs| && blobs[i].id in ids && blobs[i].deletedAt.None?)
      && (forall b :: multiset(MarkedBy(after, ids, marker))[b]
                      == if b.id in ids && b.deletedAt == Some(marker) then multiset(after)[b] else 0)
  {
    forall b {
      MarkedOnes(Stamped(blobs, ids, marker), ids, marker, b);
    }
  }

  // ---- Repeating and single projects -------------------------------------------------------

  // Repeating the call, whatever its marker, finds nothing to stamp: it returns nothing and changes nothing.
  lemma RepeatedCleanupDoesNothing(blobs: seq<Blob>, ids: set<nat>, marker: Time, later: Time)
    ensures !StampsAny(Stamped(blobs, ids, marker), ids)
    ensures Stamped(Stamped(blobs, ids, marker), ids, later) == Stamped(blobs, ids, marker)
  {
  }

  // For blobs of one project the single-project cleanup is the one across projects.
  lemma {:induction false} OneProjectAgrees(blobs: seq<Blob>, project: string)
    requires forall i | 0 <= i < |blobs| :: blobs[i].project == project
    ensures BytesOf(blobs, project) == Bytes(blobs)
    ensures forall p | p != project :: BytesOf(blobs, p) == 0
  {
    if blobs != [] {
      assert forall i | 0 <= i < |blobs[1..]| :: blobs[1..][i] == blobs[i + 1];
      OneProjectAgrees(blobs[1..], project);
    }
  }

  // ---- Interleaved statements --------------------------------------------------------------

  // The statements of all concurrent calls, in the order in which the database runs them.
  datatype Statement =
    | TryDecrement(project: string, amount: nat)
    | EnsureRow(project: string)
    | Clamp(project: string, requested: nat)
    | Increment(project: string, amount: nat)

  function Executed(usage: map<string, int>, s: Statement): map<string, int> {
    match s
    case TryDecrement(p, amount) => if p in usage && usage[p] >= amount then usage[p := usage[p] - amount] else usage
    case EnsureRow(p) => if p in usage then usage else usage[p := 0]
    case Clamp(p, requested) => if p in usage && usage[p] < requested then usage[p := 0] else usage
    case Increment(p, amount) => usage[p := CounterOf(usage, p) + amount]
  }

  function ExecutedAll(usage: map<string, int>, statements: seq<Statement>): map<string, int>
    decreases |statements|
  {
    if statements == [] then usage else ExecutedAll(Executed(usage, statements[0]), statements[1..])
  }

  // No interleaving makes a counter negative.
  lemma {:induction false} CountersAreNeverNegative(usage: map<string, int>, statements: seq<Statement>)
    requires forall p | p in usage :: usage[p] >= 0
    ensures forall p | p in ExecutedAll(usage, statements) :: ExecutedAll(usage, statements)[p] >= 0
    decreases |statements|
  {
    if statements != [] {
      CountersAreNeverNegative(Executed(usage, statements[0]), statements[1..]);
    }
  }

  // A decrement that runs alone takes the amount or stops at zero; a missing counter is created at zero.
  lemma DecrementStopsAtZero(usage: map<string, int>, project: string, amount: nat)
    requires forall p | p in usage :: usage[p] >= 0
    ensures var after := Decremented(usage, project, amount);
      && (project in usage ==> after[project] == if usage[project] - amount >= 0 then usage[project] - amount else 0)
      && (project !in usage && amount > 0 ==> after == usage[project := 0])
      && (forall p | p in usage && p != project :: p in after && after[p] == usage[p])
  {
  }
}
