/** The byte accounting of stored files: tombstoning orphaned blobs, the counter of each project, and the hashes
  * that no project uses any more. */
module FileBlobs {
  import opened Wrappers

  type Time = int

  datatype Blob = Blob(id: nat, project: string, hash: string, size: nat, deletedAt: Option<Time>)

  datatype CleanupResult = CleanupResult(blobsTombstoned: nat, bytesFreed: nat, orphanHashes: seq<string>)

  const EMPTY := CleanupResult(0, 0, [])

  // ---- Queries -----------------------------------------------------------------------------

  predicate IsActive(blob: Blob) {
    blob.deletedAt.None?
  }

  function Bytes(blobs: seq<Blob>): nat {
    if blobs == [] then 0 else blobs[0].size + Bytes(blobs[1..])
  }

  function BytesOf(blobs: seq<Blob>, project: string): nat {
    if blobs == [] then 0
    else (if blobs[0].project == project then blobs[0].size else 0) + BytesOf(blobs[1..], project)
  }

  function Active(blobs: seq<Blob>): seq<Blob> {
    if blobs == [] then []
    else (if IsActive(blobs[0]) then [blobs[0]] else []) + Active(blobs[1..])
  }

  function Stamp(blob: Blob, ids: set<nat>, marker: Time): Blob {
    if blob.id in ids && IsActive(blob) then blob.(deletedAt := Some(marker)) else blob
  }

  function Stamped(blobs: seq<Blob>, ids: set<nat>, marker: Time): (r: seq<Blob>)
    ensures |r| == |blobs|
    ensures forall i | 0 <= i < |r| :: r[i] == Stamp(blobs[i], ids, marker)
  {
    if blobs == [] then [] else [Stamp(blobs[0], ids, marker)] + Stamped(blobs[1..], ids, marker)
  }

  // The listed blobs that carry the marker.
  function MarkedBy(blobs: seq<Blob>, ids: set<nat>, marker: Time): seq<Blob> {
    if blobs == [] then []
    else
      (if blobs[0].id in ids && blobs[0].deletedAt == Some(marker) then [blobs[0]] else [])
      + MarkedBy(blobs[1..], ids, marker)
  }

  predicate StampsAny(blobs: seq<Blob>, ids: set<nat>) {
    exists i :: 0 <= i < |blobs| && blobs[i].id in ids && IsActive(blobs[i])
  }

  predicate IsUsed(blobs: seq<Blob>, hash: string) {
    exists i :: 0 <= i < |blobs| && blobs[i].hash == hash && IsActive(blobs[i])
  }

  function UniqueHashes(blobs: seq<Blob>): seq<string> {
    if blobs == [] then []
    else
      var before := UniqueHashes(blobs[..|blobs| - 1]);
      var hash := blobs[|blobs| - 1].hash;
      if hash in before then before else before + [hash]
  }

  function UnusedHashes(blobs: seq<Blob>, hashes: seq<string>): seq<string> {
    if hashes == [] then []
    else (if IsUsed(blobs, hashes[0]) then [] else [hashes[0]]) + UnusedHashes(blobs, hashes[1..])
  }

  // ---- Counters ----------------------------------------------------------------------------

  function CounterOf(usage: map<string, int>, project: string): int {
    if project in usage then usage[project] else 0
  }

  // What a decrement that runs alone leaves; a missing counter is created at zero.
  function Decremented(usage: map<string, int>, project: string, amount: nat): map<string, int> {
    if amount == 0 then usage
    else if project !in usage then usage[project := 0]
    else usage[project := if usage[project] >= amount then usage[project] - amount else 0]
  }

  function BytesByProject(blobs: seq<Blob>): (bytes: map<string, nat>)
    ensures forall p :: (if p in bytes then bytes[p] else 0) == BytesOf(blobs, p)
  {
    ByProjectIsBytes(blobs);
    ByProject(blobs)
  }

  function ByProject(blobs: seq<Blob>): map<string, nat> {
    if blobs == [] then map[]
    else
      var rest, blob := ByProject(blobs[..|blobs| - 1]), blobs[|blobs| - 1];
      rest[blob.project := (if blob.project in rest then rest[blob.project] else 0) + blob.size]
  }

  lemma {:induction false} BytesOfLast(blobs: seq<Blob>, blob: Blob, project: string)
    ensures BytesOf(blobs + [blob], project)
         == BytesOf(blobs, project) + (if blob.project == project then blob.size else 0)
  {
    if blobs != [] {
      assert (blobs + [blob])[1..] == blobs[1..] + [blob];
      BytesOfLast(blobs[1..], blob, project);
    }
  }

  lemma {:induction false} ByProjectIsBytes(blobs: seq<Blob>)
    ensures forall p :: (if p in ByProject(blobs) then ByProject(blobs)[p] else 0) == BytesOf(blobs, p)
  {
    if blobs != [] {
      var first, blob := blobs[..|blobs| - 1], blobs[|blobs| - 1];
      ByProjectIsBytes(first);
      assert blobs == first + [blob];
      forall p
        ensures (if p in ByProject(blobs) then ByProject(blobs)[p] else 0) == BytesOf(blobs, p)
      {
        BytesOfLast(first, blob, p);
      }
    }
  }

  // Decrements of different projects, in any order.
  ghost predicate DecrementedBy(before: map<string, int>, after: map<string, int>, bytes: map<string, nat>,
                                done: set<string>) {
    && done <= bytes.Keys
    && (forall p :: p in after <==> p in before || (p in done && bytes[p] != 0))
    && (forall p | p in after ::
        after[p] == (if p in done then CounterOf(Decremented(before, p, bytes[p]), p) else CounterOf(before, p)))
  }

  // What finalizing leaves of the counters: the tombstoned bytes are taken, unless nothing was stamped.
  ghost predicate CountersFinalized(blobs: seq<Blob>, before: map<string, int>, after: map<string, int>,
                                    ids: set<nat>, marker: Time) {
    var bytes := BytesByProject(MarkedBy(Stamped(blobs, ids, marker), ids, marker));
    if StampsAny(blobs, ids) then DecrementedBy(before, after, bytes, bytes.Keys) else after == before
  }

  // ---- The service -------------------------------------------------------------------------

  class FileUsageStore {
    var blobs: seq<Blob>
    var usage: map<string, int>

    constructor (blobs: seq<Blob>, usage: map<string, int>)
      ensures this.blobs == blobs && this.usage == usage
    {
      this.blobs, this.usage := blobs, usage;
    }
  }

  class FileBlobCleanupService {
    const store: FileUsageStore

    constructor (store: FileUsageStore)
      ensures this.store == store
    {
      this.store := store;
    }

    method TombstoneActive(ids: set<nat>, marker: Time) returns (tombstoned: seq<Blob>)
      modifies store`blobs
      ensures store.blobs == Stamped(old(store.blobs), ids, marker)
      ensures tombstoned == (if StampsAny(old(store.blobs), ids) then MarkedBy(store.blobs, ids, marker) else [])
    {
      if !StampsAny(store.blobs, ids) {
        assert Stamped(store.blobs, ids, marker) == store.blobs;
        return [];
      }
      store.blobs := Stamped(store.blobs, ids, marker);
      tombstoned := MarkedBy(store.blobs, ids, marker);
    }

    method TryDecrementProjectCounter(project: string, amount: nat) returns (done: bool)
      modifies store`usage
      ensures done <==> project in old(store.usage) && old(store.usage)[project] >= amount
      ensures store.usage == (if done then old(store.usage)[project := old(store.usage)[project] - amount]
                              else old(store.usage))
    {
      done := project in store.usage && store.usage[project] >= amount;
      if done {
        store.usage := store.usage[project := store.usage[project] - amount];
      }
    }

    method DecrementProjectCounter(project: string, amount: nat)
      modifies store`usage
      ensures store.usage == Decremented(old(store.usage), project, amount)
    {
      if amount == 0 {
        return;
      }
      var done := TryDecrementProjectCounter(project, amount);
      if done {
        return;
      }
      if project !in store.usage {
        store.usage := store.usage[project := 0];
        return;
      }
      done := TryDecrementProjectCounter(project, amount);
      if done {
        return;
      }
      if store.usage[project] < amount {
        store.usage := store.usage[project := 0];
      }
    }

    method GroupBytesByProject(blobs: seq<Blob>) returns (bytes: map<string, nat>)
      ensures bytes == BytesByProject(blobs)
    {
      bytes := map[];
      for i := 0 to |blobs|
        invariant bytes == ByProject(blobs[..i])
      {
        assert blobs[..i + 1][..i] == blobs[..i];
        var current := if blobs[i].project in bytes then bytes[blobs[i].project] else 0;
        bytes := bytes[blobs[i].project := current + blobs[i].size];
      }
      assert blobs[..|blobs|] == blobs;
    }

    method DecrementProjectCounters(bytes: map<string, nat>)
      modifies store`usage
      ensures DecrementedBy(old(store.usage), store.usage, bytes, bytes.Keys)
    {
      var left := bytes.Keys;
      while left != {}
        invariant left <= bytes.Keys
        invariant DecrementedBy(old(store.usage), store.usage, bytes, bytes.Keys - left)
        decreases |left|
      {
        var project :| project in left;
        DecrementProjectCounter(project, bytes[project]);
        left := left - {project};
      }
    }

    method FinalizeAcrossProjects(ids: set<nat>, marker: Time) returns (r: CleanupResult)
      modifies store
      ensures store.blobs == Stamped(old(store.blobs), ids, marker)
      ensures CountersFinalized(old(store.blobs), old(store.usage), store.usage, ids, marker)
      ensures var tombstoned := MarkedBy(store.blobs, ids, marker);
        r == if StampsAny(old(store.blobs), ids)
             then CleanupResult(|tombstoned|, Bytes(tombstoned), UnusedHashes(store.blobs, UniqueHashes(tombstoned)))
             else EMPTY
    {
      var tombstoned := TombstoneActive(ids, marker);
      if StampsAny(old(store.blobs), ids) {
        SomeMarked(old(store.blobs), ids, marker);
      }
      if tombstoned == [] {
        return EMPTY;
      }
      var bytes := GroupBytesByProject(tombstoned);
      DecrementProjectCounters(bytes);
      r := CleanupResult(|tombstoned|, Bytes(tombstoned), UnusedHashes(store.blobs, UniqueHashes(tombstoned)));
    }

    // The decrement of one project takes all tombstoned bytes, whichever projects they belong to.
    method FinalizeForSingleProject(project: string, ids: set<nat>, marker: Time) returns (r: CleanupResult)
      modifies store
      ensures store.blobs == Stamped(old(store.blobs), ids, marker)
      ensures var tombstoned := MarkedBy(store.blobs, ids, marker);
        if StampsAny(old(store.blobs), ids) then
          && store.usage == Decremented(old(store.usage), project, Bytes(tombstoned))
          && r == CleanupResult(|tombstoned|, Bytes(tombstoned), UnusedHashes(store.blobs, UniqueHashes(tombstoned)))
        else
          store.usage == old(store.usage) && r == EMPTY
    {
      var tombstoned := TombstoneActive(ids, marker);
      if StampsAny(old(store.blobs), ids) {
        SomeMarked(old(store.blobs), ids, marker);
      }
      if tombstoned == [] {
        return EMPTY;
      }
      var bytesFreed := Bytes(tombstoned);
      DecrementProjectCounter(project, bytesFreed);
      r := CleanupResult(|tombstoned|, bytesFreed, UnusedHashes(store.blobs, UniqueHashes(tombstoned)));
    }
  }

  lemma {:induction false} SomeMarked(blobs: seq<Blob>, ids: set<nat>, marker: Time)
    requires StampsAny(blobs, ids)
    ensures MarkedBy(Stamped(blobs, ids, marker), ids, marker) != []
  {
    if !(blobs[0].id in ids && IsActive(blobs[0])) {
      var i :| 0 <= i < |blobs| && blobs[i].id in ids && IsActive(blobs[i]);
      assert blobs[1..][i - 1] == blobs[i];
      SomeMarked(blobs[1..], ids, marker);
      assert Stamped(blobs, ids, marker)[1..] == Stamped(blobs[1..], ids, marker);
    }
  }
}
