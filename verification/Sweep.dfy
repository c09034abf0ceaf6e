/** The deletion sweep (kafkrs-server/src/deletion.rs): one run of it over the object store. */
module Sweep {
  import opened AtomicFile
  import opened ObjectKeys
  import opened PendingDeletes

  /** Names that make well-formed keys: the topic and its UUID add no component of their own. */
  predicate NamesOk(topic: string, uuid: string) { Component(topic) && SlashFree(uuid) }

  /** The keys of one snapshot manifest: its segments, then the manifest itself. */
  function PartitionKeys(prefix: string, topic: string, uuid: string, snap: Snapshot): (keys: seq<Path>)
    ensures |keys| == |snap.segments| + 1
  {
    seq(|snap.segments|, i requires 0 <= i < |snap.segments| =>
      SegmentKey(prefix, topic, uuid, snap.partition, snap.segments[i].baseOffset))
    + [ManifestKey(prefix, topic, uuid, snap.partition)]
  }

  /** Everything the first phase of a sweep deletes, in order. */
  function SnapshotKeys(prefix: string, topic: string, uuid: string, manifests: seq<Snapshot>): seq<Path> {
    if manifests == [] then []
    else
      var n := |manifests| - 1;
      SnapshotKeys(prefix, topic, uuid, manifests[..n]) + PartitionKeys(prefix, topic, uuid, manifests[n])
  }

  /** LIST goes by whole path components. */
  predicate Under(list: Path, key: Path) { |list| < |key| && list <= key }

  lemma JoinedUnder(prefix: string, topic: string, uuid: string, partition: nat, leaf: string)
    requires NamesOk(topic, uuid) && Component(leaf)
    ensures Under(ListPrefix(prefix, topic, uuid), Join(prefix, topic, uuid, partition, leaf))
  {
    JoinComponents(prefix, topic, uuid, partition, leaf);
    ListPrefixComponents(prefix, topic, uuid);
  }

  lemma SegmentKeyUnder(prefix: string, topic: string, uuid: string, partition: nat, base: int)
    requires NamesOk(topic, uuid)
    ensures Under(ListPrefix(prefix, topic, uuid), SegmentKey(prefix, topic, uuid, partition, base))
  {
    LeavesAreComponents(base);
    JoinedUnder(prefix, topic, uuid, partition, SegmentLeaf(base));
  }

  lemma ManifestKeyUnder(prefix: string, topic: string, uuid: string, partition: nat)
    requires NamesOk(topic, uuid)
    ensures Under(ListPrefix(prefix, topic, uuid), ManifestKey(prefix, topic, uuid, partition))
  {
    LeavesAreComponents(0);
    JoinedUnder(prefix, topic, uuid, partition, "manifest.json");
  }

  lemma PartitionKeysUnder(prefix: string, topic: string, uuid: string, snap: Snapshot)
    requires NamesOk(topic, uuid)
    ensures forall k :: k in PartitionKeys(prefix, topic, uuid, snap) ==> Under(ListPrefix(prefix, topic, uuid), k)
  {
    ManifestKeyUnder(prefix, topic, uuid, snap.partition);
    forall i | 0 <= i < |snap.segments|
      ensures Under(ListPrefix(prefix, topic, uuid), PartitionKeys(prefix, topic, uuid, snap)[i])
    {
      SegmentKeyUnder(prefix, topic, uuid, snap.partition, snap.segments[i].baseOffset);
    }
  }

  /** The first phase deletes only keys of its own incarnation. */
  lemma {:induction false} SnapshotKeysUnder(prefix: string, topic: string, uuid: string, manifests: seq<Snapshot>)
    requires NamesOk(topic, uuid)
    ensures forall k :: k in SnapshotKeys(prefix, topic, uuid, manifests) ==> Under(ListPrefix(prefix, topic, uuid), k)
  {
    if manifests != [] {
      PartitionKeysUnder(prefix, topic, uuid, manifests[|manifests| - 1]);
      SnapshotKeysUnder(prefix, topic, uuid, manifests[..|manifests| - 1]);
    }
  }

  /** The object of a segment that some snapshot lists, or the manifest the snapshot was taken of. */
  ghost predicate IsSnapshotKey(prefix: string, r: PendingDelete, key: Path) {
    || OfSegment(prefix, r, key)
    || (exists i :: 0 <= i < |r.manifests| && key == ManifestKey(prefix, r.topic, r.uuid, r.manifests[i].partition))
  }

  ghost predicate OfSegment(prefix: string, r: PendingDelete, key: Path) {
    exists i, j :: 0 <= i < |r.manifests| && 0 <= j < |r.manifests[i].segments|
      && key == SegmentKey(prefix, r.topic, r.uuid, r.manifests[i].partition, r.manifests[i].segments[j].baseOffset)
  }

  lemma PartitionKeysHas(prefix: string, topic: string, uuid: string, snap: Snapshot)
    ensures ManifestKey(prefix, topic, uuid, snap.partition) in PartitionKeys(prefix, topic, uuid, snap)
    ensures forall j :: 0 <= j < |snap.segments| ==>
              SegmentKey(prefix, topic, uuid, snap.partition, snap.segments[j].baseOffset) in PartitionKeys(prefix, topic, uuid, snap)
  {
    var keys := PartitionKeys(prefix, topic, uuid, snap);
    assert keys[|snap.segments|] == ManifestKey(prefix, topic, uuid, snap.partition);
    forall j | 0 <= j < |snap.segments|
      ensures SegmentKey(prefix, topic, uuid, snap.partition, snap.segments[j].baseOffset) in keys
    {
      assert keys[j] == SegmentKey(prefix, topic, uuid, snap.partition, snap.segments[j].baseOffset);
    }
  }

  ghost predicate HasKey(prefix: string, topic: string, uuid: string, snap: Snapshot, key: Path) {
    key in PartitionKeys(prefix, topic, uuid, snap)
  }

  lemma NextKeys(prefix: string, topic: string, uuid: string, ms: seq<Snapshot>, i: nat, key: Path)
    requires i < |ms|
    ensures key in SnapshotKeys(prefix, topic, uuid, ms[..i + 1])
       <==> key in SnapshotKeys(prefix, topic, uuid, ms[..i]) || HasKey(prefix, topic, uuid, ms[i], key)
  {
    SnapshotKeysPrefix(prefix, topic, uuid, ms, i);
  }

  /** What holds from some point on, step by step, holds at the end. */
  lemma {:induction false} HoldsAtEnd(holds: nat -> bool, i: nat, n: nat)
    requires i <= n && holds(i) && forall m: nat :: m < n && holds(m) ==> holds(m + 1)
    ensures holds(n)
    decreases n - i
  {
    if i < n { HoldsAtEnd(holds, i + 1, n); }
  }

  lemma SnapshotKeysHas(prefix: string, topic: string, uuid: string, ms: seq<Snapshot>, i: nat, key: Path)
    requires i < |ms| && HasKey(prefix, topic, uuid, ms[i], key)
    ensures key in SnapshotKeys(prefix, topic, uuid, ms)
  {
    var holds := (n: nat) => n <= |ms| ==> key in SnapshotKeys(prefix, topic, uuid, ms[..n]);
    NextKeys(prefix, topic, uuid, ms, i, key);
    forall n: nat | n < |ms| && holds(n) ensures holds(n + 1) {
      NextKeys(prefix, topic, uuid, ms, n, key);
    }
    HoldsAtEnd(holds, i + 1, |ms|);
    assert ms[..|ms|] == ms;
  }

  /** The first phase deletes every key that a snapshot accounts for. */
  lemma SnapshotKeysComplete(prefix: string, r: PendingDelete, key: Path)
    requires IsSnapshotKey(prefix, r, key)
    ensures key in SnapshotKeys(prefix, r.topic, r.uuid, r.manifests)
  {
    var i := KeyIsIn(prefix, r, key);
    SnapshotKeysHas(prefix, r.topic, r.uuid, r.manifests, i, key);
  }

  lemma KeyIsIn(prefix: string, r: PendingDelete, key: Path) returns (n: nat)
    requires IsSnapshotKey(prefix, r, key)
    ensures n < |r.manifests| && HasKey(prefix, r.topic, r.uuid, r.manifests[n], key)
  {
    if OfSegment(prefix, r, key) {
      var i, j :| 0 <= i < |r.manifests| && 0 <= j < |r.manifests[i].segments|
        && key == SegmentKey(prefix, r.topic, r.uuid, r.manifests[i].partition, r.manifests[i].segments[j].baseOffset);
      n := i;
    } else {
      n :| n < |r.manifests| && key == ManifestKey(prefix, r.topic, r.uuid, r.manifests[n].partition);
    }
    PartitionKeysHas(prefix, r.topic, r.uuid, r.manifests[n]);
  }

  /** No key belongs to two incarnations. */
  lemma IncarnationsDisjoint(prefix: string, t1: string, u1: string, t2: string, u2: string, key: Path)
    requires NamesOk(t1, u1) && NamesOk(t2, u2)
    requires Under(ListPrefix(prefix, t1, u1), key) && Under(ListPrefix(prefix, t2, u2), key)
    ensures t1 == t2 && u1 == u2
  {
    ListPrefixComponents(prefix, t1, u1);
    ListPrefixComponents(prefix, t2, u2);
    var n := |Root(prefix)|;
    assert key[n] == ListPrefix(prefix, t1, u1)[n] == t1;
    assert key[n] == ListPrefix(prefix, t2, u2)[n] == t2;
    assert key[n + 1] == ListPrefix(prefix, t1, u1)[n + 1] == "v=" + u1;
    assert key[n + 1] == ListPrefix(prefix, t2, u2)[n + 1] == "v=" + u2;
    assert key[n + 1][2..] == u1 && key[n + 1][2..] == u2;
  }

  // ------------------------------------------------------------------------------------------
  // The code of one sweep

  lemma SnapshotKeysPrefix(prefix: string, topic: string, uuid: string, ms: seq<Snapshot>, i: nat)
    requires i < |ms|
    ensures SnapshotKeys(prefix, topic, uuid, ms[..i + 1])
         == SnapshotKeys(prefix, topic, uuid, ms[..i]) + PartitionKeys(prefix, topic, uuid, ms[i])
  {
    assert ms[..i + 1][..i] == ms[..i];
  }

  /** Deleting keys in order up to the first that fails. */
  function DeleteRun(objects: set<Path>, keys: seq<Path>, fails: set<Path>): set<Path> {
    if keys == [] || keys[0] in fails then objects else DeleteRun(objects - {keys[0]}, keys[1..], fails)
  }

  predicate Deletable(keys: seq<Path>, fails: set<Path>) {
    forall k :: k in keys ==> k !in fails
  }

  lemma {:induction false} DeleteRunJoin(objects: set<Path>, xs: seq<Path>, ys: seq<Path>, fails: set<Path>)
    ensures DeleteRun(objects, xs + ys, fails)
         == if Deletable(xs, fails) then DeleteRun(DeleteRun(objects, xs, fails), ys, fails) else DeleteRun(objects, xs, fails)
  {
    if xs == [] {
      assert xs + ys == ys;
    } else {
      assert xs[0] in xs && (xs + ys)[1..] == xs[1..] + ys;
      assert forall k :: k in xs <==> k == xs[0] || k in xs[1..];
      if xs[0] !in fails { DeleteRunJoin(objects - {xs[0]}, xs[1..], ys, fails); }
    }
  }

  lemma {:induction false} DeleteRunEffect(objects: set<Path>, keys: seq<Path>, fails: set<Path>)
    ensures DeleteRun(objects, keys, fails) <= objects
    ensures forall k :: k in objects && k !in keys ==> k in DeleteRun(objects, keys, fails)
    ensures Deletable(keys, fails) ==> DeleteRun(objects, keys, fails) == objects - set k | k in keys
  {
    if keys != [] && keys[0] !in fails {
      DeleteRunEffect(objects - {keys[0]}, keys[1..], fails);
      assert forall k :: k in keys <==> k == keys[0] || k in keys[1..];
    }
  }

  /** LIST enumerates the objects under a prefix, each once, in some order. */
  ghost predicate Enumerates(keys: seq<Path>, objects: set<Path>, list: Path) {
    && (forall k :: k in keys <==> k in objects && Under(list, k))
    && (forall i, j :: 0 <= i < j < |keys| ==> keys[i] != keys[j])
  }

  /** The part of the listing that arrives before the stream breaks. */
  function Arrived(keys: seq<Path>, w: Weather): seq<Path> {
    if w.streamBreaks && w.breakAfter < |keys| then keys[..w.breakAfter] else keys
  }

  /** Deleting the listed keys; one that fails stays. */
  function OrphanRun(objects: set<Path>, keys: seq<Path>, fails: set<Path>): set<Path> {
    objects - set k | k in keys && k !in fails
  }

  /** The I/O of one sweep: keys whose DELETE fails, where the LIST stream breaks, and the pending file. */
  datatype Weather = Weather(fails: set<Path>, streamBreaks: bool, breakAfter: nat, fileLoads: bool, fileFault: Fault)

  class ObjectStore {
    var objects: set<Path>

    constructor (initial: set<Path>)
      ensures objects == initial
    {
      objects := initial;
    }

    /** `delete_lenient`: deleting a missing object succeeds. */
    method DeleteLenient(key: Path, fails: set<Path>) returns (ok: bool)
      modifies this
      ensures ok == (key !in fails)
      ensures objects == if ok then old(objects) - {key} else old(objects)
    {
      if key in fails { return false; }
      objects := objects - {key};
      return true;
    }

    /** LIST: the objects under a prefix, in no particular order. */
    method List(list: Path) returns (keys: seq<Path>)
      ensures Enumerates(keys, objects, list)
    {
      keys := [];
      var rest := objects;
      while rest != {}
        invariant rest <= objects
        invariant forall k :: k in keys <==> k in objects && k !in rest && Under(list, k)
        invariant forall i, j :: 0 <= i < j < |keys| ==> keys[i] != keys[j]
        decreases |rest|
      {
        var k :| k in rest;
        rest := rest - {k};
        if Under(list, k) {
          assert k !in keys;
          keys := keys + [k];
        }
      }
    }

    /** Deletes the keys in order and stops at the first DELETE that fails. */
    method DeleteKeys(keys: seq<Path>, fails: set<Path>) returns (ok: bool)
      modifies this
      ensures ok == Deletable(keys, fails) && objects == DeleteRun(old(objects), keys, fails)
    {
      for i := 0 to |keys|
        invariant Deletable(keys[..i], fails) && objects == DeleteRun(old(objects), keys[..i], fails)
      {
        DeleteRunJoin(old(objects), keys[..i], [keys[i]], fails);
        assert keys[..i] + [keys[i]] == keys[..i + 1];
        var removed := DeleteLenient(keys[i], fails);
        if !removed {
          DeleteRunJoin(old(objects), keys[..i], keys[i..], fails);
          assert keys[..i] + keys[i..] == keys;
          return false;
        }
      }
      assert keys[..|keys|] == keys;
      ok := true;
    }

    /** The first phase: every key of the snapshot manifests, partition by partition. */
    method DeleteSnapshots(prefix: string, topic: string, uuid: string, ms: seq<Snapshot>, fails: set<Path>) returns (ok: bool)
      modifies this
      ensures var keys := SnapshotKeys(prefix, topic, uuid, ms);
              ok == Deletable(keys, fails) && objects == DeleteRun(old(objects), keys, fails)
      ensures ok ==> forall i, j :: 0 <= i < |ms| && 0 <= j < |ms[i].segments| ==>
                SegmentKey(prefix, topic, uuid, ms[i].partition, ms[i].segments[j].baseOffset) !in objects
      ensures ok ==> forall i :: 0 <= i < |ms| ==> ManifestKey(prefix, topic, uuid, ms[i].partition) !in objects
    {
      for i := 0 to |ms|
        invariant var done := SnapshotKeys(prefix, topic, uuid, ms[..i]);
                  Deletable(done, fails) && objects == DeleteRun(old(objects), done, fails)
      {
        ghost var done, more := SnapshotKeys(prefix, topic, uuid, ms[..i]), PartitionKeys(prefix, topic, uuid, ms[i]);
        SnapshotKeysPrefix(prefix, topic, uuid, ms, i);
        DeleteRunJoin(old(objects), done, more, fails);
        ok := DeleteKeys(PartitionKeys(prefix, topic, uuid, ms[i]), fails);
        if !ok {
          SnapshotKeysStop(prefix, topic, uuid, ms, i + 1, old(objects), fails);
          return;
        }
      }
      assert ms[..|ms|] == ms;
      SnapshotsGone(prefix, topic, uuid, ms, old(objects), fails);
      ok := true;
    }

    /** The second phase: LIST the prefix and delete what arrives. A failed delete does not stop it. */
    method DeleteOrphans(list: Path, w: Weather) returns (ok: bool, ghost listed: seq<Path>)
      modifies this
      ensures ok == !w.streamBreaks && Enumerates(listed, old(objects), list)
      ensures objects == OrphanRun(old(objects), Arrived(listed, w), w.fails)
    {
      var keys := List(list);
      listed := keys;
      for i := 0 to |keys|
        invariant w.streamBreaks ==> i <= w.breakAfter
        invariant objects == OrphanRun(old(objects), keys[..i], w.fails)
      {
        if w.streamBreaks && i == w.breakAfter { return false, keys; }
        assert keys[..i + 1] == keys[..i] + [keys[i]];
        var _ := DeleteLenient(keys[i], w.fails);
      }
      assert keys[..|keys|] == keys;
      ok := !w.streamBreaks;
    }
  }

  /** When all keys of the snapshots could be deleted, none is left. */
  lemma SnapshotsGone(prefix: string, topic: string, uuid: string, ms: seq<Snapshot>, objects: set<Path>, fails: set<Path>)
    requires Deletable(SnapshotKeys(prefix, topic, uuid, ms), fails)
    ensures var after := DeleteRun(objects, SnapshotKeys(prefix, topic, uuid, ms), fails);
            && (forall i, j :: 0 <= i < |ms| && 0 <= j < |ms[i].segments| ==>
                  SegmentKey(prefix, topic, uuid, ms[i].partition, ms[i].segments[j].baseOffset) !in after)
            && (forall i :: 0 <= i < |ms| ==> ManifestKey(prefix, topic, uuid, ms[i].partition) !in after)
  {
    var keys := SnapshotKeys(prefix, topic, uuid, ms);
    var r := PendingDelete(topic, uuid, ms, 0);
    DeleteRunEffect(objects, keys, fails);
    forall k | IsSnapshotKey(prefix, r, k) ensures k in keys {
      SnapshotKeysComplete(prefix, r, k);
    }
    forall i, j | 0 <= i < |ms| && 0 <= j < |ms[i].segments|
      ensures SegmentKey(prefix, topic, uuid, ms[i].partition, ms[i].segments[j].baseOffset) in keys
    {
      assert OfSegment(prefix, r, SegmentKey(prefix, topic, uuid, ms[i].partition, ms[i].segments[j].baseOffset));
      assert IsSnapshotKey(prefix, r, SegmentKey(prefix, topic, uuid, ms[i].partition, ms[i].segments[j].baseOffset));
    }
    forall i | 0 <= i < |ms| ensures ManifestKey(prefix, topic, uuid, ms[i].partition) in keys {
      assert IsSnapshotKey(prefix, r, ManifestKey(prefix, topic, uuid, ms[i].partition));
    }
  }

  /** A failure among the first keys decides for all of them. */
  lemma SnapshotKeysStop(prefix: string, topic: string, uuid: string, ms: seq<Snapshot>, i: nat, objects: set<Path>, fails: set<Path>)
    requires i <= |ms| && !Deletable(SnapshotKeys(prefix, topic, uuid, ms[..i]), fails)
    ensures !Deletable(SnapshotKeys(prefix, topic, uuid, ms), fails)
    ensures DeleteRun(objects, SnapshotKeys(prefix, topic, uuid, ms), fails)
         == DeleteRun(objects, SnapshotKeys(prefix, topic, uuid, ms[..i]), fails)
    decreases |ms| - i
  {
    if i == |ms| {
      assert ms[..i] == ms;
    } else {
      var first, next := SnapshotKeys(prefix, topic, uuid, ms[..i]), PartitionKeys(prefix, topic, uuid, ms[i]);
      SnapshotKeysPrefix(prefix, topic, uuid, ms, i);
      DeleteRunJoin(objects, first, next, fails);
      SnapshotKeysStop(prefix, topic, uuid, ms, i + 1, objects, fails);
    }
  }

  /**
   What one sweep does, step by step: the snapshot keys up to the first failure, then what arrives of
   the listing, then the pending record.
   */
  ghost predicate SweepRun(record: PendingDelete, prefix: string, w: Weather, listed: seq<Path>,
                           before: set<Path>, after: set<Path>, ok: bool) {
    var keys := SnapshotKeys(prefix, record.topic, record.uuid, record.manifests);
    var rest := DeleteRun(before, keys, w.fails);
    if !Deletable(keys, w.fails) then !ok && after == rest
    else
      && Enumerates(listed, rest, ListPrefix(prefix, record.topic, record.uuid))
      && after == OrphanRun(rest, Arrived(listed, w), w.fails)
      && ok == (!w.streamBreaks && w.fileLoads && w.fileFault.NoFault?)
  }

  /** Nothing outside the prefix is touched, and a sweep that succeeds leaves only failures under it. */
  lemma SweepRunEffect(record: PendingDelete, prefix: string, w: Weather, listed: seq<Path>,
                       before: set<Path>, after: set<Path>, ok: bool)
    requires NamesOk(record.topic, record.uuid) && SweepRun(record, prefix, w, listed, before, after, ok)
    ensures var list := ListPrefix(prefix, record.topic, record.uuid);
            && after <= before
            && (forall k :: k in before && !Under(list, k) ==> k in after)
            && (ok ==> forall k :: k in after && Under(list, k) <==> k in before && Under(list, k) && k in w.fails)
            && (ok ==> forall k :: IsSnapshotKey(prefix, record, k) ==> k !in after && k !in w.fails)
  {
    forall k | IsSnapshotKey(prefix, record, k) ensures k in SnapshotKeys(prefix, record.topic, record.uuid, record.manifests) {
      SnapshotKeysComplete(prefix, record, k);
    }
    var keys := SnapshotKeys(prefix, record.topic, record.uuid, record.manifests);
    SnapshotKeysUnder(prefix, record.topic, record.uuid, record.manifests);
    DeleteRunEffect(before, keys, w.fails);
  }

  /**
   `sweep_deletion`. When it reports success, nothing is left under the incarnation's prefix but the
   objects whose DELETE failed, no segment or manifest that a snapshot accounts for is among them, and
   the pending record is gone; otherwise the record stays. Either way no key outside the prefix is touched.
   */
  method SweepDeletion(record: PendingDelete, prefix: string, store: ObjectStore, pending: ReplacedFile<seq<PendingDelete>>,
                       w: Weather)
    returns (ok: bool, ghost listed: seq<Path>)
    requires NamesOk(record.topic, record.uuid) && !pending.target.Torn?
    modifies store, pending
    ensures SweepRun(record, prefix, w, listed, old(store.objects), store.objects, ok)
    ensures var list := ListPrefix(prefix, record.topic, record.uuid);
            && store.objects <= old(store.objects)
            && (forall k :: k in old(store.objects) && !Under(list, k) ==> k in store.objects)
            && (ok ==> forall k :: k in store.objects && Under(list, k) <==> k in old(store.objects) && Under(list, k) && k in w.fails)
    ensures ok ==> forall k :: IsSnapshotKey(prefix, record, k) ==> k !in store.objects && k !in w.fails
    ensures pending.target
         == if ok then Whole(Without(Contents(old(pending.target)), record.uuid)) else old(pending.target)
  {
    listed := [];
    ok := store.DeleteSnapshots(prefix, record.topic, record.uuid, record.manifests, w.fails);
    if ok {
      ok, listed := store.DeleteOrphans(ListPrefix(prefix, record.topic, record.uuid), w);
      if ok {
        ok := RemoveRecord(pending, record.uuid, w.fileLoads, w.fileFault);
      }
    }
    SweepRunEffect(record, prefix, w, listed, old(store.objects), store.objects, ok);
  }
}
