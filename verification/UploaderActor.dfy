/** The uploader as the code has it: it rewrites objects and the manifest in place (kafkrs-server/src/uploader.rs). */
module UploaderActor {
  import opened Bytes
  import opened Manifest
  import opened ObjectKeys
  import opened Recovery
  import opened Retention
  import opened Segment
  import opened Writer
  import opened Uploads

  /** A request is refused without effect, answered, or takes effect without an answer. */
  datatype Outcome = Refused | Answered | Unanswered

  /** The I/O of one attempt at an upload. */
  datatype Attempt = Attempt(segment: Outcome, manifestRead: bool, manifestWrite: Outcome)

  predicate Took(o: Outcome) { !o.Refused? }

  /** What one attempt leaves in the store, and whether it reports success. */
  function Attempted(store: Store, batch: SealedBatch, byteSize: nat, a: Attempt): Store {
    var uploaded := if Took(a.segment) then PutSegment(store, batch) else store;
    if a.segment.Answered? && a.manifestRead && Took(a.manifestWrite) then PutEntry(uploaded, batch, byteSize) else uploaded
  }

  predicate Succeeds(store: Store, batch: SealedBatch, a: Attempt) {
    a.segment.Answered? && a.manifestRead && (Listed(store.manifest, batch.baseOffset) || a.manifestWrite.Answered?)
  }

  /** What a finished upload comes to. */
  function Uploaded(store: Store, batch: SealedBatch, byteSize: nat): Store {
    PutEntry(PutSegment(store, batch), batch, byteSize)
  }

  /** The states an upload passes through: nothing, the object, the object and its entry. */
  ghost predicate OnTheWay(was: Store, now: Store, batch: SealedBatch, byteSize: nat) {
    now == was || now == PutSegment(was, batch) || now == Uploaded(was, batch, byteSize)
  }

  /** A retry after any interruption goes on from where the upload was. */
  lemma AttemptsConverge(was: Store, now: Store, batch: SealedBatch, byteSize: nat, a: Attempt)
    requires OnTheWay(was, now, batch, byteSize)
    ensures OnTheWay(was, Attempted(now, batch, byteSize, a), batch, byteSize)
    ensures Succeeds(now, batch, a) ==> Attempted(now, batch, byteSize, a) == Uploaded(was, batch, byteSize)
  {
    SortedListed(was.manifest, batch, byteSize);
    assert PutSegment(PutSegment(was, batch), batch) == PutSegment(was, batch);
    assert PutSegment(Uploaded(was, batch, byteSize), batch) == Uploaded(was, batch, byteSize);
  }

  /** What a pass leaves that evicts the first `k` entries: the rewritten manifest, and their objects gone unless they cannot be deleted. */
  function RetainedFirst(store: Store, k: nat, read: bool, write: Outcome, undeletable: set<int>): Store
    requires k <= |store.manifest|
  {
    var doomed := BasesOf(store.manifest[..k]);
    if !read || doomed == [] || write.Refused? then store
    else
      var kept := Rewrite(store, k);
      if write.Unanswered? then kept
      else kept.(objects := kept.objects - set b | b in doomed && b !in undeletable)
  }

  /** No object of the evicted entries is left, but those that cannot be deleted. */
  ghost predicate EvictedAreGone(objects: map<int, Columns>, m: seq<SegmentEntry>, k: nat, undeletable: set<int>)
    requires k <= |m|
  {
    forall i :: 0 <= i < k ==> m[i].baseOffset in undeletable || m[i].baseOffset !in objects
  }

  /** Every other object is as it was. */
  ghost predicate OnlyEvictedGo(before: map<int, Columns>, after: map<int, Columns>, m: seq<SegmentEntry>, k: nat)
    requires k <= |m|
  {
    && (forall b :: b in after ==> b in before && after[b] == before[b])
    && (forall b :: b in before && b !in after ==> exists i :: 0 <= i < k && m[i].baseOffset == b)
  }

  lemma RetainedObjects(store: Store, k: nat, read: bool, write: Outcome, undeletable: set<int>)
    requires k <= |store.manifest|
    ensures var after := RetainedFirst(store, k, read, write, undeletable).objects;
            && OnlyEvictedGo(store.objects, after, store.manifest, k)
            && (read && (k == 0 || write.Answered?) ==> EvictedAreGone(after, store.manifest, k, undeletable))
  {
    var doomed := BasesOf(store.manifest[..k]);
    forall b | b in doomed ensures exists i :: 0 <= i < k && store.manifest[i].baseOffset == b {
      var i :| 0 <= i < |doomed| && doomed[i] == b;
      assert store.manifest[i].baseOffset == b;
    }
    forall i | 0 <= i < k ensures store.manifest[i].baseOffset in doomed {
      assert doomed[i] == store.manifest[i].baseOffset;
    }
  }

  /** The entry of an upload has the batch's offsets and timestamps, its number of records and the object's size. */
  lemma EntryAsMeasured(m: seq<SegmentEntry>, batch: SealedBatch, byteSize: nat)
    ensures !Listed(m, batch.baseOffset) ==>
              SegmentEntry(batch.baseOffset, batch.lastOffset, batch.baseTimestampNs, batch.lastTimestampNs,
                           |batch.records|, byteSize, SegmentLeaf(batch.baseOffset)) in WithEntry(m, batch, byteSize)
  {
    var all := m + [EntryFor(batch, byteSize)];
    SortByBaseSorts(all);
    assert all[|m|] in multiset(all);
    assert !Listed(m, batch.baseOffset) ==> EntryFor(batch, byteSize) in multiset(SortByBase(all));
  }

  class Uploader {
    var objects: map<int, Columns>
    var manifest: seq<SegmentEntry>
    var notices: seq<int>

    ghost function Now(): Store
      reads this
    {
      Store(objects, manifest)
    }

    constructor (objects: map<int, Columns>, manifest: seq<SegmentEntry>)
      ensures Now() == Store(objects, manifest) && notices == []
    {
      this.objects, this.manifest, notices := objects, manifest, [];
    }

    method UploadOnce(batch: SealedBatch, byteSize: nat, a: Attempt) returns (ok: bool)
      modifies this
      ensures notices == old(notices)
      ensures Now() == Attempted(old(Now()), batch, byteSize, a) && ok == Succeeds(old(Now()), batch, a)
      ensures ok ==> a.segment.Answered? && a.manifestRead
      ensures objects == if a.segment.Refused? then old(objects) else old(objects)[batch.baseOffset := ToColumns(batch.records)]
      ensures var unlisted := forall i :: 0 <= i < |old(manifest)| ==> old(manifest)[i].baseOffset != batch.baseOffset;
              if a.segment.Answered? && a.manifestRead && !a.manifestWrite.Refused? && unlisted
              then SegmentEntry(batch.baseOffset, batch.lastOffset, batch.baseTimestampNs, batch.lastTimestampNs,
                                |batch.records|, byteSize, SegmentLeaf(batch.baseOffset)) in manifest
              else manifest == old(manifest)
    {
      EntryAsMeasured(manifest, batch, byteSize);
      var columns := BuildColumns(batch.records);
      if !a.segment.Refused? { objects := objects[batch.baseOffset := columns]; }
      if !a.segment.Answered? || !a.manifestRead { return false; }
      var segments := manifest;
      var listed := false;
      for i := 0 to |segments|
        invariant listed <==> exists j :: 0 <= j < i && segments[j].baseOffset == batch.baseOffset
      {
        if segments[i].baseOffset == batch.baseOffset { listed := true; }
      }
      assert listed == Listed(segments, batch.baseOffset);
      if listed { return true; }
      segments := segments + [EntryFor(batch, byteSize)];
      segments := SortByBase(segments);
      if !a.manifestWrite.Refused? { manifest := segments; }
      return a.manifestWrite.Answered?;
    }

    /**
     The retry loop of one upload, for as many attempts as it takes. Whatever failed on the way, the
     upload that reports success has put the object and exactly one entry for it, and only then is
     the notice sent.
     */
    method Upload(batch: SealedBatch, byteSize: nat, attempts: seq<Attempt>) returns (done: bool)
      modifies this
      ensures OnTheWay(old(Now()), Now(), batch, byteSize)
      ensures done ==> Now() == Uploaded(old(Now()), batch, byteSize)
      ensures notices == if done then old(notices) + [batch.baseOffset] else old(notices)
    {
      for i := 0 to |attempts|
        invariant OnTheWay(old(Now()), Now(), batch, byteSize) && notices == old(notices)
      {
        AttemptsConverge(old(Now()), Now(), batch, byteSize, attempts[i]);
        var ok := UploadOnce(batch, byteSize, attempts[i]);
        if ok {
          notices := notices + [batch.baseOffset];
          return true;
        }
      }
      return false;
    }

    /** Deletes the evicted objects one by one; one that cannot be deleted stays. */
    method DeleteEvicted(evict: seq<SegmentEntry>, undeletable: set<int>)
      modifies this
      ensures objects == old(objects) - set b | b in BasesOf(evict) && b !in undeletable
      ensures manifest == old(manifest) && notices == old(notices)
    {
      ghost var doomed := BasesOf(evict);
      for i := 0 to |evict|
        invariant objects == old(objects) - set b | b in doomed[..i] && b !in undeletable
        invariant manifest == old(manifest) && notices == old(notices)
      {
        assert doomed[..i + 1] == doomed[..i] + [evict[i].baseOffset];
        if evict[i].baseOffset !in undeletable { objects := objects - {evict[i].baseOffset}; }
      }
      assert doomed[..|evict|] == doomed;
    }

    /**
     The retention pass: the manifest is rewritten before any object goes, and a failed delete only
     leaves its object behind. It evicts a prefix and never the tail; it is the policy's prefix while
     nothing wraps.
     */
    method RetentionPass(limits: Limits, now: int, read: bool, write: Outcome, undeletable: set<int>)
      returns (ok: bool, ghost k: nat)
      requires IsI64(now) && IsI64(limits.retentionMs) && IsI64(limits.retentionBytes)
      requires forall i :: 0 <= i < |manifest| ==> IsI64(manifest[i].lastTimestampNs)
      modifies this
      ensures notices == old(notices)
      ensures k <= |old(manifest)| && (old(manifest) != [] ==> k < |old(manifest)|)
      ensures Now() == RetainedFirst(old(Now()), k, read, write, undeletable)
      ensures ok == (read && (k == 0 || write.Answered?))
      ensures OnlyEvictedGo(old(objects), objects, old(manifest), k)
      ensures ok ==> EvictedAreGone(objects, old(manifest), k, undeletable)
      ensures !write.Answered? ==> objects == old(objects)
      ensures manifest == if read && k > 0 && !write.Refused? then RetainByKey(old(manifest), old(manifest)[..k]) else old(manifest)
      ensures read && now >= 0 && SumBytes(old(manifest)) < TWO_63 ==> k == EvictCount(old(manifest), limits, now)
    {
      if !read { return false, 0; }
      var evict := EvaluateEviction(manifest, limits, now);
      k := |evict|;
      RetainedObjects(Store(objects, manifest), k, read, write, undeletable);
      if evict == [] { return true, k; }
      var kept := Retain(manifest, evict);
      if write.Refused? { return false, k; }
      manifest := kept;
      if write.Unanswered? { return false, k; }
      DeleteEvicted(evict, undeletable);
      return true, k;
    }
  }

  lemma {:induction false} RetainAppend(xs: seq<SegmentEntry>, e: SegmentEntry, evict: seq<SegmentEntry>)
    ensures RetainByKey(xs + [e], evict) == RetainByKey(xs, evict) + RetainByKey([e], evict)
  {
    if xs == [] {
      assert xs + [e] == [e];
    } else {
      RetainAppend(xs[1..], e, evict);
      assert (xs + [e])[1..] == xs[1..] + [e];
    }
  }

  /** `manifest.segments.retain(..)`. */
  method Retain(segments: seq<SegmentEntry>, evict: seq<SegmentEntry>) returns (kept: seq<SegmentEntry>)
    ensures kept == RetainByKey(segments, evict)
  {
    kept := [];
    for i := 0 to |segments|
      invariant kept == RetainByKey(segments[..i], evict)
    {
      var hit := false;
      for j := 0 to |evict|
        invariant hit <==> exists n :: 0 <= n < j && evict[n].objectKey == segments[i].objectKey
      {
        if evict[j].objectKey == segments[i].objectKey { hit := true; }
      }
      RetainAppend(segments[..i], segments[i], evict);
      assert segments[..i] + [segments[i]] == segments[..i + 1];
      assert RetainByKey([segments[i]], evict) == if hit then [] else [segments[i]] by {
        assert [segments[i]][1..] == [];
      }
      if !hit { kept := kept + [segments[i]]; }
    }
    assert segments[..|segments|] == segments;
  }
}
