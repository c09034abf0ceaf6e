/** The uploader's events keep the invariant: upload, notice, retention rewrite and object deletes. */
module UploaderSteps {
  import opened WalFrame
  import opened Wal
  import opened Manifest
  import opened Retention
  import opened Recovery
  import opened Segment
  import opened Writer
  import opened Uploads
  import opened Partition
  import opened PartitionInvariant
  import opened PartitionLogging

  // ------------------------------------------------------------------------------------------
  // Take a batch, put its object

  /** The first batch still to be listed starts where the manifest ends. */
  lemma FirstBatch(work: seq<SealedBatch>, active: seq<Record>, log: seq<Record>, tail: seq<int>, uploaded: int)
    requires QueueOk(work, active, log, tail) && TailOk(tail, uploaded, |log|) && work != []
    ensures work[0].baseOffset == uploaded && tail != [] && tail[0] == uploaded
    ensures BatchOk(work[0], log, uploaded, SegEnd(tail, |log|, 0))
  {
  }

  /** Taking the next batch in hand leaves the work to do as it was. */
  lemma TakeWork(queue: seq<SealedBatch>, m: seq<SegmentEntry>)
    requires queue != [] && !Listed(m, queue[0].baseOffset)
    ensures InHand(Uploading(queue[0], false), m) + queue[1..] == InHand(Idle, m) + queue
  {
    assert [queue[0]] + queue[1..] == queue && [] + queue == queue;
  }

  lemma TakeUploads(queue: seq<SealedBatch>, notices: seq<int>, active: seq<Record>,
                    store: Store, log: seq<Record>, low: int, tail: seq<int>)
    requires UploadsOk(Idle, queue, notices, active, store, log, low, tail) && queue != []
    requires Ordered(store.manifest) && TailOk(tail, UploadedEnd(store.manifest), |log|)
    ensures UploadsOk(Uploading(queue[0], false), queue[1..], notices, active, store, log, low, tail)
  {
    assert InHand(Idle, store.manifest) + queue == queue;
    FirstBatch(queue, active, log, tail, UploadedEnd(store.manifest));
    NotListedAbove(store.manifest, queue[0].baseOffset);
    TakeWork(queue, store.manifest);
  }

  lemma TakeKeeps(f: Framing, s: System, h: History)
    requires Inv(f, s, h) && s.process.Running? && s.process.uploader.Idle? && s.process.queue != []
    ensures Inv(f, TakeStep(s), h)
  {
    TakeUploads(s.process.queue, s.process.notices, s.process.writer.active, s.store, h.log, h.low, h.tail);
  }

  /** When the batch in hand is listed, it is the last entry. */
  lemma ListedIsLast(m: seq<SegmentEntry>, base: int, i: nat)
    requires Ordered(m) && i < |m| && m[i].baseOffset == base && m[|m| - 1].baseOffset == base
    ensures i == |m| - 1
  {
    var last := |m| - 1;
    assert forall j :: 0 <= j < last ==> m[j].lastOffset < m[last].baseOffset;
  }

  lemma PutObjectEntry(objects: map<int, Columns>, log: seq<Record>, e: SegmentEntry, b: SealedBatch)
    requires EntryOk(objects, log, e)
    requires b.baseOffset == e.baseOffset ==> b.records == log[e.baseOffset..e.lastOffset + 1]
    ensures EntryOk(objects[b.baseOffset := ToColumns(b.records)], log, e)
  {
  }

  lemma InHandRecords(m: seq<SegmentEntry>, up: Uploader, store: Store, log: seq<Record>, low: int, i: nat)
    requires up.Uploading? && UploaderOk(up, store, log, low) && m == store.manifest && Ordered(m)
    requires i < |m| && m[i].baseOffset == up.batch.baseOffset
    ensures BatchOk(up.batch, log, m[i].baseOffset, m[i].lastOffset + 1)
  {
    assert Listed(m, up.batch.baseOffset);
    ListedIsLast(m, up.batch.baseOffset, i);
  }

  /** A PUT of the batch in hand never changes the object of a listed entry. */
  lemma PutObjectManifest(store: Store, log: seq<Record>, low: int, b: SealedBatch, put: bool)
    requires ManifestOk(store, log, low) && UploaderOk(Uploading(b, put), store, log, low)
    ensures ManifestOk(PutSegment(store, b), log, low)
  {
    var m := store.manifest;
    forall i | 0 <= i < |m| ensures EntryOk(PutSegment(store, b).objects, log, m[i]) {
      if m[i].baseOffset == b.baseOffset {
        InHandRecords(m, Uploading(b, put), store, log, low, i);
      }
      PutObjectEntry(store.objects, log, m[i], b);
    }
  }

  lemma PutObjectDurable(f: Framing, dir: WalDir, store: Store, log: seq<Record>, low: int, tail: seq<int>, b: SealedBatch, put: bool)
    requires Durable(f, dir, store, log, low, tail) && UploaderOk(Uploading(b, put), store, log, low)
    ensures Durable(f, dir, PutSegment(store, b), log, low, tail)
  {
    PutObjectManifest(store, log, low, b, put);
  }

  lemma InHandBase(up: Uploader, queue: seq<SealedBatch>, notices: seq<int>, active: seq<Record>,
                   store: Store, log: seq<Record>, low: int, tail: seq<int>)
    requires UploadsOk(up, queue, notices, active, store, log, low, tail) && up.Uploading?
    requires TailOk(tail, UploadedEnd(store.manifest), |log|)
    ensures !Listed(store.manifest, up.batch.baseOffset) ==>
              up.batch.baseOffset == UploadedEnd(store.manifest)
              && tail != [] && BatchOk(up.batch, log, tail[0], SegEnd(tail, |log|, 0))
  {
    if !Listed(store.manifest, up.batch.baseOffset) {
      FirstBatch(InHand(up, store.manifest) + queue, active, log, tail, UploadedEnd(store.manifest));
    }
  }

  lemma PutObjectUploads(b: SealedBatch, put: bool, queue: seq<SealedBatch>, notices: seq<int>, active: seq<Record>,
                         store: Store, log: seq<Record>, low: int, tail: seq<int>)
    requires UploadsOk(Uploading(b, put), queue, notices, active, store, log, low, tail)
    ensures UploadsOk(Uploading(b, true), queue, notices, active, PutSegment(store, b), log, low, tail)
  {
  }

  lemma PutObjectKeeps(f: Framing, s: System, h: History)
    requires Inv(f, s, h) && s.process.Running? && s.process.uploader.Uploading?
    ensures Inv(f, PutObjectStep(s), h)
  {
    var up := s.process.uploader;
    PutObjectDurable(f, s.dir, s.store, h.log, h.low, h.tail, up.batch, up.objectPut);
    PutObjectUploads(up.batch, up.objectPut, s.process.queue, s.process.notices, s.process.writer.active,
                     s.store, h.log, h.low, h.tail);
  }

  // ------------------------------------------------------------------------------------------
  // Put the manifest

  lemma NewEntryOk(objects: map<int, Columns>, log: seq<Record>, b: SealedBatch, byteSize: nat, end: int)
    requires BatchOk(b, log, b.baseOffset, end) && LogOk(log)
    requires b.baseOffset in objects && objects[b.baseOffset] == ToColumns(b.records)
    ensures EntryOk(objects, log, EntryFor(b, byteSize)) && EntryFor(b, byteSize).lastOffset == end - 1
  {
    assert b.records[|b.records| - 1] == log[end - 1] && b.records[0] == log[b.baseOffset];
  }

  lemma AppendOrdered(m: seq<SegmentEntry>, e: SegmentEntry)
    requires Ordered(m) && e.baseOffset <= e.lastOffset && e.baseOffset == UploadedEnd(m)
    ensures Ordered(m + [e])
    ensures m != [] ==> Joins(m + [e], |m|)
  {
    var m' := m + [e];
    forall i, j | 0 <= i < j < |m'| ensures m'[i].lastOffset < m'[j].baseOffset {
      if j < |m| {
        assert m[i].lastOffset < m[j].baseOffset;
      } else if i < |m| - 1 {
        assert m[i].lastOffset < m[|m| - 1].baseOffset;
      }
    }
  }

  lemma AppendEntry(store: Store, log: seq<Record>, low: int, e: SegmentEntry)
    requires ManifestOk(store, log, low) && EntryOk(store.objects, log, e) && KeyOk(e)
    requires e.baseOffset == UploadedEnd(store.manifest)
    ensures ManifestOk(store.(manifest := store.manifest + [e]), log, low)
  {
    var m, m' := store.manifest, store.manifest + [e];
    AppendOrdered(m, e);
    forall i | 0 < i < |m'| ensures Joins(m', i) {
      assert i < |m| ==> Joins(m, i);
    }
    forall i | 0 <= i < |m'| ensures KeyOk(m'[i]) {
      assert i < |m| ==> KeyOk(m[i]);
    }
    forall i | 0 <= i < |m'| ensures EntryOk(store.objects, log, m'[i]) {
      assert i < |m| ==> EntryOk(store.objects, log, m[i]);
    }
  }

  /** The manifest with the new entry still lists the log without a gap. */
  lemma ListedManifest(store: Store, log: seq<Record>, low: int, b: SealedBatch, byteSize: nat, end: int)
    requires ManifestOk(store, log, low) && BatchOk(b, log, UploadedEnd(store.manifest), end) && LogOk(log)
    requires b.baseOffset in store.objects && store.objects[b.baseOffset] == ToColumns(b.records)
    ensures PutEntry(store, b, byteSize) == store.(manifest := store.manifest + [EntryFor(b, byteSize)])
    ensures EntryFor(b, byteSize).lastOffset == end - 1
    ensures ManifestOk(PutEntry(store, b, byteSize), log, low)
  {
    NotListedAbove(store.manifest, b.baseOffset);
    WithNewEntry(store.manifest, b, byteSize);
    NewEntryOk(store.objects, log, b, byteSize, end);
    AppendEntry(store, log, low, EntryFor(b, byteSize));
  }

  /** The tail without its first segment, which the manifest now lists. */
  lemma ListedTail(tail: seq<int>, uploaded: int, end: int)
    requires TailOk(tail, uploaded, end) && tail != []
    ensures TailOk(tail[1..], SegEnd(tail, end, 0), end)
    ensures forall i :: 0 <= i < |tail| - 1 ==> SegEnd(tail[1..], end, i) == SegEnd(tail, end, i + 1)
  {
    assert forall i :: 0 <= i < |tail| - 1 ==> tail[1..][i] == tail[i + 1];
  }

  lemma ListedDir(f: Framing, dir: WalDir, m: seq<SegmentEntry>, e: SegmentEntry, log: seq<Record>, low: int, tail: seq<int>)
    requires DirOk(f, dir, m, log, low, tail) && tail != []
    requires e.baseOffset == tail[0] && 0 <= e.baseOffset <= e.lastOffset < |log|
    requires FileHolds(f, dir, tail[0], log[tail[0]..e.lastOffset + 1])
    ensures DirOk(f, dir, m + [e], log, low, tail[1..])
  {
    var m' := m + [e];
    forall b | b in dir && b !in tail[1..] && !Stale(f, dir, m', b) && !Outlived(f, dir, log, low, b)
      ensures Repeats(f, dir, m', log, b)
    {
      if b == tail[0] {
        assert m'[|m|] == e;
      } else {
        assert b !in tail && !Stale(f, dir, m, b);
        assert Repeats(f, dir, m, log, b);
        var i :| 0 <= i < |m| && m[i].baseOffset == b && 0 <= b <= m[i].lastOffset < |log|
                 && Scan(f, dir[b]).records == log[b..m[i].lastOffset + 1];
        assert m'[i] == m[i];
      }
    }
  }

  lemma ListedStored(f: Framing, dir: WalDir, log: seq<Record>, tail: seq<int>, uploaded: int)
    requires TailOk(tail, uploaded, |log|) && tail != [] && TailStored(f, dir, log, tail)
    requires TailOk(tail[1..], SegEnd(tail, |log|, 0), |log|)
    ensures TailStored(f, dir, log, tail[1..])
  {
    ListedTail(tail, uploaded, |log|);
    forall i | 0 <= i < |tail| - 1 ensures FileHolds(f, dir, tail[1..][i], Piece(log, tail[1..], i)) {
      assert FileHolds(f, dir, tail[i + 1], Piece(log, tail, i + 1));
      assert SegEnd(tail[1..], |log|, i) == SegEnd(tail, |log|, i + 1);
    }
  }

  lemma ListedDisk(f: Framing, dir: WalDir, store: Store, log: seq<Record>, low: int, tail: seq<int>, e: SegmentEntry)
    requires Durable(f, dir, store, log, low, tail) && tail != []
    requires e.baseOffset == tail[0] && e.lastOffset + 1 == SegEnd(tail, |log|, 0)
    requires ManifestOk(store.(manifest := store.manifest + [e]), log, low)
    ensures Durable(f, dir, store.(manifest := store.manifest + [e]), log, low, tail[1..])
  {
    ListedTail(tail, UploadedEnd(store.manifest), |log|);
    assert FileHolds(f, dir, tail[0], Piece(log, tail, 0));
    ListedDir(f, dir, store.manifest, e, log, low, tail);
    ListedStored(f, dir, log, tail, UploadedEnd(store.manifest));
  }

  lemma ListedDurable(f: Framing, dir: WalDir, store: Store, log: seq<Record>, low: int, tail: seq<int>,
                      b: SealedBatch, byteSize: nat)
    requires Durable(f, dir, store, log, low, tail) && tail != []
    requires BatchOk(b, log, tail[0], SegEnd(tail, |log|, 0))
    requires b.baseOffset in store.objects && store.objects[b.baseOffset] == ToColumns(b.records)
    ensures PutEntry(store, b, byteSize) == store.(manifest := store.manifest + [EntryFor(b, byteSize)])
    ensures UploadedEnd(PutEntry(store, b, byteSize).manifest) == SegEnd(tail, |log|, 0)
    ensures Durable(f, dir, PutEntry(store, b, byteSize), log, low, tail[1..])
  {
    ListedManifest(store, log, low, b, byteSize, SegEnd(tail, |log|, 0));
    ListedDisk(f, dir, store, log, low, tail, EntryFor(b, byteSize));
  }

  lemma ListedQueue(work: seq<SealedBatch>, active: seq<Record>, log: seq<Record>, tail: seq<int>)
    requires QueueOk(work, active, log, tail) && work != []
    ensures QueueOk(work[1..], active, log, tail[1..])
  {
    forall i | 0 <= i < |work| - 1
      ensures BatchOk(work[1..][i], log, tail[1..][i], SegEnd(tail[1..], |log|, i))
    {
      assert BatchOk(work[i + 1], log, tail[i + 1], SegEnd(tail, |log|, i + 1));
    }
  }

  lemma ListedUploads(b: SealedBatch, queue: seq<SealedBatch>, notices: seq<int>, active: seq<Record>,
                      store: Store, log: seq<Record>, low: int, tail: seq<int>, byteSize: nat)
    requires UploadsOk(Uploading(b, true), queue, notices, active, store, log, low, tail)
    requires TailOk(tail, UploadedEnd(store.manifest), |log|) && !Listed(store.manifest, b.baseOffset)
    requires var m' := PutEntry(store, b, byteSize).manifest;
             && m' == store.manifest + [EntryFor(b, byteSize)]
             && tail != [] && UploadedEnd(m') == SegEnd(tail, |log|, 0)
    ensures UploadsOk(Uploading(b, true), queue, notices, active, PutEntry(store, b, byteSize), log, low, tail[1..])
  {
    var m' := PutEntry(store, b, byteSize).manifest;
    assert m'[|store.manifest|].baseOffset == b.baseOffset;
    ListedQueue([b] + queue, active, log, tail);
    assert ([b] + queue)[1..] == queue == [] + queue;
    assert BatchOk(([b] + queue)[0], log, tail[0], SegEnd(tail, |log|, 0));
  }

  lemma PutManifestKeeps(f: Framing, s: System, h: History, byteSize: nat)
    requires Inv(f, s, h) && s.process.Running? && s.process.uploader.Uploading? && s.process.uploader.objectPut
    ensures Inv(f, PutManifestStep(s, byteSize), ListedSeen(h, s.store, s.process.uploader.batch))
  {
    var b := s.process.uploader.batch;
    if !Listed(s.store.manifest, b.baseOffset) {
      var active := s.process.writer.active;
      InHandBase(s.process.uploader, s.process.queue, s.process.notices, active, s.store, h.log, h.low, h.tail);
      ListedDurable(f, s.dir, s.store, h.log, h.low, h.tail, b, byteSize);
      ListedUploads(b, s.process.queue, s.process.notices, active, s.store, h.log, h.low, h.tail, byteSize);
      ListedActive(active, s.process.writer.segmentBase, h.log, h.tail, [b] + s.process.queue);
    }
  }

  lemma ListedActive(active: seq<Record>, base: int, log: seq<Record>, tail: seq<int>, work: seq<SealedBatch>)
    requires ActiveOk(active, base, log, tail) && QueueOk(work, active, log, tail) && work != []
    ensures ActiveOk(active, base, log, tail[1..])
  {
  }

  lemma NotifyUploads(b: SealedBatch, put: bool, queue: seq<SealedBatch>, notices: seq<int>, active: seq<Record>,
                      store: Store, log: seq<Record>, low: int, tail: seq<int>)
    requires UploadsOk(Uploading(b, put), queue, notices, active, store, log, low, tail)
    requires Ordered(store.manifest) && Listed(store.manifest, b.baseOffset)
    ensures UploadsOk(Idle, queue, notices + [b.baseOffset], active, store, log, low, tail)
  {
    ListedBelow(store.manifest, b.baseOffset);
  }

  lemma NotifyKeeps(f: Framing, s: System, h: History)
    requires Inv(f, s, h) && s.process.Running? && s.process.uploader.Uploading?
    requires Listed(s.store.manifest, s.process.uploader.batch.baseOffset)
    ensures Inv(f, NotifyStep(s), h)
  {
    var up := s.process.uploader;
    NotifyUploads(up.batch, up.objectPut, s.process.queue, s.process.notices, s.process.writer.active,
                  s.store, h.log, h.low, h.tail);
  }

  // ------------------------------------------------------------------------------------------
  // Retention

  /** The rewrite keeps exactly the entries behind the evicted prefix. */
  lemma RewriteKeeps(store: Store, log: seq<Record>, low: int, k: nat)
    requires ManifestOk(store, log, low) && k <= |store.manifest|
    ensures Rewrite(store, k).manifest == store.manifest[k..]
  {
    OrderedAscends(store.manifest);
    RetainDropsPrefix(store.manifest, k);
  }

  lemma SuffixOrdered(m: seq<SegmentEntry>, k: nat)
    requires Ordered(m) && k < |m|
    ensures Ordered(m[k..]) && UploadedEnd(m[k..]) == UploadedEnd(m)
    ensures forall i :: 0 <= i < k ==> m[i].baseOffset < m[k].baseOffset
  {
    forall i, j | 0 <= i < j < |m| - k ensures m[k..][i].lastOffset < m[k..][j].baseOffset {
      assert m[k + i].lastOffset < m[k + j].baseOffset;
    }
    forall i | 0 <= i < k ensures m[i].baseOffset < m[k].baseOffset {
      assert m[i].lastOffset < m[k].baseOffset;
    }
  }

  /** The manifest without its first `k` entries. */
  lemma SuffixManifest(store: Store, log: seq<Record>, low: int, k: nat)
    requires ManifestOk(store, log, low) && k < |store.manifest|
    ensures ManifestOk(store.(manifest := store.manifest[k..]), log, store.manifest[k].baseOffset)
    ensures low <= store.manifest[k].baseOffset
  {
    var m, m' := store.manifest, store.manifest[k..];
    SuffixOrdered(m, k);
    forall i | 0 <= i < |m'| ensures EntryOk(store.objects, log, m'[i]) {
      assert EntryOk(store.objects, log, m[k + i]);
    }
    forall i | 0 < i < |m'| ensures Joins(m', i) {
      assert Joins(m, k + i);
    }
    forall i | 0 <= i < |m'| ensures KeyOk(m'[i]) {
      assert KeyOk(m[k + i]);
    }
    assert k > 0 ==> m[0].baseOffset < m[k].baseOffset;
  }

  lemma ListedOfSuffix(m: seq<SegmentEntry>, k: nat, base: int)
    requires k <= |m|
    ensures Listed(m[k..], base) ==> Listed(m, base)
  {
    if i :| 0 <= i < |m[k..]| && m[k..][i].baseOffset == base {
      assert m[k + i].baseOffset == base;
    }
  }

  /** The file of a segment cut off the manifest outlives it; every other file is what it was. */
  lemma SuffixDir(f: Framing, dir: WalDir, m: seq<SegmentEntry>, log: seq<Record>, low: int, tail: seq<int>, k: nat)
    requires DirOk(f, dir, m, log, low, tail) && Ordered(m) && k < |m|
    requires low <= m[k].baseOffset <= |log|
    ensures DirOk(f, dir, m[k..], log, m[k].baseOffset, tail)
  {
    var low' := m[k].baseOffset;
    assert forall j :: 0 <= j < k ==> m[j].lastOffset < low';
    forall b | b in dir && b !in tail && !Stale(f, dir, m[k..], b) && !Outlived(f, dir, log, low', b)
      ensures Repeats(f, dir, m[k..], log, b)
    {
      ListedOfSuffix(m, k, b);
      assert Repeats(f, dir, m, log, b);
      var i :| 0 <= i < |m| && m[i].baseOffset == b && 0 <= b <= m[i].lastOffset < |log|
               && Scan(f, dir[b]).records == log[b..m[i].lastOffset + 1];
      assert i >= k;
      assert m[k..][i - k] == m[i];
    }
  }

  lemma EvictDurable(f: Framing, dir: WalDir, store: Store, log: seq<Record>, low: int, tail: seq<int>, k: nat)
    requires Durable(f, dir, store, log, low, tail) && k < |store.manifest|
    ensures var kept := Rewrite(store, k);
            && kept.manifest != []
            && UploadedEnd(kept.manifest) == UploadedEnd(store.manifest)
            && low <= kept.manifest[0].baseOffset
            && (forall i :: 0 <= i < k ==> store.manifest[i].baseOffset < kept.manifest[0].baseOffset)
            && Durable(f, dir, kept, log, kept.manifest[0].baseOffset, tail)
  {
    RewriteKeeps(store, log, low, k);
    SuffixManifest(store, log, low, k);
    SuffixOrdered(store.manifest, k);
    assert EntryOk(store.objects, log, store.manifest[k]);
    SuffixDir(f, dir, store.manifest, log, low, tail, k);
  }

  lemma EvictUploads(queue: seq<SealedBatch>, notices: seq<int>, active: seq<Record>, store: Store, kept: Store,
                     log: seq<Record>, low: int, tail: seq<int>, doomed: seq<int>, low': int)
    requires UploadsOk(Idle, queue, notices, active, store, log, low, tail)
    requires UploadedEnd(kept.manifest) == UploadedEnd(store.manifest)
    requires forall i :: 0 <= i < |doomed| ==> doomed[i] < low'
    ensures UploadsOk(if doomed == [] then Idle else Deleting(doomed), queue, notices, active, kept, log, low', tail)
  {
  }

  lemma EvictSomeKeeps(f: Framing, s: System, h: History, k: nat)
    requires Inv(f, s, h) && s.process.Running? && s.process.uploader.Idle? && k < |s.store.manifest|
    ensures Inv(f, EvictStep(s, k), EvictSeen(h, s.store, k))
  {
    var kept := Rewrite(s.store, k);
    EvictDurable(f, s.dir, s.store, h.log, h.low, h.tail, k);
    EvictUploads(s.process.queue, s.process.notices, s.process.writer.active, s.store, kept,
                 h.log, h.low, h.tail, BasesOf(s.store.manifest[..k]), kept.manifest[0].baseOffset);
  }

  lemma EvictNothing(s: System)
    requires s.process.Running? && s.process.uploader.Idle? && s.store.manifest == []
    ensures EvictStep(s, 0) == s && Rewrite(s.store, 0).manifest == []
  {
  }

  lemma EvictKeeps(f: Framing, s: System, h: History, k: nat)
    requires Inv(f, s, h) && s.process.Running? && s.process.uploader.Idle? && (k == 0 || k < |s.store.manifest|)
    ensures Inv(f, EvictStep(s, k), EvictSeen(h, s.store, k))
  {
    if s.store.manifest == [] {
      EvictNothing(s);
    } else {
      EvictSomeKeeps(f, s, h, k);
    }
  }

  lemma DeleteUploads(doomed: seq<int>, queue: seq<SealedBatch>, notices: seq<int>, active: seq<Record>,
                      store: Store, log: seq<Record>, low: int, tail: seq<int>, objects: map<int, Columns>)
    requires UploadsOk(Deleting(doomed), queue, notices, active, store, log, low, tail) && doomed != []
    ensures UploadsOk(if |doomed| == 1 then Idle else Deleting(doomed[1..]), queue, notices, active,
                      store.(objects := objects), log, low, tail)
  {
  }

  lemma DeleteDurable(f: Framing, dir: WalDir, store: Store, log: seq<Record>, low: int, tail: seq<int>, base: int,
                      objects: map<int, Columns>)
    requires Durable(f, dir, store, log, low, tail) && base < low
    requires objects == store.objects || objects == store.objects - {base}
    ensures Durable(f, dir, store.(objects := objects), log, low, tail)
  {
    DeleteManifest(store, log, low, base);
  }

  lemma DeleteKeeps(f: Framing, s: System, h: History, ok: bool)
    requires Inv(f, s, h) && s.process.Running? && s.process.uploader.Deleting? && s.process.uploader.doomed != []
    ensures Inv(f, DeleteStep(s, ok), h)
  {
    var doomed := s.process.uploader.doomed;
    var objects := if ok then s.store.objects - {doomed[0]} else s.store.objects;
    DeleteDurable(f, s.dir, s.store, h.log, h.low, h.tail, doomed[0], objects);
    DeleteUploads(doomed, s.process.queue, s.process.notices, s.process.writer.active, s.store, h.log, h.low, h.tail, objects);
  }

  /** Deleting an evicted object touches no listed one. */
  lemma DeleteManifest(store: Store, log: seq<Record>, low: int, base: int)
    requires ManifestOk(store, log, low) && base < low
    ensures ManifestOk(store.(objects := store.objects - {base}), log, low)
  {
    var m := store.manifest;
    forall i | 0 <= i < |m| ensures EntryOk(store.objects - {base}, log, m[i]) {
      assert EntryOk(store.objects, log, m[i]);
      if i > 0 { assert m[0].lastOffset < m[i].baseOffset; }
    }
  }
}
