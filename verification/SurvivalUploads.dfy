/** The uploader's steps keep what `Survival` states, whatever order the bases come in. */
module SurvivalUploads {
  import opened WalFrame
  import opened Wal
  import opened Manifest
  import opened Retention
  import opened Recovery
  import opened Segment
  import opened Writer
  import opened Uploads
  import opened Partition
  import opened PartitionInvariant
  import opened Survival
  import opened SurvivalSteps

  // ------------------------------------------------------------------------------------------
  // Take a batch, put its object

  lemma TakeSurvives(f: Framing, s: System, h: History)
    requires Survives(f, s, h) && s.process.Running? && s.process.uploader.Idle? && s.process.queue != []
    ensures Survives(f, TakeStep(s), h)
  {
    var q := s.process.queue;
    assert Held(Idle) + q == q && Held(Uploading(q[0], false)) + q[1..] == q;
  }

  /** The PUT of the batch in hand changes no listed object. */
  lemma PutKeepsRows(store: Store, b: SealedBatch, put: bool)
    requires UploaderSound(Uploading(b, put), store)
    ensures forall base :: Listed(store.manifest, base) ==> Rows(PutSegment(store, b).objects, base) == Rows(store.objects, base)
  {
  }

  /** With the same entries and the same rows under them, a store accounts for the same records. */
  lemma SameStored(store: Store, store': Store, evicted: seq<Record>)
    requires forall base :: Listed(store.manifest, base) ==>
               Listed(store'.manifest, base) && Rows(store'.objects, base) == Rows(store.objects, base)
    ensures forall r :: Stored(store, evicted, r) ==> Stored(store', evicted, r)
  {
    forall r | InListed(store, r) ensures InListed(store', r) {
      var b :| Listed(store.manifest, b) && r in Rows(store.objects, b);
      assert Listed(store'.manifest, b) && r in Rows(store'.objects, b);
    }
  }

  lemma SameManifestSound(store: Store, store': Store)
    requires ManifestSound(store) && store'.manifest == store.manifest
    requires forall base :: Listed(store.manifest, base) ==> Rows(store'.objects, base) == Rows(store.objects, base)
    ensures ManifestSound(store')
  {
    var m := store.manifest;
    forall i | 0 <= i < |m| ensures Describes(m[i], Rows(store'.objects, m[i].baseOffset)) {
      assert Listed(m, m[i].baseOffset);
    }
  }

  /** Objects change, but none that is listed. */
  lemma UnlistedObjects(f: Framing, dir: WalDir, store: Store, store': Store, evicted: seq<Record>, log: seq<Record>)
    requires DiskSound(f, dir, store, evicted, log) && store'.manifest == store.manifest
    requires forall base :: Listed(store.manifest, base) ==> Rows(store'.objects, base) == Rows(store.objects, base)
    ensures DiskSound(f, dir, store', evicted, log)
    ensures forall r :: Stored(store, evicted, r) ==> Stored(store', evicted, r)
  {
    SameStored(store, store', evicted);
    SameManifestSound(store, store');
    LogMoves(f, dir, store, evicted, dir, store', evicted, log);
  }

  lemma NoticesMove(f: Framing, dir: WalDir, store: Store, evicted: seq<Record>, store': Store, evicted': seq<Record>,
                    notices: seq<int>, end: int)
    requires NoticesSound(f, dir, store, evicted, notices, end)
    requires forall r :: Stored(store, evicted, r) ==> Stored(store', evicted', r)
    ensures NoticesSound(f, dir, store', evicted', notices, end)
  {
  }

  lemma PutObjectSurvives(f: Framing, s: System, h: History)
    requires Survives(f, s, h) && s.process.Running? && s.process.uploader.Uploading?
    ensures Survives(f, PutObjectStep(s), h)
  {
    var up := s.process.uploader;
    var store' := PutObjectStep(s).store;
    PutKeepsRows(s.store, up.batch, up.objectPut);
    UnlistedObjects(f, s.dir, s.store, store', h.evicted, h.log);
    NoticesMove(f, s.dir, s.store, h.evicted, store', h.evicted, s.process.notices, FlushedEnd(s.process.writer));
    assert Held(Uploading(up.batch, true)) == Held(up);
  }

  // ------------------------------------------------------------------------------------------
  // Put the manifest

  /** Inserting a new base keeps the bases distinct and in order, and adds just that entry. */
  lemma {:induction false} InsertAscends(sorted: seq<SegmentEntry>, e: SegmentEntry)
    requires Ascending(sorted) && forall i :: 0 <= i < |sorted| ==> sorted[i].baseOffset != e.baseOffset
    ensures Ascending(InsertByBase(sorted, e))
    ensures forall x :: x in InsertByBase(sorted, e) <==> x in sorted || x == e
  {
    if sorted != [] && e.baseOffset >= sorted[0].baseOffset {
      InsertAscends(sorted[1..], e);
      var rest := InsertByBase(sorted[1..], e);
      forall i | 0 <= i < |rest| ensures sorted[0].baseOffset < rest[i].baseOffset {
        assert rest[i] in sorted[1..] || rest[i] == e;
      }
      assert sorted == [sorted[0]] + sorted[1..];
    }
  }

  lemma AscendingSorted(m: seq<SegmentEntry>, e: SegmentEntry)
    requires Ascending(m)
    ensures SortByBase(m + [e]) == InsertByBase(m, e)
  {
    SortSorted(m);
    assert (m + [e])[..|m|] == m;
  }

  lemma ListedEntries(m: seq<SegmentEntry>, m': seq<SegmentEntry>, e: SegmentEntry)
    requires forall x :: x in m' <==> x in m || x == e
    ensures forall b :: Listed(m', b) <==> Listed(m, b) || b == e.baseOffset
  {
    forall b ensures Listed(m', b) <==> Listed(m, b) || b == e.baseOffset {
      if Listed(m', b) {
        var i :| 0 <= i < |m'| && m'[i].baseOffset == b;
        assert m'[i] in m' && (m'[i] in m || m'[i] == e);
      }
      if Listed(m, b) {
        var i :| 0 <= i < |m| && m[i].baseOffset == b;
        assert m[i] in m';
        var j :| 0 <= j < |m'| && m'[j] == m[i];
      }
      if b == e.baseOffset {
        assert e in m';
        var j :| 0 <= j < |m'| && m'[j] == e;
      }
    }
  }

  /** The rewritten manifest: one entry more, in its place. */
  lemma EntryInserted(m: seq<SegmentEntry>, batch: SealedBatch, byteSize: nat)
    requires Ascending(m) && !Listed(m, batch.baseOffset)
    ensures var m' := WithEntry(m, batch, byteSize);
            && m' == InsertByBase(m, EntryFor(batch, byteSize))
            && Ascending(m')
            && (forall x :: x in m' <==> x in m || x == EntryFor(batch, byteSize))
            && (forall b :: Listed(m', b) <==> Listed(m, b) || b == batch.baseOffset)
  {
    var e := EntryFor(batch, byteSize);
    AscendingSorted(m, e);
    InsertAscends(m, e);
    ListedEntries(m, InsertByBase(m, e), e);
  }

  lemma BatchRows(f: Framing, dir: WalDir, b: SealedBatch, end: int)
    requires Lawful(f) && BatchKept(f, dir, b, end)
    ensures FromColumns(ToColumns(b.records)) == b.records
  {
    ScanCanonical(f, dir[b.baseOffset]);
    ColumnsRoundTrip(b.records);
  }

  lemma EntryDescribes(f: Framing, dir: WalDir, b: SealedBatch, byteSize: nat, end: int)
    requires BatchKept(f, dir, b, end) && FilesNamed(f, dir)
    ensures Describes(EntryFor(b, byteSize), b.records) && KeyOk(EntryFor(b, byteSize))
  {
    assert Named(Records(f, dir, b.baseOffset), b.baseOffset);
  }

  lemma InsertedSound(store: Store, store': Store, e: SegmentEntry)
    requires ManifestSound(store) && store'.objects == store.objects && Ascending(store'.manifest)
    requires forall x :: x in store'.manifest <==> x in store.manifest || x == e
    requires KeyOk(e) && Describes(e, Rows(store.objects, e.baseOffset))
    ensures ManifestSound(store')
  {
    var m, m' := store.manifest, store'.manifest;
    forall i | 0 <= i < |m'| ensures KeyOk(m'[i]) && Describes(m'[i], Rows(store.objects, m'[i].baseOffset)) {
      assert m'[i] in m';
      if m'[i] in m {
        var j :| 0 <= j < |m| && m[j] == m'[i];
        assert KeyOk(m[j]) && Describes(m[j], Rows(store.objects, m[j].baseOffset));
      }
    }
  }

  /** A segment is listed whose object is in place and whose file holds the same. */
  lemma ListedSound(f: Framing, dir: WalDir, store: Store, evicted: seq<Record>, log: seq<Record>, b: SealedBatch, byteSize: nat, end: int)
    requires Lawful(f) && DiskSound(f, dir, store, evicted, log) && BatchKept(f, dir, b, end) && Whole(f, dir, b.baseOffset)
    requires UploaderSound(Uploading(b, true), store) && !Listed(store.manifest, b.baseOffset)
    ensures var store' := PutEntry(store, b, byteSize);
            && DiskSound(f, dir, store', evicted, log)
            && (forall base :: Listed(store'.manifest, base) <==> Listed(store.manifest, base) || base == b.baseOffset)
            && (forall r :: Stored(store, evicted, r) ==> Stored(store', evicted, r))
  {
    var store' := PutEntry(store, b, byteSize);
    EntryInserted(store.manifest, b, byteSize);
    BatchRows(f, dir, b, end);
    EntryDescribes(f, dir, b, byteSize, end);
    InsertedSound(store, store', EntryFor(b, byteSize));
    SameStored(store, store', evicted);
    LogMoves(f, dir, store, evicted, dir, store', evicted, log);
  }

  lemma ListedWriter(f: Framing, dir: WalDir, w: Writer, m: seq<SegmentEntry>, m': seq<SegmentEntry>, base: int)
    requires WriterSound(f, dir, w, m) && base < FlushedEnd(w) && base != w.segmentBase
    requires forall b :: Listed(m', b) <==> Listed(m, b) || b == base
    ensures WriterSound(f, dir, w, m')
  {
  }

  lemma ListedUploads(f: Framing, dir: WalDir, store: Store, store': Store, evicted: seq<Record>, b: SealedBatch,
                      queue: seq<SealedBatch>, notices: seq<int>, segmentBase: int, end: int)
    requires UploadsSound(f, dir, store, evicted, Uploading(b, true), queue, notices, segmentBase, end)
    requires store'.objects == store.objects
    requires forall base :: Listed(store'.manifest, base) <==> Listed(store.manifest, base) || base == b.baseOffset
    requires forall r :: Stored(store, evicted, r) ==> Stored(store', evicted, r)
    ensures UploadsSound(f, dir, store', evicted, Uploading(b, true), queue, notices, segmentBase, end)
  {
    var work := Held(Uploading(b, true)) + queue;
    forall i | 0 <= i < |queue| ensures !Listed(store'.manifest, queue[i].baseOffset) {
      assert work[0] == b && work[i + 1] == queue[i];
    }
    NoticesMove(f, dir, store, evicted, store', evicted, notices, end);
  }

  lemma InHandKept(f: Framing, dir: WalDir, up: Uploader, queue: seq<SealedBatch>, notices: seq<int>, segmentBase: int, end: int)
    requires up.Uploading? && WorkKept(f, dir, Held(up) + queue, end) && Apart(notices, Held(up) + queue, segmentBase)
    ensures BatchKept(f, dir, up.batch, end) && up.batch.baseOffset != segmentBase && up.batch.baseOffset !in notices
  {
    assert (Held(up) + queue)[0] == up.batch;
  }

  lemma PutManifestSurvives(f: Framing, s: System, h: History, byteSize: nat)
    requires Lawful(f) && Survives(f, s, h) && s.process.Running? && s.process.uploader.Uploading? && s.process.uploader.objectPut
    ensures Survives(f, PutManifestStep(s, byteSize), ListedSeen(h, s.store, s.process.uploader.batch))
  {
    var b, w := s.process.uploader.batch, s.process.writer;
    if !Listed(s.store.manifest, b.baseOffset) {
      var store' := PutManifestStep(s, byteSize).store;
      InHandKept(f, s.dir, s.process.uploader, s.process.queue, s.process.notices, w.segmentBase, FlushedEnd(w));
      ListedSound(f, s.dir, s.store, h.evicted, h.log, b, byteSize, FlushedEnd(w));
      ListedWriter(f, s.dir, w, s.store.manifest, store'.manifest, b.baseOffset);
      ListedUploads(f, s.dir, s.store, store', h.evicted, b, s.process.queue, s.process.notices, w.segmentBase, FlushedEnd(w));
    }
  }

  // ------------------------------------------------------------------------------------------
  // Notify

  /** The first batch is done with: its base joins the notices. */
  lemma FirstDone(f: Framing, dir: WalDir, b: SealedBatch, queue: seq<SealedBatch>, notices: seq<int>, segmentBase: int, end: int)
    requires WorkKept(f, dir, [b] + queue, end) && Apart(notices, [b] + queue, segmentBase)
    ensures WorkKept(f, dir, queue, end) && Apart(notices + [b.baseOffset], queue, segmentBase)
  {
    var work := [b] + queue;
    assert work[0] == b && segmentBase != b.baseOffset;
    forall i | 0 <= i < |queue| ensures BatchKept(f, dir, queue[i], end) && queue[i].baseOffset !in notices
                                        && queue[i].baseOffset != segmentBase && queue[i].baseOffset != b.baseOffset {
      assert work[i + 1] == queue[i];
    }
    forall i, j | 0 <= i < j < |queue| ensures queue[i].baseOffset != queue[j].baseOffset {
      assert work[i + 1] == queue[i] && work[j + 1] == queue[j];
    }
  }

  lemma ListedStored(f: Framing, dir: WalDir, store: Store, evicted: seq<Record>, base: int)
    requires ListedFiles(f, dir, store) && Listed(store.manifest, base)
    ensures AllStored(store, evicted, Records(f, dir, base))
  {
    forall r | r in Records(f, dir, base) ensures InListed(store, r) {
      assert r in Rows(store.objects, base);
    }
  }

  lemma NotifiedUploads(f: Framing, dir: WalDir, store: Store, evicted: seq<Record>, up: Uploader,
                        queue: seq<SealedBatch>, notices: seq<int>, segmentBase: int, end: int)
    requires UploadsSound(f, dir, store, evicted, up, queue, notices, segmentBase, end) && ListedFiles(f, dir, store)
    requires up.Uploading? && Listed(store.manifest, up.batch.baseOffset)
    ensures UploadsSound(f, dir, store, evicted, Idle, queue, notices + [up.batch.baseOffset], segmentBase, end)
  {
    InHandKept(f, dir, up, queue, notices, segmentBase, end);
    assert Held(up) == [up.batch] && Held(Idle) + queue == queue;
    FirstDone(f, dir, up.batch, queue, notices, segmentBase, end);
    ListedStored(f, dir, store, evicted, up.batch.baseOffset);
  }

  lemma NotifySurvives(f: Framing, s: System, h: History)
    requires Survives(f, s, h) && s.process.Running? && s.process.uploader.Uploading?
    requires Listed(s.store.manifest, s.process.uploader.batch.baseOffset)
    ensures Survives(f, NotifyStep(s), h)
  {
    var w := s.process.writer;
    NotifiedUploads(f, s.dir, s.store, h.evicted, s.process.uploader, s.process.queue, s.process.notices, w.segmentBase, FlushedEnd(w));
  }

  // ------------------------------------------------------------------------------------------
  // Retention

  /** The manifest without its first `k` entries. */
  lemma SuffixSound(store: Store, k: nat)
    requires ManifestSound(store) && k <= |store.manifest|
    ensures Rewrite(store, k).manifest == store.manifest[k..] && ManifestSound(Rewrite(store, k))
  {
    var m := store.manifest;
    RetainDropsPrefix(m, k);
    forall i | 0 <= i < |m| - k ensures KeyOk(m[k..][i]) && Describes(m[k..][i], Rows(store.objects, m[k..][i].baseOffset)) {
      assert m[k..][i] == m[k + i] && KeyOk(m[k + i]);
    }
    forall i, j | 0 <= i < j < |m| - k ensures m[k..][i].baseOffset < m[k..][j].baseOffset {
      assert m[k + i].baseOffset < m[k + j].baseOffset;
    }
  }

  /** A base is listed among the dropped entries or among the kept ones, never both. */
  lemma ListedSplit(m: seq<SegmentEntry>, k: nat, b: int)
    requires Ascending(m) && k <= |m|
    ensures Listed(m, b) <==> Listed(m[..k], b) || Listed(m[k..], b)
    ensures !(Listed(m[..k], b) && Listed(m[k..], b))
  {
    if i :| 0 <= i < |m| && m[i].baseOffset == b {
      if i < k { assert m[..k][i] == m[i]; } else { assert m[k..][i - k] == m[i]; }
    }
    if i :| 0 <= i < |m[..k]| && m[..k][i].baseOffset == b {
      assert m[i].baseOffset == b;
      forall j | 0 <= j < |m[k..]| ensures m[k..][j].baseOffset != b {
        assert m[k + j] == m[k..][j];
      }
    }
    if j :| 0 <= j < |m[k..]| && m[k..][j].baseOffset == b {
      assert m[k + j].baseOffset == b;
    }
  }

  lemma DroppedRows(objects: map<int, Columns>, m: seq<SegmentEntry>, b: int, r: Record)
    requires Listed(m, b) && r in Rows(objects, b)
    ensures r in Concat(PartsOf(objects, m))
  {
    var i :| 0 <= i < |m| && m[i].baseOffset == b;
    ConcatHas(PartsOf(objects, m), i, r);
  }

  /** A listed record that leaves the manifest is evicted. */
  lemma EvictedStored(store: Store, evicted: seq<Record>, k: nat)
    requires ManifestSound(store) && k <= |store.manifest|
    ensures var m := store.manifest;
            forall r :: Stored(store, evicted, r) ==> Stored(Rewrite(store, k), evicted + Concat(PartsOf(store.objects, m[..k])), r)
  {
    var m, store' := store.manifest, Rewrite(store, k);
    var gone := Concat(PartsOf(store.objects, m[..k]));
    SuffixSound(store, k);
    forall r | InListed(store, r) ensures Stored(store', evicted + gone, r) {
      var b :| Listed(m, b) && r in Rows(store.objects, b);
      ListedSplit(m, k, b);
      if Listed(m[..k], b) {
        DroppedRows(store.objects, m[..k], b, r);
      } else {
        assert Listed(store'.manifest, b) && r in Rows(store'.objects, b);
      }
    }
  }

  lemma EvictedDisk(f: Framing, dir: WalDir, store: Store, evicted: seq<Record>, log: seq<Record>, k: nat)
    requires DiskSound(f, dir, store, evicted, log) && k <= |store.manifest|
    ensures DiskSound(f, dir, Rewrite(store, k), evicted + Concat(PartsOf(store.objects, store.manifest[..k])), log)
    ensures forall b :: Listed(Rewrite(store, k).manifest, b) ==> Listed(store.manifest, b)
    ensures forall b :: Listed(store.manifest[..k], b) ==> !Listed(Rewrite(store, k).manifest, b)
  {
    SuffixSound(store, k);
    EvictedStored(store, evicted, k);
    LogMoves(f, dir, store, evicted, dir, Rewrite(store, k), evicted + Concat(PartsOf(store.objects, store.manifest[..k])), log);
    forall b ensures Listed(store.manifest[k..], b) ==> Listed(store.manifest, b) && !Listed(store.manifest[..k], b) {
      ListedSplit(store.manifest, k, b);
    }
  }

  lemma DoomedListed(m: seq<SegmentEntry>, k: nat)
    requires k <= |m|
    ensures forall i :: 0 <= i < k ==> Listed(m[..k], BasesOf(m[..k])[i])
  {
    forall i | 0 <= i < k ensures Listed(m[..k], BasesOf(m[..k])[i]) {
      assert m[..k][i].baseOffset == BasesOf(m[..k])[i];
    }
  }

  lemma EvictSurvives(f: Framing, s: System, h: History, k: nat)
    requires Survives(f, s, h) && s.process.Running? && s.process.uploader.Idle? && k <= |s.store.manifest|
    ensures Survives(f, EvictStep(s, k), EvictSeen(h, s.store, k))
  {
    var s', h', w := EvictStep(s, k), EvictSeen(h, s.store, k), s.process.writer;
    EvictedDisk(f, s.dir, s.store, h.evicted, h.log, k);
    EvictedStored(s.store, h.evicted, k);
    NoticesMove(f, s.dir, s.store, h.evicted, s'.store, h'.evicted, s.process.notices, FlushedEnd(w));
    DoomedListed(s.store.manifest, k);
    assert Held(s'.process.uploader) == Held(Idle) == [];
  }

  lemma DeleteSurvives(f: Framing, s: System, h: History, ok: bool)
    requires Survives(f, s, h) && s.process.Running? && s.process.uploader.Deleting? && s.process.uploader.doomed != []
    ensures Survives(f, DeleteStep(s, ok), h)
  {
    var s' := DeleteStep(s, ok);
    assert !Listed(s.store.manifest, s.process.uploader.doomed[0]);
    UnlistedObjects(f, s.dir, s.store, s'.store, h.evicted, h.log);
    NoticesMove(f, s.dir, s.store, h.evicted, s'.store, h.evicted, s.process.notices, FlushedEnd(s.process.writer));
    assert Held(s'.process.uploader) == Held(s.process.uploader) == [];
  }
}
