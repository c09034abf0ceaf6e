/**
 Offsets are handed out once, as long as no crash revives a segment below the end of the manifest:
 what `Survival` states, and where the segments lie that no manifest lists.
 */
module Freshness {
  import opened WalFrame
  import opened Wal
  import opened Manifest
  import opened Recovery
  import opened Segment
  import opened Writer
  import opened Uploads
  import opened Partition
  import opened PartitionInvariant
  import opened PartitionLogging
  import opened WriterSteps
  import opened Survival
  import opened SurvivalSteps
  import opened SurvivalUploads
  import opened SurvivalRecovery

  // ------------------------------------------------------------------------------------------
  // The invariant

  ghost predicate EndBy(rs: seq<Record>, end: int) {
    forall r :: r in rs ==> r.offset < end
  }

  /** An unlisted segment that would be listed below the last entry, and ends below it too. */
  ghost predicate Under(f: Framing, dir: WalDir, m: seq<SegmentEntry>, b: int) {
    m != [] && b < m[|m| - 1].baseOffset && EndBy(Records(f, dir, b), UploadedEnd(m))
  }

  /** Unlisted segments lie under the manifest's end or start behind it. */
  ghost predicate FilesPlaced(f: Framing, dir: WalDir, m: seq<SegmentEntry>) {
    forall b :: b in dir && Records(f, dir, b) != [] && !Listed(m, b) ==> Under(f, dir, m, b) || b >= UploadedEnd(m)
  }

  /** Of two files, one ends before the other starts. */
  ghost predicate FilesApart(f: Framing, dir: WalDir) {
    forall x, y :: x in dir && y in dir && x < y && Records(f, dir, y) != [] ==> EndBy(Records(f, dir, x), y)
  }

  /** A listed segment and a file that has another name do not overlap. */
  ghost predicate EntryApart(f: Framing, dir: WalDir, e: SegmentEntry, b: int) {
    (e.baseOffset < b ==> e.lastOffset < b) && (b < e.baseOffset ==> EndBy(Records(f, dir, b), e.baseOffset))
  }

  ghost predicate EntriesApart(f: Framing, dir: WalDir, m: seq<SegmentEntry>) {
    forall e, b :: e in m && b in dir && Records(f, dir, b) != [] ==> EntryApart(f, dir, e, b)
  }

  /** Segments, listed or in files, do not overlap. */
  ghost predicate DiskFresh(f: Framing, dir: WalDir, m: seq<SegmentEntry>, evicted: seq<Record>) {
    && Ordered(m) && EndBy(evicted, UploadedEnd(m))
    && FilesPlaced(f, dir, m) && FilesApart(f, dir) && EntriesApart(f, dir, m)
  }

  /** The current segment starts behind everything listed and behind what every other file holds. */
  ghost predicate ActiveHighest(f: Framing, dir: WalDir, m: seq<SegmentEntry>, segmentBase: int) {
    && UploadedEnd(m) <= segmentBase
    && (forall b :: b in dir && b != segmentBase ==> EndBy(Records(f, dir, b), segmentBase))
  }

  ghost predicate Fresh(f: Framing, s: System, h: History) {
    && DiskFresh(f, s.dir, s.store.manifest, h.evicted) && Rising(h.log)
    && (if s.process.Running? then ActiveHighest(f, s.dir, s.store.manifest, s.process.writer.segmentBase)
        else !Revives(f, s.dir, s.store.manifest))
  }

  lemma FreshInitially(f: Framing)
    ensures Fresh(f, EmptySystem(), EmptyHistory())
  {
  }

  // ------------------------------------------------------------------------------------------
  // Everything ends by the next offset

  lemma RowsEnd(store: Store, b: int)
    requires ManifestSound(store) && Ordered(store.manifest) && Listed(store.manifest, b)
    ensures EndBy(Rows(store.objects, b), UploadedEnd(store.manifest))
  {
    var m := store.manifest;
    var i :| 0 <= i < |m| && m[i].baseOffset == b;
    RisingEnds(m[i], Rows(store.objects, b));
    BelowUploadedEnd(m, i);
  }

  lemma RisingEnds(e: SegmentEntry, rows: seq<Record>)
    requires Describes(e, rows)
    ensures EndBy(rows, e.lastOffset + 1)
  {
    forall r | r in rows ensures r.offset <= e.lastOffset {
      var j :| 0 <= j < |rows| && rows[j] == r;
      assert j < |rows| - 1 ==> rows[j].offset < rows[|rows| - 1].offset;
    }
  }

  lemma ListedFileEnds(f: Framing, dir: WalDir, store: Store, b: int)
    requires ManifestSound(store) && Ordered(store.manifest) && ListedFiles(f, dir, store) && Listed(store.manifest, b)
    ensures EndBy(Records(f, dir, b), UploadedEnd(store.manifest))
  {
    RowsEnd(store, b);
    forall r | r in Records(f, dir, b) ensures r.offset < UploadedEnd(store.manifest) {
      assert r in Rows(store.objects, b);
    }
  }

  lemma ActiveEnds(w: Writer)
    requires OffsetsOk(w)
    ensures EndBy(w.active, FlushedEnd(w)) && w.segmentBase <= FlushedEnd(w)
  {
    if w.active != [] { assert w.active[0].offset < FlushedEnd(w); }
  }

  lemma FilesEnd(f: Framing, dir: WalDir, w: Writer, m: seq<SegmentEntry>, b: int)
    requires WriterSound(f, dir, w, m) && ActiveHighest(f, dir, m, w.segmentBase)
    ensures EndBy(Records(f, dir, b), FlushedEnd(w)) && UploadedEnd(m) <= FlushedEnd(w)
  {
    ActiveEnds(w);
    if b in dir && b != w.segmentBase { assert EndBy(Records(f, dir, b), w.segmentBase); }
  }

  /** Whatever reached the disk lies below the offsets that are pending or still to come. */
  lemma LogEnds(f: Framing, s: System, h: History)
    requires Survives(f, s, h) && Fresh(f, s, h) && s.process.Running?
    ensures EndBy(h.log, FlushedEnd(s.process.writer))
  {
    var w := s.process.writer;
    forall r | r in h.log ensures r.offset < FlushedEnd(w) {
      assert Safe(f, s.dir, s.store, h.evicted, r);
      FilesEnd(f, s.dir, w, s.store.manifest, w.segmentBase);
      if InFile(f, s.dir, r) {
        var b :| b in s.dir && r in Records(f, s.dir, b);
        FilesEnd(f, s.dir, w, s.store.manifest, b);
      } else if InListed(s.store, r) {
        var b :| Listed(s.store.manifest, b) && r in Rows(s.store.objects, b);
        RowsEnd(s.store, b);
      }
    }
  }

  lemma RisingGrows(log: seq<Record>, batch: seq<Record>, pending: seq<Record>, next: int, end: int)
    requires Rising(log) && EndBy(log, end) && PendingOk(next, pending, end) && batch <= pending
    ensures Rising(log + batch)
  {
    var all := log + batch;
    forall i, j | 0 <= i < j < |all| ensures all[i].offset < all[j].offset {
      if i < |log| { assert all[i] in log; } else { assert all[i] == pending[i - |log|]; }
      if j >= |log| { assert all[j] == pending[j - |log|]; }
    }
  }

  // ------------------------------------------------------------------------------------------
  // Records reach the disk

  /** Every other file is as it was, and ends before the writer's own starts. */
  ghost predicate OthersBelow(f: Framing, dir: WalDir, dir': WalDir, own: int) {
    forall b :: b in dir' && b != own ==>
      && b in dir && Records(f, dir', b) == Records(f, dir, b)
      && EndBy(Records(f, dir, b), own) && (Records(f, dir, b) != [] ==> b < own)
  }

  lemma OthersAreBelow(f: Framing, dir: WalDir, dir': WalDir, own: int)
    requires FilesNamed(f, dir) && forall b :: b in dir && b != own ==> EndBy(Records(f, dir, b), own)
    requires dir'.Keys == dir.Keys && forall b :: b in dir && b != own ==> dir'[b] == dir[b]
    ensures OthersBelow(f, dir, dir', own)
  {
    forall b | b in dir' && b != own
      ensures b in dir && Records(f, dir', b) == Records(f, dir, b) && (Records(f, dir, b) != [] ==> b < own)
    {
      assert b in dir.Keys;
      assert Named(Records(f, dir, b), b);
      assert Records(f, dir, b) != [] ==> Records(f, dir, b)[0] in Records(f, dir, b);
    }
  }

  lemma GrownFiles(f: Framing, dir: WalDir, dir': WalDir, own: int)
    requires FilesApart(f, dir) && OthersBelow(f, dir, dir', own)
    ensures FilesApart(f, dir')
  {
    forall x, y | x in dir' && y in dir' && x < y && Records(f, dir', y) != [] ensures EndBy(Records(f, dir', x), y) {
      if x != own && y != own { assert EndBy(Records(f, dir, x), y); }
    }
  }

  lemma GrownEntries(f: Framing, dir: WalDir, dir': WalDir, m: seq<SegmentEntry>, own: int)
    requires EntriesApart(f, dir, m) && OthersBelow(f, dir, dir', own) && Ordered(m) && UploadedEnd(m) <= own
    ensures EntriesApart(f, dir', m)
  {
    forall e, b | e in m && b in dir' && Records(f, dir', b) != [] ensures EntryApart(f, dir', e, b) {
      if b == own {
        var i :| 0 <= i < |m| && m[i] == e;
        BelowUploadedEnd(m, i);
      } else {
        assert EntryApart(f, dir, e, b);
      }
    }
  }

  /** Only the writer's own file grows. */
  lemma AppendedFresh(f: Framing, dir: WalDir, dir': WalDir, w: Writer, m: seq<SegmentEntry>, evicted: seq<Record>, batch: seq<Record>)
    requires DiskFresh(f, dir, m, evicted) && ActiveHighest(f, dir, m, w.walBase) && FilesNamed(f, dir)
    requires Appended(f, dir, dir', w, batch)
    ensures DiskFresh(f, dir', m, evicted) && ActiveHighest(f, dir', m, w.walBase)
  {
    OthersAreBelow(f, dir, dir', w.walBase);
    GrownFiles(f, dir, dir', w.walBase);
    GrownEntries(f, dir, dir', m, w.walBase);
  }

  lemma FlushFresh(f: Framing, s: System, h: History)
    requires Lawful(f) && Survives(f, s, h) && Fresh(f, s, h)
    requires s.process.Running? && s.process.writer.stage.Ready? && s.process.writer.walBase in s.dir
    ensures Fresh(f, FlushStep(f, s), FlushSeen(h, s.process.writer))
  {
    var w := s.process.writer;
    if w.pending == [] {
      FlushNothing(f, s);
    } else {
      FlushAppends(f, s.dir, w, s.store.manifest);
      AppendedFresh(f, s.dir, FlushStep(f, s).dir, w, s.store.manifest, h.evicted, w.pending);
      LogEnds(f, s, h);
      RisingGrows(h.log, w.pending, w.pending, w.nextOffset, FlushedEnd(w));
    }
  }

  /** A torn append, by a crash or a panic. */
  lemma TornFresh(f: Framing, s: System, h: History, w: Writer, cut: nat)
    requires Lawful(f) && Survives(f, s, h) && Fresh(f, s, h) && s.process.Running? && w == s.process.writer && w.stage.Ready?
    requires w.walBase in s.dir && cut <= |EncodeAll(f, w.pending)|
    ensures var dir' := Append(s.dir, w.walBase, EncodeAll(f, w.pending)[..cut]);
            && DiskFresh(f, dir', s.store.manifest, h.evicted) && ActiveHighest(f, dir', s.store.manifest, w.segmentBase)
    ensures Rising(h.log + Survivors(f, w, cut))
  {
    TornAppends(f, s.dir, w, s.store.manifest, cut);
    AppendedFresh(f, s.dir, Append(s.dir, w.walBase, EncodeAll(f, w.pending)[..cut]), w, s.store.manifest, h.evicted, Survivors(f, w, cut));
    LogEnds(f, s, h);
    RisingGrows(h.log, Survivors(f, w, cut), w.pending, w.nextOffset, FlushedEnd(w));
  }

  lemma PanicFresh(f: Framing, s: System, h: History, cut: nat)
    requires Lawful(f) && Survives(f, s, h) && Fresh(f, s, h) && s.process.Running? && s.process.writer.stage.Ready?
    requires s.process.writer.walBase in s.dir && TornCut(f, s, cut)
    ensures Fresh(f, PanicStep(f, s, cut), PanicSeen(f, s.process.writer, h, cut))
  {
    TornFresh(f, s, h, s.process.writer, cut);
    LoggedLog(h, s.process.writer, Survivors(f, s.process.writer, cut));
  }

  /** The durable half, whatever the crash finds. */
  lemma CrashDiskFresh(f: Framing, s: System, h: History, cut: nat)
    requires Lawful(f) && Survives(f, s, h) && Fresh(f, s, h) && (s.process.Running? ==> TornCut(f, s, cut))
    ensures var h' := CrashSeen(f, s, h, cut);
            DiskFresh(f, CrashStep(f, s, cut).dir, s.store.manifest, h'.evicted) && Rising(h'.log)
  {
    if s.process.Running? && cut > 0 {
      TornFresh(f, s, h, s.process.writer, cut);
      LoggedLog(h, s.process.writer, Survivors(f, s.process.writer, cut));
    }
  }

  // ------------------------------------------------------------------------------------------
  // Seal, open, drop

  lemma SealFresh(f: Framing, s: System, h: History)
    requires Survives(f, s, h) && Fresh(f, s, h) && s.process.Running? && s.process.writer.stage.Ready?
    requires s.process.writer.pending == [] && s.process.writer.active != []
    ensures Fresh(f, SealStep(s), h)
  {
    var w := s.process.writer;
    forall b ensures EndBy(Records(f, s.dir, b), w.nextOffset) {
      FilesEnd(f, s.dir, w, s.store.manifest, b);
    }
    ActiveEnds(w);
  }

  /** Fewer files, or new empty ones. */
  lemma NoNewRecords(f: Framing, dir: WalDir, dir': WalDir, m: seq<SegmentEntry>, evicted: seq<Record>)
    requires DiskFresh(f, dir, m, evicted)
    requires forall b :: b in dir' && Records(f, dir', b) != [] ==> b in dir && Records(f, dir', b) == Records(f, dir, b)
    ensures DiskFresh(f, dir', m, evicted)
    ensures forall n :: ActiveHighest(f, dir, m, n) ==> ActiveHighest(f, dir', m, n)
  {
    forall e, b | e in m && b in dir' && Records(f, dir', b) != [] ensures EntryApart(f, dir', e, b) {
      assert b in dir && EntryApart(f, dir, e, b);
    }
    forall x, y | x in dir' && y in dir' && x < y && Records(f, dir', y) != []
      ensures EndBy(Records(f, dir', x), y)
    {
      if Records(f, dir', x) != [] { assert x in dir && y in dir && EndBy(Records(f, dir, x), y); }
    }
    forall b | b in dir' && Records(f, dir', b) != [] && !Listed(m, b) ensures Under(f, dir', m, b) || b >= UploadedEnd(m) {
      assert b in dir && (Under(f, dir, m, b) || b >= UploadedEnd(m));
    }
    forall n, b | ActiveHighest(f, dir, m, n) && b in dir' && b != n ensures EndBy(Records(f, dir', b), n) {
      if Records(f, dir', b) != [] { assert b in dir && EndBy(Records(f, dir, b), n); }
    }
  }

  lemma OpenFresh(f: Framing, s: System, h: History)
    requires Lawful(f) && Fresh(f, s, h) && s.process.Running?
    ensures Fresh(f, OpenStep(s, true), h)
  {
    EmptyScan(f);
    NoNewRecords(f, s.dir, OpenStep(s, true).dir, s.store.manifest, h.evicted);
  }

  lemma DropFresh(f: Framing, s: System, h: History, ok: bool)
    requires Fresh(f, s, h) && s.process.Running? && s.process.notices != []
    ensures Fresh(f, DropStep(s, ok), h)
  {
    NoNewRecords(f, s.dir, DropStep(s, ok).dir, s.store.manifest, h.evicted);
  }

  // ------------------------------------------------------------------------------------------
  // Put the manifest

  /** Inserting an entry below the last one leaves the last one last. */
  lemma {:induction false} InsertBelowLast(sorted: seq<SegmentEntry>, e: SegmentEntry)
    requires sorted != [] && e.baseOffset < sorted[|sorted| - 1].baseOffset
    ensures var all := InsertByBase(sorted, e);
            all != [] && all[|all| - 1] == sorted[|sorted| - 1]
  {
    if e.baseOffset >= sorted[0].baseOffset {
      InsertBelowLast(sorted[1..], e);
    }
  }

  lemma PairsOrdered(m: seq<SegmentEntry>)
    requires Ascending(m) && forall x :: x in m ==> x.baseOffset <= x.lastOffset
    requires forall x, y :: x in m && y in m && x.baseOffset < y.baseOffset ==> x.lastOffset < y.baseOffset
    ensures Ordered(m)
  {
    forall i, j | 0 <= i < j < |m| ensures m[i].lastOffset < m[j].baseOffset {
      assert m[i] in m && m[j] in m && m[i].baseOffset < m[j].baseOffset;
    }
    forall i | 0 <= i < |m| ensures m[i].baseOffset <= m[i].lastOffset {
      assert m[i] in m;
    }
  }

  lemma OrderedPairs(m: seq<SegmentEntry>)
    requires Ordered(m)
    ensures forall x :: x in m ==> x.baseOffset <= x.lastOffset
    ensures forall x, y :: x in m && y in m && x.baseOffset < y.baseOffset ==> x.lastOffset < y.baseOffset
  {
    forall x, y | x in m && y in m && x.baseOffset < y.baseOffset ensures x.lastOffset < y.baseOffset {
      var i :| 0 <= i < |m| && m[i] == x;
      var j :| 0 <= j < |m| && m[j] == y;
      if j < i { assert m[j].lastOffset < m[i].baseOffset; }
    }
  }

  /** A segment that overlaps none of the listed ones is listed. */
  lemma InsertedOrdered(m: seq<SegmentEntry>, m': seq<SegmentEntry>, e: SegmentEntry)
    requires Ordered(m) && Ascending(m') && forall x :: x in m' <==> x in m || x == e
    requires e.baseOffset <= e.lastOffset
    requires forall x :: x in m && x.baseOffset < e.baseOffset ==> x.lastOffset < e.baseOffset
    requires forall x :: x in m && e.baseOffset < x.baseOffset ==> e.lastOffset < x.baseOffset
    ensures Ordered(m')
  {
    OrderedPairs(m);
    PairsOrdered(m');
  }

  /** The listed segment is its file, and files do not overlap. */
  lemma InsertedApart(f: Framing, dir: WalDir, m: seq<SegmentEntry>, m': seq<SegmentEntry>, e: SegmentEntry)
    requires FilesApart(f, dir) && EntriesApart(f, dir, m) && e.baseOffset in dir && Records(f, dir, e.baseOffset) != []
    requires forall x :: x in m' <==> x in m || x == e
    requires EndsWith(Records(f, dir, e.baseOffset), e.lastOffset)
    ensures EntriesApart(f, dir, m')
    ensures forall x :: x in m && e.baseOffset < x.baseOffset ==> e.lastOffset < x.baseOffset
  {
    forall x, b | x in m' && b in dir && Records(f, dir, b) != [] ensures EntryApart(f, dir, x, b) {
      assert EndBy(Records(f, dir, e.baseOffset), b) ==> e.lastOffset < b;
    }
    forall x | x in m && e.baseOffset < x.baseOffset ensures e.lastOffset < x.baseOffset {
      assert EntryApart(f, dir, x, e.baseOffset);
    }
  }

  /** Its last record has this offset. */
  ghost predicate EndsWith(rs: seq<Record>, last: int) {
    rs != [] && rs[|rs| - 1] in rs && rs[|rs| - 1].offset == last && EndBy(rs, last + 1)
  }

  /** A segment from under the manifest's end is listed: the end stays. */
  lemma UnderListed(f: Framing, dir: WalDir, m: seq<SegmentEntry>, m': seq<SegmentEntry>, e: SegmentEntry)
    requires FilesPlaced(f, dir, m) && Under(f, dir, m, e.baseOffset) && m' == InsertByBase(m, e)
    requires forall b :: Listed(m', b) <==> Listed(m, b) || b == e.baseOffset
    ensures UploadedEnd(m') == UploadedEnd(m) && FilesPlaced(f, dir, m')
  {
    InsertBelowLast(m, e);
    forall b | b in dir && Records(f, dir, b) != [] && !Listed(m', b) ensures Under(f, dir, m', b) || b >= UploadedEnd(m') {
      assert Under(f, dir, m, b) || b >= UploadedEnd(m);
    }
  }

  /** The next segment behind the manifest's end is listed: the end moves to its end. */
  lemma BehindListed(f: Framing, dir: WalDir, m: seq<SegmentEntry>, m': seq<SegmentEntry>, e: SegmentEntry)
    requires FilesPlaced(f, dir, m) && FilesApart(f, dir) && e.baseOffset >= UploadedEnd(m) && e.baseOffset in dir
    requires m' == m + [e] && forall b :: Listed(m', b) <==> Listed(m, b) || b == e.baseOffset
    requires m != [] ==> m[|m| - 1].baseOffset <= m[|m| - 1].lastOffset
    requires e.baseOffset <= e.lastOffset && EndsWith(Records(f, dir, e.baseOffset), e.lastOffset)
    ensures UploadedEnd(m') == e.lastOffset + 1 && FilesPlaced(f, dir, m')
  {
    forall b | b in dir && Records(f, dir, b) != [] && !Listed(m', b) ensures Under(f, dir, m', b) || b >= UploadedEnd(m') {
      assert Under(f, dir, m, b) || b >= UploadedEnd(m);
      if !Under(f, dir, m, b) && b < e.baseOffset {
        assert EndBy(Records(f, dir, b), e.baseOffset);
      } else if !Under(f, dir, m, b) {
        assert EndBy(Records(f, dir, e.baseOffset), b);
      }
    }
  }

  lemma BatchEnds(f: Framing, dir: WalDir, b: SealedBatch, end: int)
    requires BatchKept(f, dir, b, end) && FilesNamed(f, dir)
    ensures EndsWith(Records(f, dir, b.baseOffset), b.lastOffset) && b.baseOffset <= b.lastOffset
  {
    var rs := b.records;
    assert Named(Records(f, dir, b.baseOffset), b.baseOffset);
    forall r | r in rs ensures r.offset <= b.lastOffset {
      var j :| 0 <= j < |rs| && rs[j] == r;
      assert j < |rs| - 1 ==> rs[j].offset < rs[|rs| - 1].offset;
    }
    assert rs[0] in rs;
  }

  lemma LastBase(store: Store)
    requires ManifestSound(store) && store.manifest != []
    ensures var last := store.manifest[|store.manifest| - 1];
            last.baseOffset <= last.lastOffset
    ensures forall i :: 0 <= i < |store.manifest| ==> store.manifest[i].baseOffset < UploadedEnd(store.manifest)
  {
    forall i | 0 <= i < |store.manifest| ensures store.manifest[i].baseOffset < UploadedEnd(store.manifest) {
      assert Listed(store.manifest, store.manifest[i].baseOffset);
      ListedCovered(store, store.manifest[i].baseOffset);
    }
  }

  /** Where a batch goes in the manifest, and what that does to the end. */
  lemma ListedPlaced(f: Framing, dir: WalDir, store: Store, b: SealedBatch, byteSize: nat)
    requires FilesPlaced(f, dir, store.manifest) && FilesApart(f, dir) && ManifestSound(store)
    requires b.baseOffset in dir && b.baseOffset <= b.lastOffset && EndsWith(Records(f, dir, b.baseOffset), b.lastOffset)
    requires !Listed(store.manifest, b.baseOffset)
    ensures var m, m' := store.manifest, WithEntry(store.manifest, b, byteSize);
            && FilesPlaced(f, dir, m')
            && UploadedEnd(m') == (if Under(f, dir, m, b.baseOffset) then UploadedEnd(m) else b.lastOffset + 1)
            && UploadedEnd(m) <= UploadedEnd(m')
  {
    var m, m' := store.manifest, WithEntry(store.manifest, b, byteSize);
    EntryInserted(m, b, byteSize);
    if Under(f, dir, m, b.baseOffset) {
      UnderListed(f, dir, m, m', EntryFor(b, byteSize));
    } else {
      if m != [] { LastBase(store); }
      InsertLast(m, EntryFor(b, byteSize));
      BehindListed(f, dir, m, m', EntryFor(b, byteSize));
    }
  }

  lemma ListedOrdered(f: Framing, dir: WalDir, m: seq<SegmentEntry>, b: SealedBatch, byteSize: nat)
    requires Ordered(m) && FilesApart(f, dir) && EntriesApart(f, dir, m) && !Listed(m, b.baseOffset)
    requires b.baseOffset in dir && b.baseOffset <= b.lastOffset && EndsWith(Records(f, dir, b.baseOffset), b.lastOffset)
    ensures Ordered(WithEntry(m, b, byteSize)) && EntriesApart(f, dir, WithEntry(m, b, byteSize))
  {
    var e, m' := EntryFor(b, byteSize), WithEntry(m, b, byteSize);
    OrderedAscends(m);
    EntryInserted(m, b, byteSize);
    InsertedApart(f, dir, m, m', e);
    forall x | x in m && x.baseOffset < e.baseOffset ensures x.lastOffset < e.baseOffset {
      assert EntryApart(f, dir, x, e.baseOffset);
    }
    InsertedOrdered(m, m', e);
  }

  lemma ListedFresh(f: Framing, dir: WalDir, store: Store, evicted: seq<Record>, b: SealedBatch, byteSize: nat, end: int)
    requires DiskFresh(f, dir, store.manifest, evicted) && ManifestSound(store) && FilesNamed(f, dir)
    requires BatchKept(f, dir, b, end) && !Listed(store.manifest, b.baseOffset)
    ensures var m, m' := store.manifest, WithEntry(store.manifest, b, byteSize);
            && DiskFresh(f, dir, m', evicted)
            && (UploadedEnd(m') == UploadedEnd(m) || UploadedEnd(m') == b.lastOffset + 1)
  {
    BatchEnds(f, dir, b, end);
    ListedPlaced(f, dir, store, b, byteSize);
    ListedOrdered(f, dir, store.manifest, b, byteSize);
  }

  lemma ListedHighest(f: Framing, dir: WalDir, m: seq<SegmentEntry>, m': seq<SegmentEntry>, segmentBase: int, b: SealedBatch, end: int)
    requires ActiveHighest(f, dir, m, segmentBase) && BatchKept(f, dir, b, end) && FilesNamed(f, dir) && b.baseOffset != segmentBase
    requires UploadedEnd(m') == UploadedEnd(m) || UploadedEnd(m') == b.lastOffset + 1
    ensures ActiveHighest(f, dir, m', segmentBase)
  {
    BatchEnds(f, dir, b, end);
  }

  lemma PutManifestFresh(f: Framing, s: System, h: History, byteSize: nat)
    requires Survives(f, s, h) && Fresh(f, s, h)
    requires s.process.Running? && s.process.uploader.Uploading? && s.process.uploader.objectPut
    ensures Fresh(f, PutManifestStep(s, byteSize), ListedSeen(h, s.store, s.process.uploader.batch))
  {
    var b, w := s.process.uploader.batch, s.process.writer;
    if !Listed(s.store.manifest, b.baseOffset) {
      InHandKept(f, s.dir, s.process.uploader, s.process.queue, s.process.notices, w.segmentBase, FlushedEnd(w));
      ListedFresh(f, s.dir, s.store, h.evicted, b, byteSize, FlushedEnd(w));
      ListedHighest(f, s.dir, s.store.manifest, PutManifestStep(s, byteSize).store.manifest, w.segmentBase, b, FlushedEnd(w));
    }
  }

  // ------------------------------------------------------------------------------------------
  // Retention

  lemma PartsEnd(store: Store, k: nat)
    requires ManifestSound(store) && Ordered(store.manifest) && k <= |store.manifest|
    ensures EndBy(Concat(PartsOf(store.objects, store.manifest[..k])), UploadedEnd(store.manifest))
  {
    var parts := PartsOf(store.objects, store.manifest[..k]);
    forall i | 0 <= i < k ensures EndBy(parts[i], UploadedEnd(store.manifest)) {
      assert Listed(store.manifest, store.manifest[i].baseOffset);
      RowsEnd(store, store.manifest[i].baseOffset);
    }
    ConcatEnds(parts, UploadedEnd(store.manifest));
  }

  lemma {:induction false} ConcatEnds(parts: seq<seq<Record>>, end: int)
    requires forall i :: 0 <= i < |parts| ==> EndBy(parts[i], end)
    ensures EndBy(Concat(parts), end)
  {
    if parts != [] {
      ConcatEnds(parts[1..], end);
    }
  }

  lemma DroppedBelow(m: seq<SegmentEntry>, k: nat, b: int)
    requires Ascending(m) && k < |m| && Listed(m[..k], b)
    ensures Listed(m, b) && b < m[|m| - 1].baseOffset
  {
    var i :| 0 <= i < |m[..k]| && m[..k][i].baseOffset == b;
    assert m[i].baseOffset == b;
  }

  /** A file of a dropped entry lies under the end of the manifest. */
  lemma DroppedUnder(f: Framing, dir: WalDir, store: Store, k: nat, b: int)
    requires ManifestSound(store) && Ordered(store.manifest) && ListedFiles(f, dir, store) && k < |store.manifest|
    requires Listed(store.manifest[..k], b)
    ensures Under(f, dir, store.manifest[k..], b)
  {
    DroppedBelow(store.manifest, k, b);
    ListedFileEnds(f, dir, store, b);
  }

  lemma KeptOrdered(f: Framing, dir: WalDir, m: seq<SegmentEntry>, k: nat)
    requires Ordered(m) && EntriesApart(f, dir, m) && k < |m|
    ensures Ordered(m[k..]) && EntriesApart(f, dir, m[k..]) && UploadedEnd(m[k..]) == UploadedEnd(m)
  {
    forall i, j | 0 <= i < j < |m| - k ensures m[k..][i].lastOffset < m[k..][j].baseOffset {
      assert m[k + i].lastOffset < m[k + j].baseOffset;
    }
  }

  lemma KeptPlaced(f: Framing, dir: WalDir, store: Store, k: nat)
    requires FilesPlaced(f, dir, store.manifest) && Ordered(store.manifest) && ManifestSound(store) && ListedFiles(f, dir, store)
    requires k < |store.manifest|
    ensures FilesPlaced(f, dir, store.manifest[k..])
  {
    var m, m' := store.manifest, store.manifest[k..];
    forall b | b in dir && Records(f, dir, b) != [] && !Listed(m', b) ensures Under(f, dir, m', b) || b >= UploadedEnd(m') {
      ListedSplit(m, k, b);
      if Listed(m[..k], b) {
        DroppedUnder(f, dir, store, k, b);
      } else {
        assert Under(f, dir, m, b) || b >= UploadedEnd(m);
      }
    }
  }

  lemma EvictDiskFresh(f: Framing, dir: WalDir, store: Store, evicted: seq<Record>, k: nat)
    requires DiskFresh(f, dir, store.manifest, evicted) && ManifestSound(store) && ListedFiles(f, dir, store) && k < |store.manifest|
    ensures DiskFresh(f, dir, store.manifest[k..], evicted + Concat(PartsOf(store.objects, store.manifest[..k])))
    ensures UploadedEnd(store.manifest[k..]) == UploadedEnd(store.manifest)
  {
    PartsEnd(store, k);
    KeptOrdered(f, dir, store.manifest, k);
    KeptPlaced(f, dir, store, k);
  }

  lemma EvictFresh(f: Framing, s: System, h: History, k: nat)
    requires Survives(f, s, h) && Fresh(f, s, h) && s.process.Running? && s.process.uploader.Idle? && (k == 0 || k < |s.store.manifest|)
    ensures Fresh(f, EvictStep(s, k), EvictSeen(h, s.store, k))
  {
    var m := s.store.manifest;
    SuffixSound(s.store, k);
    if m == [] {
      assert m[..k] == [];
      assert h.evicted + [] == h.evicted;
    } else {
      EvictDiskFresh(f, s.dir, s.store, h.evicted, k);
    }
  }

  // ------------------------------------------------------------------------------------------
  // Recovery

  lemma VisitFresh(f: Framing, s: System, h: History, ok: bool)
    requires Lawful(f) && Survives(f, s, h) && Fresh(f, s, h) && s.process.Recovering?
    requires s.process.progress.todo != [] && s.process.progress.todo[0] in s.dir
    ensures Fresh(f, VisitStep(f, s, ok), h)
  {
    var m, b := s.store.manifest, s.process.progress.todo[0];
    var dir' := VisitStep(f, s, ok).dir;
    Repaired(f, s.dir, s.store, b, ok);
    NoNewRecords(f, s.dir, dir', m, h.evicted);
    VisitRevivesNothing(f, s.dir, dir', m);
  }

  lemma VisitRevivesNothing(f: Framing, dir: WalDir, dir': WalDir, m: seq<SegmentEntry>)
    requires !Revives(f, dir, m)
    requires forall b :: b in dir' ==> b in dir && Records(f, dir', b) == Records(f, dir, b)
    requires forall b :: b in dir && b !in dir' ==> Listed(m, b)
    ensures !Revives(f, dir', m)
  {
    if b :| b in dir' && Below(f, dir', m, b) {
      assert Records(f, dir', b) == Records(f, dir, b) && Below(f, dir, m, b);
      var a :| a in dir && Above(f, dir, m, a);
      assert a in dir' && Records(f, dir', a) == Records(f, dir, a);
      assert Above(f, dir', m, a);
    }
  }

  lemma LastOrphanGreatest(f: Framing, dir: WalDir, m: seq<SegmentEntry>, p: Progress, b: int)
    requires RecoverySound(f, dir, m, p) && p.todo == [] && b in dir && Records(f, dir, b) != [] && !Listed(m, b)
    ensures p.orphans != [] && b <= p.orphans[|p.orphans| - 1].base
  {
    assert b !in p.todo;
    var i :| 0 <= i < |p.orphans| && p.orphans[i] == Orphan(b, Records(f, dir, b));
    assert i < |p.orphans| - 1 ==> p.orphans[i].base < p.orphans[|p.orphans| - 1].base;
  }

  /** The last orphan lies behind the manifest's end, because the greatest unlisted file does. */
  lemma LastOrphanBehind(f: Framing, dir: WalDir, m: seq<SegmentEntry>, evicted: seq<Record>, p: Progress)
    requires RecoverySound(f, dir, m, p) && p.todo == [] && p.orphans != []
    requires DiskFresh(f, dir, m, evicted) && !Revives(f, dir, m)
    ensures p.orphans[|p.orphans| - 1].base >= UploadedEnd(m)
  {
    var o := p.orphans[|p.orphans| - 1];
    assert OrphanKept(f, dir, m, o, p.nextOffset);
    assert Under(f, dir, m, o.base) ==> Below(f, dir, m, o.base);
    forall a | a in dir && Above(f, dir, m, a) ensures a <= o.base {
      LastOrphanGreatest(f, dir, m, p, a);
    }
  }

  /** Every other file ends before the last orphan starts, or before the next offset when there is none. */
  lemma OthersEnd(f: Framing, dir: WalDir, store: Store, p: Progress, segmentBase: int, b: int)
    requires RecoverySound(f, dir, store.manifest, p) && p.todo == [] && FilesApart(f, dir)
    requires ManifestSound(store) && Ordered(store.manifest) && ListedFiles(f, dir, store) && b in dir && b != segmentBase
    requires segmentBase >= UploadedEnd(store.manifest)
    requires p.orphans != [] ==> segmentBase == p.orphans[|p.orphans| - 1].base
    ensures EndBy(Records(f, dir, b), segmentBase)
  {
    if Listed(store.manifest, b) {
      ListedFileEnds(f, dir, store, b);
    } else if Records(f, dir, b) != [] {
      LastOrphanGreatest(f, dir, store.manifest, p, b);
      assert OrphanKept(f, dir, store.manifest, p.orphans[|p.orphans| - 1], p.nextOffset);
    }
  }

  lemma BootFresh(f: Framing, s: System, h: History)
    requires Survives(f, s, h) && Fresh(f, s, h) && s.process.Recovering? && s.process.progress.todo == []
    requires var os := s.process.progress.orphans;
             forall i :: 0 <= i < |os| ==> os[i].records != []
    ensures Fresh(f, BootStep(s), h)
  {
    var p := s.process.progress;
    var base := BootStep(s).process.writer.segmentBase;
    BootedWriter(f, s.dir, s.store, p);
    if p.orphans != [] { LastOrphanBehind(f, s.dir, s.store.manifest, h.evicted, p); }
    forall b | b in s.dir && b != base ensures EndBy(Records(f, s.dir, b), base) {
      OthersEnd(f, s.dir, s.store, p, base, b);
    }
  }
}
