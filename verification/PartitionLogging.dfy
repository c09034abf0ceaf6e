/** What an append to the active WAL file does to the invariant, and facts that several events share. */
module PartitionLogging {
  import opened WalFrame
  import opened Wal
  import opened Manifest
  import opened Recovery
  import opened Segment
  import opened Writer
  import opened Uploads
  import opened Partition
  import opened PartitionInvariant

  // ------------------------------------------------------------------------------------------
  // Facts used by several events

  /** Nothing at or above the uploaded end is listed. */
  lemma NotListedAbove(segments: seq<SegmentEntry>, base: int)
    requires Ordered(segments) && base >= UploadedEnd(segments)
    ensures !Listed(segments, base)
  {
    forall i | 0 <= i < |segments| ensures segments[i].baseOffset != base {
      if i < |segments| - 1 {
        assert segments[i].lastOffset < segments[|segments| - 1].baseOffset;
      }
    }
  }

  lemma ListedBelow(segments: seq<SegmentEntry>, base: int)
    requires Ordered(segments) && Listed(segments, base)
    ensures base < UploadedEnd(segments)
  {
    if base >= UploadedEnd(segments) {
      NotListedAbove(segments, base);
    }
  }

  lemma ActiveAboveUploaded(active: seq<Record>, base: int, log: seq<Record>, tail: seq<int>, uploaded: int)
    requires ActiveOk(active, base, log, tail) && TailOk(tail, uploaded, |log|)
    ensures base >= uploaded
  {
    if active != [] {
      assert tail[|tail| - 1] >= uploaded;
    }
  }

  /** A segment that was cut off the manifest is below the low-water mark, like every file that outlived it. */
  lemma LowBelowUploaded(store: Store, log: seq<Record>, low: int)
    requires ManifestOk(store, log, low)
    ensures 0 <= low <= UploadedEnd(store.manifest)
  {
    var m := store.manifest;
    if m != [] {
      assert EntryOk(store.objects, log, m[0]);
      assert |m| > 1 ==> m[0].lastOffset < m[|m| - 1].baseOffset;
    }
  }

  /** The file the writer appends to holds exactly the active segment. */
  lemma ActiveFile(f: Framing, dir: WalDir, store: Store, log: seq<Record>, low: int, tail: seq<int>, active: seq<Record>, base: int)
    requires Durable(f, dir, store, log, low, tail) && ActiveOk(active, base, log, tail) && base in dir
    ensures Scan(f, dir[base]).records == active
  {
    if active == [] {
      assert base == |log|;
      assert base !in tail;
      LowBelowUploaded(store, log, low);
    } else {
      var i := |tail| - 1;
      assert FileHolds(f, dir, tail[i], Piece(log, tail, i));
    }
  }

  lemma SliceOfPrefix(log: seq<Record>, more: seq<Record>, a: int, b: int)
    requires 0 <= a <= b <= |log|
    ensures (log + more)[a..b] == log[a..b]
  {
  }

  lemma SuffixGrows(log: seq<Record>, suffix: seq<Record>, more: seq<Record>)
    requires |suffix| <= |log| && suffix == log[|log| - |suffix|..]
    ensures (log + more)[|log| - |suffix|..|log + more|] == suffix + more
  {
  }

  lemma LogOkExtends(log: seq<Record>, more: seq<Record>)
    requires LogOk(log) && forall i :: 0 <= i < |more| ==> more[i].offset == |log| + i && Encodable(more[i])
    ensures LogOk(log + more)
  {
  }

  lemma EntryOkExtends(objects: map<int, Columns>, log: seq<Record>, more: seq<Record>, e: SegmentEntry)
    requires EntryOk(objects, log, e)
    ensures EntryOk(objects, log + more, e)
  {
    SliceOfPrefix(log, more, e.baseOffset, e.lastOffset + 1);
  }

  lemma ManifestOkExtends(store: Store, log: seq<Record>, more: seq<Record>, low: int)
    requires ManifestOk(store, log, low)
    ensures ManifestOk(store, log + more, low)
  {
    forall i | 0 <= i < |store.manifest| ensures EntryOk(store.objects, log + more, store.manifest[i]) {
      EntryOkExtends(store.objects, log, more, store.manifest[i]);
    }
  }

  lemma AcksOkExtends(acks: seq<Ack>, log: seq<Record>, sent: seq<seq<Record>>, log': seq<Record>, sent': seq<seq<Record>>)
    requires AcksOk(acks, log, sent) && log <= log' && sent <= sent'
    ensures AcksOk(acks, log', sent')
  {
    forall i | 0 <= i < |acks| ensures AckOk(acks[i], log', sent') {
      var t := acks[i].ticket;
      assert AckOk(acks[i], log, sent);
      assert log'[t.base..t.base + t.count] == log[t.base..t.base + t.count];
    }
  }

  // ------------------------------------------------------------------------------------------
  // Records reach the disk

  /** The file of the active segment now holds `batch` as well; nothing else on disk changed. */
  ghost predicate Appended(f: Framing, dir: WalDir, dir': WalDir, w: Writer, batch: seq<Record>) {
    && w.walBase in dir
    && dir'.Keys == dir.Keys
    && (forall b :: b in dir && b != w.walBase ==> dir'[b] == dir[b])
    && Scan(f, dir'[w.walBase]).records == w.active + batch
  }

  /** The writer is about to append to the file of the segment that ends the log. */
  ghost predicate Appending(w: Writer, h: History, uploaded: int) {
    TailOk(h.tail, uploaded, |h.log|) && ActiveOk(w.active, w.segmentBase, h.log, h.tail) && w.walBase == w.segmentBase
  }

  lemma LoggedTail(w: Writer, h: History, uploaded: int, batch: seq<Record>)
    requires Appending(w, h, uploaded) && batch != []
    ensures var h' := Logged(h, w, batch);
            && h'.tail != [] && h'.tail[|h'.tail| - 1] == w.walBase
            && |h'.tail| - 1 <= |h.tail| <= |h'.tail|
            && (forall i :: 0 <= i < |h'.tail| - 1 ==> h'.tail[i] == h.tail[i])
            && (forall i :: 0 <= i < |h'.tail| - 1 ==>
                  SegEnd(h'.tail, |h'.log|, i) == SegEnd(h.tail, |h.log|, i))
            && (forall b :: b in h.tail ==> b in h'.tail)
  {
    var h' := Logged(h, w, batch);
    if w.active == [] {
      assert forall i :: 0 <= i < |h.tail| ==> h'.tail[i] == h.tail[i];
    }
  }

  lemma LoggedTailOk(w: Writer, h: History, uploaded: int, batch: seq<Record>)
    requires Appending(w, h, uploaded) && batch != []
    ensures var h' := Logged(h, w, batch);
            TailOk(h'.tail, uploaded, |h'.log|)
  {
    var h' := Logged(h, w, batch);
    LoggedTail(w, h, uploaded, batch);
    forall i | 0 <= i < |h'.tail| ensures uploaded <= h'.tail[i] < |h'.log| {
      if i < |h.tail| { assert uploaded <= h.tail[i] < |h.log|; }
    }
    forall i, j | 0 <= i < j < |h'.tail| ensures h'.tail[i] < h'.tail[j] {
      if j < |h.tail| {
        assert h.tail[i] < h.tail[j];
      } else {
        assert h.tail[i] < |h.log|;
      }
    }
  }

  lemma FileHoldsExtends(f: Framing, dir: WalDir, dir': WalDir, log: seq<Record>, more: seq<Record>, b: int, e: int)
    requires 0 <= b <= e <= |log| && FileHolds(f, dir, b, log[b..e]) && b in dir' && dir'[b] == dir[b]
    ensures FileHolds(f, dir', b, (log + more)[b..e])
  {
    SliceOfPrefix(log, more, b, e);
  }

  lemma LoggedStored(f: Framing, dir: WalDir, dir': WalDir, w: Writer, h: History, uploaded: int, batch: seq<Record>)
    requires Appending(w, h, uploaded) && batch != [] && TailStored(f, dir, h.log, h.tail)
    requires Appended(f, dir, dir', w, batch)
    requires TailOk(Logged(h, w, batch).tail, uploaded, |Logged(h, w, batch).log|)
    ensures TailStored(f, dir', Logged(h, w, batch).log, Logged(h, w, batch).tail)
  {
    var h' := Logged(h, w, batch);
    LoggedTail(w, h, uploaded, batch);
    var last := |h'.tail| - 1;
    forall i | 0 <= i < |h'.tail| ensures FileHolds(f, dir', h'.tail[i], Piece(h'.log, h'.tail, i)) {
      if i == last {
        SuffixGrows(h.log, w.active, batch);
      } else {
        assert h'.tail[i] < h'.tail[last];
        assert FileHolds(f, dir, h.tail[i], Piece(h.log, h.tail, i));
        FileHoldsExtends(f, dir, dir', h.log, batch, h.tail[i], SegEnd(h.tail, |h.log|, i));
      }
    }
  }

  lemma LoggedDir(f: Framing, dir: WalDir, dir': WalDir, manifest: seq<SegmentEntry>, w: Writer, h: History,
                  uploaded: int, batch: seq<Record>)
    requires Appending(w, h, uploaded) && batch != [] && DirOk(f, dir, manifest, h.log, h.low, h.tail)
    requires Appended(f, dir, dir', w, batch)
    ensures DirOk(f, dir', manifest, Logged(h, w, batch).log, h.low, Logged(h, w, batch).tail)
  {
    var h' := Logged(h, w, batch);
    LoggedTail(w, h, uploaded, batch);
    forall b | b in dir' && b !in h'.tail && !Stale(f, dir', manifest, b) && !Outlived(f, dir', h'.log, h.low, b)
      ensures Repeats(f, dir', manifest, h'.log, b)
    {
      assert b != w.walBase && b !in h.tail;
      OutlivedExtends(f, dir, dir', h.log, batch, h.low, b);
      RepeatsExtends(f, dir, dir', manifest, h.log, batch, b);
    }
  }

  lemma OutlivedExtends(f: Framing, dir: WalDir, dir': WalDir, log: seq<Record>, more: seq<Record>, low: int, b: int)
    requires b in dir && b in dir' && dir'[b] == dir[b]
    ensures Outlived(f, dir, log, low, b) ==> Outlived(f, dir', log + more, low, b)
  {
    if Outlived(f, dir, log, low, b) {
      SliceOfPrefix(log, more, b, b + |Scan(f, dir[b]).records|);
    }
  }

  lemma RepeatsExtends(f: Framing, dir: WalDir, dir': WalDir, manifest: seq<SegmentEntry>, log: seq<Record>, more: seq<Record>, b: int)
    requires b in dir && b in dir' && dir'[b] == dir[b] && Repeats(f, dir, manifest, log, b)
    ensures Repeats(f, dir', manifest, log + more, b)
  {
    var i :| 0 <= i < |manifest| && manifest[i].baseOffset == b
             && 0 <= b <= manifest[i].lastOffset < |log|
             && Scan(f, dir[b]).records == log[b..manifest[i].lastOffset + 1];
    SliceOfPrefix(log, more, b, manifest[i].lastOffset + 1);
  }

  lemma TailInDir(f: Framing, dir: WalDir, log: seq<Record>, tail: seq<int>)
    requires TailStored(f, dir, log, tail)
    ensures forall i :: 0 <= i < |tail| ==> tail[i] in dir
  {
    forall i | 0 <= i < |tail| ensures tail[i] in dir {
      assert FileHolds(f, dir, tail[i], Piece(log, tail, i));
    }
  }

  /** Every file of `dir'` yields what it yielded in `dir`, or is new and stale. */
  ghost predicate SameRecords(f: Framing, dir: WalDir, dir': WalDir, manifest: seq<SegmentEntry>) {
    forall b :: b in dir' ==>
      (b in dir && Scan(f, dir'[b]).records == Scan(f, dir[b]).records) || (b !in dir && Stale(f, dir', manifest, b))
  }

  lemma SameRecordsTail(f: Framing, dir: WalDir, dir': WalDir, manifest: seq<SegmentEntry>, log: seq<Record>, tail: seq<int>)
    requires SameRecords(f, dir, dir', manifest) && TailStored(f, dir, log, tail)
    requires forall i :: 0 <= i < |tail| ==> tail[i] in dir'
    ensures TailStored(f, dir', log, tail)
  {
    forall i | 0 <= i < |tail| ensures FileHolds(f, dir', tail[i], Piece(log, tail, i)) {
      assert FileHolds(f, dir, tail[i], Piece(log, tail, i));
    }
  }

  lemma SameRecordsDir(f: Framing, dir: WalDir, dir': WalDir, manifest: seq<SegmentEntry>, log: seq<Record>, low: int, tail: seq<int>)
    requires SameRecords(f, dir, dir', manifest) && DirOk(f, dir, manifest, log, low, tail)
    ensures DirOk(f, dir', manifest, log, low, tail)
  {
    forall b | b in dir' && b !in tail && !Stale(f, dir', manifest, b) && !Outlived(f, dir', log, low, b)
      ensures Repeats(f, dir', manifest, log, b)
    {
      assert b in dir && !Stale(f, dir, manifest, b) && !Outlived(f, dir, log, low, b);
      SameFileRepeats(f, dir, dir', manifest, log, b);
    }
  }

  lemma SameFileRepeats(f: Framing, dir: WalDir, dir': WalDir, m: seq<SegmentEntry>, log: seq<Record>, b: int)
    requires b in dir && b in dir' && Scan(f, dir'[b]).records == Scan(f, dir[b]).records && Repeats(f, dir, m, log, b)
    ensures Repeats(f, dir', m, log, b)
  {
    var i :| 0 <= i < |m| && m[i].baseOffset == b && 0 <= b <= m[i].lastOffset < |log|
             && Scan(f, dir[b]).records == log[b..m[i].lastOffset + 1];
    assert Scan(f, dir'[b]).records == log[b..m[i].lastOffset + 1];
  }

  /**
   Durability carries over to a directory where every file either yields the same records, or is new
   and stale, or is gone, as long as the files of the tail are among the first.
   */
  lemma SameRecordsDurable(f: Framing, dir: WalDir, dir': WalDir, store: Store, log: seq<Record>, low: int, tail: seq<int>)
    requires Durable(f, dir, store, log, low, tail)
    requires forall i :: 0 <= i < |tail| ==> tail[i] in dir'
    requires SameRecords(f, dir, dir', store.manifest)
    ensures Durable(f, dir', store, log, low, tail)
  {
    SameRecordsTail(f, dir, dir', store.manifest, log, tail);
    SameRecordsDir(f, dir, dir', store.manifest, log, low, tail);
  }

  lemma LoggedDurable(f: Framing, dir: WalDir, store: Store, h: History, w: Writer, dir': WalDir, batch: seq<Record>)
    requires Durable(f, dir, store, h.log, h.low, h.tail) && Appending(w, h, UploadedEnd(store.manifest))
    requires batch <= w.pending && PendingOk(w.nextOffset, w.pending, |h.log|)
    requires w.walBase in dir && Scan(f, dir[w.walBase]).records == w.active
    requires Appended(f, dir, dir', w, batch)
    ensures var h' := Logged(h, w, batch);
            Durable(f, dir', store, h'.log, h'.low, h'.tail)
  {
    var uploaded := UploadedEnd(store.manifest);
    if batch == [] {
      assert w.active + batch == w.active;
      TailInDir(f, dir, h.log, h.tail);
      SameRecordsDurable(f, dir, dir', store, h.log, h.low, h.tail);
    } else {
      LogOkExtends(h.log, batch);
      LoggedTailOk(w, h, uploaded, batch);
      ManifestOkExtends(store, h.log, batch, h.low);
      LoggedStored(f, dir, dir', w, h, uploaded, batch);
      LoggedDir(f, dir, dir', store.manifest, w, h, uploaded, batch);
    }
  }
}
