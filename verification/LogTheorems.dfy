/** Acknowledgements, offsets, WAL deletion and eviction, stated over whole runs. */
module LogTheorems {
  import opened WalFrame
  import opened Wal
  import opened Manifest
  import opened ObjectKeys
  import opened Retention
  import opened Recovery
  import opened Segment
  import opened Writer
  import opened Uploads
  import opened Partition
  import opened PartitionInvariant
  import opened PartitionRuns
  import opened PartitionTheorems

  // ------------------------------------------------------------------------------------------
  // No acknowledged record is lost

  /** A listed object holds the record at its place. */
  ghost predicate InObject(store: Store, r: Record) {
    exists i :: 0 <= i < |store.manifest| && ObjectHas(store, store.manifest[i], r)
  }

  ghost predicate ObjectHas(store: Store, e: SegmentEntry, r: Record) {
    && e.Contains(r.offset)
    && e.baseOffset in store.objects
    && var rows := FromColumns(store.objects[e.baseOffset]);
       r.offset - e.baseOffset < |rows| && rows[r.offset - e.baseOffset] == r
  }

  /** A WAL file holds the record at its place. */
  ghost predicate InWal(f: Framing, dir: WalDir, r: Record) {
    exists b :: b in dir && FileHas(f, dir, b, r)
  }

  ghost predicate FileHas(f: Framing, dir: WalDir, b: int, r: Record)
    requires b in dir
  {
    var rs := Scan(f, dir[b]).records;
    0 <= r.offset - b < |rs| && rs[r.offset - b] == r
  }

  /** An offset below the uploaded end and not evicted falls into a listed range. */
  lemma {:induction false} FindListed(store: Store, log: seq<Record>, low: int, o: int, n: nat) returns (i: nat)
    requires ManifestOk(store, log, low) && n <= |store.manifest|
    requires low <= o < ListedEnd(store.manifest, low, n)
    ensures i < n && store.manifest[i].Contains(o)
  {
    if store.manifest[n - 1].Contains(o) {
      i := n - 1;
    } else {
      assert n > 1 ==> Joins(store.manifest, n - 1);
      i := FindListed(store, log, low, o, n - 1);
    }
  }

  lemma {:induction false} FindTail(tail: seq<int>, uploaded: int, end: int, o: int, n: nat) returns (i: nat)
    requires TailOk(tail, uploaded, end) && n <= |tail|
    requires uploaded <= o < TailEnd(tail, uploaded, end, n)
    ensures i < n && tail[i] <= o < SegEnd(tail, end, i)
  {
    TailJoins(tail, uploaded, end, n - 1);
    if o >= tail[n - 1] {
      i := n - 1;
    } else {
      i := FindTail(tail, uploaded, end, o, n - 1);
    }
  }

  lemma ListedInObject(store: Store, log: seq<Record>, low: int, i: nat, o: int)
    requires LogOk(log) && ManifestOk(store, log, low) && i < |store.manifest| && store.manifest[i].Contains(o)
    ensures 0 <= o < |log| && InObject(store, log[o])
  {
    var e := store.manifest[i];
    assert EntryOk(store.objects, log, e);
    ObjectRecords(store, log, e);
    assert ObjectHas(store, e, log[o]);
  }

  lemma TailInWal(f: Framing, dir: WalDir, log: seq<Record>, tail: seq<int>, uploaded: int, o: int)
    requires LogOk(log) && TailOk(tail, uploaded, |log|) && TailStored(f, dir, log, tail) && uploaded <= o < |log|
    ensures InWal(f, dir, log[o])
  {
    var i := FindTail(tail, uploaded, |log|, o, |tail|);
    assert FileHolds(f, dir, tail[i], Piece(log, tail, i));
    assert FileHas(f, dir, tail[i], log[o]);
  }

  lemma DurableKeepsRecord(f: Framing, dir: WalDir, store: Store, log: seq<Record>, low: int, tail: seq<int>, o: int)
    requires Durable(f, dir, store, log, low, tail) && low <= o < |log| && 0 <= o
    ensures InObject(store, log[o]) || InWal(f, dir, log[o])
  {
    if o < UploadedEnd(store.manifest) {
      var i := FindListed(store, log, low, o, |store.manifest|);
      ListedInObject(store, log, low, i, o);
    } else {
      TailInWal(f, dir, log, tail, UploadedEnd(store.manifest), o);
    }
  }

  /**
   In every state of every guarded run, mid-upload and mid-recovery included, each record of each
   acknowledged produce is in a listed object or in a WAL file at its own offset, or was evicted.
   (`SurvivalTheorems.NoAckedRecordIsLost` says where it is in every run.)
   */
  lemma AckedRecordsInPlace(f: Framing, c: World, i: nat, k: nat)
    requires Lawful(f) && Reachable(f, c)
    requires i < |c.hist.acks| && k < c.hist.acks[i].ticket.count
    ensures var t := c.hist.acks[i].ticket;
            && t.id < |c.hist.sent| && |c.hist.sent[t.id]| == t.count
            && var r := c.hist.sent[t.id][k];
               && r.offset == t.base + k <= c.hist.acks[i].value < |c.hist.log|
               && (r.offset < c.hist.low || InObject(c.sys.store, r) || InWal(f, c.sys.dir, r))
  {
    ReachableInv(f, c);
    AckedKept(f, c.sys, c.hist, c.hist.acks[i], k);
  }

  lemma AckedKept(f: Framing, s: System, h: History, a: Ack, k: nat)
    requires Durable(f, s.dir, s.store, h.log, h.low, h.tail) && AckOk(a, h.log, h.sent) && k < a.ticket.count
    ensures var r := h.sent[a.ticket.id][k];
            && |h.sent[a.ticket.id]| == a.ticket.count
            && r.offset == a.ticket.base + k <= a.value < |h.log|
            && (r.offset < h.low || InObject(s.store, r) || InWal(f, s.dir, r))
  {
    var o := a.ticket.base + k;
    assert h.sent[a.ticket.id][k] == h.log[o];
    if o >= h.low {
      DurableKeepsRecord(f, s.dir, s.store, h.log, h.low, h.tail, o);
    }
  }

  // ------------------------------------------------------------------------------------------
  // Group commit

  /** The base offset the produce handler reports: the ack's value minus the number of records plus one. */
  function ReportedBase(a: Ack): int { a.value - a.ticket.count + 1 }

  lemma {:induction false} TicketsBehind(tickets: seq<Ticket>, from: int, to: int, i: nat)
    requires TicketsTile(tickets, from, to) && i < |tickets|
    ensures tickets[i].base + tickets[i].count <= to
    ensures tickets[i].base + tickets[i].count == to <==> forall j :: i < j < |tickets| ==> tickets[j].count == 0
    decreases |tickets| - i
  {
    if i + 1 < |tickets| {
      TicketsBehind(tickets, from, to, i + 1);
      assert tickets[i + 1].base == tickets[i].base + tickets[i].count;
    }
  }

  /**
   Every ack of a flushed batch carries the batch's last offset. It is at least the produce's own last
   offset, and the range reported from it is the produce's own range exactly when no later produce of
   the batch brought a record.
   */
  lemma AckRangeIff(f: Framing, c: World, i: nat)
    requires Lawful(f) && Reachable(f, c)
    requires c.sys.process.Running?
    requires i < |c.sys.process.writer.tickets|
    ensures var w := c.sys.process.writer;
            var a := Acks(w)[i];
            && w.tickets[i].base + w.tickets[i].count <= a.value + 1
            && (ReportedBase(a) == w.tickets[i].base
                <==> forall j :: i < j < |w.tickets| ==> w.tickets[j].count == 0)
  {
    ReachableInv(f, c);
    var w := c.sys.process.writer;
    TicketsBehind(w.tickets, |c.hist.log|, |c.hist.log| + |w.pending|, i);
  }

  // ------------------------------------------------------------------------------------------
  // Offsets and files

  lemma SliceOffsets(log: seq<Record>, b: int, rs: seq<Record>)
    requires LogOk(log) && 0 <= b <= b + |rs| <= |log| && rs == log[b..b + |rs|]
    ensures forall j :: 0 <= j < |rs| ==> rs[j].offset == b + j < |log| && rs[j] == log[b + j]
  {
  }

  lemma TailFileOffsets(f: Framing, dir: WalDir, log: seq<Record>, tail: seq<int>, uploaded: int, b: int)
    requires LogOk(log) && TailOk(tail, uploaded, |log|) && TailStored(f, dir, log, tail) && b in tail
    ensures b in dir
    ensures var rs := Scan(f, dir[b]).records;
            0 <= b <= b + |rs| <= |log| && rs == log[b..b + |rs|]
  {
    var i :| 0 <= i < |tail| && tail[i] == b;
    assert FileHolds(f, dir, b, Piece(log, tail, i));
  }

  lemma FileOffsets(f: Framing, dir: WalDir, store: Store, log: seq<Record>, low: int, tail: seq<int>, b: int)
    requires Durable(f, dir, store, log, low, tail) && b in dir
    ensures var rs := Scan(f, dir[b]).records;
            forall j :: 0 <= j < |rs| ==> rs[j].offset == b + j < |log| && rs[j] == log[b + j]
  {
    var rs := Scan(f, dir[b]).records;
    if b in tail {
      TailFileOffsets(f, dir, log, tail, UploadedEnd(store.manifest), b);
      SliceOffsets(log, b, rs);
    } else if Outlived(f, dir, log, low, b) {
      SliceOffsets(log, b, rs);
    } else if rs != [] {
      var i := FindRepeated(f, dir, store.manifest, log, low, tail, b);
      SliceOffsets(log, b, rs);
    }
  }

  /** Every WAL file is named by the offset of its first record and runs on from there without a gap. */
  lemma FilesNamedByFirstOffset(f: Framing, c: World, b: int, j: nat)
    requires Lawful(f) && Reachable(f, c)
    requires b in c.sys.dir && j < |Scan(f, c.sys.dir[b]).records|
    ensures Scan(f, c.sys.dir[b]).records[j].offset == b + j
  {
    ReachableInv(f, c);
    FileOffsets(f, c.sys.dir, c.sys.store, c.hist.log, c.hist.low, c.hist.tail, b);
  }

  lemma OffsetsBelowEnd(f: Framing, dir: WalDir, store: Store, log: seq<Record>, low: int, tail: seq<int>)
    requires Durable(f, dir, store, log, low, tail)
    ensures forall b, j :: b in dir && 0 <= j < |Scan(f, dir[b]).records| ==> Scan(f, dir[b]).records[j].offset < |log|
    ensures forall i :: 0 <= i < |store.manifest| ==> store.manifest[i].lastOffset < |log|
  {
    forall b | b in dir
      ensures forall j :: 0 <= j < |Scan(f, dir[b]).records| ==> Scan(f, dir[b]).records[j].offset < |log|
    {
      FileOffsets(f, dir, store, log, low, tail, b);
    }
    forall i | 0 <= i < |store.manifest| ensures store.manifest[i].lastOffset < |log| {
      assert EntryOk(store.objects, log, store.manifest[i]);
    }
  }

  /**
   Whatever step removes a WAL file, each of its records is in a listed object, or was evicted and the
   file had outlived its segment.
   */
  lemma WalGoesOnlyWhenListed(f: Framing, c: World, e: Event, b: int, j: nat)
    requires Lawful(f) && Reachable(f, c)
    requires Enabled(f, c.sys, e)
    requires var s := c.sys;
             b in s.dir && b !in Apply(f, s, e).dir && j < |Scan(f, s.dir[b]).records|
    ensures var s := c.sys;
            var r := Scan(f, s.dir[b]).records[j];
            InObject(s.store, r) || (r.offset < c.hist.low && Leftover(s.dir, s.store.manifest, b))
  {
    ReachableInv(f, c);
    RemovedBelowUploaded(f, c.sys, c.hist, e, b);
    if Outlived(f, c.sys.dir, c.hist.log, c.hist.low, b) {
      OutlivedIsLeftover(f, c.sys.dir, c.sys.store, c.hist.log, c.hist.low, c.hist.tail, b, j);
    } else {
      ListedRepeats(f, c.sys.dir, c.sys.store, c.hist.log, c.hist.low, c.hist.tail, b, j);
    }
  }

  lemma OutlivedIsLeftover(f: Framing, dir: WalDir, store: Store, log: seq<Record>, low: int, tail: seq<int>, b: int, j: nat)
    requires Lawful(f) && Durable(f, dir, store, log, low, tail) && b in dir && Outlived(f, dir, log, low, b)
    requires j < |Scan(f, dir[b]).records|
    ensures Scan(f, dir[b]).records[j].offset < low && Leftover(dir, store.manifest, b)
  {
    EmptyScan(f);
    assert Scan(f, dir[b]).records[j] == log[b + j];
  }

  lemma RemovedBelowUploaded(f: Framing, s: System, h: History, e: Event, b: int)
    requires Inv(f, s, h) && Enabled(f, s, e) && b in s.dir && b !in Apply(f, s, e).dir
    ensures b < UploadedEnd(s.store.manifest)
  {
    match e
    case DropWal(_) =>
    case VisitFile(_) =>
    case _ =>
  }

  lemma FindRepeated(f: Framing, dir: WalDir, m: seq<SegmentEntry>, log: seq<Record>, low: int, tail: seq<int>, b: int)
    returns (i: nat)
    requires DirOk(f, dir, m, log, low, tail) && b in dir && b !in tail && Scan(f, dir[b]).records != []
    requires !Outlived(f, dir, log, low, b)
    ensures i < |m| && m[i].baseOffset == b && 0 <= b <= m[i].lastOffset < |log|
    ensures Scan(f, dir[b]).records == log[b..m[i].lastOffset + 1]
  {
    assert Repeats(f, dir, m, log, b);
    i :| 0 <= i < |m| && m[i].baseOffset == b && 0 <= b <= m[i].lastOffset < |log|
         && Scan(f, dir[b]).records == log[b..m[i].lastOffset + 1];
  }

  lemma BelowUploadedNotInTail(tail: seq<int>, uploaded: int, end: int, b: int)
    requires TailOk(tail, uploaded, end) && b < uploaded
    ensures b !in tail
  {
  }

  lemma SliceInObject(store: Store, log: seq<Record>, low: int, i: nat, rs: seq<Record>, j: nat)
    requires LogOk(log) && ManifestOk(store, log, low) && i < |store.manifest| && j < |rs|
    requires var e := store.manifest[i];
             0 <= e.baseOffset <= e.lastOffset < |log| && rs == log[e.baseOffset..e.lastOffset + 1]
    ensures InObject(store, rs[j])
  {
    var o := store.manifest[i].baseOffset + j;
    assert rs[j] == log[o];
    ListedInObject(store, log, low, i, o);
  }

  lemma RepeatedInObject(f: Framing, dir: WalDir, store: Store, log: seq<Record>, low: int, tail: seq<int>, b: int, j: nat)
    requires LogOk(log) && ManifestOk(store, log, low) && DirOk(f, dir, store.manifest, log, low, tail)
    requires b in dir && b !in tail && !Outlived(f, dir, log, low, b) && j < |Scan(f, dir[b]).records|
    ensures InObject(store, Scan(f, dir[b]).records[j])
  {
    var i := FindRepeated(f, dir, store.manifest, log, low, tail, b);
    SliceInObject(store, log, low, i, Scan(f, dir[b]).records, j);
  }

  lemma ListedRepeats(f: Framing, dir: WalDir, store: Store, log: seq<Record>, low: int, tail: seq<int>, b: int, j: nat)
    requires Durable(f, dir, store, log, low, tail) && b in dir && b < UploadedEnd(store.manifest)
    requires !Outlived(f, dir, log, low, b)
    requires j < |Scan(f, dir[b]).records|
    ensures InObject(store, Scan(f, dir[b]).records[j])
  {
    BelowUploadedNotInTail(tail, UploadedEnd(store.manifest), |log|, b);
    RepeatedInObject(f, dir, store, log, low, tail, b, j);
  }

  /** The manifest is exact at every point of every guarded run, between any two PUTs, retries and crashes. */
  lemma ManifestIsExact(f: Framing, c: World, i: nat)
    requires Lawful(f) && Reachable(f, c)
    requires i < |c.sys.store.manifest|
    ensures var m := c.sys.store.manifest;
            && Ordered(m)
            && (i > 0 ==> m[i].baseOffset == m[i - 1].lastOffset + 1)
            && 0 <= c.hist.low <= m[i].baseOffset <= m[i].lastOffset < |c.hist.log|
            && m[i].objectKey == SegmentLeaf(m[i].baseOffset)
            && m[i].recordCount == m[i].lastOffset - m[i].baseOffset + 1
            && m[i].baseOffset in c.sys.store.objects
            && FromColumns(c.sys.store.objects[m[i].baseOffset])
               == c.hist.log[m[i].baseOffset..m[i].lastOffset + 1]
  {
    ReachableInv(f, c);
    EntryExact(c.sys.store, c.hist.log, c.hist.low, i);
  }

  lemma EntryExact(store: Store, log: seq<Record>, low: int, i: nat)
    requires LogOk(log) && ManifestOk(store, log, low) && i < |store.manifest|
    ensures var e := store.manifest[i];
            && 0 <= low <= e.baseOffset && EntryOk(store.objects, log, e)
            && KeyOk(e)
            && (i > 0 ==> Joins(store.manifest, i))
            && FromColumns(store.objects[e.baseOffset]) == log[e.baseOffset..e.lastOffset + 1]
  {
    assert EntryOk(store.objects, log, store.manifest[i]);
    ObjectRecords(store, log, store.manifest[i]);
    LowInLog(store, log, low);
    if i > 0 { assert store.manifest[0].lastOffset < store.manifest[i].baseOffset; }
  }
}
