/** Opening the next file after a seal: acknowledged records are lost exactly when it fails. */
module OpenTheorems {
  import opened Bytes
  import opened WalFrame
  import opened Wal
  import opened Manifest
  import opened Recovery
  import opened Writer
  import opened Uploads
  import opened Partition
  import opened PartitionInvariant
  import opened PartitionRuns
  import opened LogTheorems

  /** The file `base` belongs to a segment on its way to the store; its durable notice will delete it. */
  ghost predicate Doomed(queue: seq<SealedBatch>, up: Uploader, notices: seq<int>, base: int) {
    || (exists i :: 0 <= i < |queue| && queue[i].baseOffset == base)
    || (up.Uploading? && up.batch.baseOffset == base)
    || base in notices
  }

  ghost predicate DoomedIn(p: Process, base: int)
    requires p.Running?
  {
    Doomed(p.queue, p.uploader, p.notices, base)
  }

  /**
   Between the hand-off and the open, the file still in hand is the sealed segment's and is there. The
   last clause holds at all times: an uploader that deletes has something to delete.
   */
  ghost predicate SealingOk(s: System) {
    s.process.Running? ==>
      var w, up := s.process.writer, s.process.uploader;
      && (w.stage.Sealing? ==> w.active == [] && w.walBase in s.dir && DoomedIn(s.process, w.walBase))
      && (up.Deleting? ==> up.doomed != [])
  }

  lemma SealedIsDoomed(f: Framing, s: System, h: History)
    requires Inv(f, s, h) && SealingOk(s)
    requires s.process.Running? && s.process.writer.stage.Ready? && s.process.writer.active != []
    ensures SealingOk(SealStep(s))
  {
    var w := s.process.writer;
    assert w.active[0] == h.log[w.segmentBase];
    var queue := s.process.queue + [Batch(w.active)];
    assert queue[|s.process.queue|].baseOffset == w.walBase;
  }

  lemma TakeKeepsDoomed(queue: seq<SealedBatch>, notices: seq<int>, base: int)
    requires queue != [] && Doomed(queue, Idle, notices, base)
    ensures Doomed(queue[1..], Uploading(queue[0], false), notices, base)
  {
    if i :| 0 <= i < |queue| && queue[i].baseOffset == base {
      if i > 0 { assert queue[1..][i - 1] == queue[i]; }
    }
  }

  /** The uploader's events carry a doomed file towards its notice. */
  lemma UploadKeepsSealingOk(f: Framing, s: System, e: Event)
    requires Enabled(f, s, e) && SealingOk(s)
    requires e.TakeBatch? || e.PutObject? || e.PutManifest? || e.Notify? || e.Evict? || e.DeleteObject?
    ensures SealingOk(Apply(f, s, e))
  {
    if e.TakeBatch? && s.process.writer.stage.Sealing? {
      TakeKeepsDoomed(s.process.queue, s.process.notices, s.process.writer.walBase);
    }
  }

  lemma OtherKeepsSealingOk(f: Framing, s: System, e: Event)
    requires Enabled(f, s, e) && SealingOk(s) && !e.Seal?
    requires !e.TakeBatch? && !e.PutObject? && !e.PutManifest? && !e.Notify? && !e.Evict? && !e.DeleteObject?
    ensures SealingOk(Apply(f, s, e))
  {
  }

  lemma StepKeepsSealingOk(f: Framing, c: World, e: Event)
    requires Inv(f, c.sys, c.hist) && SealingOk(c.sys) && Enabled(f, c.sys, e)
    ensures SealingOk(Apply(f, c.sys, e))
  {
    if e.Seal? {
      SealedIsDoomed(f, c.sys, c.hist);
    } else if e.TakeBatch? || e.PutObject? || e.PutManifest? || e.Notify? || e.Evict? || e.DeleteObject? {
      UploadKeepsSealingOk(f, c.sys, e);
    } else {
      OtherKeepsSealingOk(f, c.sys, e);
    }
  }

  lemma {:induction false} RunKeepsSealingOk(f: Framing, c: World, es: seq<Event>)
    requires Lawful(f) && Inv(f, c.sys, c.hist) && SealingOk(c.sys) && Possible(f, c, es) && GuardedRun(f, NothingLeft, c, es)
    ensures SealingOk(After(f, c, es).sys)
    decreases |es|
  {
    if es != [] {
      StepKeeps(f, c, es[0]);
      StepKeepsSealingOk(f, c, es[0]);
      RunKeepsSealingOk(f, Next(f, c, es[0]), es[1..]);
    }
  }

  lemma ReachableSealingOk(f: Framing, c: World)
    requires Lawful(f) && Reachable(f, c)
    ensures SealingOk(c.sys)
  {
    var es :| Leads(f, NothingLeft, Initial(), es, c);
    InvInitially(f);
    RunKeepsSealingOk(f, Initial(), es);
  }

  // ------------------------------------------------------------------------------------------
  // Losing an acknowledged record

  /** Record `k` of an acknowledged produce was not evicted, and is in no listed object and no WAL file. */
  ghost predicate Lost(f: Framing, c: World, a: Ack, k: nat) {
    && k < a.ticket.count && a.ticket.id < |c.hist.sent| && k < |c.hist.sent[a.ticket.id]|
    && var r := c.hist.sent[a.ticket.id][k];
       r.offset >= c.hist.low && !InObject(c.sys.store, r) && !InWal(f, c.sys.dir, r)
  }

  ghost predicate LosesAcked(f: Framing, c: World) {
    exists i, k :: 0 <= i < |c.hist.acks| && Lost(f, c, c.hist.acks[i], k)
  }

  lemma InvLosesNothing(f: Framing, c: World)
    requires Inv(f, c.sys, c.hist)
    ensures !LosesAcked(f, c)
  {
    forall i, k: nat | 0 <= i < |c.hist.acks| && k < c.hist.acks[i].ticket.count ensures !Lost(f, c, c.hist.acks[i], k) {
      assert AckOk(c.hist.acks[i], c.hist.log, c.hist.sent);
      AckedKept(f, c.sys, c.hist, c.hist.acks[i], k);
    }
  }

  // ------------------------------------------------------------------------------------------
  // Draining the uploader and its notices

  ghost predicate ListedLower(m: seq<SegmentEntry>, n: int) {
    forall i :: 0 <= i < |m| ==> m[i].lastOffset < n
  }

  ghost predicate BatchesLower(queue: seq<SealedBatch>, up: Uploader, n: int) {
    (forall i :: 0 <= i < |queue| ==> queue[i].lastOffset < n) && (up.Uploading? ==> up.batch.lastOffset < n)
  }

  /** No file but `base` holds the record. */
  ghost predicate OnlyIn(f: Framing, dir: WalDir, base: int, r: Record) {
    forall b :: b in dir && b != base ==> !FileHas(f, dir, b, r)
  }

  ghost predicate AckedAlone(h: History, r: Record) {
    && r.offset >= h.low
    && exists i :: 0 <= i < |h.acks| && h.acks[i].ticket.count == 1 && h.acks[i].ticket.id < |h.sent|
                   && h.sent[h.acks[i].ticket.id] == [r]
  }

  /** The record is acknowledged, its only copy is in a file that some queued batch or notice will remove. */
  ghost predicate Draining(f: Framing, d: World, r: Record, base: int) {
    && d.sys.process.Running? && d.sys.process.writer.stage.Ready?
    && DoomedIn(d.sys.process, base)
    && (d.sys.process.uploader.Deleting? ==> d.sys.process.uploader.doomed != [])
    && ListedLower(d.sys.store.manifest, r.offset)
    && BatchesLower(d.sys.process.queue, d.sys.process.uploader, r.offset)
    && OnlyIn(f, d.sys.dir, base, r)
    && AckedAlone(d.hist, r)
  }

  lemma DeleteDrains(f: Framing, c: World, d: World, r: Record, base: int) returns (e: World)
    requires CanReach(f, NothingLeft, c, d) && Draining(f, d, r, base) && d.sys.process.uploader.Deleting?
    ensures CanReach(f, NothingLeft, c, e) && Draining(f, e, r, base) && e.sys == DeleteStep(d.sys, false)
  {
    CanStep(f, NothingLeft, c, d, DeleteObject(false));
    e := Next(f, d, DeleteObject(false));
  }

  lemma TakeDrains(f: Framing, c: World, d: World, r: Record, base: int) returns (e: World)
    requires CanReach(f, NothingLeft, c, d) && Draining(f, d, r, base) && d.sys.process.uploader.Idle? && d.sys.process.queue != []
    ensures CanReach(f, NothingLeft, c, e) && Draining(f, e, r, base) && e.sys == TakeStep(d.sys)
  {
    CanStep(f, NothingLeft, c, d, TakeBatch);
    e := Next(f, d, TakeBatch);
    TakeKeepsDoomed(d.sys.process.queue, d.sys.process.notices, base);
  }

  lemma PutDrains(f: Framing, c: World, d: World, r: Record, base: int) returns (e: World)
    requires CanReach(f, NothingLeft, c, d) && Draining(f, d, r, base) && d.sys.process.uploader.Uploading?
    ensures CanReach(f, NothingLeft, c, e) && Draining(f, e, r, base) && e.sys == PutObjectStep(d.sys)
  {
    CanStep(f, NothingLeft, c, d, PutObject);
    e := Next(f, d, PutObject);
  }

  /** The rewritten manifest lists what it listed and the batch. */
  lemma WithEntryLower(m: seq<SegmentEntry>, batch: SealedBatch, byteSize: nat, n: int)
    requires ListedLower(m, n) && batch.lastOffset < n
    ensures ListedLower(WithEntry(m, batch, byteSize), n)
  {
    if !Listed(m, batch.baseOffset) {
      var all := m + [EntryFor(batch, byteSize)];
      SortByBaseSorts(all);
      var sorted := SortByBase(all);
      forall i | 0 <= i < |sorted| ensures sorted[i].lastOffset < n {
        assert sorted[i] in multiset(sorted);
        assert sorted[i] in all;
      }
    }
  }

  lemma ListDrains(f: Framing, c: World, d: World, r: Record, base: int) returns (e: World)
    requires CanReach(f, NothingLeft, c, d) && Draining(f, d, r, base)
    requires d.sys.process.uploader.Uploading? && d.sys.process.uploader.objectPut
    ensures CanReach(f, NothingLeft, c, e) && Draining(f, e, r, base) && e.sys == PutManifestStep(d.sys, 1)
    ensures Listed(e.sys.store.manifest, e.sys.process.uploader.batch.baseOffset)
  {
    CanStep(f, NothingLeft, c, d, PutManifest(1));
    e := Next(f, d, PutManifest(1));
    WithEntryLower(d.sys.store.manifest, d.sys.process.uploader.batch, 1, r.offset);
    SortedListed(d.sys.store.manifest, d.sys.process.uploader.batch, 1);
  }

  lemma NotifyDrains(f: Framing, c: World, d: World, r: Record, base: int) returns (e: World)
    requires CanReach(f, NothingLeft, c, d) && Draining(f, d, r, base)
    requires d.sys.process.uploader.Uploading? && d.sys.process.uploader.objectPut
    requires Listed(d.sys.store.manifest, d.sys.process.uploader.batch.baseOffset)
    ensures CanReach(f, NothingLeft, c, e) && Draining(f, e, r, base) && e.sys == NotifyStep(d.sys)
  {
    CanStep(f, NothingLeft, c, d, Notify);
    e := Next(f, d, Notify);
  }

  /** The upload in hand, through to its notice. */
  lemma UploadDrains(f: Framing, c: World, d: World, r: Record, base: int) returns (e: World)
    requires CanReach(f, NothingLeft, c, d) && Draining(f, d, r, base) && d.sys.process.uploader.Uploading?
    ensures CanReach(f, NothingLeft, c, e) && Draining(f, e, r, base)
    ensures e.sys.process.uploader.Idle? && e.sys.process.queue == d.sys.process.queue
  {
    var put := PutDrains(f, c, d, r, base);
    var listed := ListDrains(f, c, put, r, base);
    e := NotifyDrains(f, c, listed, r, base);
  }

  lemma DropDrains(f: Framing, c: World, d: World, r: Record, base: int) returns (e: World)
    requires CanReach(f, NothingLeft, c, d) && Draining(f, d, r, base)
    requires d.sys.process.uploader.Idle? && d.sys.process.queue == []
    ensures CanReach(f, NothingLeft, c, e) && e.sys == DropStep(d.sys, true) && e.hist == d.hist
    ensures d.sys.process.notices[0] != base ==> Draining(f, e, r, base)
    ensures d.sys.process.notices[0] == base ==> LosesAcked(f, e)
  {
    CanStep(f, NothingLeft, c, d, DropWal(true));
    e := Next(f, d, DropWal(true));
    if d.sys.process.notices[0] == base {
      RemovedIsLost(f, e, r, base);
    }
  }

  /** With its file gone the record is nowhere. */
  lemma RemovedIsLost(f: Framing, e: World, r: Record, base: int)
    requires ListedLower(e.sys.store.manifest, r.offset) && OnlyIn(f, e.sys.dir, base, r) && base !in e.sys.dir
    requires AckedAlone(e.hist, r)
    ensures LosesAcked(f, e)
  {
    forall i | 0 <= i < |e.sys.store.manifest| ensures !ObjectHas(e.sys.store, e.sys.store.manifest[i], r) {
    }
    var i :| 0 <= i < |e.hist.acks| && e.hist.acks[i].ticket.count == 1 && e.hist.acks[i].ticket.id < |e.hist.sent|
             && e.hist.sent[e.hist.acks[i].ticket.id] == [r];
    assert Lost(f, e, e.hist.acks[i], 0);
  }

  function Weight(up: Uploader): nat {
    match up
    case Idle => 0
    case Uploading(_, _) => 1
    case Deleting(doomed) => 1 + |doomed|
  }

  /** The uploader finishes its work, the notices are taken in turn, and the record is lost. */
  lemma {:induction false} DrainLoses(f: Framing, c: World, d: World, r: Record, base: int) returns (e: World)
    requires CanReach(f, NothingLeft, c, d) && Draining(f, d, r, base)
    ensures CanReach(f, NothingLeft, c, e) && LosesAcked(f, e)
    decreases |d.sys.process.queue|, Weight(d.sys.process.uploader), |d.sys.process.notices|
  {
    if d.sys.process.uploader.Deleting? {
      var next := DeleteDrains(f, c, d, r, base);
      e := DrainLoses(f, c, next, r, base);
    } else if d.sys.process.uploader.Uploading? {
      var next := UploadDrains(f, c, d, r, base);
      e := DrainLoses(f, c, next, r, base);
    } else if d.sys.process.queue != [] {
      var next := TakeDrains(f, c, d, r, base);
      e := DrainLoses(f, c, next, r, base);
    } else {
      var next := DropDrains(f, c, d, r, base);
      e := next;
      if d.sys.process.notices[0] != base {
        e := DrainLoses(f, c, next, r, base);
      }
    }
  }

  // ------------------------------------------------------------------------------------------
  // The exact condition

  const PROBE := Incoming(0, [], [], 1)

  function Probe(n: int): Record { Record(n, 1, 0, [], []) }

  lemma StampProbe(n: int)
    ensures StampAll([PROBE], [0], n) == [Probe(n)]
  {
  }

  /** Everything queued, in hand and listed lies below the end of the log. */
  lemma AllLower(f: Framing, s: System, h: History)
    requires Inv(f, s, h) && s.process.Running?
    ensures ListedLower(s.store.manifest, |h.log|) && BatchesLower(s.process.queue, s.process.uploader, |h.log|)
    ensures forall b :: b in s.dir ==> !FileHas(f, s.dir, b, Probe(|h.log|))
  {
    OffsetsBelowEnd(f, s.dir, s.store, h.log, h.low, h.tail);
    WorkLower(s.process.uploader, s.process.queue, s.process.writer.active, s.store, h.log, h.low, h.tail);
    forall b | b in s.dir ensures !FileHas(f, s.dir, b, Probe(|h.log|)) {
      var rs := Scan(f, s.dir[b]).records;
      assert forall j :: 0 <= j < |rs| ==> rs[j].offset < |h.log|;
    }
  }

  lemma WorkLower(up: Uploader, queue: seq<SealedBatch>, active: seq<Record>, store: Store, log: seq<Record>, low: int, tail: seq<int>)
    requires QueueOk(InHand(up, store.manifest) + queue, active, log, tail) && UploaderOk(up, store, log, low) && LogOk(log)
    ensures BatchesLower(queue, up, |log|)
  {
    var inHand := InHand(up, store.manifest);
    var work := inHand + queue;
    forall i | 0 <= i < |work| ensures work[i].lastOffset < |log| {
      BatchLower(work[i], log, tail[i], SegEnd(tail, |log|, i));
    }
    forall i | 0 <= i < |queue| ensures queue[i].lastOffset < |log| {
      assert work[|inHand| + i] == queue[i];
    }
    if up.Uploading? {
      if Listed(store.manifest, up.batch.baseOffset) {
        BatchLower(up.batch, log, up.batch.baseOffset, store.manifest[|store.manifest| - 1].lastOffset + 1);
      } else {
        assert work[0] == up.batch;
      }
    }
  }

  lemma BatchLower(b: SealedBatch, log: seq<Record>, base: int, end: int)
    requires BatchOk(b, log, base, end) && LogOk(log)
    ensures b.lastOffset < |log|
  {
    assert log[base..end][end - base - 1] == log[end - 1];
  }

  /** After a failed open: one more record is produced, flushed into the sealed segment's file, acknowledged. */
  lemma ProbeDrains(f: Framing, c: World) returns (d: World)
    requires Lawful(f) && Reachable(f, c) && c.sys.process.Running? && c.sys.process.writer.stage.Sealing?
    requires IsI64(c.sys.process.writer.nextOffset)
    ensures CanReach(f, NothingLeft, Next(f, c, Open(false)), d)
    ensures Draining(f, d, Probe(|c.hist.log|), c.sys.process.writer.walBase)
  {
    ReachableInv(f, c);
    ReachableSealingOk(f, c);
    AllLower(f, c.sys, c.hist);
    LowBelowLog(c.sys.store, c.hist.log, c.hist.low);
    var n := |c.hist.log|;
    assert c.sys.process.writer.nextOffset == n;
    var failed := Next(f, c, Open(false));
    d := FlushProbe(f, NothingLeft, failed, n);
    ProbeAcked(failed, d, n);
  }

  lemma LowBelowLog(store: Store, log: seq<Record>, low: int)
    requires ManifestOk(store, log, low)
    ensures low <= |log|
  {
    if store.manifest != [] { assert EntryOk(store.objects, log, store.manifest[0]); }
  }

  lemma ProduceProbe(f: Framing, care: Care, c: World, n: int) returns (d: World)
    requires c.sys.process.Running? && c.sys.process.writer.stage.Ready?
    requires c.sys.process.writer.nextOffset == n && c.sys.process.writer.pending == [] && IsI64(n)
    ensures CanReach(f, care, c, d) && d.hist == c.hist.(sent := c.hist.sent + [[Probe(n)]])
    ensures var w := c.sys.process.writer;
            d.sys == c.sys.(issued := c.sys.issued + 1, process := c.sys.process.(writer := w.(
                       pending := [Probe(n)], nextOffset := n + 1, tickets := w.tickets + [Ticket(c.sys.issued, n, 1)])))
  {
    StampProbe(n);
    CanStay(f, care, c);
    CanStep(f, care, c, c, Produce([PROBE], [0]));
    d := Next(f, c, Produce([PROBE], [0]));
    assert [] + [Probe(n)] == [Probe(n)];
  }

  /** The last ack of a flush answers the last ticket. */
  lemma LastAck(acks: seq<Ack>, w: Writer, t: Ticket)
    requires w.tickets != [] && w.tickets[|w.tickets| - 1] == t
    ensures var all := acks + Acks(w);
            all != [] && all[|all| - 1].ticket == t
  {
  }

  lemma FlushProbe(f: Framing, care: Care, c: World, n: int) returns (d: World)
    requires c.sys.process.Running? && c.sys.process.writer.stage.Ready? && c.sys.process.writer.walBase in c.sys.dir
    requires c.sys.process.writer.nextOffset == n && c.sys.process.writer.pending == [] && IsI64(n)
    requires c.sys.issued == |c.hist.sent|
    ensures CanReach(f, care, c, d)
    ensures d.sys.process.Running? && d.sys.store == c.sys.store
    ensures var w := c.sys.process.writer;
            d.sys.process.writer == w.(active := w.active + [Probe(n)], nextOffset := n + 1, pending := [], tickets := [])
    ensures d.sys.process.queue == c.sys.process.queue && d.sys.process.uploader == c.sys.process.uploader
    ensures d.sys.process.notices == c.sys.process.notices
    ensures d.sys.dir.Keys == c.sys.dir.Keys
    ensures forall b :: b in c.sys.dir && b != c.sys.process.writer.walBase ==> d.sys.dir[b] == c.sys.dir[b]
    ensures d.hist.low == c.hist.low && d.hist.evicted == c.hist.evicted && d.hist.sent == c.hist.sent + [[Probe(n)]]
    ensures d.hist.acks != [] && d.hist.acks[|d.hist.acks| - 1].ticket == Ticket(|c.hist.sent|, n, 1)
  {
    var produced := ProduceProbe(f, care, c, n);
    LastAck(c.hist.acks, produced.sys.process.writer, Ticket(|c.hist.sent|, n, 1));
    CanStep(f, care, c, produced, Flush);
    d := Next(f, produced, Flush);
    assert d.sys == FlushStep(f, produced.sys) && d.hist == FlushSeen(produced.hist, produced.sys.process.writer);
  }

  lemma ProbeAcked(c: World, d: World, n: int)
    requires d.hist.low == c.hist.low <= n && d.hist.sent == c.hist.sent + [[Probe(n)]]
    requires d.hist.acks != [] && d.hist.acks[|d.hist.acks| - 1].ticket == Ticket(|c.hist.sent|, n, 1)
    ensures AckedAlone(d.hist, Probe(n))
  {
    var i := |d.hist.acks| - 1;
    assert d.hist.sent[d.hist.acks[i].ticket.id] == [Probe(n)];
  }

  lemma OpenLosesNothing(f: Framing, c: World, d: World)
    requires Lawful(f) && Reachable(f, c) && c.sys.process.Running? && c.sys.process.writer.stage.Sealing?
    requires CanReach(f, NothingLeft, Next(f, c, Open(true)), d)
    ensures !LosesAcked(f, d)
  {
    ReachableInv(f, c);
    StepKeeps(f, c, Open(true));
    var es :| Leads(f, NothingLeft, Next(f, c, Open(true)), es, d);
    RunKeeps(f, Next(f, c, Open(true)), es);
    InvLosesNothing(f, d);
  }

  lemma FailedOpenLoses(f: Framing, c: World) returns (e: World)
    requires Lawful(f) && Reachable(f, c) && c.sys.process.Running? && c.sys.process.writer.stage.Sealing?
    requires IsI64(c.sys.process.writer.nextOffset)
    ensures CanReach(f, NothingLeft, Next(f, c, Open(false)), e) && LosesAcked(f, e)
  {
    var d := ProbeDrains(f, c);
    e := DrainLoses(f, Next(f, c, Open(false)), d, Probe(|c.hist.log|), c.sys.process.writer.walBase);
  }

  /**
   In every reachable state between a seal and the open of the next file: some run after the open, in
   which nothing else fails, ends with an acknowledged and unevicted record that is in no WAL file and
   no listed object, if and only if the open fails. The code logs a failed open and carries on.
   (The next offset must be an `i64`, as its type says, for there to be a next record.)
   */
  lemma FailedOpenLosesIff(f: Framing, c: World, ok: bool)
    requires Lawful(f) && Reachable(f, c) && c.sys.process.Running? && c.sys.process.writer.stage.Sealing?
    requires IsI64(c.sys.process.writer.nextOffset)
    ensures (exists d :: CanReach(f, NothingLeft, Next(f, c, Open(ok)), d) && LosesAcked(f, d)) <==> !ok
  {
    if ok {
      forall d | CanReach(f, NothingLeft, Next(f, c, Open(true)), d) ensures !LosesAcked(f, d) {
        OpenLosesNothing(f, c, d);
      }
    } else {
      var e := FailedOpenLoses(f, c);
    }
  }
}
