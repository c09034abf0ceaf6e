/** Concrete runs of the partition: the conditions of the safety theorems can fail, and acks can mislead. */
module PartitionGaps {
  import opened WalFrame
  import opened Wal
  import opened Manifest
  import opened Retention
  import opened Recovery
  import opened Writer
  import opened Uploads
  import opened Partition
  import opened PartitionInvariant
  import opened PartitionLogging
  import opened UploaderSteps
  import opened PartitionRuns
  import opened LogTheorems
  import opened OpenTheorems
  import opened Survival
  import opened SurvivalUploads
  import opened SurvivalRecovery
  import opened Freshness
  import opened FreshnessTheorems
  import opened RevivalTheorems
  import opened Fetch
  import opened Options

  // ------------------------------------------------------------------------------------------
  // Building a run

  const ONE := Incoming(0, [], [], 1)

  function Rec(n: int): Record { Record(n, 1, 0, [], []) }

  function Booted(): World {
    World(System(map[0 := []], Store(map[], []), Running(Writer(0, 0, 0, Ready, [], [], [], map[]), [], Idle, []), 0),
          EmptyHistory(), Trace([], []))
  }

  lemma BootedReachable(f: Framing)
    ensures Reachable(f, Booted())
  {
    CanStay(f, NothingLeft, Initial());
    ReachableNext(f, Initial(), Restart([]));
    var c1 := Next(f, Initial(), Restart([]));
    ReachableNext(f, c1, Boot);
    var c2 := Next(f, c1, Boot);
    assert c2.sys.process.writer == Writer(0, 0, 0, Booting, [], [], [], map[]);
    assert c2.sys.process.queue == [];
    ReachableNext(f, c2, Open(true));
    assert Next(f, c2, Open(true)) == Booted();
  }

  lemma StampOne(n: int)
    ensures StampAll([ONE], [0], n) == [Rec(n)]
  {
  }

  /** One record is produced behind whatever is pending. */
  lemma OneProduced(f: Framing, c: World, base: int) returns (d: World)
    requires Reachable(f, c) && c.sys.process.Running? && c.sys.process.writer.stage.Ready?
    requires c.sys.process.writer.nextOffset == base && 0 <= base < 10
    ensures Reachable(f, d)
    ensures var w := c.sys.process.writer;
            d.sys == c.sys.(issued := c.sys.issued + 1, process := c.sys.process.(writer := w.(
                       nextOffset := base + 1, pending := w.pending + [Rec(base)],
                       tickets := w.tickets + [Ticket(c.sys.issued, base, 1)])))
    ensures d.hist == c.hist.(sent := c.hist.sent + [[Rec(base)]])
  {
    StampOne(base);
    ReachableNext(f, c, Produce([ONE], [0]));
    d := Next(f, c, Produce([ONE], [0]));
  }

  /** A writer that is ready and has nothing in hand, at `base`. */
  ghost predicate Quiet(w: Writer, base: int) {
    w.stage.Ready? && w.active == [] && w.pending == [] && w.tickets == [] && w.nextOffset == base && 0 <= base < 10
  }

  lemma OneFlushed(f: Framing, c: World, base: int) returns (d: World)
    requires Reachable(f, c) && c.sys.process.Running? && c.sys.process.writer.walBase in c.sys.dir
    requires var w := c.sys.process.writer; w.stage.Ready? && w.active == [] && w.pending == [Rec(base)]
    ensures Reachable(f, d) && d.sys.dir.Keys == c.sys.dir.Keys
    ensures d.sys == c.sys.(dir := d.sys.dir, process := c.sys.process.(writer := c.sys.process.writer.(
                       active := [Rec(base)], pending := [], tickets := [])))
  {
    ReachableNext(f, c, Flush);
    d := Next(f, c, Flush);
    assert [] + [Rec(base)] == [Rec(base)];
  }

  /** Produce one record, flush it and seal it. */
  lemma OneSealed(f: Framing, c: World, base: int) returns (d: World)
    requires Reachable(f, c) && c.sys.process.Running? && Quiet(c.sys.process.writer, base)
    requires c.sys.process.writer.walBase in c.sys.dir
    ensures Reachable(f, d) && d.sys.process.Running?
    ensures d.sys.dir.Keys == c.sys.dir.Keys && d.sys.store == c.sys.store
    ensures d.sys.process.queue == c.sys.process.queue + [Batch([Rec(base)])]
    ensures d.sys.process.uploader == c.sys.process.uploader && d.sys.process.notices == c.sys.process.notices
    ensures var w, v := c.sys.process.writer, d.sys.process.writer;
            v.stage.Sealing? && v.walBase == w.walBase && v.segmentBase == v.nextOffset == base + 1
            && v.active == [] && v.pending == [] && v.tickets == []
  {
    var p := OneProduced(f, c, base);
    assert [] + [Rec(base)] == [Rec(base)];
    var q := OneFlushed(f, p, base);
    ReachableNext(f, q, Seal);
    d := Next(f, q, Seal);
  }

  /** The uploader takes the only batch in the queue, puts it, lists it as one byte and sends the notice. */
  lemma OneUploaded(f: Framing, c: World, base: int) returns (d: World)
    requires Reachable(f, c) && c.sys.process.Running? && c.sys.process.uploader.Idle?
    requires c.sys.process.queue == [Batch([Rec(base)])]
    requires Ordered(c.sys.store.manifest) && base == UploadedEnd(c.sys.store.manifest)
    ensures Reachable(f, d) && d.sys.process.Running?
    ensures d.sys.dir == c.sys.dir && d.sys.process.writer == c.sys.process.writer
    ensures d.sys.process.uploader.Idle? && d.sys.process.queue == []
    ensures d.sys.store.manifest == c.sys.store.manifest + [EntryFor(Batch([Rec(base)]), 1)]
  {
    ReachableNext(f, c, TakeBatch);
    var c1 := Next(f, c, TakeBatch);
    ReachableNext(f, c1, PutObject);
    var c2 := Next(f, c1, PutObject);
    WithNewEntry(c.sys.store.manifest, Batch([Rec(base)]), 1);
    d := OneListed(f, c2, base);
  }

  lemma OneListed(f: Framing, c: World, base: int) returns (d: World)
    requires Reachable(f, c) && c.sys.process.Running? && c.sys.process.uploader == Uploading(Batch([Rec(base)]), true)
    requires WithEntry(c.sys.store.manifest, Batch([Rec(base)]), 1)
          == c.sys.store.manifest + [EntryFor(Batch([Rec(base)]), 1)]
    ensures Reachable(f, d) && d.sys.process.Running? && d.sys.process.uploader.Idle?
    ensures d.sys.dir == c.sys.dir && d.sys.process.writer == c.sys.process.writer && d.sys.process.queue == c.sys.process.queue
    ensures d.sys.store.manifest == c.sys.store.manifest + [EntryFor(Batch([Rec(base)]), 1)]
  {
    ReachableNext(f, c, PutManifest(1));
    var listed := Next(f, c, PutManifest(1));
    assert listed.sys.store.manifest[|c.sys.store.manifest|].baseOffset == base;
    ReachableNext(f, listed, Notify);
    d := Next(f, listed, Notify);
  }

  // ------------------------------------------------------------------------------------------
  // Retention can evict a segment whose file is still there

  lemma TwoSegments(f: Framing) returns (c: World)
    ensures Reachable(f, c) && c.sys.process.Running? && c.sys.process.uploader.Idle?
    ensures c.sys.store.manifest == [EntryFor(Batch([Rec(0)]), 1), EntryFor(Batch([Rec(1)]), 1)]
    ensures c.sys.dir.Keys == {0, 1}
  {
    BootedReachable(f);
    var a := OneSealed(f, Booted(), 0);
    ReachableNext(f, a, Open(true));
    var b := Next(f, a, Open(true));
    var d := OneUploaded(f, b, 0);
    var e := OneSealed(f, d, 1);
    c := OneUploaded(f, e, 1);
  }

  lemma EvictsFirstOfTwo(m: seq<SegmentEntry>)
    requires |m| == 2 && m[0].byteSize == 1
    ensures EvictCount(m, Limits(-1, 0), 0) == 1
  {
    assert m[0..] == m;
    assert SumBytes(m) >= 1;
    assert !Stops(m, Limits(-1, 0), 0, 0);
  }

  /** A listed segment's file holds records. */
  lemma ListedFileHolds(f: Framing, s: System, h: History, b: int)
    requires Lawful(f) && Inv(f, s, h) && b in s.dir && Listed(s.store.manifest, b)
    ensures Scan(f, s.dir[b]).records != [] && s.dir[b] != []
  {
    EmptyScan(f);
    ListedBelow(s.store.manifest, b);
    if !Outlived(f, s.dir, h.log, h.low, b) { assert Repeats(f, s.dir, s.store.manifest, h.log, b); }
  }

  /**
   Two one-record segments are uploaded, the notice of the first is still queued, and the size cap
   evicts the first: its WAL file is left over, so by `RecoveryExactIff` a crash now brings it back, and
   it would become the active segment.
   */
  lemma LeftoverIsReachable(f: Framing) returns (c: World)
    requires Lawful(f)
    ensures Reachable(f, c) && c.sys.process.Running? && Enabled(f, c.sys, Crash(0))
    ensures c.sys.dir.Keys == {0, 1} && c.sys.store.manifest == [EntryFor(Batch([Rec(1)]), 1)]
    ensures Leftover(c.sys.dir, c.sys.store.manifest, 0) && Revives(f, c.sys.dir, c.sys.store.manifest)
  {
    var two := TwoSegments(f);
    ReachableInv(f, two);
    assert two.sys.store.manifest[0].baseOffset == 0 && 0 in two.sys.dir.Keys;
    ListedFileHolds(f, two.sys, two.hist, 0);
    var k := EvictCount(two.sys.store.manifest, Limits(-1, 0), 0);
    EvictsFirstOfTwo(two.sys.store.manifest);
    RewriteKeeps(two.sys.store, two.hist.log, two.hist.low, k);
    ReachableNext(f, two, Evict(k));
    c := Next(f, two, Evict(k));
    assert c.sys.store.manifest[0] == two.sys.store.manifest[1];
    OneListedRevives(f, c.sys.dir, c.sys.store.manifest);
  }

  lemma OneListedRevives(f: Framing, dir: WalDir, m: seq<SegmentEntry>)
    requires dir.Keys == {0, 1} && |m| == 1 && m[0].baseOffset == 1 && 0 in dir && Scan(f, dir[0]).records != []
    ensures Revives(f, dir, m)
  {
    assert Below(f, dir, m, 0);
    forall b | b in dir ensures !Above(f, dir, m, b) {
      assert b in dir.Keys;
    }
  }

  // ------------------------------------------------------------------------------------------
  // The crash that follows

  lemma QueuedElsewhere(f: Framing, d: World)
    requires Survives(f, d.sys, d.hist) && d.sys.process.Running? && d.sys.process.uploader.Idle?
    ensures var queue := d.sys.process.queue;
            queue != [] ==>
              var b := queue[0].baseOffset;
              b in d.sys.dir && b != d.sys.process.writer.segmentBase && !Listed(d.sys.store.manifest, b)
  {
    var w, queue := d.sys.process.writer, d.sys.process.queue;
    assert Held(Idle) + queue == queue;
    assert queue != [] ==> BatchKept(f, d.sys.dir, queue[0], FlushedEnd(w));
  }

  /** Only file 0 holds unlisted records, so it is the active segment and nothing is queued. */
  lemma OnlyZero(f: Framing, x: WalDir, d: World)
    requires Survives(f, d.sys, d.hist) && d.sys.process.Running? && d.sys.process.uploader.Idle?
    requires x.Keys == {0, 1} && Visited(f, x, d.sys.dir, d.sys.store.manifest) && Listed(d.sys.store.manifest, 1)
    requires d.sys.process.writer.active != []
    ensures d.sys.process.queue == [] && d.sys.process.writer.segmentBase == 0
  {
    assert forall b :: b in d.sys.dir && !Listed(d.sys.store.manifest, b) ==> b in x.Keys && b == 0;
    QueuedElsewhere(f, d);
  }

  /** After the crash: the left-over segment takes the next record, is sealed and waits to be uploaded. */
  lemma LeftoverGrows(f: Framing, x: World) returns (d: World)
    requires Lawful(f) && From(f, x, x) && x.sys.process.Down? && x.sys.dir.Keys == {0, 1}
    requires x.sys.store.manifest == [EntryFor(Batch([Rec(1)]), 1)] && Sunk(f, x.sys.dir, x.sys.store.manifest)
    ensures From(f, x, d) && Sinking(f, d, 2) && AckedAt(d.hist.acks, 2) && d.hist.evicted == x.hist.evicted
    ensures d.sys.store == x.sys.store && d.sys.process.writer.stage.Sealing? && d.sys.process.writer.active == []
    ensures d.sys.process.writer.nextOffset == 3 && d.sys.process.notices == [] && |d.sys.process.queue| == 1
    ensures var b := d.sys.process.queue[0];
            b.baseOffset == 0 && b.lastOffset == 2 && Rec(2) in b.records
  {
    var booted := RevivedBoots(f, x);
    assert x.sys.store.manifest[0].baseOffset == 1;
    OnlyZero(f, x.sys.dir, booted);
    var ready := RevivedOpens(f, x, booted, 2);
    var joined := ProbeJoins(f, x, ready, 2);
    var records := joined.sys.process.writer.active;
    assert records[|records| - 1] == Rec(2);
    d := SealsLow(f, x, joined, 2);
  }

  /** The revived segment is listed in front of the other, and the lookup of its last offset fails. */
  lemma ListedInFront(m: seq<SegmentEntry>, b: SealedBatch)
    requires m == [EntryFor(Batch([Rec(1)]), 1)] && b.baseOffset == 0 && b.lastOffset == 2
    ensures WithEntry(m, b, 1) == [EntryFor(b, 1), m[0]]
    ensures SegmentForOffset([EntryFor(b, 1), m[0]], 2) == None
  {
    AscendingSorted(m, EntryFor(b, 1));
    assert PartitionPoint([EntryFor(b, 1), m[0]], 2, 2, 2) == 2;
  }

  /**
   The crash that `LeftoverIsReachable` leads to, and what comes after it: the next record, at offset 2,
   joins the evicted segment's file, is acknowledged, uploaded and listed, and the file is dropped. The
   manifest is then [0..2, 1..1]. The record was not evicted and its object is in place, but the lookup
   does not find it, and a fetch of its offset, whatever its GETs do, returns no record. After one more
   crash offset 2 is handed out again.
   */
  lemma LeftoverHidesRecord(f: Framing) returns (c: World, d: World, e: World)
    requires Lawful(f)
    ensures Reachable(f, c) && Enabled(f, c.sys, Crash(0)) && CanReach(f, NoRevival, Next(f, c, Crash(0)), d)
    ensures d.sys.process.Running? && d.sys.process.writer.stage.Ready? && 0 !in d.sys.dir
    ensures var m := d.sys.store.manifest;
            && |m| == 2 && (m[0].baseOffset, m[0].lastOffset) == (0, 2) && (m[1].baseOffset, m[1].lastOffset) == (1, 1)
            && SegmentForOffset(m, 2) == None
    ensures AckedAt(d.hist.acks, 2) && InListed(d.sys.store, Rec(2)) && Rec(2) !in d.hist.evicted
    ensures forall gets, max, waits :: NoRecords(Answer(2, max, waits, gets, d.sys, d.sys, d.sys, d.sys))
    ensures CanReach(f, NoRevival, Next(f, c, Crash(0)), e) && Reissues(e) && e.sys.process.writer.nextOffset == 2
  {
    c := LeftoverIsReachable(f);
    var x := Next(f, c, Crash(0));
    LeftoverCrashes(f, c);
    var sealed := LeftoverGrows(f, x);
    var listed := LeftoverListed(f, x, sealed);
    d := LeftoverDropped(f, x, listed);
    e := CrashesAndBoots(f, x, listed, 2);
  }

  predicate NoRecords(r: FetchResult) { r.Failed? || r.records == [] }

  lemma LeftoverCrashes(f: Framing, c: World)
    requires Lawful(f) && Reachable(f, c) && c.sys.process.Running? && Enabled(f, c.sys, Crash(0))
    requires Revives(f, c.sys.dir, c.sys.store.manifest)
    ensures var x := Next(f, c, Crash(0));
            && From(f, x, x) && x.sys.process.Down? && x.sys.dir == c.sys.dir && x.sys.store == c.sys.store
            && Sunk(f, x.sys.dir, x.sys.store.manifest) && EndBy(x.hist.evicted, UploadedEnd(x.sys.store.manifest))
  {
    ReachableIsSteady(f, c);
    SteadyFresh(f, c);
    StepSurvives(f, c, Crash(0));
    CrashDiskFresh(f, c.sys, c.hist, 0);
    var x := Next(f, c, Crash(0));
    RevivesSunk(f, x.sys.dir, x.sys.store, x.hist.evicted);
    CanStay(f, NoRevival, x);
  }

  lemma LeftoverListed(f: Framing, x: World, d: World) returns (e: World)
    requires Lawful(f) && From(f, x, d) && Sinking(f, d, 2) && d.sys.process.writer.stage.Sealing? && d.sys.process.writer.active == []
    requires d.sys.store.manifest == [EntryFor(Batch([Rec(1)]), 1)] && |d.sys.process.queue| == 1
    requires var b := d.sys.process.queue[0];
             b.baseOffset == 0 && b.lastOffset == 2 && Rec(2) in b.records
    ensures From(f, x, e) && Sinking(f, e, 2) && e.hist.acks == d.hist.acks && e.hist.evicted == d.hist.evicted
    ensures e.sys.process.writer == d.sys.process.writer && e.sys.process.queue == []
    ensures e.sys.process.notices == d.sys.process.notices + [0] && InListed(e.sys.store, Rec(2))
    ensures var m := e.sys.store.manifest;
            && |m| == 2 && (m[0].baseOffset, m[0].lastOffset) == (0, 2) && (m[1].baseOffset, m[1].lastOffset) == (1, 1)
            && SegmentForOffset(m, 2) == None
  {
    var b := d.sys.process.queue[0];
    ListedInFront(d.sys.store.manifest, b);
    assert Held(Idle) + d.sys.process.queue == d.sys.process.queue;
    BatchRows(f, d.sys.dir, b, FlushedEnd(d.sys.process.writer));
    e := FirstUploads(f, x, d, 2);
    assert e.sys.store.manifest[0].baseOffset == 0;
    assert Rec(2) in Rows(e.sys.store.objects, 0);
  }
  /** The lookup fails, so the fetch returns nothing, whatever else is going on. */
  lemma AnswerFindsNothing(s: System, gets: Gets, max: nat, waits: bool)
    requires s.process.Running? && s.process.writer.stage.Ready? && s.process.writer.active == []
    requires s.process.writer.nextOffset == 3 && SegmentForOffset(s.store.manifest, 2) == None
    ensures NoRecords(Answer(2, max, waits, gets, s, s, s, s))
  {
  }

  lemma LeftoverDropped(f: Framing, x: World, d: World) returns (e: World)
    requires Lawful(f) && From(f, x, d) && d.sys.process.Running? && d.sys.process.writer.stage.Sealing?
    requires d.sys.process.writer.active == [] && d.sys.process.writer.nextOffset == 3 && d.sys.process.notices == [0]
    requires SegmentForOffset(d.sys.store.manifest, 2) == None
    ensures From(f, x, e) && e.sys.store == d.sys.store && e.hist == d.hist
    ensures e.sys.process.Running? && e.sys.process.writer.stage.Ready? && 0 !in e.sys.dir
    ensures forall gets, max, waits :: NoRecords(Answer(2, max, waits, gets, e.sys, e.sys, e.sys, e.sys))
  {
    var ready := Opens(f, x, d);
    FromStep(f, x, ready, DropWal(true));
    e := Next(f, ready, DropWal(true));
    forall gets, max, waits ensures NoRecords(Answer(2, max, waits, gets, e.sys, e.sys, e.sys, e.sys)) {
      AnswerFindsNothing(e.sys, gets, max, waits);
    }
  }

  // ------------------------------------------------------------------------------------------
  // A failed open after a seal

  /** The first seal of a fresh partition can be followed by a failed open, and then a record is lost. */
  lemma FailedOpenLosesAckedRecord(f: Framing) returns (c: World, d: World)
    requires Lawful(f)
    ensures Reachable(f, c) && c.sys.process.Running? && c.sys.process.writer.stage.Sealing?
    ensures CanReach(f, NothingLeft, Next(f, c, Open(false)), d) && LosesAcked(f, d)
  {
    BootedReachable(f);
    c := OneSealed(f, Booted(), 0);
    FailedOpenLosesIff(f, c, false);
    d :| CanReach(f, NothingLeft, Next(f, c, Open(false)), d) && LosesAcked(f, d);
  }

  // ------------------------------------------------------------------------------------------
  // Two produces in one batch

  /**
   Two one-record produces share a batch. The ack of the first, fired by the flush, carries the offset
   of the second: the client is told that its only record is at 1, while it is at 0.
   */
  lemma SharedBatchMisreports(f: Framing) returns (c: World)
    ensures Reachable(f, c) && |c.hist.acks| == 2
    ensures c.hist.acks[0] == Ack(Ticket(0, 0, 1), 1) && ReportedBase(c.hist.acks[0]) == 1
    ensures |c.hist.sent| == 2 && c.hist.sent[0] == [Rec(0)] && c.hist.log == [Rec(0), Rec(1)]
  {
    BootedReachable(f);
    var a := OneProduced(f, Booted(), 0);
    var b := OneProduced(f, a, 1);
    var w := b.sys.process.writer;
    assert w.pending == [Rec(0), Rec(1)] && w.tickets == [Ticket(0, 0, 1), Ticket(1, 1, 1)];
    ReachableNext(f, b, Flush);
    c := Next(f, b, Flush);
    assert Acks(w)[0] == Ack(Ticket(0, 0, 1), 1);
  }
}
