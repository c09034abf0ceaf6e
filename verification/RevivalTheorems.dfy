/** A crash that revives a segment from below the manifest's end: exactly when an offset is handed out twice. */
module RevivalTheorems {
  import opened Bytes
  import opened WalFrame
  import opened Wal
  import opened Manifest
  import opened Recovery
  import opened Writer
  import opened Uploads
  import opened Partition
  import opened PartitionInvariant
  import opened PartitionRuns
  import opened OpenTheorems
  import opened Survival
  import opened SurvivalUploads
  import opened SurvivalRecovery
  import opened Freshness
  import opened FreshnessTheorems

  predicate Covers(t: Ticket, offset: int) { t.base <= offset < t.base + t.count }

  ghost predicate AckedAt(acks: seq<Ack>, offset: int) {
    exists i :: 0 <= i < |acks| && Covers(acks[i].ticket, offset)
  }

  /** The offset that the next record gets was given to a record that has been acknowledged. */
  ghost predicate Reissues(d: World) {
    d.sys.process.Running? && d.sys.process.writer.stage.Ready? && AckedAt(d.hist.acks, d.sys.process.writer.nextOffset)
  }

  lemma AckBelow(t: Ticket, log: seq<Record>, sent: seq<seq<Record>>, end: int, next: int, offset: int)
    requires TicketKept(t, log, sent, end) && EndBy(log, next) && Covers(t, offset)
    ensures offset < next
  {
    assert sent[t.id][offset - t.base] in log;
  }

  lemma FreshReissuesNothing(f: Framing, d: World)
    requires Survives(f, d.sys, d.hist) && Fresh(f, d.sys, d.hist)
    ensures !Reissues(d)
  {
    if d.sys.process.Running? {
      var h, w := d.hist, d.sys.process.writer;
      LogEnds(f, d.sys, h);
      forall i, o | 0 <= i < |h.acks| && Covers(h.acks[i].ticket, o) ensures o < FlushedEnd(w) {
        AckBelow(h.acks[i].ticket, h.log, h.sent, h.acks[i].value + 1, FlushedEnd(w), o);
      }
    }
  }

  // ------------------------------------------------------------------------------------------
  // Runs that keep what survives

  ghost predicate From(f: Framing, x: World, d: World) {
    CanReach(f, NoRevival, x, d) && Survives(f, d.sys, d.hist)
  }

  lemma FromStep(f: Framing, x: World, d: World, e: Event)
    requires Lawful(f) && From(f, x, d) && Enabled(f, d.sys, e) && Guarded(f, NoRevival, d.sys, e)
    ensures From(f, x, Next(f, d, e))
  {
    CanStep(f, NoRevival, x, d, e);
    StepSurvives(f, d, e);
  }

  lemma FromRun(f: Framing, x: World, d: World, e: World)
    requires Lawful(f) && From(f, x, d) && CanReach(f, NoRevival, d, e)
    ensures From(f, x, e)
  {
    var es :| Leads(f, NoRevival, d, es, e);
    CanFollow(f, NoRevival, x, d, es, e);
    RunSurvives(f, NoRevival, d, es);
  }

  // ------------------------------------------------------------------------------------------
  // Recovery, file by file

  lemma {:induction false} GreatestOf(keys: set<int>) returns (top: int)
    requires keys != {}
    ensures top in keys && forall k :: k in keys ==> k <= top
    decreases |keys|
  {
    Inhabited(keys);
    var k :| k in keys;
    top := k;
    assert forall j :: j in keys ==> j == k || j in keys - {k};
    if keys - {k} != {} {
      var rest := GreatestOf(keys - {k});
      top := Max(k, rest);
    }
  }

  lemma {:induction false} SortedOf(keys: set<int>) returns (bases: seq<int>)
    ensures Increasing(bases) && forall b :: b in bases <==> b in keys
    decreases |keys|
  {
    if keys == {} {
      bases := [];
    } else {
      var top := GreatestOf(keys);
      var rest := SortedOf(keys - {top});
      forall i | 0 <= i < |rest| ensures rest[i] < top {
        var b := rest[i];
        assert b in rest;
      }
      bases := rest + [top];
    }
  }

  lemma EnumerationOf(dir: WalDir) returns (bases: seq<int>)
    ensures Enumerates(bases, dir)
  {
    bases := SortedOf(dir.Keys);
    forall i | 0 <= i < |bases| ensures bases[i] in dir {
      var b := bases[i];
      assert b in bases;
    }
  }

  /** Every file but some listed ones, with the records it had. */
  ghost predicate Visited(f: Framing, dir: WalDir, dir': WalDir, m: seq<SegmentEntry>) {
    && (forall b :: b in dir' ==> b in dir && Records(f, dir', b) == Records(f, dir, b))
    && (forall b :: b in dir && b !in dir' ==> Listed(m, b))
  }

  ghost predicate AllVisited(f: Framing, d: World, e: World) {
    && e.sys.process.Recovering? && e.sys.process.progress.todo == []
    && e.sys.store == d.sys.store && e.hist == d.hist && Visited(f, d.sys.dir, e.sys.dir, d.sys.store.manifest)
  }

  lemma {:induction false} VisitAll(f: Framing, x: World, d: World) returns (e: World)
    requires Lawful(f) && From(f, x, d) && d.sys.process.Recovering?
    ensures From(f, x, e) && AllVisited(f, d, e)
    decreases if d.sys.process.Recovering? then |d.sys.process.progress.todo| else 0
  {
    var p := d.sys.process.progress;
    if p.todo == [] {
      e := d;
    } else {
      FromStep(f, x, d, VisitFile(true));
      Repaired(f, d.sys.dir, d.sys.store, p.todo[0], true);
      e := VisitAll(f, x, Next(f, d, VisitFile(true)));
    }
  }

  lemma Recovers(f: Framing, x: World, d: World) returns (e: World)
    requires Lawful(f) && From(f, x, d) && d.sys.process.Down?
    ensures From(f, x, e) && AllVisited(f, d, e)
  {
    var bases := EnumerationOf(d.sys.dir);
    FromStep(f, x, d, Restart(bases));
    e := VisitAll(f, x, Next(f, d, Restart(bases)));
  }

  lemma OrphansFilled(f: Framing, dir: WalDir, m: seq<SegmentEntry>, p: Progress)
    requires RecoverySound(f, dir, m, p)
    ensures forall i :: 0 <= i < |p.orphans| ==> p.orphans[i].records != []
  {
    forall i | 0 <= i < |p.orphans| ensures p.orphans[i].records != [] {
      assert OrphanKept(f, dir, m, p.orphans[i], p.nextOffset);
    }
  }

  lemma Boots(f: Framing, x: World, d: World) returns (e: World)
    requires Lawful(f) && From(f, x, d) && d.sys.process.Recovering? && d.sys.process.progress.todo == []
    ensures From(f, x, e) && e.sys.dir == d.sys.dir && e.sys.store == d.sys.store && e.hist == d.hist
    ensures var r := Finish(d.sys.process.progress);
            && (forall i :: 0 <= i < |r.orphans| ==> r.orphans[i].records != [])
            && e.sys.process == Running(New(r.nextOffset, r.active), Requeue(r.orphans), Idle, [])
  {
    OrphansFilled(f, d.sys.dir, d.sys.store.manifest, d.sys.process.progress);
    FromStep(f, x, d, Boot);
    e := Next(f, d, Boot);
  }

  lemma Opens(f: Framing, x: World, d: World) returns (e: World)
    requires Lawful(f) && From(f, x, d) && d.sys.process.Running?
    requires d.sys.process.writer.stage.Booting? || d.sys.process.writer.stage.Sealing?
    ensures From(f, x, e) && e.sys == OpenStep(d.sys, true) && e.hist == d.hist
  {
    FromStep(f, x, d, Open(true));
    e := Next(f, d, Open(true));
  }

  // ------------------------------------------------------------------------------------------
  // The revived segment becomes the active one

  function LastBaseOf(m: seq<SegmentEntry>): int
    requires m != []
  {
    m[|m| - 1].baseOffset
  }

  /** There are unlisted segments, and all of them lie under the manifest's end. */
  ghost predicate Sunk(f: Framing, dir: WalDir, m: seq<SegmentEntry>) {
    && (exists b :: b in dir && Records(f, dir, b) != [] && !Listed(m, b))
    && (forall b :: b in dir && Records(f, dir, b) != [] && !Listed(m, b) ==> Under(f, dir, m, b))
  }

  lemma RevivesSunk(f: Framing, dir: WalDir, store: Store, evicted: seq<Record>)
    requires ManifestSound(store) && DiskFresh(f, dir, store.manifest, evicted) && Revives(f, dir, store.manifest)
    ensures Sunk(f, dir, store.manifest)
  {
    var m := store.manifest;
    var a :| a in dir && Below(f, dir, m, a);
    assert Records(f, dir, a) != [];
    LastBase(store);
    forall b | b in dir && Records(f, dir, b) != [] && !Listed(m, b) ensures Under(f, dir, m, b) {
      assert !Above(f, dir, m, b);
    }
  }

  lemma VisitedSunk(f: Framing, dir: WalDir, dir': WalDir, m: seq<SegmentEntry>)
    requires Sunk(f, dir, m) && Visited(f, dir, dir', m)
    ensures Sunk(f, dir', m)
  {
    var b :| b in dir && Records(f, dir, b) != [] && !Listed(m, b);
    assert b in dir';
    forall x | x in dir' && Records(f, dir', x) != [] && !Listed(m, x) ensures Under(f, dir', m, x) {
      assert Under(f, dir, m, x);
    }
  }

  lemma SunkOrphans(f: Framing, dir: WalDir, m: seq<SegmentEntry>, p: Progress)
    requires RecoverySound(f, dir, m, p) && p.todo == [] && Sunk(f, dir, m)
    ensures m != [] && p.orphans != [] && p.nextOffset == UploadedEnd(m)
    ensures forall i {:trigger p.orphans[i]} :: 0 <= i < |p.orphans| ==> p.orphans[i].base < LastBaseOf(m)
  {
    var b :| b in dir && Records(f, dir, b) != [] && !Listed(m, b);
    LastOrphanGreatest(f, dir, m, p, b);
    forall i | 0 <= i < |p.orphans| ensures Under(f, dir, m, p.orphans[i].base) && !EndsAbove(p.orphans[i], UploadedEnd(m)) {
      var o := p.orphans[i];
      assert OrphanKept(f, dir, m, o, p.nextOffset);
      assert o.records[|o.records| - 1] in Records(f, dir, o.base);
    }
    if i :| 0 <= i < |p.orphans| && EndsAt(p.orphans[i], p.nextOffset) {
      assert !EndsAbove(p.orphans[i], UploadedEnd(m));
    }
  }

  predicate EndsAbove(o: Orphan, end: int) { o.records != [] && o.records[|o.records| - 1].offset >= end }

  /** Every file with records is listed, queued, or the current one. */
  ghost predicate Accounted(f: Framing, dir: WalDir, m: seq<SegmentEntry>, queue: seq<SealedBatch>, segmentBase: int) {
    forall b :: b in dir && Records(f, dir, b) != [] ==>
      Listed(m, b) || b == segmentBase || exists i :: 0 <= i < |queue| && queue[i].baseOffset == b
  }

  ghost predicate QueueBelow(queue: seq<SealedBatch>, m: seq<SegmentEntry>) {
    m != [] && forall i {:trigger queue[i]} :: 0 <= i < |queue| ==> queue[i].baseOffset < LastBaseOf(m)
  }

  /** The uploader is idle; every unlisted segment is queued or current and will be listed below the last entry. */
  ghost predicate Sinking(f: Framing, d: World, end: int) {
    && d.sys.process.Running? && d.sys.process.uploader.Idle? && d.sys.process.writer.pending == []
    && UploadedEnd(d.sys.store.manifest) == end && QueueBelow(d.sys.process.queue, d.sys.store.manifest)
    && Accounted(f, d.sys.dir, d.sys.store.manifest, d.sys.process.queue, d.sys.process.writer.segmentBase)
  }

  lemma BootedAccounted(f: Framing, dir: WalDir, m: seq<SegmentEntry>, p: Progress, segmentBase: int)
    requires RecoverySound(f, dir, m, p) && p.todo == []
    requires p.orphans != [] && segmentBase == p.orphans[|p.orphans| - 1].base
    requires forall i :: 0 <= i < |p.orphans| ==> p.orphans[i].records != []
    ensures Accounted(f, dir, m, Requeue(Finish(p).orphans), segmentBase)
  {
    var queue := Requeue(Finish(p).orphans);
    forall b | b in dir && Records(f, dir, b) != [] && !Listed(m, b) && b != segmentBase
      ensures exists i :: 0 <= i < |queue| && queue[i].baseOffset == b
    {
      assert b !in p.todo;
      var i :| 0 <= i < |p.orphans| && p.orphans[i] == Orphan(b, Records(f, dir, b));
      assert queue[i].baseOffset == b;
    }
  }

  /** What boot makes of it: a writer at the manifest's end on a segment below the last listed one. */
  lemma RevivedHandover(f: Framing, dir: WalDir, store: Store, p: Progress)
    requires RecoverySound(f, dir, store.manifest, p) && ManifestSound(store) && FilesNamed(f, dir)
    requires p.todo == [] && Sunk(f, dir, store.manifest)
    requires forall i :: 0 <= i < |p.orphans| ==> p.orphans[i].records != []
    ensures var r := Finish(p);
            var w := New(r.nextOffset, r.active);
            && w.active != [] && w.nextOffset == UploadedEnd(store.manifest)
            && QueueBelow(Requeue(r.orphans), store.manifest) && w.segmentBase < LastBaseOf(store.manifest)
            && Accounted(f, dir, store.manifest, Requeue(r.orphans), w.segmentBase)
  {
    SunkOrphans(f, dir, store.manifest, p);
    BootedWriter(f, dir, store, p);
    BootedAccounted(f, dir, store.manifest, p, p.orphans[|p.orphans| - 1].base);
  }

  lemma RevivedRecovers(f: Framing, x: World) returns (d: World)
    requires Lawful(f) && From(f, x, x) && x.sys.process.Down? && Sunk(f, x.sys.dir, x.sys.store.manifest)
    ensures From(f, x, d) && AllVisited(f, x, d) && Sunk(f, d.sys.dir, d.sys.store.manifest)
  {
    d := Recovers(f, x, x);
    VisitedSunk(f, x.sys.dir, d.sys.dir, x.sys.store.manifest);
  }

  /** After the crash: recovery makes the revived segment active, and the writer goes on at the manifest's end. */
  lemma RevivedBoots(f: Framing, x: World) returns (d: World)
    requires Lawful(f) && From(f, x, x) && x.sys.process.Down? && Sunk(f, x.sys.dir, x.sys.store.manifest)
    ensures From(f, x, d) && Sinking(f, d, UploadedEnd(x.sys.store.manifest))
    ensures var w := d.sys.process.writer;
            && w.stage.Booting? && w.active != [] && w.nextOffset == UploadedEnd(x.sys.store.manifest)
            && w.segmentBase < LastBaseOf(d.sys.store.manifest)
    ensures d.sys.process.notices == [] && d.sys.store == x.sys.store && d.hist == x.hist
    ensures Visited(f, x.sys.dir, d.sys.dir, x.sys.store.manifest)
  {
    var visited := RevivedRecovers(f, x);
    d := Boots(f, x, visited);
    RevivedHandover(f, visited.sys.dir, visited.sys.store, visited.sys.process.progress);
  }

  lemma RevivedOpens(f: Framing, x: World, d: World, n: int) returns (e: World)
    requires Lawful(f) && From(f, x, d) && Sinking(f, d, n)
    requires d.sys.process.writer.stage.Booting? && d.sys.process.writer.active != []
    ensures From(f, x, e) && Sinking(f, e, n) && e.hist == d.hist
    ensures e.sys == d.sys.(process := d.sys.process.(writer := Opened(d.sys.process.writer, true)))
  {
    e := Opens(f, x, d);
    assert d.sys.process.writer.segmentBase in d.sys.dir;
  }

  // ------------------------------------------------------------------------------------------
  // It takes one more record and is sealed

  lemma AccountedKeeps(f: Framing, dir: WalDir, dir': WalDir, m: seq<SegmentEntry>, queue: seq<SealedBatch>, segmentBase: int)
    requires Accounted(f, dir, m, queue, segmentBase) && dir'.Keys == dir.Keys
    requires forall b :: b in dir && b != segmentBase ==> dir'[b] == dir[b]
    ensures Accounted(f, dir', m, queue, segmentBase)
  {
    forall b | b in dir' && b != segmentBase ensures b in dir && Records(f, dir', b) == Records(f, dir, b) {
      assert b in dir.Keys;
    }
  }

  lemma ProbeJoins(f: Framing, x: World, d: World, n: int) returns (e: World)
    requires Lawful(f) && From(f, x, d) && Sinking(f, d, n) && IsI64(n)
    requires d.sys.process.writer.stage.Ready? && d.sys.process.writer.nextOffset == n
    requires d.sys.process.writer.segmentBase < LastBaseOf(d.sys.store.manifest)
    ensures From(f, x, e) && Sinking(f, e, n) && AckedAt(e.hist.acks, n)
    ensures var w := e.sys.process.writer;
            && w.stage.Ready? && w.active == d.sys.process.writer.active + [Probe(n)] && w.nextOffset == n + 1
            && w.segmentBase == d.sys.process.writer.segmentBase
    ensures e.sys.store == d.sys.store && e.sys.dir.Keys == d.sys.dir.Keys && e.hist.evicted == d.hist.evicted
    ensures e.sys.process.queue == d.sys.process.queue && e.sys.process.notices == d.sys.process.notices
  {
    e := FlushProbe(f, NoRevival, d, n);
    FromRun(f, x, d, e);
    AccountedKeeps(f, d.sys.dir, e.sys.dir, d.sys.store.manifest, d.sys.process.queue, d.sys.process.writer.segmentBase);
    assert Covers(e.hist.acks[|e.hist.acks| - 1].ticket, n);
  }

  lemma AccountedSealed(f: Framing, dir: WalDir, m: seq<SegmentEntry>, queue: seq<SealedBatch>, b: SealedBatch, segmentBase: int)
    requires Accounted(f, dir, m, queue, b.baseOffset)
    ensures Accounted(f, dir, m, queue + [b], segmentBase)
  {
    var all := queue + [b];
    forall x | x in dir && Records(f, dir, x) != [] && !Listed(m, x)
      ensures exists i :: 0 <= i < |all| && all[i].baseOffset == x
    {
      if x == b.baseOffset {
        assert all[|queue|].baseOffset == x;
      } else {
        var i :| 0 <= i < |queue| && queue[i].baseOffset == x;
        assert all[i].baseOffset == x;
      }
    }
  }

  lemma ActiveBase(f: Framing, s: System, h: History)
    requires Survives(f, s, h) && s.process.Running? && s.process.writer.active != []
    ensures Batch(s.process.writer.active).baseOffset == s.process.writer.segmentBase
  {
  }

  lemma Seals(f: Framing, x: World, d: World) returns (e: World)
    requires Lawful(f) && From(f, x, d) && d.sys.process.Running? && d.sys.process.writer.stage.Ready?
    requires d.sys.process.writer.pending == [] && d.sys.process.writer.active != []
    ensures From(f, x, e) && e.hist == d.hist && e.sys == SealStep(d.sys)
  {
    FromStep(f, x, d, Seal);
    e := Next(f, d, Seal);
  }

  lemma SealsLow(f: Framing, x: World, d: World, n: int) returns (e: World)
    requires Lawful(f) && From(f, x, d) && Sinking(f, d, n)
    requires d.sys.process.writer.stage.Ready? && d.sys.process.writer.active != []
    requires d.sys.process.writer.segmentBase < LastBaseOf(d.sys.store.manifest)
    ensures From(f, x, e) && Sinking(f, e, n) && e.hist == d.hist && e.sys == SealStep(d.sys)
  {
    ActiveBase(f, d.sys, d.hist);
    e := Seals(f, x, d);
    AccountedSealed(f, d.sys.dir, d.sys.store.manifest, d.sys.process.queue, Batch(d.sys.process.writer.active),
                    e.sys.process.writer.segmentBase);
  }

  // ------------------------------------------------------------------------------------------
  // Everything queued is listed below the last entry

  /** Another batch is listed below the last entry, so the manifest ends where it did. */
  lemma AccountedListed(f: Framing, dir: WalDir, m: seq<SegmentEntry>, m': seq<SegmentEntry>, queue: seq<SealedBatch>, segmentBase: int)
    requires queue != [] && Accounted(f, dir, m, queue, segmentBase)
    requires forall b :: Listed(m', b) <==> Listed(m, b) || b == queue[0].baseOffset
    ensures Accounted(f, dir, m', queue[1..], segmentBase)
  {
    forall b | b in dir && Records(f, dir, b) != [] && !Listed(m', b) && b != segmentBase
      ensures exists i :: 0 <= i < |queue[1..]| && queue[1..][i].baseOffset == b
    {
      var i :| 0 <= i < |queue| && queue[i].baseOffset == b;
      assert queue[1..][i - 1] == queue[i];
    }
  }

  lemma ListedBelowLast(m: seq<SegmentEntry>, b: SealedBatch)
    requires Ascending(m) && m != [] && b.baseOffset < LastBaseOf(m) && !Listed(m, b.baseOffset)
    ensures var m' := WithEntry(m, b, 1);
            && m' != [] && m'[|m'| - 1] == m[|m| - 1]
            && (forall x :: Listed(m', x) <==> Listed(m, x) || x == b.baseOffset)
  {
    EntryInserted(m, b, 1);
    InsertBelowLast(m, EntryFor(b, 1));
  }

  /** The first batch of the queue is taken and its object put. */
  lemma TakesFirst(f: Framing, x: World, d: World) returns (e: World)
    requires Lawful(f) && From(f, x, d) && d.sys.process.Running? && d.sys.process.uploader.Idle? && d.sys.process.queue != []
    ensures From(f, x, e)
    ensures var p := d.sys.process;
            e.sys == d.sys.(store := PutSegment(d.sys.store, p.queue[0]),
                            process := p.(queue := p.queue[1..], uploader := Uploading(p.queue[0], true)))
    ensures e.hist == d.hist
  {
    FromStep(f, x, d, TakeBatch);
    var taken := Next(f, d, TakeBatch);
    FromStep(f, x, taken, PutObject);
    e := Next(f, taken, PutObject);
  }

  lemma Notifies(f: Framing, x: World, d: World, b: SealedBatch) returns (e: World)
    requires Lawful(f) && From(f, x, d) && d.sys.process.Running? && d.sys.process.uploader == Uploading(b, true)
    requires Listed(d.sys.store.manifest, b.baseOffset)
    ensures From(f, x, e) && e.hist == d.hist && e.sys == NotifyStep(d.sys)
  {
    FromStep(f, x, d, Notify);
    e := Next(f, d, Notify);
  }

  lemma ListsFirst(f: Framing, x: World, d: World, b: SealedBatch) returns (e: World)
    requires Lawful(f) && From(f, x, d) && d.sys.process.Running? && d.sys.process.uploader == Uploading(b, true)
    ensures From(f, x, e) && e.hist.acks == d.hist.acks && e.hist.evicted == d.hist.evicted
    ensures e.sys == d.sys.(store := PutEntry(d.sys.store, b, 1),
                            process := d.sys.process.(uploader := Idle, notices := d.sys.process.notices + [b.baseOffset]))
  {
    FromStep(f, x, d, PutManifest(1));
    var listed := Next(f, d, PutManifest(1));
    SortedListed(d.sys.store.manifest, b, 1);
    e := Notifies(f, x, listed, b);
  }

  /** One batch less in the queue, and the manifest ends where it did. */
  lemma FirstSinks(f: Framing, dir: WalDir, m: seq<SegmentEntry>, queue: seq<SealedBatch>, segmentBase: int)
    requires QueueBelow(queue, m) && Accounted(f, dir, m, queue, segmentBase)
    requires queue != [] && Ascending(m) && !Listed(m, queue[0].baseOffset)
    ensures var m' := WithEntry(m, queue[0], 1);
            UploadedEnd(m') == UploadedEnd(m) && QueueBelow(queue[1..], m') && Accounted(f, dir, m', queue[1..], segmentBase)
  {
    ListedBelowLast(m, queue[0]);
    AccountedListed(f, dir, m, WithEntry(m, queue[0], 1), queue, segmentBase);
  }

  lemma FirstUploads(f: Framing, x: World, d: World, n: int) returns (e: World)
    requires Lawful(f) && From(f, x, d) && Sinking(f, d, n) && d.sys.process.queue != []
    ensures From(f, x, e) && Sinking(f, e, n) && e.hist.acks == d.hist.acks && e.hist.evicted == d.hist.evicted
    ensures var p, b := d.sys.process, d.sys.process.queue[0];
            e.sys == d.sys.(store := PutEntry(PutSegment(d.sys.store, b), b, 1),
                            process := p.(queue := p.queue[1..], notices := p.notices + [b.baseOffset]))
  {
    var b := d.sys.process.queue[0];
    assert !Listed(d.sys.store.manifest, b.baseOffset);
    var taken := TakesFirst(f, x, d);
    e := ListsFirst(f, x, taken, b);
    FirstSinks(f, d.sys.dir, d.sys.store.manifest, d.sys.process.queue, d.sys.process.writer.segmentBase);
  }

  lemma {:induction false} QueueSinks(f: Framing, x: World, d: World, n: int) returns (e: World)
    requires Lawful(f) && From(f, x, d) && Sinking(f, d, n) && d.sys.process.writer.active == []
    ensures From(f, x, e) && Sinking(f, e, n) && e.hist.acks == d.hist.acks && e.hist.evicted == d.hist.evicted
    ensures e.sys.process.queue == [] && e.sys.process.writer.active == []
    decreases if d.sys.process.Running? then |d.sys.process.queue| else 0
  {
    e := d;
    if d.sys.process.queue != [] {
      var next := FirstUploads(f, x, d, n);
      e := QueueSinks(f, x, next, n);
    }
  }

  // ------------------------------------------------------------------------------------------
  // The next crash

  /** Every file with records is listed. */
  ghost predicate AllListed(f: Framing, dir: WalDir, m: seq<SegmentEntry>) {
    forall b :: b in dir && Records(f, dir, b) != [] ==> Listed(m, b)
  }

  lemma OrphansUnlisted(f: Framing, dir: WalDir, m: seq<SegmentEntry>, p: Progress)
    requires RecoverySound(f, dir, m, p)
    ensures p.orphans != [] ==> exists b :: b in dir && Records(f, dir, b) != [] && !Listed(m, b)
  {
    assert p.orphans != [] ==> OrphanKept(f, dir, m, p.orphans[0], p.nextOffset);
  }

  lemma NothingFoundAgain(f: Framing, dir: WalDir, m: seq<SegmentEntry>, p: Progress)
    requires RecoverySound(f, dir, m, p) && p.todo == [] && AllListed(f, dir, m)
    ensures p.orphans == [] && p.nextOffset == UploadedEnd(m)
  {
    OrphansUnlisted(f, dir, m, p);
  }

  lemma AllListedAgain(f: Framing, dir: WalDir, dir': WalDir, m: seq<SegmentEntry>)
    requires AllListed(f, dir, m) && Visited(f, dir, dir', m)
    ensures AllListed(f, dir', m)
  {
  }

  /** When all is listed, a crash revives nothing and recovery starts at the manifest's end. */
  lemma CrashesToEnd(f: Framing, x: World, d: World, n: int) returns (e: World)
    requires Lawful(f) && From(f, x, d) && Sinking(f, d, n) && AllListed(f, d.sys.dir, d.sys.store.manifest)
    ensures From(f, x, e) && e.hist.acks == d.hist.acks && e.sys.process.Recovering?
    ensures var p := e.sys.process.progress;
            p.todo == [] && p.orphans == [] && p.nextOffset == n
  {
    assert forall b :: b in d.sys.dir ==> !Below(f, d.sys.dir, d.sys.store.manifest, b);
    FromStep(f, x, d, Crash(0));
    var down := Next(f, d, Crash(0));
    e := Recovers(f, x, down);
    AllListedAgain(f, d.sys.dir, e.sys.dir, d.sys.store.manifest);
    NothingFoundAgain(f, e.sys.dir, d.sys.store.manifest, e.sys.process.progress);
  }

  lemma SunkIsListed(f: Framing, d: World, n: int)
    requires Survives(f, d.sys, d.hist) && Sinking(f, d, n) && d.sys.process.queue == [] && d.sys.process.writer.active == []
    ensures AllListed(f, d.sys.dir, d.sys.store.manifest)
  {
    assert HomeOk(f, d.sys.dir, d.sys.process.writer);
  }

  lemma CrashesAndBoots(f: Framing, x: World, d: World, n: int) returns (e: World)
    requires Lawful(f) && From(f, x, d) && Sinking(f, d, n) && d.sys.process.queue == [] && d.sys.process.writer.active == []
    ensures From(f, x, e) && e.hist.acks == d.hist.acks && e.sys.process.Running?
    ensures e.sys.process.writer.stage.Ready? && e.sys.process.writer.nextOffset == n
  {
    SunkIsListed(f, d, n);
    var visited := CrashesToEnd(f, x, d, n);
    var booted := Boots(f, x, visited);
    e := Opens(f, x, booted);
  }

  /** The revived segment takes an acknowledged record and everything is listed, in front of the last entry. */
  lemma RevivalDrains(f: Framing, x: World) returns (d: World)
    requires Lawful(f) && Survives(f, x.sys, x.hist) && x.sys.process.Down?
    requires Sunk(f, x.sys.dir, x.sys.store.manifest) && IsI64(UploadedEnd(x.sys.store.manifest))
    ensures var n := UploadedEnd(x.sys.store.manifest);
            From(f, x, d) && Sinking(f, d, n) && AckedAt(d.hist.acks, n) && d.hist.evicted == x.hist.evicted
    ensures d.sys.process.queue == [] && d.sys.process.writer.active == []
  {
    var n := UploadedEnd(x.sys.store.manifest);
    CanStay(f, NoRevival, x);
    var booted := RevivedBoots(f, x);
    var ready := RevivedOpens(f, x, booted, n);
    var joined := ProbeJoins(f, x, ready, n);
    var sealed := SealsLow(f, x, joined, n);
    d := QueueSinks(f, x, sealed, n);
  }

  /** The run that hands out an offset again. */
  lemma RevivalReissues(f: Framing, x: World) returns (e: World)
    requires Lawful(f) && Survives(f, x.sys, x.hist) && x.sys.process.Down?
    requires Sunk(f, x.sys.dir, x.sys.store.manifest) && IsI64(UploadedEnd(x.sys.store.manifest))
    ensures CanReach(f, NoRevival, x, e) && Reissues(e)
  {
    var drained := RevivalDrains(f, x);
    e := CrashesAndBoots(f, x, drained, UploadedEnd(x.sys.store.manifest));
  }

  /** Were the manifest ordered, everything would lie below its end. */
  lemma OrderedEndsLog(f: Framing, s: System, h: History, n: int)
    requires Survives(f, s, h) && AllListed(f, s.dir, s.store.manifest) && EndBy(h.evicted, n)
    requires UploadedEnd(s.store.manifest) == n
    ensures Ordered(s.store.manifest) ==> EndBy(h.log, n)
  {
    if Ordered(s.store.manifest) {
      forall r | r in h.log ensures r.offset < n {
        assert Safe(f, s.dir, s.store, h.evicted, r);
        if InFile(f, s.dir, r) {
          var b :| b in s.dir && r in Records(f, s.dir, b);
          ListedFileEnds(f, s.dir, s.store, b);
        } else if InListed(s.store, r) {
          var b :| Listed(s.store.manifest, b) && r in Rows(s.store.objects, b);
          RowsEnd(s.store, b);
        }
      }
    }
  }

  lemma AckedInLog(acks: seq<Ack>, log: seq<Record>, sent: seq<seq<Record>>, n: int)
    requires AcksKept(acks, log, sent) && AckedAt(acks, n)
    ensures !EndBy(log, n)
  {
    var i :| 0 <= i < |acks| && Covers(acks[i].ticket, n);
    var t := acks[i].ticket;
    assert TicketKept(t, log, sent, acks[i].value + 1);
    assert sent[t.id][n - t.base] in log;
  }

  /** The run that puts the manifest out of order. */
  lemma RevivalDisorders(f: Framing, x: World) returns (d: World)
    requires Lawful(f) && Survives(f, x.sys, x.hist) && x.sys.process.Down?
    requires Sunk(f, x.sys.dir, x.sys.store.manifest) && IsI64(UploadedEnd(x.sys.store.manifest))
    requires EndBy(x.hist.evicted, UploadedEnd(x.sys.store.manifest))
    ensures CanReach(f, NoRevival, x, d) && !Ordered(d.sys.store.manifest)
  {
    var n := UploadedEnd(x.sys.store.manifest);
    d := RevivalDrains(f, x);
    SunkIsListed(f, d, n);
    OrderedEndsLog(f, d.sys, d.hist, n);
    AckedInLog(d.hist.acks, d.hist.log, d.hist.sent, n);
  }

  /** What the crash leaves when it revives a segment, and what follows when it does not. */
  lemma RevivingCrash(f: Framing, c: World, cut: nat)
    requires Lawful(f) && Steady(f, c) && c.sys.process.Running? && Enabled(f, c.sys, Crash(cut))
    ensures var x := Next(f, c, Crash(cut));
            && Survives(f, x.sys, x.hist) && EndBy(x.hist.evicted, UploadedEnd(x.sys.store.manifest))
            && (if Revives(f, x.sys.dir, c.sys.store.manifest) then Sunk(f, x.sys.dir, x.sys.store.manifest)
                else Fresh(f, x.sys, x.hist))
  {
    var x := Next(f, c, Crash(cut));
    SteadyFresh(f, c);
    StepSurvives(f, c, Crash(cut));
    CrashDiskFresh(f, c.sys, c.hist, cut);
    if Revives(f, x.sys.dir, c.sys.store.manifest) {
      RevivesSunk(f, x.sys.dir, x.sys.store, x.hist.evicted);
    }
  }

  lemma FreshStays(f: Framing, x: World, d: World)
    requires Lawful(f) && Survives(f, x.sys, x.hist) && Fresh(f, x.sys, x.hist) && CanReach(f, NoRevival, x, d)
    ensures !Reissues(d) && Ordered(d.sys.store.manifest)
  {
    var es :| Leads(f, NoRevival, x, es, d);
    RunFresh(f, x, es, d);
    FreshReissuesNothing(f, d);
  }

  /**
   In every running state of every run in which no earlier crash revived a segment: some run after the
   crash, with no further revival, comes to hand out the offset of an acknowledged record again, if and
   only if the crash leaves an unlisted segment below the last listed one and none above it, so that
   recovery makes it the active segment. (The manifest's end must be an `i64`, as its type says.)
   */
  lemma ReissueIffRevival(f: Framing, c: World, cut: nat)
    requires Lawful(f) && Steady(f, c) && c.sys.process.Running? && Enabled(f, c.sys, Crash(cut))
    requires IsI64(UploadedEnd(c.sys.store.manifest))
    ensures (exists d :: CanReach(f, NoRevival, Next(f, c, Crash(cut)), d) && Reissues(d))
       <==> Revives(f, CrashStep(f, c.sys, cut).dir, c.sys.store.manifest)
  {
    var x := Next(f, c, Crash(cut));
    RevivingCrash(f, c, cut);
    if Revives(f, x.sys.dir, c.sys.store.manifest) {
      var e := RevivalReissues(f, x);
    } else {
      forall d | CanReach(f, NoRevival, x, d) ensures !Reissues(d) {
        FreshStays(f, x, d);
      }
    }
  }

  /** The same condition decides whether the manifest, which every lookup takes to be ordered, can get out of order. */
  lemma DisorderIffRevival(f: Framing, c: World, cut: nat)
    requires Lawful(f) && Steady(f, c) && c.sys.process.Running? && Enabled(f, c.sys, Crash(cut))
    requires IsI64(UploadedEnd(c.sys.store.manifest))
    ensures (exists d :: CanReach(f, NoRevival, Next(f, c, Crash(cut)), d) && !Ordered(d.sys.store.manifest))
       <==> Revives(f, CrashStep(f, c.sys, cut).dir, c.sys.store.manifest)
  {
    var x := Next(f, c, Crash(cut));
    RevivingCrash(f, c, cut);
    if Revives(f, x.sys.dir, c.sys.store.manifest) {
      var d := RevivalDisorders(f, x);
    } else {
      forall d | CanReach(f, NoRevival, x, d) ensures Ordered(d.sys.store.manifest) {
        FreshStays(f, x, d);
      }
    }
  }
}
