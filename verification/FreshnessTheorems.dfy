/** Which offsets are handed out: each once, until a crash revives a segment. */
module FreshnessTheorems {
  import opened WalFrame
  import opened Wal
  import opened Manifest
  import opened Recovery
  import opened Writer
  import opened Uploads
  import opened Partition
  import opened PartitionInvariant
  import opened PartitionLogging
  import opened RecoverySteps
  import opened PartitionRuns
  import opened Survival
  import opened SurvivalSteps
  import opened SurvivalUploads
  import opened SurvivalRecovery
  import opened Freshness

  // ------------------------------------------------------------------------------------------
  // Every step, every run

  /** Neither the files, the manifest, the log nor the current segment change. */
  lemma OtherStepsFresh(f: Framing, s: System, h: History, e: Event)
    requires Fresh(f, s, h) && Enabled(f, s, e)
    requires e.Produce? || e.TakeBatch? || e.PutObject? || e.Notify? || e.DeleteObject? || e.Restart?
    ensures Fresh(f, Apply(f, s, e), Observe(f, s, h, e))
  {
  }

  lemma CrashFresh(f: Framing, s: System, h: History, cut: nat)
    requires Lawful(f) && Survives(f, s, h) && Fresh(f, s, h)
    requires s.process.Running? ==> TornCut(f, s, cut) && !Revives(f, CrashStep(f, s, cut).dir, s.store.manifest)
    ensures Fresh(f, CrashStep(f, s, cut), CrashSeen(f, s, h, cut))
  {
    CrashDiskFresh(f, s, h, cut);
  }

  lemma WriterStepFresh(f: Framing, s: System, h: History, e: Event)
    requires Lawful(f) && Survives(f, s, h) && Fresh(f, s, h) && Enabled(f, s, e) && Admitted(s, e)
    requires e.Flush? || e.Seal? || e.Open? || e.DropWal? || e.Panic?
    ensures Fresh(f, Apply(f, s, e), Observe(f, s, h, e))
  {
    if e.Flush? {
      FlushFresh(f, s, h);
    } else if e.Seal? {
      SealFresh(f, s, h);
    } else if e.Open? {
      OpenFresh(f, s, h);
    } else if e.DropWal? {
      DropFresh(f, s, h, e.ok);
    } else {
      PanicFresh(f, s, h, e.cut);
    }
  }

  lemma StoreStepFresh(f: Framing, s: System, h: History, e: Event)
    requires Lawful(f) && Survives(f, s, h) && Fresh(f, s, h) && Enabled(f, s, e) && Guarded(f, NoRevival, s, e)
    requires e.PutManifest? || e.Evict? || e.Crash? || e.VisitFile? || e.Boot?
    ensures Fresh(f, Apply(f, s, e), Observe(f, s, h, e))
  {
    if e.PutManifest? {
      PutManifestFresh(f, s, h, e.byteSize);
    } else if e.Evict? {
      EvictFresh(f, s, h, e.count);
    } else if e.Crash? {
      CrashFresh(f, s, h, e.cut);
    } else if e.VisitFile? {
      VisitFresh(f, s, h, e.ok);
    } else {
      BootFresh(f, s, h);
    }
  }

  lemma StepFresh(f: Framing, c: World, e: Event)
    requires Lawful(f) && Survives(f, c.sys, c.hist) && Fresh(f, c.sys, c.hist)
    requires Enabled(f, c.sys, e) && Guarded(f, NoRevival, c.sys, e)
    ensures Fresh(f, Next(f, c, e).sys, Next(f, c, e).hist)
  {
    if e.Flush? || e.Seal? || e.Open? || e.DropWal? || e.Panic? {
      WriterStepFresh(f, c.sys, c.hist, e);
    } else if e.PutManifest? || e.Evict? || e.Crash? || e.VisitFile? || e.Boot? {
      StoreStepFresh(f, c.sys, c.hist, e);
    } else {
      OtherStepsFresh(f, c.sys, c.hist, e);
    }
  }

  lemma {:induction false} RunFresh(f: Framing, c: World, es: seq<Event>, d: World)
    requires Lawful(f) && Survives(f, c.sys, c.hist) && Fresh(f, c.sys, c.hist) && Leads(f, NoRevival, c, es, d)
    ensures Survives(f, d.sys, d.hist) && Fresh(f, d.sys, d.hist)
    decreases |es|
  {
    if es != [] {
      StepSurvives(f, c, es[0]);
      StepFresh(f, c, es[0]);
      RunFresh(f, Next(f, c, es[0]), es[1..], d);
    }
  }

  lemma SteadyFresh(f: Framing, c: World)
    requires Lawful(f) && Steady(f, c)
    ensures Survives(f, c.sys, c.hist) && Fresh(f, c.sys, c.hist)
  {
    var es :| Leads(f, NoRevival, Initial(), es, c);
    SurvivesInitially(f);
    FreshInitially(f);
    RunFresh(f, Initial(), es, c);
  }

  // ------------------------------------------------------------------------------------------
  // Without left-over files nothing is revived

  /** With no evicted record in a file, an unlisted file with records is behind the manifest's end. */
  lemma UnlistedBehind(f: Framing, dir: WalDir, store: Store, log: seq<Record>, low: int, tail: seq<int>, b: int)
    requires Durable(f, dir, store, log, low, tail) && NoneOutlived(f, dir, low) && b in dir
    requires Scan(f, dir[b]).records != [] && !Listed(store.manifest, b)
    ensures b >= UploadedEnd(store.manifest)
  {
    assert !Stale(f, dir, store.manifest, b) && !Repeats(f, dir, store.manifest, log, b) && !Outlived(f, dir, log, low, b);
    assert b in tail;
  }

  lemma NothingBelow(f: Framing, dir: WalDir, store: Store, log: seq<Record>, low: int, tail: seq<int>, b: int)
    requires Durable(f, dir, store, log, low, tail) && NoneOutlived(f, dir, low) && b in dir
    ensures !Below(f, dir, store.manifest, b)
  {
    var m := store.manifest;
    if m != [] { assert EntryOk(store.objects, log, m[|m| - 1]); }
    if Scan(f, dir[b]).records != [] && !Listed(m, b) { UnlistedBehind(f, dir, store, log, low, tail, b); }
  }

  lemma NothingRevived(f: Framing, s: System, h: History, cut: nat)
    requires Lawful(f) && Inv(f, s, h) && s.process.Running? && TornCut(f, s, cut) && NothingLeftOver(s.dir, s.store.manifest)
    ensures !Revives(f, CrashStep(f, s, cut).dir, s.store.manifest)
  {
    CrashKeeps(f, s, h, cut);
    var h' := CrashSeen(f, s, h, cut);
    var dir' := CrashStep(f, s, cut).dir;
    forall b | b in dir' ensures !Below(f, dir', s.store.manifest, b) {
      NothingBelow(f, dir', s.store, h'.log, h'.low, h'.tail, b);
    }
  }

  lemma StepIsSteady(f: Framing, c: World, e: Event)
    requires Lawful(f) && Inv(f, c.sys, c.hist) && Enabled(f, c.sys, e) && Guarded(f, NothingLeft, c.sys, e)
    ensures Guarded(f, NoRevival, c.sys, e)
  {
    if e.Crash? && c.sys.process.Running? { NothingRevived(f, c.sys, c.hist, e.cut); }
  }

  lemma {:induction false} NothingLeftIsSteady(f: Framing, c: World, es: seq<Event>)
    requires Lawful(f) && Inv(f, c.sys, c.hist) && Possible(f, c, es) && GuardedRun(f, NothingLeft, c, es)
    ensures GuardedRun(f, NoRevival, c, es)
    decreases |es|
  {
    if es != [] {
      StepIsSteady(f, c, es[0]);
      StepKeeps(f, c, es[0]);
      NothingLeftIsSteady(f, Next(f, c, es[0]), es[1..]);
    }
  }

  /** A run whose crashes find no left-over file revives nothing, so what follows holds of it too. */
  lemma ReachableIsSteady(f: Framing, c: World)
    requires Lawful(f) && Reachable(f, c)
    ensures Steady(f, c)
  {
    var es :| Leads(f, NothingLeft, Initial(), es, c);
    InvInitially(f);
    NothingLeftIsSteady(f, Initial(), es);
    assert Leads(f, NoRevival, Initial(), es, c);
  }

  // ------------------------------------------------------------------------------------------
  // Offsets

  /** The log is in order: no two records that reached the disk have the same offset, and none has a lower one than an earlier. */
  lemma OffsetsRise(f: Framing, c: World, i: nat, j: nat)
    requires Lawful(f) && Steady(f, c) && i < j < |c.hist.log|
    ensures c.hist.log[i].offset < c.hist.log[j].offset
  {
    SteadyFresh(f, c);
  }

  lemma FreshOffsets(f: Framing, s: System, h: History)
    requires Survives(f, s, h) && Fresh(f, s, h) && s.process.Running?
    ensures var end := FlushedEnd(s.process.writer);
            && EndBy(h.log, end) && (forall b :: EndBy(Records(f, s.dir, b), end))
            && (forall i {:trigger s.store.manifest[i]} :: 0 <= i < |s.store.manifest| ==> s.store.manifest[i].lastOffset < end)
  {
    var w, m := s.process.writer, s.store.manifest;
    LogEnds(f, s, h);
    forall b ensures EndBy(Records(f, s.dir, b), FlushedEnd(w)) && UploadedEnd(m) <= FlushedEnd(w) {
      FilesEnd(f, s.dir, w, m, b);
    }
    forall i | 0 <= i < |m| ensures m[i].lastOffset < UploadedEnd(m) {
      BelowUploadedEnd(m, i);
    }
    FilesEnd(f, s.dir, w, m, w.segmentBase);
  }

  /**
   A newly assigned offset lies behind everything that reached the disk, evicted or not, behind every
   offset in a file and every range in the manifest, and behind everything pending.
   */
  lemma NewOffsetsAreFresh(f: Framing, c: World, incoming: seq<Incoming>, clocks: seq<int>, k: nat)
    requires Lawful(f) && Steady(f, c)
    requires Enabled(f, c.sys, Produce(incoming, clocks)) && k < |incoming|
    ensures var s := c.sys;
            var w := s.process.writer;
            var newOffset := StampAll(incoming, clocks, w.nextOffset)[k].offset;
            && EndBy(c.hist.log, newOffset)
            && (forall b :: EndBy(Records(f, s.dir, b), newOffset))
            && (forall i {:trigger s.store.manifest[i]} :: 0 <= i < |s.store.manifest| ==> s.store.manifest[i].lastOffset < newOffset)
            && EndBy(w.pending, newOffset)
  {
    SteadyFresh(f, c);
    FreshOffsets(f, c.sys, c.hist);
  }

  lemma FoundInOrder(store: Store, r: Record)
    requires ManifestSound(store) && Ordered(store.manifest) && InListed(store, r)
    ensures var found := SegmentForOffset(store.manifest, r.offset);
            found.Some? && r in Rows(store.objects, found.value.baseOffset)
  {
    var m := store.manifest;
    var b :| Listed(m, b) && r in Rows(store.objects, b);
    var i :| 0 <= i < |m| && m[i].baseOffset == b;
    RisingEnds(m[i], Rows(store.objects, b));
    RisingStarts(m[i], Rows(store.objects, b), r);
    SegmentForOffsetIff(m, r.offset, i);
  }

  /** The manifest is ordered, and the lookup of a listed record's offset finds the object that holds it. */
  lemma ListedRecordIsFound(f: Framing, c: World, r: Record)
    requires Lawful(f) && Steady(f, c) && InListed(c.sys.store, r)
    ensures Ordered(c.sys.store.manifest)
    ensures var found := SegmentForOffset(c.sys.store.manifest, r.offset);
            found.Some? && r in Rows(c.sys.store.objects, found.value.baseOffset)
  {
    SteadyFresh(f, c);
    FoundInOrder(c.sys.store, r);
  }

  lemma RisingStarts(e: SegmentEntry, rows: seq<Record>, r: Record)
    requires Describes(e, rows) && r in rows
    ensures e.baseOffset <= r.offset
  {
    var j :| 0 <= j < |rows| && rows[j] == r;
    assert j > 0 ==> rows[0].offset < rows[j].offset;
  }
}
