/** WAL files that outlive their evicted segments: exactly when the log survives them. */
module EvictionTheorems {
  import opened Bytes
  import opened WalFrame
  import opened Wal
  import opened Manifest
  import opened Recovery
  import opened Writer
  import opened Uploads
  import opened Partition
  import opened PartitionInvariant
  import opened PartitionLogging
  import opened RecoverySteps
  import opened PartitionRuns
  import opened PartitionTheorems
  import opened LogTheorems

  // ------------------------------------------------------------------------------------------
  // Whatever recovery finds in an uncovered file is served again

  lemma {:induction false} ContributionHas(f: Framing, dir: WalDir, uploaded: seq<SegmentEntry>, bases: seq<int>, i: nat)
    requires AllIn(bases, dir) && i < |bases| && Found(f, dir, uploaded, bases[i]) != []
    ensures Orphan(bases[i], Found(f, dir, uploaded, bases[i])) in Contribution(f, dir, uploaded, bases)
  {
    if i > 0 {
      assert AllIn(bases[1..], dir);
      ContributionHas(f, dir, uploaded, bases[1..], i - 1);
    }
  }

  lemma RebuiltHas(store: Store, orphans: seq<Orphan>, next: int, o: Orphan, r: Record)
    requires o in orphans && r in o.records
    ensures r in Rebuilt(store, Finish(Progress([], store.manifest, orphans, next)))
  {
    var i :| 0 <= i < |orphans| && orphans[i] == o;
    if i < |orphans| - 1 {
      var rest := orphans[..|orphans| - 1];
      assert OrphanParts(rest)[i] == o.records;
      ConcatHas(OrphanParts(rest), i, r);
    }
  }

  /** Every record of every uncovered file is in what recovery serves, for any directory and manifest. */
  lemma RecoveredFileIsServed(f: Framing, dir: WalDir, store: Store, bases: seq<int>, stuck: set<int>, b: int, r: Record)
    requires Enumerates(bases, dir) && b in dir && r in Found(f, dir, store.manifest, b)
    ensures r in Rebuilt(store, Recover(f, dir, store.manifest, bases, stuck).1)
  {
    RecoverClosed(f, dir, store.manifest, bases, stuck);
    var i :| 0 <= i < |bases| && bases[i] == b;
    ContributionHas(f, dir, store.manifest, bases, i);
    var c := Contribution(f, dir, store.manifest, bases);
    RebuiltHas(store, c, NextAfter(UploadedEnd(store.manifest), c), Orphan(b, Found(f, dir, store.manifest, b)), r);
  }

  // ------------------------------------------------------------------------------------------
  // The exact condition

  /** A left-over file holds evicted records only, and the manifest does not cover it. */
  lemma LeftoverHolds(f: Framing, dir: WalDir, store: Store, log: seq<Record>, low: int, tail: seq<int>, b: int)
    requires Lawful(f) && Durable(f, dir, store, log, low, tail) && Leftover(dir, store.manifest, b)
    requires CleanFile(f, dir[b], b, UploadedEnd(store.manifest))
    ensures 0 <= b < low <= |log| && log[b] in Found(f, dir, store.manifest, b)
  {
    LowInLog(store, log, low);
    LowBelowUploaded(store, log, low);
    BelowUploadedNotInTail(tail, UploadedEnd(store.manifest), |log|, b);
    NotListedBelow(store.manifest, b);
    NotEmptyHolds(f, dir[b], b, UploadedEnd(store.manifest));
    assert !Repeats(f, dir, store.manifest, log, b);
    assert Outlived(f, dir, log, low, b);
    assert Scan(f, dir[b]).records[0] == log[b];
  }

  lemma NotListedBelow(m: seq<SegmentEntry>, b: int)
    requires Ordered(m) && m != [] && b < m[0].baseOffset
    ensures !Listed(m, b)
  {
    forall i | 0 <= i < |m| ensures m[i].baseOffset != b {
      assert 0 < i ==> m[0].lastOffset < m[i].baseOffset;
    }
  }

  lemma NotEmptyHolds(f: Framing, bytes: seq<byte>, base: int, uploaded: int)
    requires Lawful(f) && CleanFile(f, bytes, base, uploaded) && bytes != []
    ensures Scan(f, bytes).records != []
  {
    ScanCanonical(f, bytes);
    assert bytes[..|bytes|] == bytes;
  }

  lemma NotServedBelow(log: seq<Record>, low: int, b: int)
    requires LogOk(log) && 0 <= b < low <= |log|
    ensures log[b] !in log[low..]
  {
    forall j | 0 <= j < |log[low..]| ensures log[low..][j] != log[b] {
      assert log[low..][j].offset == low + j;
    }
  }

  /** A crash leaves every file below the uploaded end as it was. */
  lemma CrashSparesListed(f: Framing, s: System, h: History, cut: nat, b: int)
    requires Inv(f, s, h) && s.process.Running? && TornCut(f, s, cut) && b in s.dir && b < UploadedEnd(s.store.manifest)
    ensures b in CrashStep(f, s, cut).dir && CrashStep(f, s, cut).dir[b] == s.dir[b]
  {
    if cut > 0 { WriterFile(f, s, h); }
  }

  /** Only the writer's own file, above everything listed, can end in a torn record. */
  lemma BelowUploadedClean(f: Framing, s: System, h: History, b: int)
    requires Inv(f, s, h) && s.process.Running? && b in s.dir && Leftover(s.dir, s.store.manifest, b)
    ensures CleanFile(f, s.dir[b], b, UploadedEnd(s.store.manifest))
  {
    var w := s.process.writer;
    LowBelowUploaded(s.store, h.log, h.low);
    ActiveAboveUploaded(w.active, w.segmentBase, h.log, h.tail, UploadedEnd(s.store.manifest));
    assert w.stage.Dead? ==> b !in [w.walBase];
  }

  lemma LeftoverBreaks(f: Framing, s: System, h: History, cut: nat, bases: seq<int>, stuck: set<int>, b: int)
    requires Lawful(f) && Inv(f, s, h) && s.process.Running? && TornCut(f, s, cut)
    requires Enumerates(bases, CrashStep(f, s, cut).dir) && Leftover(s.dir, s.store.manifest, b)
    ensures var down := CrashStep(f, s, cut);
            var log := h.log + Torn(f, s, cut);
            && 0 <= h.low <= |log|
            && Rebuilt(down.store, Recover(f, down.dir, down.store.manifest, bases, stuck).1) != log[h.low..]
  {
    var down, log := CrashStep(f, s, cut), h.log + Torn(f, s, cut);
    BelowUploadedClean(f, s, h, b);
    LeftoverHolds(f, s.dir, s.store, h.log, h.low, h.tail, b);
    LowBelowUploaded(s.store, h.log, h.low);
    CrashSparesListed(f, s, h, cut, b);
    RecoveredFileIsServed(f, down.dir, down.store, bases, stuck, b, h.log[b]);
    TornLogOk(f, s, h, cut);
    NotServedBelow(log, h.low, b);
    assert log[b] == h.log[b];
  }

  lemma TornLogOk(f: Framing, s: System, h: History, cut: nat)
    requires Inv(f, s, h) && s.process.Running? && TornCut(f, s, cut)
    ensures LogOk(h.log + Torn(f, s, cut))
  {
    LogOkExtends(h.log, Torn(f, s, cut));
  }

  /**
   Let retention evict segments whose WAL files are still there, any number of times, and crash at any
   later point: recovery serves exactly the unevicted log, with the whole records of the torn batch, if
   and only if no evicted segment's file is left when the crash comes. A pass does not look: the
   durable notice that removes the file may still be queued when it runs.
   */
  lemma RecoveryExactIff(f: Framing, c: World, cut: nat, bases: seq<int>, stuck: set<int>)
    requires Lawful(f) && Reachable(f, c) && c.sys.process.Running? && Enabled(f, c.sys, Crash(cut))
    requires Enumerates(bases, CrashStep(f, c.sys, cut).dir)
    ensures var down := CrashStep(f, c.sys, cut);
            var log := c.hist.log + Torn(f, c.sys, cut);
            && 0 <= c.hist.low <= |log|
            && (Rebuilt(down.store, Recover(f, down.dir, down.store.manifest, bases, stuck).1) == log[c.hist.low..]
                <==> NothingLeftOver(c.sys.dir, c.sys.store.manifest))
  {
    ReachableInv(f, c);
    if NothingLeftOver(c.sys.dir, c.sys.store.manifest) {
      RebuildsAfterCrash(f, c.sys, c.hist, cut, bases, stuck);
    } else {
      var b :| b in c.sys.dir && Leftover(c.sys.dir, c.sys.store.manifest, b);
      LeftoverBreaks(f, c.sys, c.hist, cut, bases, stuck, b);
    }
  }
}
