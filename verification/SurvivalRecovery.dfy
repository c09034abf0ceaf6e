/** Restart, the recovery loop and boot keep what `Survival` states, and with it every step and every run. */
module SurvivalRecovery {
  import opened WalFrame
  import opened Wal
  import opened Manifest
  import opened Recovery
  import opened Writer
  import opened Uploads
  import opened Partition
  import opened PartitionInvariant
  import opened PartitionRuns
  import opened Survival
  import opened SurvivalSteps
  import opened SurvivalUploads

  // ------------------------------------------------------------------------------------------
  // Restart and the loop

  /** A listed base lies below the end of the manifest, so its file is covered. */
  lemma ListedCovered(store: Store, b: int)
    requires ManifestSound(store) && Listed(store.manifest, b)
    ensures b < UploadedEnd(store.manifest) && Covered(store.manifest, b)
  {
    var m := store.manifest;
    var i :| 0 <= i < |m| && m[i].baseOffset == b;
    var last := |m| - 1;
    assert Describes(m[last], Rows(store.objects, m[last].baseOffset));
    assert i < last ==> m[i].baseOffset < m[last].baseOffset;
  }

  lemma RestartSurvives(f: Framing, s: System, h: History, bases: seq<int>)
    requires Survives(f, s, h) && s.process.Down? && Enumerates(bases, s.dir)
    ensures Survives(f, RestartStep(s, bases), h)
  {
  }

  /** Visiting a file changes no records; it is whole afterwards, or gone. */
  lemma Repaired(f: Framing, dir: WalDir, store: Store, b: int, removes: bool)
    requires Lawful(f) && b in dir && ManifestSound(store) && ListedFiles(f, dir, store)
    ensures var dir' := Repair(f, dir, store.manifest, b, removes);
            && (forall x :: x in dir' ==> x in dir && Records(f, dir', x) == Records(f, dir, x))
            && (forall x :: x in dir && x != b ==> x in dir' && dir'[x] == dir[x])
            && (b in dir' ==> Whole(f, dir', b))
            && (b !in dir' ==> Listed(store.manifest, b))
            && (Covered(store.manifest, b) <==> Listed(store.manifest, b))
  {
    ScanTruncateFixed(f, dir[b]);
    if Listed(store.manifest, b) { ListedCovered(store, b); }
  }

  lemma VisitedDisk(f: Framing, dir: WalDir, store: Store, evicted: seq<Record>, log: seq<Record>, b: int, removes: bool)
    requires Lawful(f) && DiskSound(f, dir, store, evicted, log) && b in dir
    ensures DiskSound(f, Repair(f, dir, store.manifest, b, removes), store, evicted, log)
  {
    var dir' := Repair(f, dir, store.manifest, b, removes);
    Repaired(f, dir, store, b, removes);
    forall r | InFile(f, dir, r) ensures Safe(f, dir', store, evicted, r) {
      var x :| x in dir && r in Records(f, dir, x);
      if x in dir' {
        assert r in Records(f, dir', x);
      } else {
        assert x == b;
        ListedStored(f, dir, store, evicted, b);
        assert Stored(store, evicted, r);
      }
    }
    LogMoves(f, dir, store, evicted, dir', store, evicted, log);
    forall x | x in dir' && Listed(store.manifest, x)
      ensures Whole(f, dir', x) && Within(Records(f, dir', x), Rows(store.objects, x))
    {
      assert x in dir && Within(Records(f, dir, x), Rows(store.objects, x));
    }
  }

  /** The orphans found so far are as they were. */
  lemma OrphansStay(f: Framing, dir: WalDir, dir': WalDir, m: seq<SegmentEntry>, p: Progress, next: int)
    requires OrphansKept(f, dir, m, p) && next >= p.nextOffset
    requires forall i :: 0 <= i < |p.orphans| ==>
               var b := p.orphans[i].base; b in dir ==> b in dir' && Records(f, dir', b) == Records(f, dir, b)
    ensures forall i {:trigger p.orphans[i]} :: 0 <= i < |p.orphans| ==> OrphanKept(f, dir', m, p.orphans[i], next)
  {
    forall i | 0 <= i < |p.orphans| ensures OrphanKept(f, dir', m, p.orphans[i], next) {
      assert OrphanKept(f, dir, m, p.orphans[i], p.nextOffset);
    }
  }

  lemma TodoRest(todo: seq<int>)
    requires Increasing(todo) && todo != []
    ensures todo[0] !in todo[1..] && forall t :: t in todo <==> t == todo[0] || t in todo[1..]
    ensures forall t :: t in todo[1..] ==> todo[0] < t
  {
    forall t | t in todo[1..] ensures todo[0] < t {
      var i :| 0 <= i < |todo[1..]| && todo[1..][i] == t;
      assert todo[i + 1] == t;
    }
    assert todo == [todo[0]] + todo[1..];
  }

  /** The file that holds records and is not listed joins the orphans. */
  lemma FoundOrphan(f: Framing, dir: WalDir, dir': WalDir, m: seq<SegmentEntry>, p: Progress, rs: seq<Record>)
    requires p.todo != [] && Increasing(p.todo) && rs != [] && OrphansKept(f, dir, m, p)
    requires var b := p.todo[0]; b in dir' && Records(f, dir', b) == rs && !Listed(m, b)
    requires forall x :: x in dir && x != p.todo[0] ==> x in dir' && dir'[x] == dir[x]
    ensures OrphansKept(f, dir', m, Note(p, p.todo[0], rs).(todo := p.todo[1..]))
  {
    var b, os := p.todo[0], p.orphans;
    var p' := Note(p, b, rs).(todo := p.todo[1..]);
    TodoRest(p.todo);
    forall i | 0 <= i < |os| ensures os[i].base < b && os[i].base in dir {
      assert b in p.todo && OrphanKept(f, dir, m, os[i], p.nextOffset);
    }
    OrphansStay(f, dir, dir', m, p, p'.nextOffset);
    forall i | 0 <= i < |p'.orphans| ensures OrphanKept(f, dir', m, p'.orphans[i], p'.nextOffset) {
      if i < |os| { assert p'.orphans[i] == os[i]; }
    }
  }

  lemma NothingFound(f: Framing, dir: WalDir, dir': WalDir, m: seq<SegmentEntry>, p: Progress)
    requires p.todo != [] && Increasing(p.todo) && OrphansKept(f, dir, m, p)
    requires forall x :: x in dir && x != p.todo[0] ==> x in dir' && dir'[x] == dir[x]
    ensures OrphansKept(f, dir', m, p.(todo := p.todo[1..]))
  {
    TodoRest(p.todo);
    forall i | 0 <= i < |p.orphans| ensures p.orphans[i].base < p.todo[0] {
      assert p.todo[0] in p.todo;
    }
    OrphansStay(f, dir, dir', m, p, p.nextOffset);
  }

  lemma VisitedOrphans(f: Framing, dir: WalDir, store: Store, p: Progress, removes: bool)
    requires Lawful(f) && ManifestSound(store) && ListedFiles(f, dir, store) && RecoverySound(f, dir, store.manifest, p)
    requires p.todo != [] && p.todo[0] in dir
    ensures OrphansKept(f, Repair(f, dir, p.uploaded, p.todo[0], removes), store.manifest, Visit(f, dir, p))
  {
    var b := p.todo[0];
    var dir' := Repair(f, dir, p.uploaded, b, removes);
    var rs := Found(f, dir, p.uploaded, b);
    Repaired(f, dir, store, b, removes);
    if rs == [] {
      NothingFound(f, dir, dir', store.manifest, p);
    } else {
      FoundOrphan(f, dir, dir', store.manifest, p, rs);
    }
  }

  lemma VisitedFiles(f: Framing, dir: WalDir, store: Store, p: Progress, removes: bool)
    requires Lawful(f) && ManifestSound(store) && ListedFiles(f, dir, store) && RecoverySound(f, dir, store.manifest, p)
    requires p.todo != [] && p.todo[0] in dir
    ensures VisitedOk(f, Repair(f, dir, p.uploaded, p.todo[0], removes), store.manifest, Visit(f, dir, p))
  {
    var m, b := store.manifest, p.todo[0];
    var dir', p' := Repair(f, dir, p.uploaded, b, removes), Visit(f, dir, p);
    Repaired(f, dir, store, b, removes);
    TodoRest(p.todo);
    forall x | x in dir' && x !in p'.todo
      ensures Whole(f, dir', x) && (Listed(m, x) || Records(f, dir', x) == [] || Orphan(x, Records(f, dir', x)) in p'.orphans)
    {
      if x != b {
        assert x in dir && x !in p.todo && dir'[x] == dir[x];
        assert Whole(f, dir, x);
      }
    }
  }

  lemma VisitedNext(f: Framing, dir: WalDir, m: seq<SegmentEntry>, p: Progress)
    requires NextOk(m, p) && p.todo != [] && p.todo[0] in dir
    ensures NextOk(m, Visit(f, dir, p))
  {
    var p' := Visit(f, dir, p);
    if i :| 0 <= i < |p.orphans| && EndsAt(p.orphans[i], p.nextOffset) {
      assert p'.orphans[i] == p.orphans[i];
    }
    if p'.nextOffset != p.nextOffset {
      assert EndsAt(p'.orphans[|p.orphans|], p'.nextOffset);
    }
  }

  lemma VisitedRecovery(f: Framing, dir: WalDir, store: Store, p: Progress, removes: bool)
    requires Lawful(f) && ManifestSound(store) && ListedFiles(f, dir, store) && RecoverySound(f, dir, store.manifest, p)
    requires p.todo != [] && p.todo[0] in dir
    ensures RecoverySound(f, Repair(f, dir, p.uploaded, p.todo[0], removes), store.manifest, Visit(f, dir, p))
  {
    VisitKeepsVisitable(f, dir, p, removes);
    VisitedFiles(f, dir, store, p, removes);
    VisitedOrphans(f, dir, store, p, removes);
    VisitedNext(f, dir, store.manifest, p);
  }

  lemma VisitSurvives(f: Framing, s: System, h: History, ok: bool)
    requires Lawful(f) && Survives(f, s, h) && s.process.Recovering?
    requires s.process.progress.todo != [] && s.process.progress.todo[0] in s.dir
    ensures Survives(f, VisitStep(f, s, ok), h)
  {
    var p := s.process.progress;
    VisitedDisk(f, s.dir, s.store, h.evicted, h.log, p.todo[0], ok);
    VisitedRecovery(f, s.dir, s.store, p, ok);
  }

  // ------------------------------------------------------------------------------------------
  // Boot

  /** An orphan becomes a batch or the active segment: its records start at its base and end below the next offset. */
  lemma OrphanRange(f: Framing, dir: WalDir, m: seq<SegmentEntry>, o: Orphan, next: int)
    requires OrphanKept(f, dir, m, o, next) && FilesNamed(f, dir)
    ensures Named(o.records, o.base) && o.records[0].offset == o.base < next
    ensures forall i :: 0 <= i < |o.records| ==> o.records[i].offset < next
  {
    assert Named(Records(f, dir, o.base), o.base);
    var last := |o.records| - 1;
    assert forall i :: 0 <= i < last ==> o.records[i].offset < o.records[last].offset;
  }

  lemma BootedBases(f: Framing, dir: WalDir, store: Store, p: Progress)
    requires RecoverySound(f, dir, store.manifest, p) && ManifestSound(store) && FilesNamed(f, dir) && p.todo == []
    ensures BasesLower(f, dir, store.manifest, p.nextOffset)
  {
    forall b | Listed(store.manifest, b) ensures b < p.nextOffset {
      ListedCovered(store, b);
    }
    forall b | b in dir && Records(f, dir, b) != [] ensures b < p.nextOffset {
      assert b !in p.todo;
      if !Listed(store.manifest, b) {
        var i :| 0 <= i < |p.orphans| && p.orphans[i] == Orphan(b, Records(f, dir, b));
        OrphanRange(f, dir, store.manifest, p.orphans[i], p.nextOffset);
      }
    }
  }

  lemma BootedWriter(f: Framing, dir: WalDir, store: Store, p: Progress)
    requires RecoverySound(f, dir, store.manifest, p) && ManifestSound(store) && FilesNamed(f, dir) && p.todo == []
    ensures var r := Finish(p);
            && WriterSound(f, dir, New(r.nextOffset, r.active), store.manifest)
            && (p.orphans != [] ==> New(r.nextOffset, r.active).segmentBase == p.orphans[|p.orphans| - 1].base)
  {
    var r := Finish(p);
    var w := New(r.nextOffset, r.active);
    BootedBases(f, dir, store, p);
    if p.orphans != [] {
      var o := p.orphans[|p.orphans| - 1];
      OrphanRange(f, dir, store.manifest, o, p.nextOffset);
    }
  }

  lemma RequeuedKept(f: Framing, dir: WalDir, m: seq<SegmentEntry>, o: Orphan, next: int)
    requires OrphanKept(f, dir, m, o, next) && FilesNamed(f, dir)
    ensures BatchKept(f, dir, Batch(o.records).(baseOffset := o.base), next)
  {
    OrphanRange(f, dir, m, o, next);
  }

  lemma BootedUploads(f: Framing, dir: WalDir, store: Store, evicted: seq<Record>, p: Progress, segmentBase: int)
    requires RecoverySound(f, dir, store.manifest, p) && FilesNamed(f, dir)
    requires forall i :: 0 <= i < |p.orphans| ==> p.orphans[i].records != []
    requires p.orphans != [] ==> segmentBase == p.orphans[|p.orphans| - 1].base
    ensures UploadsSound(f, dir, store, evicted, Idle, Requeue(Finish(p).orphans), [], segmentBase, p.nextOffset)
  {
    var os := Finish(p).orphans;
    var queue := Requeue(os);
    assert Held(Idle) + queue == queue;
    forall i | 0 <= i < |queue|
      ensures BatchKept(f, dir, queue[i], p.nextOffset) && !Listed(store.manifest, queue[i].baseOffset)
              && queue[i].baseOffset == p.orphans[i].base != segmentBase
    {
      assert OrphanKept(f, dir, store.manifest, p.orphans[i], p.nextOffset);
      RequeuedKept(f, dir, store.manifest, p.orphans[i], p.nextOffset);
    }
  }

  lemma BootSurvives(f: Framing, s: System, h: History)
    requires Survives(f, s, h) && s.process.Recovering? && s.process.progress.todo == []
    requires var os := s.process.progress.orphans;
             forall i :: 0 <= i < |os| ==> os[i].records != []
    ensures Survives(f, BootStep(s), h)
  {
    var p := s.process.progress;
    var r := Finish(p);
    BootedWriter(f, s.dir, s.store, p);
    BootedUploads(f, s.dir, s.store, h.evicted, p, New(r.nextOffset, r.active).segmentBase);
  }

  // ------------------------------------------------------------------------------------------
  // Every step, every run

  lemma WriterStepSurvives(f: Framing, s: System, h: History, e: Event)
    requires Lawful(f) && Survives(f, s, h) && Enabled(f, s, e) && Admitted(s, e)
    requires e.Produce? || e.Flush? || e.Seal? || e.Open? || e.DropWal? || e.Panic?
    ensures Survives(f, Apply(f, s, e), Observe(f, s, h, e))
  {
    if e.Produce? {
      ProduceSurvives(f, s, h, e.incoming, e.clocks);
    } else if e.Flush? {
      FlushSurvives(f, s, h);
    } else if e.Seal? {
      SealSurvives(f, s, h);
    } else if e.Open? {
      OpenSurvives(f, s, h);
    } else if e.DropWal? {
      DropSurvives(f, s, h, e.ok);
    } else {
      PanicSurvives(f, s, h, e.cut);
    }
  }

  lemma UploaderStepSurvives(f: Framing, s: System, h: History, e: Event)
    requires Lawful(f) && Survives(f, s, h) && Enabled(f, s, e)
    requires e.TakeBatch? || e.PutObject? || e.PutManifest? || e.Notify? || e.Evict? || e.DeleteObject?
    ensures Survives(f, Apply(f, s, e), Observe(f, s, h, e))
  {
    if e.TakeBatch? {
      TakeSurvives(f, s, h);
    } else if e.PutObject? {
      PutObjectSurvives(f, s, h);
    } else if e.PutManifest? {
      PutManifestSurvives(f, s, h, e.byteSize);
    } else if e.Notify? {
      NotifySurvives(f, s, h);
    } else if e.Evict? {
      EvictSurvives(f, s, h, e.count);
    } else {
      DeleteSurvives(f, s, h, e.ok);
    }
  }

  lemma RecoveryStepSurvives(f: Framing, s: System, h: History, e: Event)
    requires Lawful(f) && Survives(f, s, h) && Enabled(f, s, e)
    requires e.Crash? || e.Restart? || e.VisitFile? || e.Boot?
    ensures Survives(f, Apply(f, s, e), Observe(f, s, h, e))
  {
    if e.Crash? {
      CrashSurvives(f, s, h, e.cut);
    } else if e.Restart? {
      RestartSurvives(f, s, h, e.bases);
    } else if e.VisitFile? {
      VisitSurvives(f, s, h, e.ok);
    } else {
      BootSurvives(f, s, h);
    }
  }

  /** Every step keeps it, a crash with any files on disk included. */
  lemma StepSurvives(f: Framing, c: World, e: Event)
    requires Lawful(f) && Survives(f, c.sys, c.hist) && Enabled(f, c.sys, e) && Admitted(c.sys, e)
    ensures Survives(f, Next(f, c, e).sys, Next(f, c, e).hist)
  {
    if e.Crash? || e.Restart? || e.VisitFile? || e.Boot? {
      RecoveryStepSurvives(f, c.sys, c.hist, e);
    } else if e.Produce? || e.Flush? || e.Seal? || e.Open? || e.DropWal? || e.Panic? {
      WriterStepSurvives(f, c.sys, c.hist, e);
    } else {
      UploaderStepSurvives(f, c.sys, c.hist, e);
    }
  }

  lemma {:induction false} RunSurvives(f: Framing, care: Care, c: World, es: seq<Event>)
    requires Lawful(f) && Survives(f, c.sys, c.hist) && Possible(f, c, es) && GuardedRun(f, care, c, es)
    ensures Survives(f, After(f, c, es).sys, After(f, c, es).hist)
    decreases |es|
  {
    if es != [] {
      StepSurvives(f, c, es[0]);
      RunSurvives(f, care, Next(f, c, es[0]), es[1..]);
    }
  }

  lemma AttainableSurvives(f: Framing, c: World)
    requires Lawful(f) && Attainable(f, c)
    ensures Survives(f, c.sys, c.hist)
  {
    var es :| Leads(f, AnyCrash, Initial(), es, c);
    SurvivesInitially(f);
    RunSurvives(f, AnyCrash, Initial(), es);
  }
}
