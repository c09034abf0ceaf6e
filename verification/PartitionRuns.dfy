/** The invariant over whole runs. */
module PartitionRuns {
  import opened Wal
  import opened Partition
  import opened PartitionInvariant
  import opened WriterSteps
  import opened UploaderSteps
  import opened RecoverySteps

  lemma WriterStepKeeps(f: Framing, s: System, h: History, e: Event)
    requires Lawful(f) && Inv(f, s, h) && Enabled(f, s, e) && Guarded(f, NothingLeft, s, e)
    requires e.Produce? || e.Flush? || e.Seal? || e.Open? || e.DropWal? || e.Panic?
    ensures Inv(f, Apply(f, s, e), Observe(f, s, h, e))
  {
    if e.Produce? {
      ProduceKeeps(f, s, h, e.incoming, e.clocks);
    } else if e.Flush? {
      FlushKeeps(f, s, h);
    } else if e.Seal? {
      SealKeeps(f, s, h);
    } else if e.Open? {
      OpenKeeps(f, s, h);
    } else if e.DropWal? {
      DropKeeps(f, s, h, e.ok);
    } else {
      PanicKeeps(f, s, h, e.cut);
    }
  }

  lemma UploaderStepKeeps(f: Framing, s: System, h: History, e: Event)
    requires Inv(f, s, h) && Enabled(f, s, e)
    requires e.TakeBatch? || e.PutObject? || e.PutManifest? || e.Notify? || e.Evict? || e.DeleteObject?
    ensures Inv(f, Apply(f, s, e), Observe(f, s, h, e))
  {
    if e.TakeBatch? {
      TakeKeeps(f, s, h);
    } else if e.PutObject? {
      PutObjectKeeps(f, s, h);
    } else if e.PutManifest? {
      PutManifestKeeps(f, s, h, e.byteSize);
    } else if e.Notify? {
      NotifyKeeps(f, s, h);
    } else if e.Evict? {
      EvictKeeps(f, s, h, e.count);
    } else {
      DeleteKeeps(f, s, h, e.ok);
    }
  }

  lemma RecoveryStepKeeps(f: Framing, s: System, h: History, e: Event)
    requires Lawful(f) && Inv(f, s, h) && Enabled(f, s, e) && Guarded(f, NothingLeft, s, e)
    requires e.Crash? || e.Restart? || e.VisitFile? || e.Boot?
    ensures Inv(f, Apply(f, s, e), Observe(f, s, h, e))
  {
    if e.Crash? {
      CrashKeeps(f, s, h, e.cut);
    } else if e.Restart? {
      RestartKeeps(f, s, h, e.bases);
    } else if e.VisitFile? {
      VisitKeeps(f, s, h, e.ok);
    } else {
      BootKeeps(f, s, h);
    }
  }

  lemma StepKeeps(f: Framing, c: World, e: Event)
    requires Lawful(f) && Inv(f, c.sys, c.hist) && Enabled(f, c.sys, e) && Guarded(f, NothingLeft, c.sys, e)
    ensures Inv(f, Next(f, c, e).sys, Next(f, c, e).hist)
  {
    if e.Crash? || e.Restart? || e.VisitFile? || e.Boot? {
      RecoveryStepKeeps(f, c.sys, c.hist, e);
    } else if e.Produce? || e.Flush? || e.Seal? || e.Open? || e.DropWal? || e.Panic? {
      WriterStepKeeps(f, c.sys, c.hist, e);
    } else {
      UploaderStepKeeps(f, c.sys, c.hist, e);
    }
  }

  lemma {:induction false} RunKeeps(f: Framing, c: World, es: seq<Event>)
    requires Lawful(f) && Inv(f, c.sys, c.hist) && Possible(f, c, es) && GuardedRun(f, NothingLeft, c, es)
    ensures Inv(f, After(f, c, es).sys, After(f, c, es).hist)
    decreases |es|
  {
    if es != [] {
      StepKeeps(f, c, es[0]);
      RunKeeps(f, Next(f, c, es[0]), es[1..]);
    }
  }

  /** The invariant holds at the end of every guarded run of the empty partition, crashes included. */
  lemma GuardedRunsKeepInv(f: Framing, es: seq<Event>)
    requires Lawful(f) && Possible(f, Initial(), es) && GuardedRun(f, NothingLeft, Initial(), es)
    ensures Inv(f, After(f, Initial(), es).sys, After(f, Initial(), es).hist)
  {
    InvInitially(f);
    RunKeeps(f, Initial(), es);
  }

  // ------------------------------------------------------------------------------------------
  // Runs from one world to another

  /** A guarded run from one world to another. */
  ghost predicate Leads(f: Framing, care: Care, c: World, es: seq<Event>, d: World) {
    Possible(f, c, es) && GuardedRun(f, care, c, es) && d == After(f, c, es)
  }

  ghost predicate CanReach(f: Framing, care: Care, c: World, d: World) {
    exists es :: Leads(f, care, c, es, d)
  }

  lemma {:induction false} RunExtends(f: Framing, care: Care, c: World, es: seq<Event>, e: Event)
    requires Possible(f, c, es) && GuardedRun(f, care, c, es)
    requires Enabled(f, After(f, c, es).sys, e) && Guarded(f, care, After(f, c, es).sys, e)
    ensures Possible(f, c, es + [e]) && GuardedRun(f, care, c, es + [e])
    ensures After(f, c, es + [e]) == Next(f, After(f, c, es), e)
    decreases |es|
  {
    if es == [] {
      assert es + [e] == [e] && [e][1..] == [];
    } else {
      RunExtends(f, care, Next(f, c, es[0]), es[1..], e);
      assert (es + [e])[1..] == es[1..] + [e];
    }
  }

  lemma CanStay(f: Framing, care: Care, c: World)
    ensures CanReach(f, care, c, c)
  {
    assert Leads(f, care, c, [], c);
  }

  lemma CanStep(f: Framing, care: Care, c: World, d: World, e: Event)
    requires CanReach(f, care, c, d) && Enabled(f, d.sys, e) && Guarded(f, care, d.sys, e)
    ensures CanReach(f, care, c, Next(f, d, e))
  {
    var es :| Leads(f, care, c, es, d);
    RunExtends(f, care, c, es, e);
    assert Leads(f, care, c, es + [e], Next(f, d, e));
  }

  // ------------------------------------------------------------------------------------------
  // Reachable worlds

  /** Some guarded run of the empty partition ends here. */
  ghost predicate Reached(f: Framing, care: Care, c: World) {
    CanReach(f, care, Initial(), c)
  }

  lemma ReachedNext(f: Framing, care: Care, c: World, e: Event)
    requires Reached(f, care, c) && Enabled(f, c.sys, e) && Guarded(f, care, c.sys, e)
    ensures Reached(f, care, Next(f, c, e))
  {
    CanStep(f, care, Initial(), c, e);
  }

  /** By a run whose crashes may find anything on disk. */
  ghost predicate Attainable(f: Framing, c: World) { Reached(f, AnyCrash, c) }

  /** By a run in which no crash revives a segment. */
  ghost predicate Steady(f: Framing, c: World) { Reached(f, NoRevival, c) }

  /** By a run whose crashes find no left-over file. */
  ghost predicate Reachable(f: Framing, c: World) { Reached(f, NothingLeft, c) }

  lemma ReachableInv(f: Framing, c: World)
    requires Lawful(f) && Reachable(f, c)
    ensures Inv(f, c.sys, c.hist)
  {
    var es :| Leads(f, NothingLeft, Initial(), es, c);
    GuardedRunsKeepInv(f, es);
  }

  lemma ReachableNext(f: Framing, c: World, e: Event)
    requires Reachable(f, c) && Enabled(f, c.sys, e) && Guarded(f, NothingLeft, c.sys, e)
    ensures Reachable(f, Next(f, c, e))
  {
    ReachedNext(f, NothingLeft, c, e);
  }

  lemma {:induction false} AnyCare(f: Framing, care: Care, c: World, es: seq<Event>)
    requires Possible(f, c, es) && GuardedRun(f, care, c, es)
    ensures GuardedRun(f, AnyCrash, c, es)
    decreases |es|
  {
    if es != [] {
      AnyCare(f, care, Next(f, c, es[0]), es[1..]);
    }
  }

  lemma ReachedIsAttainable(f: Framing, care: Care, c: World)
    requires Reached(f, care, c)
    ensures Attainable(f, c)
  {
    var es :| Leads(f, care, Initial(), es, c);
    AnyCare(f, care, Initial(), es);
    assert Leads(f, AnyCrash, Initial(), es, c);
  }

  /** One run after another. */
  lemma {:induction false} CanFollow(f: Framing, care: Care, c: World, d: World, es: seq<Event>, e: World)
    requires CanReach(f, care, c, d) && Leads(f, care, d, es, e)
    ensures CanReach(f, care, c, e)
    decreases |es|
  {
    if es != [] {
      CanStep(f, care, c, d, es[0]);
      CanFollow(f, care, c, Next(f, d, es[0]), es[1..], e);
    }
  }
}
