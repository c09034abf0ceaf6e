/** Recovery from start to boot is a run of the partition's steps. */
module RecoveryRefinement {
  import opened Wal
  import opened Recovery
  import opened Writer
  import opened Partition
  import opened PartitionRuns
  import opened RecoveryActor

  lemma VisitKeepsFilled(f: Framing, dir: WalDir, p: Progress)
    requires p.todo != [] && p.todo[0] in dir && Filled(p.orphans)
    ensures Filled(Visit(f, dir, p).orphans)
  {
  }

  lemma RestartIsStep(f: Framing, care: Care, c: World, bases: seq<int>) returns (d: World)
    requires Reached(f, care, c) && c.sys.process.Down? && Recovery.Enumerates(bases, c.sys.dir)
    ensures Reached(f, care, d) && d.hist == c.hist
    ensures d.sys == c.sys.(process := Recovering(Begin(c.sys.store.manifest, bases)))
  {
    ReachedNext(f, care, c, Restart(bases));
    d := Next(f, c, Restart(bases));
  }

  lemma VisitIsStep(f: Framing, care: Care, c: World, removes: bool) returns (d: World)
    requires Reached(f, care, c) && c.sys.process.Recovering?
    requires c.sys.process.progress.todo != [] && c.sys.process.progress.todo[0] in c.sys.dir
    ensures Reached(f, care, d) && d.hist == c.hist && d.sys == VisitStep(f, c.sys, removes)
  {
    ReachedNext(f, care, c, VisitFile(removes));
    d := Next(f, c, VisitFile(removes));
  }

  /** The loop, file by file. */
  lemma {:induction false} VisitsRefine(f: Framing, care: Care, c: World, stuck: set<int>, n: nat) returns (d: World)
    requires Reached(f, care, c) && c.sys.process.Recovering?
    requires var p := c.sys.process.progress;
             Visitable(c.sys.dir, p) && n <= |p.todo| && Filled(p.orphans)
    ensures Reached(f, care, d) && d.hist == c.hist && d.sys.process.Recovering? && Filled(d.sys.process.progress.orphans)
    ensures var r := Advance(f, c.sys.dir, c.sys.process.progress, stuck, n);
            d.sys == c.sys.(dir := r.0, process := Recovering(r.1))
    decreases n
  {
    if n == 0 {
      d := c;
    } else {
      var p := c.sys.process.progress;
      var removes := p.todo[0] !in stuck;
      VisitKeepsVisitable(f, c.sys.dir, p, removes);
      VisitKeepsFilled(f, c.sys.dir, p);
      var next := VisitIsStep(f, care, c, removes);
      d := VisitsRefine(f, care, next, stuck, n - 1);
    }
  }

  lemma BootIsStep(f: Framing, care: Care, c: World) returns (d: World)
    requires Reached(f, care, c) && c.sys.process.Recovering? && c.sys.process.progress.todo == []
    requires Filled(c.sys.process.progress.orphans)
    ensures Reached(f, care, d) && d.hist == c.hist && d.sys == BootStep(c.sys)
  {
    ReachedNext(f, care, c, Boot);
    d := Next(f, c, Boot);
  }

  /**
   From every reachable crash state, and whichever removals fail, the whole of recovery ends in a reachable running partition: its
   writer starts with what `Recover` hands over, the orphans wait in the upload queue, and the log is
   the one from before.
   */
  lemma RecoverRefines(f: Framing, care: Care, c: World, bases: seq<int>, stuck: set<int>) returns (d: World)
    requires Reached(f, care, c) && c.sys.process.Down? && Recovery.Enumerates(bases, c.sys.dir)
    ensures var r := Recover(f, c.sys.dir, c.sys.store.manifest, bases, stuck);
            && Filled(r.1.orphans)
            && Reached(f, care, d) && d.hist == c.hist
            && d.sys == c.sys.(dir := r.0,
                               process := Running(New(r.1.nextOffset, r.1.active), Requeue(r.1.orphans), Idle, []))
  {
    var started := RestartIsStep(f, care, c, bases);
    var visited := VisitsRefine(f, care, started, stuck, |bases|);
    d := BootIsStep(f, care, visited);
  }
}
