/** Every handler of the writer actor, whatever its thresholds, is a run of the partition's steps. */
module WriterRefinement {
  import opened Wal
  import opened Writer
  import opened Partition
  import opened PartitionRuns
  import opened PartitionWriter
  import opened SurvivalRecovery

  /** The part of a running partition that its writer updates. */
  function ViewOf(c: World): View
    requires c.sys.process.Running?
  {
    View(c.sys.process.writer, c.sys.dir, c.sys.process.queue, c.hist.acks)
  }

  /** A running partition between two messages of its writer. */
  predicate AtRest(c: World) {
    c.sys.process.Running? && c.sys.process.writer.stage.Ready?
  }

  /** The uploader, the notices and the object store are as they were. */
  predicate OthersKept(c: World, d: World)
    requires c.sys.process.Running? && d.sys.process.Running?
  {
    && d.sys.store == c.sys.store && d.sys.process.uploader == c.sys.process.uploader
    && d.sys.process.notices == c.sys.process.notices
  }

  lemma ReadyFile(f: Framing, care: Care, c: World)
    requires Lawful(f) && Reached(f, care, c) && AtRest(c)
    ensures c.sys.process.writer.walBase in c.sys.dir
  {
    ReachedIsAttainable(f, care, c);
    AttainableSurvives(f, c);
  }

  lemma FlushIsStep(f: Framing, care: Care, c: World) returns (d: World)
    requires Lawful(f) && Reached(f, care, c) && AtRest(c) && c.sys.process.writer.pending != []
    ensures Reached(f, care, d) && AtRest(d) && OthersKept(c, d) && ViewOf(d) == Flushed(f, ViewOf(c))
    ensures d.sys.process.writer.pending == []
  {
    ReadyFile(f, care, c);
    ReachedNext(f, care, c, Flush);
    d := Next(f, c, Flush);
  }

  lemma SealIsTwoSteps(f: Framing, care: Care, c: World) returns (d: World)
    requires Reached(f, care, c) && AtRest(c) && c.sys.process.writer.pending == [] && c.sys.process.writer.active != []
    ensures Reached(f, care, d) && AtRest(d) && OthersKept(c, d) && ViewOf(d) == Sealed(ViewOf(c), true)
  {
    ReachedNext(f, care, c, Seal);
    var sealing := Next(f, c, Seal);
    ReachedNext(f, care, sealing, Open(true));
    d := Next(f, sealing, Open(true));
  }

  /** A group commit, with the seal that may follow it, only takes steps of the partition. */
  lemma CommitRefines(f: Framing, care: Care, cfg: Config, c: World) returns (d: World)
    requires Lawful(f) && Reached(f, care, c) && AtRest(c)
    ensures Reached(f, care, d) && AtRest(d) && OthersKept(c, d) && ViewOf(d) == Committed(f, cfg, ViewOf(c), true)
  {
    if c.sys.process.writer.pending == [] {
      d := c;
    } else {
      d := FlushIsStep(f, care, c);
      if SizeOf(d.sys.process.writer.active) >= cfg.segmentSizeBytes {
        var flushed := d;
        d := SealIsTwoSteps(f, care, flushed);
      }
    }
  }

  lemma EnqueueIsStep(f: Framing, care: Care, c: World, incoming: seq<Incoming>, clocks: seq<int>) returns (d: World)
    requires Reached(f, care, c) && AtRest(c) && |clocks| == |incoming|
    requires AllEncodable(StampAll(incoming, clocks, c.sys.process.writer.nextOffset))
    ensures Reached(f, care, d) && AtRest(d) && OthersKept(c, d)
    ensures ViewOf(d) == ViewOf(c).(writer := Enqueue(c.sys.process.writer, incoming, clocks, c.sys.issued))
  {
    ReachedNext(f, care, c, Produce(incoming, clocks));
    d := Next(f, c, Produce(incoming, clocks));
  }

  /**
   From every reachable state and for all thresholds, the produce handler ends in a reachable state
   that is exactly what the actor's fields, its files, its messages and its acks become.
   */
  lemma ProduceRefines(f: Framing, care: Care, cfg: Config, c: World, incoming: seq<Incoming>, clocks: seq<int>) returns (d: World)
    requires Lawful(f) && Reached(f, care, c) && AtRest(c) && |clocks| == |incoming|
    requires AllEncodable(StampAll(incoming, clocks, c.sys.process.writer.nextOffset))
    ensures Reached(f, care, d) && AtRest(d) && OthersKept(c, d)
    ensures ViewOf(d) == Produced(f, cfg, ViewOf(c), incoming, clocks, c.sys.issued, true)
  {
    d := EnqueueIsStep(f, care, c, incoming, clocks);
    if Due(cfg, d.sys.process.writer.pending) {
      var queued := d;
      d := CommitRefines(f, care, cfg, queued);
    }
  }

  lemma ShutdownRefines(f: Framing, care: Care, cfg: Config, c: World) returns (d: World)
    requires Lawful(f) && Reached(f, care, c) && AtRest(c)
    ensures Reached(f, care, d) && AtRest(d) && OthersKept(c, d)
    ensures ViewOf(d) == Sealed(Committed(f, cfg, ViewOf(c), true), true)
  {
    d := CommitRefines(f, care, cfg, c);
    var committed := d;
    NothingPending(f, cfg, ViewOf(c));
    if committed.sys.process.writer.active != [] {
      d := SealIsTwoSteps(f, care, committed);
    }
  }

  lemma NothingPending(f: Framing, cfg: Config, v: View)
    ensures Committed(f, cfg, v, true).writer.pending == []
  {
  }

  lemma DurableRefines(f: Framing, care: Care, c: World, ok: bool) returns (d: World)
    requires Reached(f, care, c) && AtRest(c) && c.sys.process.notices != []
    ensures Reached(f, care, d) && AtRest(d) && d.sys.store == c.sys.store && d.sys.process.uploader == c.sys.process.uploader
    ensures d.sys.process.notices == c.sys.process.notices[1..]
    ensures ViewOf(d) == Dropped(ViewOf(c), c.sys.process.notices[0], ok)
  {
    ReachedNext(f, care, c, DropWal(ok));
    d := Next(f, c, DropWal(ok));
  }
}
