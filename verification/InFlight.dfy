/** What the writer keeps in flight: the batches it sealed whose durable notice it has not handled. */
module InFlight {
  import opened WalFrame
  import opened Wal
  import opened Recovery
  import opened Writer
  import opened Uploads
  import opened Partition
  import opened PartitionRuns
  import opened Survival
  import opened SurvivalRecovery

  ghost predicate Among(work: seq<SealedBatch>, base: int) {
    exists i :: 0 <= i < |work| && work[i].baseOffset == base
  }

  /** The batch is queued, in the uploader's hand, or its notice waits to be handled. */
  ghost predicate Unhandled(up: Uploader, queue: seq<SealedBatch>, notices: seq<int>, base: int) {
    base in notices || Among(Held(up) + queue, base)
  }

  /** Each in-flight segment is an unhandled batch sealed since the last boot, and the other way round. */
  ghost predicate InFlightOk(inFlight: map<int, seq<Record>>, sealed: seq<SealedBatch>,
                             up: Uploader, queue: seq<SealedBatch>, notices: seq<int>) {
    && (forall b :: b in inFlight ==>
          Unhandled(up, queue, notices, b) && exists i :: 0 <= i < |sealed| && sealed[i].baseOffset == b)
    && (forall i {:trigger sealed[i]} :: 0 <= i < |sealed| && Unhandled(up, queue, notices, sealed[i].baseOffset) ==>
          sealed[i].baseOffset in inFlight && inFlight[sealed[i].baseOffset] == sealed[i].records)
  }

  ghost predicate Once(notices: seq<int>) {
    forall i, j :: 0 <= i < j < |notices| ==> notices[i] != notices[j]
  }

  ghost predicate SealedBelow(sealed: seq<SealedBatch>, segmentBase: int) {
    && (forall i {:trigger sealed[i]} :: 0 <= i < |sealed| ==> sealed[i].baseOffset < segmentBase)
    && (forall i, j :: 0 <= i < j < |sealed| ==> sealed[i].baseOffset < sealed[j].baseOffset)
  }

  ghost predicate FlightOk(c: World) {
    c.sys.process.Running? ==>
      var p := c.sys.process;
      && InFlightOk(p.writer.inFlight, c.trace.sealed, p.uploader, p.queue, p.notices)
      && Once(p.notices) && SealedBelow(c.trace.sealed, p.writer.segmentBase)
  }

  // ------------------------------------------------------------------------------------------
  // Every step keeps it

  /** The same batches are unhandled. */
  lemma SameUnhandled(inFlight: map<int, seq<Record>>, sealed: seq<SealedBatch>, up: Uploader, queue: seq<SealedBatch>,
                      notices: seq<int>, up': Uploader, queue': seq<SealedBatch>, notices': seq<int>)
    requires InFlightOk(inFlight, sealed, up, queue, notices)
    requires forall b :: Unhandled(up', queue', notices', b) <==> Unhandled(up, queue, notices, b)
    ensures InFlightOk(inFlight, sealed, up', queue', notices')
  {
  }

  lemma AmongRest(work: seq<SealedBatch>, b: int)
    requires work != []
    ensures Among(work, b) <==> b == work[0].baseOffset || Among(work[1..], b)
  {
    if i :| 0 <= i < |work| && work[i].baseOffset == b {
      if i > 0 { assert work[1..][i - 1] == work[i]; }
    }
    if i :| 0 <= i < |work[1..]| && work[1..][i].baseOffset == b {
      assert work[i + 1].baseOffset == b;
    }
  }

  lemma AmongMore(work: seq<SealedBatch>, x: SealedBatch, b: int)
    ensures Among(work + [x], b) <==> Among(work, b) || b == x.baseOffset
  {
    var all := work + [x];
    if i :| 0 <= i < |work| && work[i].baseOffset == b { assert all[i].baseOffset == b; }
    if b == x.baseOffset { assert all[|work|].baseOffset == b; }
    if i :| 0 <= i < |all| && all[i].baseOffset == b {
      if i < |work| { assert work[i].baseOffset == b; }
    }
  }

  lemma SealKeepsFlight(inFlight: map<int, seq<Record>>, sealed: seq<SealedBatch>, up: Uploader, queue: seq<SealedBatch>,
                        notices: seq<int>, x: SealedBatch)
    requires InFlightOk(inFlight, sealed, up, queue, notices) && SealedBelow(sealed, x.baseOffset)
    ensures InFlightOk(inFlight[x.baseOffset := x.records], sealed + [x], up, queue + [x], notices)
  {
    var sealed', inFlight' := sealed + [x], inFlight[x.baseOffset := x.records];
    forall b ensures Unhandled(up, queue + [x], notices, b) <==> Unhandled(up, queue, notices, b) || b == x.baseOffset {
      assert Held(up) + (queue + [x]) == Held(up) + queue + [x];
      AmongMore(Held(up) + queue, x, b);
    }
    forall b | b in inFlight' ensures exists i :: 0 <= i < |sealed'| && sealed'[i].baseOffset == b {
      if b == x.baseOffset {
        assert sealed'[|sealed|].baseOffset == b;
      } else {
        var i :| 0 <= i < |sealed| && sealed[i].baseOffset == b;
        assert sealed'[i].baseOffset == b;
      }
    }
    forall i | 0 <= i < |sealed'| && Unhandled(up, queue + [x], notices, sealed'[i].baseOffset)
      ensures sealed'[i].baseOffset in inFlight' && inFlight'[sealed'[i].baseOffset] == sealed'[i].records
    {
      if i < |sealed| { assert sealed'[i] == sealed[i]; }
    }
  }

  lemma SealedGrows(sealed: seq<SealedBatch>, x: SealedBatch, end: int)
    requires SealedBelow(sealed, x.baseOffset) && x.baseOffset < end
    ensures SealedBelow(sealed + [x], end)
  {
  }

  lemma SealFlight(f: Framing, c: World)
    requires Survives(f, c.sys, c.hist) && FlightOk(c) && Enabled(f, c.sys, Seal)
    ensures FlightOk(Next(f, c, Seal))
  {
    var p := c.sys.process;
    var x := Batch(p.writer.active);
    assert x.baseOffset == p.writer.segmentBase && p.writer.active[0].offset < FlushedEnd(p.writer);
    SealKeepsFlight(p.writer.inFlight, c.trace.sealed, p.uploader, p.queue, p.notices, x);
    SealedGrows(c.trace.sealed, x, p.writer.nextOffset);
  }

  lemma TakeFlight(f: Framing, c: World)
    requires FlightOk(c) && Enabled(f, c.sys, TakeBatch)
    ensures FlightOk(Next(f, c, TakeBatch))
  {
    var p := c.sys.process;
    assert Held(Idle) + p.queue == p.queue == Held(Uploading(p.queue[0], false)) + p.queue[1..];
    SameUnhandled(p.writer.inFlight, c.trace.sealed, p.uploader, p.queue, p.notices,
                  Uploading(p.queue[0], false), p.queue[1..], p.notices);
  }

  lemma NotifyFlight(f: Framing, c: World)
    requires Survives(f, c.sys, c.hist) && FlightOk(c) && Enabled(f, c.sys, Notify)
    ensures FlightOk(Next(f, c, Notify))
  {
    var p := c.sys.process;
    var base := p.uploader.batch.baseOffset;
    assert (Held(p.uploader) + p.queue)[0].baseOffset == base;
    forall b ensures Unhandled(Idle, p.queue, p.notices + [base], b) <==> Unhandled(p.uploader, p.queue, p.notices, b) {
      assert Held(Idle) + p.queue == p.queue == (Held(p.uploader) + p.queue)[1..];
      AmongRest(Held(p.uploader) + p.queue, b);
    }
    SameUnhandled(p.writer.inFlight, c.trace.sealed, p.uploader, p.queue, p.notices, Idle, p.queue, p.notices + [base]);
  }

  lemma DropKeepsFlight(inFlight: map<int, seq<Record>>, sealed: seq<SealedBatch>, up: Uploader, queue: seq<SealedBatch>,
                        notices: seq<int>)
    requires InFlightOk(inFlight, sealed, up, queue, notices) && notices != [] && Once(notices)
    requires !Among(Held(up) + queue, notices[0])
    ensures InFlightOk(inFlight - {notices[0]}, sealed, up, queue, notices[1..])
  {
    forall b ensures Unhandled(up, queue, notices[1..], b) <==> Unhandled(up, queue, notices, b) && b != notices[0] {
      assert b in notices[1..] <==> b in notices && b != notices[0] by { RestOf(notices, b); }
    }
  }

  lemma RestOf(notices: seq<int>, b: int)
    requires notices != [] && Once(notices)
    ensures b in notices[1..] <==> b in notices && b != notices[0]
  {
    if b in notices && b != notices[0] {
      var i :| 0 <= i < |notices| && notices[i] == b;
      assert notices[1..][i - 1] == b;
    }
    if b in notices[1..] {
      var i :| 0 <= i < |notices[1..]| && notices[1..][i] == b;
      assert notices[i + 1] == b;
    }
  }

  lemma DropFlight(f: Framing, c: World, ok: bool)
    requires Survives(f, c.sys, c.hist) && FlightOk(c) && Enabled(f, c.sys, DropWal(ok))
    ensures FlightOk(Next(f, c, DropWal(ok)))
  {
    var p := c.sys.process;
    assert p.notices[0] in p.notices;
    DropKeepsFlight(p.writer.inFlight, c.trace.sealed, p.uploader, p.queue, p.notices);
  }

  /** The other steps change neither what is in flight nor what is unhandled, or start or end a process. */
  lemma OtherStepsFlight(f: Framing, c: World, e: Event)
    requires FlightOk(c) && Enabled(f, c.sys, e)
    requires !e.Seal? && !e.TakeBatch? && !e.Notify? && !e.DropWal?
    ensures FlightOk(Next(f, c, e))
  {
    var d := Next(f, c, e);
    if c.sys.process.Running? && d.sys.process.Running? {
      assert Held(d.sys.process.uploader) == Held(c.sys.process.uploader);
    }
  }

  lemma StepFlight(f: Framing, c: World, e: Event)
    requires Survives(f, c.sys, c.hist) && FlightOk(c) && Enabled(f, c.sys, e)
    ensures FlightOk(Next(f, c, e))
  {
    if e.Seal? {
      SealFlight(f, c);
    } else if e.TakeBatch? {
      TakeFlight(f, c);
    } else if e.Notify? {
      NotifyFlight(f, c);
    } else if e.DropWal? {
      DropFlight(f, c, e.ok);
    } else {
      OtherStepsFlight(f, c, e);
    }
  }

  lemma {:induction false} RunFlight(f: Framing, care: Care, c: World, es: seq<Event>, d: World)
    requires Lawful(f) && Survives(f, c.sys, c.hist) && FlightOk(c) && Leads(f, care, c, es, d)
    ensures FlightOk(d)
    decreases |es|
  {
    if es != [] {
      StepSurvives(f, c, es[0]);
      StepFlight(f, c, es[0]);
      RunFlight(f, care, Next(f, c, es[0]), es[1..], d);
    }
  }

  lemma AttainableFlight(f: Framing, c: World)
    requires Lawful(f) && Attainable(f, c)
    ensures FlightOk(c)
  {
    var es :| Leads(f, AnyCrash, Initial(), es, c);
    SurvivesInitially(f);
    RunFlight(f, AnyCrash, Initial(), es, c);
  }

  // ------------------------------------------------------------------------------------------
  // What it means

  /** A batch sealed since the last boot that is queued, in hand or noticed. */
  ghost predicate AwaitsNotice(c: World, x: SealedBatch)
    requires c.sys.process.Running?
  {
    x in c.trace.sealed && Unhandled(c.sys.process.uploader, c.sys.process.queue, c.sys.process.notices, x.baseOffset)
  }

  /**
   In every state of every run the in-flight map has, under its base offset and with its own records,
   exactly every batch that was sealed since the last boot and whose durable notice has not been handled.
   */
  lemma InFlightExact(f: Framing, c: World, b: int, rs: seq<Record>)
    requires Lawful(f) && Attainable(f, c) && c.sys.process.Running?
    ensures (b in c.sys.process.writer.inFlight && c.sys.process.writer.inFlight[b] == rs)
       <==> exists x :: AwaitsNotice(c, x) && x.baseOffset == b && x.records == rs
  {
    AttainableFlight(f, c);
    var p, sealed := c.sys.process, c.trace.sealed;
    if b in p.writer.inFlight && p.writer.inFlight[b] == rs {
      var i :| 0 <= i < |sealed| && sealed[i].baseOffset == b;
      assert AwaitsNotice(c, sealed[i]);
    }
    if x :| AwaitsNotice(c, x) && x.baseOffset == b && x.records == rs {
      var i :| 0 <= i < |sealed| && sealed[i] == x;
    }
  }
}
