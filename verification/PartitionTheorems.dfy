/** What the invariant means for the log: nothing is lost, nothing is repeated, recovery rebuilds it. */
module PartitionTheorems {
  import opened WalFrame
  import opened Wal
  import opened Manifest
  import opened Recovery
  import opened Segment
  import opened Writer
  import opened Uploads
  import opened Partition
  import opened PartitionInvariant
  import opened PartitionLogging
  import opened RecoverySteps
  import opened PartitionRuns

  // ------------------------------------------------------------------------------------------
  // Putting the segments of the log back together

  lemma {:induction false} ConcatAppend(xs: seq<seq<Record>>, last: seq<Record>)
    ensures Concat(xs + [last]) == Concat(xs) + last
  {
    if xs == [] {
      assert xs + [last] == [last];
    } else {
      ConcatAppend(xs[1..], last);
      assert (xs + [last])[1..] == xs[1..] + [last];
    }
  }

  /** One more adjacent slice. */
  lemma ConcatNext(parts: seq<seq<Record>>, n: nat, log: seq<Record>, a: int, b: int, c: int)
    requires n < |parts| && 0 <= a <= b <= c <= |log|
    requires Concat(parts[..n]) == log[a..b] && parts[n] == log[b..c]
    ensures Concat(parts[..n + 1]) == log[a..c]
  {
    ConcatAppend(parts[..n], parts[n]);
    assert parts[..n] + [parts[n]] == parts[..n + 1];
  }

  /** What a reader of the listed objects gets, entry after entry. */
  function StoredParts(store: Store): (parts: seq<seq<Record>>)
    ensures |parts| == |store.manifest|
  {
    PartsOf(store.objects, store.manifest)
  }

  function OrphanParts(orphans: seq<Orphan>): (parts: seq<seq<Record>>)
    ensures |parts| == |orphans|
  {
    seq(|orphans|, i requires 0 <= i < |orphans| => orphans[i].records)
  }

  function BatchParts(batches: seq<SealedBatch>): (parts: seq<seq<Record>>)
    ensures |parts| == |batches|
  {
    seq(|batches|, i requires 0 <= i < |batches| => batches[i].records)
  }

  /** One listed object decodes to exactly the log records of its range. */
  lemma ObjectRecords(store: Store, log: seq<Record>, e: SegmentEntry)
    requires LogOk(log) && EntryOk(store.objects, log, e)
    ensures FromColumns(store.objects[e.baseOffset]) == log[e.baseOffset..e.lastOffset + 1]
  {
    ColumnsRoundTrip(log[e.baseOffset..e.lastOffset + 1]);
  }

  /** Where the first `n` entries end. */
  function ListedEnd(m: seq<SegmentEntry>, low: int, n: nat): int
    requires n <= |m|
  {
    if n == 0 then low else m[n - 1].lastOffset + 1
  }

  lemma StoredPart(store: Store, log: seq<Record>, low: int, i: nat)
    requires LogOk(log) && ManifestOk(store, log, low) && i < |store.manifest|
    ensures var e := store.manifest[i];
            && 0 <= e.baseOffset <= e.lastOffset < |log|
            && e.baseOffset == ListedEnd(store.manifest, low, i)
            && StoredParts(store)[i] == log[e.baseOffset..e.lastOffset + 1]
  {
    assert EntryOk(store.objects, log, store.manifest[i]);
    assert i > 0 ==> Joins(store.manifest, i);
    ObjectRecords(store, log, store.manifest[i]);
  }

  /** `part` is the log slice of the `i`-th entry, which starts where the one before ends. */
  ghost predicate PartOf(part: seq<Record>, m: seq<SegmentEntry>, log: seq<Record>, low: int, i: nat)
    requires i < |m|
  {
    && 0 <= m[i].baseOffset <= m[i].lastOffset < |log|
    && m[i].baseOffset == ListedEnd(m, low, i)
    && part == log[m[i].baseOffset..m[i].lastOffset + 1]
  }

  lemma {:induction false} StoredPrefix(parts: seq<seq<Record>>, m: seq<SegmentEntry>, log: seq<Record>, low: int, n: nat)
    requires n <= |m| == |parts| && 0 <= low <= |log|
    requires forall i :: 0 <= i < |m| ==> PartOf(parts[i], m, log, low, i)
    ensures low <= ListedEnd(m, low, n) <= |log|
    ensures Concat(parts[..n]) == log[low..ListedEnd(m, low, n)]
  {
    if n != 0 {
      StoredPrefix(parts, m, log, low, n - 1);
      assert PartOf(parts[n - 1], m, log, low, n - 1);
      ConcatNext(parts, n - 1, log, low, m[n - 1].baseOffset, m[n - 1].lastOffset + 1);
    }
  }

  lemma LowInLog(store: Store, log: seq<Record>, low: int)
    requires ManifestOk(store, log, low)
    ensures 0 <= low <= |log|
  {
    if store.manifest != [] {
      assert EntryOk(store.objects, log, store.manifest[0]);
    }
  }

  lemma StoredIsLog(store: Store, log: seq<Record>, low: int)
    requires LogOk(log) && ManifestOk(store, log, low)
    ensures 0 <= low <= UploadedEnd(store.manifest) <= |log|
    ensures Concat(StoredParts(store)) == log[low..UploadedEnd(store.manifest)]
  {
    var n := |store.manifest|;
    LowInLog(store, log, low);
    forall i | 0 <= i < n ensures PartOf(StoredParts(store)[i], store.manifest, log, low, i) {
      StoredPart(store, log, low, i);
    }
    StoredPrefix(StoredParts(store), store.manifest, log, low, n);
    assert StoredParts(store)[..n] == StoredParts(store);
  }

  function TailEnd(tail: seq<int>, uploaded: int, end: int, n: nat): int
    requires n <= |tail|
  {
    if n == 0 then uploaded else SegEnd(tail, end, n - 1)
  }

  lemma TailJoins(tail: seq<int>, uploaded: int, end: int, n: nat)
    requires TailOk(tail, uploaded, end) && n < |tail|
    ensures uploaded <= TailEnd(tail, uploaded, end, n) == tail[n] < TailEnd(tail, uploaded, end, n + 1) <= end
  {
  }

  /** The first segments of the tail, put together. */
  lemma {:induction false} TailPrefix(parts: seq<seq<Record>>, log: seq<Record>, tail: seq<int>, uploaded: int, n: nat)
    requires TailOk(tail, uploaded, |log|) && n <= |parts| <= |tail|
    requires forall i {:trigger parts[i]} :: 0 <= i < |parts| ==> parts[i] == Piece(log, tail, i)
    ensures uploaded <= TailEnd(tail, uploaded, |log|, n) <= |log|
    ensures Concat(parts[..n]) == log[uploaded..TailEnd(tail, uploaded, |log|, n)]
  {
    if n != 0 {
      TailJoins(tail, uploaded, |log|, n - 1);
      TailPrefix(parts, log, tail, uploaded, n - 1);
      ConcatNext(parts, n - 1, log, uploaded, tail[n - 1], TailEnd(tail, uploaded, |log|, n));
    }
  }

  lemma TailIsLog(parts: seq<seq<Record>>, log: seq<Record>, tail: seq<int>, uploaded: int)
    requires TailOk(tail, uploaded, |log|) && |parts| <= |tail|
    requires forall i {:trigger parts[i]} :: 0 <= i < |parts| ==> parts[i] == Piece(log, tail, i)
    ensures var end := TailEnd(tail, uploaded, |log|, |parts|);
            uploaded <= end <= |log| && Concat(parts) == log[uploaded..end]
  {
    TailPrefix(parts, log, tail, uploaded, |parts|);
    assert parts[..|parts|] == parts;
  }

  // ------------------------------------------------------------------------------------------
  // Conservation: at every running moment the log is all there

  lemma ThreePartsOfLog(log: seq<Record>, a: int, b: int, c: int, x: seq<Record>, y: seq<Record>, z: seq<Record>)
    requires 0 <= a <= b <= c <= |log|
    requires x == log[a..b] && y == log[b..c] && z == log[c..]
    ensures x + y + z == log[a..]
  {
  }

  /** Listed objects, then the batches still to be listed, then the active segment. */
  function InMemoryAndStored(store: Store, work: seq<SealedBatch>, active: seq<Record>): seq<Record> {
    Concat(StoredParts(store)) + Concat(BatchParts(work)) + active
  }

  lemma RunningIsLog(store: Store, work: seq<SealedBatch>, active: seq<Record>, base: int,
                     log: seq<Record>, low: int, tail: seq<int>)
    requires LogOk(log) && ManifestOk(store, log, low) && TailOk(tail, UploadedEnd(store.manifest), |log|)
    requires QueueOk(work, active, log, tail) && ActiveOk(active, base, log, tail)
    ensures 0 <= low <= |log| && InMemoryAndStored(store, work, active) == log[low..]
  {
    var uploaded := UploadedEnd(store.manifest);
    StoredIsLog(store, log, low);
    WorkIsLog(work, active, base, log, tail, uploaded);
    JoinedIsLog(store, work, active, log, low, uploaded);
  }

  lemma JoinedIsLog(store: Store, work: seq<SealedBatch>, active: seq<Record>, log: seq<Record>, low: int, uploaded: int)
    requires 0 <= low <= uploaded <= |log| - |active| && active == log[|log| - |active|..]
    requires Concat(StoredParts(store)) == log[low..uploaded]
    requires Concat(BatchParts(work)) == log[uploaded..|log| - |active|]
    ensures InMemoryAndStored(store, work, active) == log[low..]
  {
    ThreePartsOfLog(log, low, uploaded, |log| - |active|,
                    Concat(StoredParts(store)), Concat(BatchParts(work)), active);
  }

  /** At every running moment the unevicted log is whole: listed, waiting to be listed, or active. */
  lemma RunningHoldsLog(f: Framing, c: World)
    requires Lawful(f) && Reachable(f, c)
    requires c.sys.process.Running?
    ensures var p := c.sys.process;
            && 0 <= c.hist.low <= |c.hist.log|
            && InMemoryAndStored(c.sys.store, InHand(p.uploader, c.sys.store.manifest) + p.queue, p.writer.active)
               == c.hist.log[c.hist.low..]
            && p.writer.nextOffset == |c.hist.log| + |p.writer.pending|
  {
    ReachableInv(f, c);
    var p := c.sys.process;
    RunningIsLog(c.sys.store, InHand(p.uploader, c.sys.store.manifest) + p.queue, p.writer.active,
                 p.writer.segmentBase, c.hist.log, c.hist.low, c.hist.tail);
  }

  lemma WorkIsLog(work: seq<SealedBatch>, active: seq<Record>, base: int, log: seq<Record>, tail: seq<int>, uploaded: int)
    requires QueueOk(work, active, log, tail) && ActiveOk(active, base, log, tail) && TailOk(tail, uploaded, |log|)
    ensures uploaded <= |log| - |active| && Concat(BatchParts(work)) == log[uploaded..|log| - |active|]
  {
    forall i | 0 <= i < |work| ensures BatchParts(work)[i] == Piece(log, tail, i) {
      assert BatchOk(work[i], log, tail[i], SegEnd(tail, |log|, i));
    }
    TailIsLog(BatchParts(work), log, tail, uploaded);
  }

  // ------------------------------------------------------------------------------------------
  // Recovery rebuilds the log

  /** What recovery serves: listed objects, then orphans, then the active segment. */
  function Rebuilt(store: Store, r: Recovered): seq<Record> {
    Concat(StoredParts(store)) + Concat(OrphanParts(r.orphans)) + r.active
  }

  lemma AdvanceKeeps(f: Framing, dir: WalDir, store: Store, p: Progress, log: seq<Record>, low: int,
                     tail: seq<int>, stuck: set<int>, n: nat)
    requires Lawful(f) && Durable(f, dir, store, log, low, tail) && RecoveringOk(f, dir, store, p, log, low, tail)
    requires n <= |p.todo|
    ensures var r := Advance(f, dir, p, stuck, n);
            Durable(f, r.0, store, log, low, tail) && RecoveringOk(f, r.0, store, r.1, log, low, tail)
  {
    var inv := (d, q) => Durable(f, d, store, log, low, tail) && RecoveringOk(f, d, store, q, log, low, tail);
    forall d, q, removes | Visitable(d, q) && q.todo != [] && inv(d, q)
      ensures inv(Repair(f, d, q.uploaded, q.todo[0], removes), Visit(f, d, q))
    {
      VisitRecovering(f, d, store, q, log, low, tail, removes);
    }
    AdvancePreserves(f, inv, dir, p, stuck, n);
  }

  lemma BeginOk(f: Framing, dir: WalDir, store: Store, log: seq<Record>, low: int, tail: seq<int>, bases: seq<int>)
    requires Durable(f, dir, store, log, low, tail) && NoneOutlived(f, dir, low) && Enumerates(bases, dir)
    ensures RecoveringOk(f, dir, store, Begin(store.manifest, bases), log, low, tail)
  {
    TailInDir(f, dir, log, tail);
  }

  lemma OrphansAreLog(r: Recovered, log: seq<Record>, tail: seq<int>, uploaded: int)
    requires TailOk(tail, uploaded, |log|) && HandoverOk(r, log, tail)
    ensures uploaded <= |log| - |r.active| && r.active == log[|log| - |r.active|..]
    ensures Concat(OrphanParts(r.orphans)) == log[uploaded..|log| - |r.active|]
  {
    TailIsLog(OrphanParts(r.orphans), log, tail, uploaded);
  }

  lemma RebuiltIsLog(store: Store, r: Recovered, log: seq<Record>, low: int, tail: seq<int>)
    requires LogOk(log) && ManifestOk(store, log, low) && TailOk(tail, UploadedEnd(store.manifest), |log|)
    requires HandoverOk(r, log, tail)
    ensures 0 <= low <= |log| && Rebuilt(store, r) == log[low..]
  {
    StoredIsLog(store, log, low);
    OrphansAreLog(r, log, tail, UploadedEnd(store.manifest));
    ThreePartsOfLog(log, low, UploadedEnd(store.manifest), |log| - |r.active|,
                    Concat(StoredParts(store)), Concat(OrphanParts(r.orphans)), r.active);
  }

  lemma HandoverIsLog(store: Store, p: Progress, log: seq<Record>, low: int, tail: seq<int>)
    requires LogOk(log) && ManifestOk(store, log, low) && TailOk(tail, UploadedEnd(store.manifest), |log|)
    requires ProgressOk(p, UploadedEnd(store.manifest), log, tail) && p.todo == []
    ensures 0 <= low <= |log| && Rebuilt(store, Finish(p)) == log[low..] && Finish(p).nextOffset == |log|
  {
    Handover(p, UploadedEnd(store.manifest), log, tail);
    RebuiltIsLog(store, Finish(p), log, low, tail);
  }

  /** From a durable state, recovery hands over the log and the offset behind it, whichever removals fail. */
  lemma RecoverDurable(f: Framing, dir: WalDir, store: Store, log: seq<Record>, low: int, tail: seq<int>,
                       bases: seq<int>, stuck: set<int>)
    requires Lawful(f) && Durable(f, dir, store, log, low, tail) && NoneOutlived(f, dir, low) && Enumerates(bases, dir)
    ensures var r := Recover(f, dir, store.manifest, bases, stuck).1;
            0 <= low <= |log| && Rebuilt(store, r) == log[low..] && r.nextOffset == |log|
  {
    BeginOk(f, dir, store, log, low, tail, bases);
    AdvanceKeeps(f, dir, store, Begin(store.manifest, bases), log, low, tail, stuck, |bases|);
    HandoverIsLog(store, Advance(f, dir, Begin(store.manifest, bases), stuck, |bases|).1, log, low, tail);
  }

  /** The records that a torn append leaves complete; none when nothing was being appended. */
  function Torn(f: Framing, s: System, cut: nat): seq<Record> {
    if s.process.Running? && cut > 0 then Survivors(f, s.process.writer, cut) else []
  }

  lemma CrashLog(f: Framing, s: System, h: History, cut: nat)
    requires s.process.Running? ==> TornCut(f, s, cut)
    ensures var h' := CrashSeen(f, s, h, cut);
            h'.log == h.log + Torn(f, s, cut) && h'.low == h.low
  {
    assert h.log + [] == h.log;
  }

  lemma RebuildsAfterCrash(f: Framing, s: System, h: History, cut: nat, bases: seq<int>, stuck: set<int>)
    requires Lawful(f) && Inv(f, s, h)
    requires s.process.Running? ==> TornCut(f, s, cut) && NothingLeftOver(s.dir, s.store.manifest)
    requires Enumerates(bases, CrashStep(f, s, cut).dir)
    ensures var down := CrashStep(f, s, cut);
            var r := Recover(f, down.dir, down.store.manifest, bases, stuck).1;
            var log := h.log + Torn(f, s, cut);
            0 <= h.low <= |log| && Rebuilt(down.store, r) == log[h.low..] && r.nextOffset == |log|
  {
    CrashKeeps(f, s, h, cut);
    CrashLog(f, s, h, cut);
    var down, h' := CrashStep(f, s, cut), CrashSeen(f, s, h, cut);
    RecoverDurable(f, down.dir, down.store, h'.log, h'.low, h'.tail, bases, stuck);
  }

  /**
   Crash at any point of any guarded run, tearing an append anywhere, and recover, whichever removals
   fail: the listed objects, the orphans and the active segment are exactly the unevicted log of
   everything fsynced, followed by the records of the torn batch that were wholly written, and the next
   offset is one past them. `RecoveryExactIff` shows that the condition on left-over files is exact.
   */
  lemma RecoveryRebuildsLog(f: Framing, c: World, cut: nat, bases: seq<int>, stuck: set<int>)
    requires Lawful(f) && Reachable(f, c)
    requires Enabled(f, c.sys, Crash(cut))
    requires c.sys.process.Running? ==> NothingLeftOver(c.sys.dir, c.sys.store.manifest)
    requires Enumerates(bases, CrashStep(f, c.sys, cut).dir)
    ensures var down := CrashStep(f, c.sys, cut);
            var r := Recover(f, down.dir, down.store.manifest, bases, stuck).1;
            var log := c.hist.log + Torn(f, c.sys, cut);
            && 0 <= c.hist.low <= |log|
            && Rebuilt(down.store, r) == log[c.hist.low..]
            && r.nextOffset == |log|
  {
    ReachableInv(f, c);
    RebuildsAfterCrash(f, c.sys, c.hist, cut, bases, stuck);
  }
}
