/** Crash, restart, the recovery loop and boot keep the invariant. */
module RecoverySteps {
  import opened WalFrame
  import opened Wal
  import opened Manifest
  import opened Recovery
  import opened Writer
  import opened Uploads
  import opened Partition
  import opened PartitionInvariant
  import opened PartitionLogging
  import opened WriterSteps

  // ------------------------------------------------------------------------------------------
  // Crash

  /** A torn append leaves the whole records before the cut on disk, after everything that was there. */
  lemma CrashDisk(f: Framing, dir: WalDir, store: Store, h: History, w: Writer, cut: nat)
    requires Lawful(f) && Durable(f, dir, store, h.log, h.low, h.tail)
    requires w.walBase in dir && Scan(f, dir[w.walBase]).validLen == |dir[w.walBase]|
    requires Appending(w, h, UploadedEnd(store.manifest)) && PendingOk(w.nextOffset, w.pending, |h.log|)
    requires Scan(f, dir[w.walBase]).records == w.active && cut <= |EncodeAll(f, w.pending)|
    ensures var dir' := Append(dir, w.walBase, EncodeAll(f, w.pending)[..cut]);
            var h' := Logged(h, w, Survivors(f, w, cut));
            Durable(f, dir', store, h'.log, h'.low, h'.tail)
  {
    TornAppend(f, dir[w.walBase], w.pending, cut);
    LoggedDurable(f, dir, store, h, w, Append(dir, w.walBase, EncodeAll(f, w.pending)[..cut]), Survivors(f, w, cut));
  }

  /** With nothing left over, no file below the low-water mark holds a record. */
  lemma NothingLeftNoneOutlived(f: Framing, dir: WalDir, store: Store, log: seq<Record>, low: int, tail: seq<int>)
    requires Lawful(f) && Durable(f, dir, store, log, low, tail) && NothingLeftOver(dir, store.manifest)
    ensures NoneOutlived(f, dir, low)
  {
    EmptyScan(f);
    LowBelowUploaded(store, log, low);
    forall b | b in dir && b < low ensures Scan(f, dir[b]).records == [] {
      assert !Leftover(dir, store.manifest, b);
      assert b in tail ==> b >= low;
      if store.manifest == [] {
        assert b < 0 && !Outlived(f, dir, log, low, b) && !Repeats(f, dir, store.manifest, log, b);
      }
    }
  }

  lemma DownOk(f: Framing, s: System, h: History, dir': WalDir, h': History)
    requires Inv(f, s, h)
    requires Durable(f, dir', s.store, h'.log, h'.low, h'.tail) && NoneOutlived(f, dir', h'.low)
    requires AcksOk(h'.acks, h'.log, h'.sent) && h'.acks == h.acks && h'.sent == h.sent
    ensures Inv(f, s.(dir := dir', process := Down), h')
  {
  }

  lemma CrashKeeps(f: Framing, s: System, h: History, cut: nat)
    requires Lawful(f) && Inv(f, s, h)
    requires s.process.Running? ==> TornCut(f, s, cut) && NothingLeftOver(s.dir, s.store.manifest)
    ensures Inv(f, CrashStep(f, s, cut), CrashSeen(f, s, h, cut))
  {
    if s.process.Running? {
      NothingLeftNoneOutlived(f, s.dir, s.store, h.log, h.low, h.tail);
      TornCrashKeeps(f, s, h, cut);
    } else {
      DownOk(f, s, h, s.dir, h);
    }
  }

  /** Only the file being appended to changes, and it lies above everything listed. */
  lemma TornKeepsOthers(f: Framing, dir: WalDir, dir': WalDir, base: int, low: int, uploaded: int)
    requires NoneOutlived(f, dir, low) && low <= uploaded <= base
    requires dir'.Keys == dir.Keys && forall b :: b in dir && b != base ==> dir'[b] == dir[b]
    ensures NoneOutlived(f, dir', low)
  {
  }

  /** The writer's own file is above everything listed, ends with a whole record and holds the active segment. */
  lemma WriterFile(f: Framing, s: System, h: History)
    requires Inv(f, s, h) && s.process.Running? && s.process.writer.stage.Ready?
    ensures var w := s.process.writer;
            && w.walBase in s.dir && w.walBase >= UploadedEnd(s.store.manifest)
            && Scan(f, s.dir[w.walBase]).validLen == |s.dir[w.walBase]|
            && Scan(f, s.dir[w.walBase]).records == w.active
            && Appending(w, h, UploadedEnd(s.store.manifest))
  {
    var w := s.process.writer;
    ActiveAboveUploaded(w.active, w.segmentBase, h.log, h.tail, UploadedEnd(s.store.manifest));
    assert CleanFile(f, s.dir[w.walBase], w.walBase, UploadedEnd(s.store.manifest));
    ActiveFile(f, s.dir, s.store, h.log, h.low, h.tail, w.active, w.walBase);
  }

  lemma TornDisk(f: Framing, s: System, h: History, cut: nat)
    requires Lawful(f) && Inv(f, s, h) && s.process.Running? && TornCut(f, s, cut) && cut > 0 && NoneOutlived(f, s.dir, h.low)
    ensures var s', h' := CrashStep(f, s, cut), CrashSeen(f, s, h, cut);
            Durable(f, s'.dir, s.store, h'.log, h'.low, h'.tail) && NoneOutlived(f, s'.dir, h.low)
  {
    WriterFile(f, s, h);
    CrashDisk(f, s.dir, s.store, h, s.process.writer, cut);
    LowBelowUploaded(s.store, h.log, h.low);
    TornKeepsOthers(f, s.dir, CrashStep(f, s, cut).dir, s.process.writer.walBase, h.low, UploadedEnd(s.store.manifest));
  }

  lemma TornCrashKeeps(f: Framing, s: System, h: History, cut: nat)
    requires Lawful(f) && Inv(f, s, h) && s.process.Running? && TornCut(f, s, cut) && NoneOutlived(f, s.dir, h.low)
    ensures Inv(f, CrashStep(f, s, cut), CrashSeen(f, s, h, cut))
  {
    if cut == 0 {
      DownOk(f, s, h, s.dir, h);
    } else {
      TornDisk(f, s, h, cut);
      AcksOkExtends(h.acks, h.log, h.sent, CrashSeen(f, s, h, cut).log, h.sent);
      DownOk(f, s, h, CrashStep(f, s, cut).dir, CrashSeen(f, s, h, cut));
    }
  }

  // ------------------------------------------------------------------------------------------
  // A failed append

  /** The writer's own file is torn; every other is what it was. */
  lemma PanicClean(f: Framing, dir: WalDir, dir': WalDir, base: int, uploaded: int)
    requires Clean(f, dir, uploaded) && dir'.Keys == dir.Keys
    requires forall b :: b in dir && b != base ==> dir'[b] == dir[b]
    ensures CleanExcept(f, dir', [base], uploaded)
  {
  }

  lemma DiedPending(w: Writer, end: int, survivors: seq<Record>)
    requires PendingOk(w.nextOffset, w.pending, end)
    ensures PendingOk(Died(w, survivors).nextOffset, [], end + |survivors|)
  {
  }

  /** What survives of the batch joins the log and the dead writer's active segment. */
  lemma PanicLogged(w: Writer, h: History, uploaded: int, survivors: seq<Record>, work: seq<SealedBatch>)
    requires Appending(w, h, uploaded) && QueueOk(work, w.active, h.log, h.tail)
    ensures var h', dead := Logged(h, w, survivors), Died(w, survivors);
            && ActiveOk(dead.active, dead.segmentBase, h'.log, h'.tail) && QueueOk(work, dead.active, h'.log, h'.tail)
            && h'.log == h.log + survivors
  {
    if survivors == [] {
      assert w.active + survivors == w.active && h.log + survivors == h.log;
    } else {
      LoggedActive(w, h, uploaded, survivors);
      LoggedQueue(work, w, h, uploaded, survivors);
    }
  }

  lemma PanicDisk(f: Framing, s: System, h: History, cut: nat)
    requires Lawful(f) && Inv(f, s, h) && s.process.Running? && s.process.writer.stage.Ready? && TornCut(f, s, cut)
    requires s.process.writer.walBase in s.dir
    ensures var s', h' := PanicStep(f, s, cut), PanicSeen(f, s.process.writer, h, cut);
            && Durable(f, s'.dir, s'.store, h'.log, h'.low, h'.tail)
            && CleanExcept(f, s'.dir, [s.process.writer.walBase], UploadedEnd(s.store.manifest))
  {
    WriterFile(f, s, h);
    CrashDisk(f, s.dir, s.store, h, s.process.writer, cut);
    PanicClean(f, s.dir, PanicStep(f, s, cut).dir, s.process.writer.walBase, UploadedEnd(s.store.manifest));
  }

  lemma PanicRunning(f: Framing, s: System, h: History, cut: nat)
    requires Lawful(f) && Inv(f, s, h) && s.process.Running? && s.process.writer.stage.Ready? && TornCut(f, s, cut)
    requires s.process.writer.walBase in s.dir
    ensures RunningOk(f, PanicStep(f, s, cut), PanicSeen(f, s.process.writer, h, cut))
  {
    var w, up := s.process.writer, s.process.uploader;
    var survivors := Survivors(f, w, cut);
    PanicDisk(f, s, h, cut);
    WriterFile(f, s, h);
    PanicLogged(w, h, UploadedEnd(s.store.manifest), survivors, InHand(up, s.store.manifest) + s.process.queue);
    DiedPending(w, |h.log|, survivors);
    UploaderOkExtends(up, s.store, h.log, survivors, h.low);
  }

  lemma PanicKeeps(f: Framing, s: System, h: History, cut: nat)
    requires Lawful(f) && Inv(f, s, h) && s.process.Running? && s.process.writer.stage.Ready? && TornCut(f, s, cut)
    requires s.process.writer.walBase in s.dir
    ensures Inv(f, PanicStep(f, s, cut), PanicSeen(f, s.process.writer, h, cut))
  {
    var h' := PanicSeen(f, s.process.writer, h, cut);
    PanicDisk(f, s, h, cut);
    PanicRunning(f, s, h, cut);
    assert h.log + [] == h.log;
    AcksOkExtends(h.acks, h.log, h.sent, h'.log, h.sent);
  }

  // ------------------------------------------------------------------------------------------
  // Restart and the loop

  lemma RestartKeeps(f: Framing, s: System, h: History, bases: seq<int>)
    requires Inv(f, s, h) && s.process.Down? && Enumerates(bases, s.dir)
    ensures Inv(f, RestartStep(s, bases), h)
  {
    TailInDir(f, s.dir, h.log, h.tail);
  }

  /** A file of the tail met by the loop is the next one due. */
  lemma NextOfTail(p: Progress, tail: seq<int>, dir: WalDir, b: int)
    requires Visitable(dir, p) && p.todo != [] && b == p.todo[0] && b in tail && Increasing(tail)
    requires |p.orphans| <= |tail|
    requires forall i :: 0 <= i < |p.orphans| ==> tail[i] !in p.todo
    requires forall i :: |p.orphans| <= i < |tail| ==> tail[i] in p.todo
    ensures |p.orphans| < |tail| && tail[|p.orphans|] == b
  {
    var n := |p.orphans|;
    var j :| 0 <= j < |tail| && tail[j] == b;
    assert j >= n;
    if n < j {
      assert tail[n] in p.todo && tail[n] < tail[j];
    }
  }

  /** A covered file is not in the tail; a file outside the tail that is not covered holds nothing. */
  lemma FoundOutsideTail(f: Framing, dir: WalDir, m: seq<SegmentEntry>, log: seq<Record>, low: int, tail: seq<int>, b: int)
    requires b in dir && b !in tail && DirOk(f, dir, m, log, low, tail) && Ordered(m) && NoneOutlived(f, dir, low)
    ensures Found(f, dir, m, b) == []
  {
    if !Covered(m, b) && Scan(f, dir[b]).records != [] {
      assert Repeats(f, dir, m, log, b);
      ListedBelow(m, b);
    }
  }

  lemma VisitProgress(f: Framing, dir: WalDir, store: Store, p: Progress, log: seq<Record>, low: int, tail: seq<int>)
    requires Durable(f, dir, store, log, low, tail) && RecoveringOk(f, dir, store, p, log, low, tail)
    requires p.todo != [] && p.todo[0] in dir
    ensures ProgressOk(Visit(f, dir, p), UploadedEnd(store.manifest), log, tail)
  {
    var b := p.todo[0];
    var n := |p.orphans|;
    if b in tail {
      NextOfTail(p, tail, dir, b);
      VisitOfTail(f, dir, store, p, log, low, tail);
    } else {
      FoundOutsideTail(f, dir, p.uploaded, log, low, tail, b);
    }
  }

  lemma TodoOfTail(todo: seq<int>, tail: seq<int>, n: nat)
    requires Increasing(todo) && Increasing(tail) && todo != [] && n < |tail| && tail[n] == todo[0]
    requires forall i :: 0 <= i < n ==> tail[i] !in todo
    requires forall i :: n <= i < |tail| ==> tail[i] in todo
    ensures forall i :: 0 <= i <= n ==> tail[i] !in todo[1..]
    ensures forall i :: n < i < |tail| ==> tail[i] in todo[1..]
  {
    forall i | n < i < |tail| ensures tail[i] in todo[1..] {
      assert tail[i] in todo && tail[n] < tail[i];
    }
  }

  lemma VisitOfTail(f: Framing, dir: WalDir, store: Store, p: Progress, log: seq<Record>, low: int, tail: seq<int>)
    requires Durable(f, dir, store, log, low, tail) && RecoveringOk(f, dir, store, p, log, low, tail)
    requires p.todo != [] && p.todo[0] in dir && |p.orphans| < |tail| && tail[|p.orphans|] == p.todo[0]
    ensures ProgressOk(Visit(f, dir, p), UploadedEnd(store.manifest), log, tail)
  {
    var b, n := p.todo[0], |p.orphans|;
    var rs := Piece(log, tail, n);
    assert FileHolds(f, dir, tail[n], rs);
    assert Found(f, dir, p.uploaded, b) == rs;
    TodoOfTail(p.todo, tail, n);
    NoteOfTail(p, log, tail, UploadedEnd(store.manifest));
  }

  lemma NoteNext(p: Progress, log: seq<Record>, base: int, end: int)
    requires LogOk(log) && 0 <= base < end <= |log| && p.nextOffset <= base
    ensures var rs := log[base..end];
            Note(p, base, rs) == p.(orphans := p.orphans + [Orphan(base, rs)], nextOffset := end)
  {
    assert log[base..end][end - base - 1] == log[end - 1];
  }

  /** Noting the segment that is due extends the orphans and moves the next offset to its end. */
  lemma NoteOfTail(p: Progress, log: seq<Record>, tail: seq<int>, uploaded: int)
    requires TailOk(tail, uploaded, |log|) && LogOk(log) && ProgressOk(p, uploaded, log, tail)
    requires p.todo != [] && |p.orphans| < |tail| && tail[|p.orphans|] == p.todo[0]
    requires forall i :: 0 <= i <= |p.orphans| ==> tail[i] !in p.todo[1..]
    requires forall i :: |p.orphans| < i < |tail| ==> tail[i] in p.todo[1..]
    ensures var rs := log[p.todo[0]..SegEnd(tail, |log|, |p.orphans|)];
            ProgressOk(Note(p, p.todo[0], rs).(todo := p.todo[1..]), uploaded, log, tail)
  {
    var n := |p.orphans|;
    var end := SegEnd(tail, |log|, n);
    NoteNext(p, log, p.todo[0], end);
    var os := p.orphans + [Orphan(tail[n], log[tail[n]..end])];
    forall i | 0 <= i < n + 1 ensures os[i] == Orphan(tail[i], Piece(log, tail, i)) {
    }
  }

  /** Visiting a file changes no records, cleans it unless it is covered, and removes it only then. */
  lemma RepairKeepsRecords(f: Framing, dir: WalDir, uploaded: seq<SegmentEntry>, base: int, removes: bool)
    requires Lawful(f) && base in dir
    ensures var dir' := Repair(f, dir, uploaded, base, removes);
            && (forall b :: b in dir' ==> b in dir && Scan(f, dir'[b]).records == Scan(f, dir[b]).records)
            && (forall b :: b in dir' && b != base ==> dir'[b] == dir[b])
            && (forall b :: b in dir && b !in dir' ==> b < UploadedEnd(uploaded))
            && (base in dir' ==> Scan(f, dir'[base]).validLen == |dir'[base]| || Covered(uploaded, base))
  {
    ScanTruncateFixed(f, dir[base]);
  }

  /** A covered file repeats its segment, so it holds records. */
  lemma CoveredHolds(f: Framing, dir: WalDir, m: seq<SegmentEntry>, log: seq<Record>, low: int, tail: seq<int>, b: int)
    requires b in dir && DirOk(f, dir, m, log, low, tail) && TailOk(tail, UploadedEnd(m), |log|) && Covered(m, b)
    ensures Scan(f, dir[b]).records != []
  {
    assert b !in tail;
    if !Outlived(f, dir, log, low, b) {
      assert Repeats(f, dir, m, log, b);
    }
  }

  lemma VisitDir(f: Framing, dir: WalDir, store: Store, p: Progress, log: seq<Record>, low: int, tail: seq<int>, removes: bool)
    requires Lawful(f) && Durable(f, dir, store, log, low, tail) && RecoveringOk(f, dir, store, p, log, low, tail)
    requires p.todo != [] && p.todo[0] in dir
    ensures var dir' := Repair(f, dir, p.uploaded, p.todo[0], removes);
            && Durable(f, dir', store, log, low, tail) && NoneOutlived(f, dir', low)
            && CleanExcept(f, dir', p.todo[1..], UploadedEnd(store.manifest))
  {
    var b := p.todo[0];
    RepairKeepsRecords(f, dir, p.uploaded, b, removes);
    if Covered(p.uploaded, b) { CoveredHolds(f, dir, p.uploaded, log, low, tail, b); }
    TailInDir(f, dir, log, tail);
    SameRecordsDurable(f, dir, Repair(f, dir, p.uploaded, b, removes), store, log, low, tail);
  }

  lemma VisitRecovering(f: Framing, dir: WalDir, store: Store, p: Progress, log: seq<Record>, low: int, tail: seq<int>, removes: bool)
    requires Lawful(f) && Durable(f, dir, store, log, low, tail) && RecoveringOk(f, dir, store, p, log, low, tail)
    requires p.todo != [] && p.todo[0] in dir
    ensures var dir' := Repair(f, dir, p.uploaded, p.todo[0], removes);
            Durable(f, dir', store, log, low, tail) && RecoveringOk(f, dir', store, Visit(f, dir, p), log, low, tail)
  {
    VisitProgress(f, dir, store, p, log, low, tail);
    VisitDir(f, dir, store, p, log, low, tail, removes);
    VisitKeepsVisitable(f, dir, p, removes);
  }

  lemma VisitKeeps(f: Framing, s: System, h: History, ok: bool)
    requires Lawful(f) && Inv(f, s, h) && s.process.Recovering?
    requires s.process.progress.todo != [] && s.process.progress.todo[0] in s.dir
    ensures Inv(f, VisitStep(f, s, ok), h)
  {
    VisitRecovering(f, s.dir, s.store, s.process.progress, h.log, h.low, h.tail, ok);
  }

  // ------------------------------------------------------------------------------------------
  // Boot

  ghost predicate HandoverOk(r: Recovered, log: seq<Record>, tail: seq<int>) {
    && r.nextOffset == |log|
    && |tail| == |r.orphans| + (if r.active == [] then 0 else 1)
    && ActiveOk(r.active, if r.active == [] then |log| else tail[|tail| - 1], log, tail)
    && (forall i {:trigger r.orphans[i]} :: 0 <= i < |r.orphans| ==>
          r.orphans[i] == Orphan(tail[i], Piece(log, tail, i)))
  }

  /** What recovery hands over: the tail's last segment is active, the others are orphans. */
  lemma Handover(p: Progress, uploaded: int, log: seq<Record>, tail: seq<int>)
    requires TailOk(tail, uploaded, |log|) && ProgressOk(p, uploaded, log, tail) && p.todo == []
    ensures HandoverOk(Finish(p), log, tail)
  {
    assert |p.orphans| == |tail|;
    if tail != [] {
      var i := |tail| - 1;
      assert p.orphans[i] == Orphan(tail[i], Piece(log, tail, i));
    }
  }

  lemma RequeueOk(orphans: seq<Orphan>, active: seq<Record>, log: seq<Record>, tail: seq<int>, uploaded: int)
    requires TailOk(tail, uploaded, |log|) && LogOk(log)
    requires |tail| == |orphans| + (if active == [] then 0 else 1)
    requires forall i {:trigger orphans[i]} :: 0 <= i < |orphans| ==>
               orphans[i] == Orphan(tail[i], Piece(log, tail, i))
    requires forall i :: 0 <= i < |orphans| ==> orphans[i].records != []
    ensures QueueOk(Requeue(orphans), active, log, tail)
  {
    forall i | 0 <= i < |orphans|
      ensures BatchOk(Requeue(orphans)[i], log, tail[i], SegEnd(tail, |log|, i))
    {
      assert orphans[i].records[0] == log[tail[i]];
    }
  }

  lemma BootWriter(f: Framing, dir: WalDir, r: Recovered, h: History, base: int, uploaded: int)
    requires Clean(f, dir, uploaded) && LogOk(h.log) && r.nextOffset == |h.log|
    requires ActiveOk(r.active, base, h.log, h.tail)
    ensures WriterOk(f, dir, New(r.nextOffset, r.active), h, uploaded)
  {
    if r.active != [] { assert r.active[0] == h.log[base]; }
  }

  lemma BootUploads(r: Recovered, store: Store, log: seq<Record>, low: int, tail: seq<int>)
    requires TailOk(tail, UploadedEnd(store.manifest), |log|) && LogOk(log)
    requires |tail| == |r.orphans| + (if r.active == [] then 0 else 1)
    requires forall i {:trigger r.orphans[i]} :: 0 <= i < |r.orphans| ==>
               r.orphans[i] == Orphan(tail[i], Piece(log, tail, i))
    requires forall i :: 0 <= i < |r.orphans| ==> r.orphans[i].records != []
    ensures UploadsOk(Idle, Requeue(r.orphans), [], r.active, store, log, low, tail)
  {
    RequeueOk(r.orphans, r.active, log, tail, UploadedEnd(store.manifest));
    assert [] + Requeue(r.orphans) == Requeue(r.orphans);
  }

  lemma BootHandover(f: Framing, dir: WalDir, r: Recovered, h: History, store: Store)
    requires Clean(f, dir, UploadedEnd(store.manifest)) && LogOk(h.log)
    requires TailOk(h.tail, UploadedEnd(store.manifest), |h.log|) && HandoverOk(r, h.log, h.tail)
    requires forall i :: 0 <= i < |r.orphans| ==> r.orphans[i].records != []
    ensures WriterOk(f, dir, New(r.nextOffset, r.active), h, UploadedEnd(store.manifest))
    ensures UploadsOk(Idle, Requeue(r.orphans), [], r.active, store, h.log, h.low, h.tail)
  {
    BootWriter(f, dir, r, h, if r.active == [] then |h.log| else h.tail[|h.tail| - 1], UploadedEnd(store.manifest));
    BootUploads(r, store, h.log, h.low, h.tail);
  }

  lemma BootRunning(f: Framing, s: System, h: History)
    requires Durable(f, s.dir, s.store, h.log, h.low, h.tail)
    requires s.process.Recovering? && s.process.progress.todo == []
    requires RecoveringOk(f, s.dir, s.store, s.process.progress, h.log, h.low, h.tail)
    requires var os := s.process.progress.orphans;
             forall i :: 0 <= i < |os| ==> os[i].records != []
    ensures RunningOk(f, BootStep(s), h)
  {
    Handover(s.process.progress, UploadedEnd(s.store.manifest), h.log, h.tail);
    BootHandover(f, s.dir, Finish(s.process.progress), h, s.store);
  }

  lemma BootKeeps(f: Framing, s: System, h: History)
    requires Inv(f, s, h) && s.process.Recovering? && s.process.progress.todo == []
    requires var os := s.process.progress.orphans;
             forall i :: 0 <= i < |os| ==> os[i].records != []
    ensures Inv(f, BootStep(s), h)
  {
    BootRunning(f, s, h);
  }
}
