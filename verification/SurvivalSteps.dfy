/** The writer's steps, panics and crashes keep what `Survival` states. */
module SurvivalSteps {
  import opened WalFrame
  import opened Wal
  import opened Manifest
  import opened Recovery
  import opened Writer
  import opened Uploads
  import opened Partition
  import opened PartitionInvariant
  import opened PartitionLogging
  import opened WriterSteps
  import opened Survival

  // ------------------------------------------------------------------------------------------
  // Produce

  lemma TicketMoves(t: Ticket, where: seq<Record>, sent: seq<seq<Record>>, end: int,
                    where': seq<Record>, sent': seq<seq<Record>>, end': int)
    requires TicketKept(t, where, sent, end) && Within(where, where') && sent <= sent' && end <= end'
    ensures TicketKept(t, where', sent', end')
  {
    forall k | 0 <= k < t.count ensures sent'[t.id][k].offset == t.base + k && sent'[t.id][k] in where' {
      assert sent'[t.id] == sent[t.id];
      assert sent[t.id][k] in where;
    }
  }

  lemma AcksMove(acks: seq<Ack>, log: seq<Record>, sent: seq<seq<Record>>, log': seq<Record>, sent': seq<seq<Record>>)
    requires AcksKept(acks, log, sent) && Within(log, log') && sent <= sent'
    ensures AcksKept(acks, log', sent')
  {
    forall i | 0 <= i < |acks| ensures TicketKept(acks[i].ticket, log', sent', acks[i].value + 1) {
      TicketMoves(acks[i].ticket, log, sent, acks[i].value + 1, log', sent', acks[i].value + 1);
    }
  }

  lemma TicketsGrow(tickets: seq<Ticket>, pending: seq<Record>, sent: seq<seq<Record>>, next: int, rs: seq<Record>)
    requires TicketsKept(tickets, pending, sent, next)
    requires forall k :: 0 <= k < |rs| ==> rs[k].offset == next + k
    ensures TicketsKept(tickets + [Ticket(|sent|, next, |rs|)], pending + rs, sent + [rs], next + |rs|)
  {
    var all := tickets + [Ticket(|sent|, next, |rs|)];
    forall i | 0 <= i < |all| ensures TicketKept(all[i], pending + rs, sent + [rs], next + |rs|) {
      if i < |tickets| {
        TicketMoves(tickets[i], pending, sent, next, pending + rs, sent + [rs], next + |rs|);
      } else {
        assert forall k :: 0 <= k < |rs| ==> rs[k] in pending + rs;
      }
    }
  }

  lemma NumbersGrow(acks: seq<Ack>, tickets: seq<Ticket>, log: seq<Record>, pending: seq<Record>, sent: seq<seq<Record>>, next: int, t: Ticket)
    requires NumbersOk(acks, tickets) && AcksKept(acks, log, sent) && TicketsKept(tickets, pending, sent, next) && t.id == |sent|
    ensures NumbersOk(acks, tickets + [t])
  {
    forall i | 0 <= i < |acks| ensures acks[i].ticket.id < |sent| {
      assert TicketKept(acks[i].ticket, log, sent, acks[i].value + 1);
    }
    forall i | 0 <= i < |tickets| ensures tickets[i].id < |sent| {
      assert TicketKept(tickets[i], pending, sent, next);
    }
  }

  lemma EnqueuedWriter(f: Framing, dir: WalDir, w: Writer, w': Writer, m: seq<SegmentEntry>, rs: seq<Record>)
    requires WriterSound(f, dir, w, m) && w.stage.Ready? && AllEncodable(rs)
    requires forall i :: 0 <= i < |rs| ==> rs[i].offset == w.nextOffset + i
    requires w' == w.(pending := w.pending + rs, nextOffset := w.nextOffset + |rs|, tickets := w'.tickets)
    ensures WriterSound(f, dir, w', m) && FlushedEnd(w') == FlushedEnd(w)
  {
    ProducePending(w.nextOffset, w.pending, FlushedEnd(w), rs);
  }

  lemma ProduceSurvives(f: Framing, s: System, h: History, incoming: seq<Incoming>, clocks: seq<int>)
    requires Survives(f, s, h) && s.process.Running? && s.process.writer.stage.Ready? && |clocks| == |incoming|
    requires AllEncodable(StampAll(incoming, clocks, s.process.writer.nextOffset))
    ensures Survives(f, ProduceStep(s, incoming, clocks), ProduceSeen(h, s.process.writer, incoming, clocks))
  {
    var w := s.process.writer;
    var rs := StampAll(incoming, clocks, w.nextOffset);
    EnqueuedWriter(f, s.dir, w, Enqueue(w, incoming, clocks, s.issued), s.store.manifest, rs);
    TicketsGrow(w.tickets, w.pending, h.sent, w.nextOffset, rs);
    NumbersGrow(h.acks, w.tickets, h.log, w.pending, h.sent, w.nextOffset, Ticket(s.issued, w.nextOffset, |rs|));
    AcksMove(h.acks, h.log, h.sent, h.log, h.sent + [rs]);
  }

  // ------------------------------------------------------------------------------------------
  // Records reach the disk

  /** Whatever one view of the world accounts for, another one does. */
  lemma LogMoves(f: Framing, dir: WalDir, store: Store, evicted: seq<Record>,
                 dir': WalDir, store': Store, evicted': seq<Record>, log: seq<Record>)
    requires LogSafe(f, dir, store, evicted, log)
    requires forall r :: InFile(f, dir, r) ==> Safe(f, dir', store', evicted', r)
    requires forall r :: Stored(store, evicted, r) ==> Stored(store', evicted', r)
    ensures LogSafe(f, dir', store', evicted', log)
  {
  }

  /** The writer is about to append a prefix of its pending batch to its own file. */
  ghost predicate Flushing(f: Framing, dir: WalDir, w: Writer, batch: seq<Record>) {
    && HomeOk(f, dir, w) && OffsetsOk(w) && w.walBase == w.segmentBase && batch <= w.pending
  }

  lemma AppendedNamed(f: Framing, dir: WalDir, dir': WalDir, w: Writer, batch: seq<Record>)
    requires FilesNamed(f, dir) && Flushing(f, dir, w, batch) && Appended(f, dir, dir', w, batch)
    ensures Named(w.active + batch, w.segmentBase) && FilesNamed(f, dir')
    ensures forall i :: 0 <= i < |w.active + batch| ==> (w.active + batch)[i].offset < FlushedEnd(w) + |batch|
  {
    var all := w.active + batch;
    forall i, j | 0 <= i < j < |all| ensures all[i].offset < all[j].offset {
      if j >= |w.active| { assert all[j] == w.pending[j - |w.active|]; }
    }
    if w.active == [] && batch != [] { assert all[0] == w.pending[0]; }
    forall b | b in dir' ensures Named(Records(f, dir', b), b) {
      assert b != w.walBase ==> Records(f, dir', b) == Records(f, dir, b);
    }
  }

  lemma AppendedLog(f: Framing, dir: WalDir, dir': WalDir, store: Store, evicted: seq<Record>, log: seq<Record>, w: Writer, batch: seq<Record>)
    requires LogSafe(f, dir, store, evicted, log) && Flushing(f, dir, w, batch) && Appended(f, dir, dir', w, batch)
    ensures LogSafe(f, dir', store, evicted, log + batch)
  {
    forall r | InFile(f, dir, r) ensures InFile(f, dir', r) {
      var b :| b in dir && r in Records(f, dir, b);
      assert r in Records(f, dir', b);
    }
    LogMoves(f, dir, store, evicted, dir', store, evicted, log);
    forall r | r in batch ensures Safe(f, dir', store, evicted, r) {
      assert r in Records(f, dir', w.walBase);
    }
  }

  lemma AppendedListed(f: Framing, dir: WalDir, dir': WalDir, store: Store, w: Writer, batch: seq<Record>)
    requires ListedFiles(f, dir, store) && Appended(f, dir, dir', w, batch) && !Listed(store.manifest, w.walBase)
    ensures ListedFiles(f, dir', store)
  {
  }

  lemma AppendedDisk(f: Framing, dir: WalDir, dir': WalDir, store: Store, evicted: seq<Record>, log: seq<Record>, w: Writer, batch: seq<Record>)
    requires DiskSound(f, dir, store, evicted, log) && Flushing(f, dir, w, batch) && Appended(f, dir, dir', w, batch)
    requires !Listed(store.manifest, w.walBase)
    ensures DiskSound(f, dir', store, evicted, log + batch)
  {
    AppendedNamed(f, dir, dir', w, batch);
    AppendedLog(f, dir, dir', store, evicted, log, w, batch);
    AppendedListed(f, dir, dir', store, w, batch);
  }

  /** The uploads in progress concern other files. */
  lemma AppendedUploads(f: Framing, dir: WalDir, dir': WalDir, store: Store, evicted: seq<Record>, up: Uploader,
                        queue: seq<SealedBatch>, notices: seq<int>, w: Writer, batch: seq<Record>, end: int)
    requires UploadsSound(f, dir, store, evicted, up, queue, notices, w.walBase, FlushedEnd(w)) && end >= FlushedEnd(w)
    requires Appended(f, dir, dir', w, batch)
    ensures UploadsSound(f, dir', store, evicted, up, queue, notices, w.walBase, end)
  {
    var work := Held(up) + queue;
    forall i | 0 <= i < |work| ensures BatchKept(f, dir', work[i], end) {
      assert BatchKept(f, dir, work[i], FlushedEnd(w));
    }
    forall b | b in notices ensures b < end && AllStored(store, evicted, Records(f, dir', b)) {
      assert Records(f, dir', b) == Records(f, dir, b);
    }
  }

  lemma AppendedBases(f: Framing, dir: WalDir, dir': WalDir, w: Writer, m: seq<SegmentEntry>, batch: seq<Record>)
    requires BasesLower(f, dir, m, FlushedEnd(w)) && Flushing(f, dir, w, batch) && FilesNamed(f, dir)
    requires Appended(f, dir, dir', w, batch)
    ensures BasesLower(f, dir', m, FlushedEnd(w) + |batch|)
  {
    AppendedNamed(f, dir, dir', w, batch);
    forall b | b in dir' && Records(f, dir', b) != [] ensures b < FlushedEnd(w) + |batch| {
      if b == w.walBase {
        assert (w.active + batch)[0].offset < FlushedEnd(w) + |batch|;
      } else {
        assert Records(f, dir', b) == Records(f, dir, b);
      }
    }
  }

  lemma AppendedWhole(f: Framing, dir: WalDir, dir': WalDir, w: Writer, w': Writer, batch: seq<Record>)
    requires FilesWhole(f, dir, w) && w.stage.Ready? && Appended(f, dir, dir', w, batch)
    requires w'.segmentBase == w.walBase && (w'.stage.Dead? || Whole(f, dir', w.walBase))
    ensures FilesWhole(f, dir', w')
  {
  }

  /** The writer with `active` flushed up to `end`; only its own file changed. */
  lemma AppendedWriter(f: Framing, dir: WalDir, dir': WalDir, w: Writer, w': Writer, m: seq<SegmentEntry>, batch: seq<Record>)
    requires WriterSound(f, dir, w, m) && w.stage.Ready? && FilesNamed(f, dir) && batch <= w.pending
    requires Appended(f, dir, dir', w, batch)
    requires w'.active == w.active + batch && w'.pending == [] && w'.segmentBase == w.segmentBase && w'.walBase == w.walBase
    requires w'.nextOffset == FlushedEnd(w) + |batch|
    requires w'.stage.Dead? || (w'.stage.Ready? && Whole(f, dir', w.walBase))
    ensures WriterSound(f, dir', w', m) && FlushedEnd(w') == FlushedEnd(w) + |batch|
  {
    AppendedNamed(f, dir, dir', w, batch);
    AppendedBases(f, dir, dir', w, m, batch);
    AppendedWhole(f, dir, dir', w, w', batch);
  }

  // ------------------------------------------------------------------------------------------
  // Flush

  lemma FlushedAcks(w: Writer, log: seq<Record>, sent: seq<seq<Record>>, acks: seq<Ack>)
    requires TicketsKept(w.tickets, w.pending, sent, w.nextOffset) && AcksKept(acks, log, sent)
    ensures AcksKept(acks + Acks(w), log + w.pending, sent)
  {
    AcksMove(acks, log, sent, log + w.pending, sent);
    forall i | 0 <= i < |Acks(w)| ensures TicketKept(Acks(w)[i].ticket, log + w.pending, sent, Acks(w)[i].value + 1) {
      TicketMoves(w.tickets[i], w.pending, sent, w.nextOffset, log + w.pending, sent, w.nextOffset);
    }
  }

  lemma FlushAppends(f: Framing, dir: WalDir, w: Writer, m: seq<SegmentEntry>)
    requires Lawful(f) && WriterSound(f, dir, w, m) && w.stage.Ready?
    ensures w.walBase in dir
    ensures var dir' := Append(dir, w.walBase, EncodeAll(f, w.pending));
            Appended(f, dir, dir', w, w.pending) && Whole(f, dir', w.walBase)
  {
    WholeAppend(f, dir[w.walBase], w.pending);
  }

  lemma FlushRunning(f: Framing, s: System, h: History, w: Writer)
    requires Lawful(f) && Survives(f, s, h) && s.process.Running? && w == s.process.writer && w.stage.Ready? && w.pending != []
    ensures w.walBase in s.dir && RunningSound(f, FlushStep(f, s), FlushSeen(h, w))
    ensures DiskSound(f, FlushStep(f, s).dir, s.store, h.evicted, h.log + w.pending)
  {
    FlushAppends(f, s.dir, w, s.store.manifest);
    var dir' := FlushStep(f, s).dir;
    AppendedDisk(f, s.dir, dir', s.store, h.evicted, h.log, w, w.pending);
    AppendedWriter(f, s.dir, dir', w, Commit(w), s.store.manifest, w.pending);
    AppendedUploads(f, s.dir, dir', s.store, h.evicted, s.process.uploader, s.process.queue, s.process.notices,
                    w, w.pending, w.nextOffset);
  }

  lemma FlushSurvives(f: Framing, s: System, h: History)
    requires Lawful(f) && Survives(f, s, h)
    requires s.process.Running? && s.process.writer.stage.Ready? && s.process.writer.walBase in s.dir
    ensures Survives(f, FlushStep(f, s), FlushSeen(h, s.process.writer))
  {
    var w := s.process.writer;
    if w.pending == [] {
      FlushNothing(f, s);
    } else {
      FlushRunning(f, s, h, w);
      FlushedAcks(w, h.log, h.sent, h.acks);
      FlushNumbers(h.acks, w);
    }
  }

  // ------------------------------------------------------------------------------------------
  // Seal and open

  lemma SealedKept(f: Framing, dir: WalDir, w: Writer)
    requires HomeOk(f, dir, w) && OffsetsOk(w) && w.active != []
    ensures BatchKept(f, dir, Batch(w.active), FlushedEnd(w)) && Batch(w.active).baseOffset == w.segmentBase
  {
  }

  lemma SealedUploads(f: Framing, dir: WalDir, store: Store, evicted: seq<Record>, up: Uploader,
                      queue: seq<SealedBatch>, notices: seq<int>, b: SealedBatch, end: int)
    requires UploadsSound(f, dir, store, evicted, up, queue, notices, b.baseOffset, end)
    requires BatchKept(f, dir, b, end) && !Listed(store.manifest, b.baseOffset)
    ensures UploadsSound(f, dir, store, evicted, up, queue + [b], notices, end, end)
  {
    var work := Held(up) + queue;
    assert Held(up) + (queue + [b]) == work + [b];
    forall i | 0 <= i < |work| + 1
      ensures BatchKept(f, dir, (work + [b])[i], end) && (work + [b])[i].baseOffset !in notices
    {
      if i < |work| { assert (work + [b])[i] == work[i]; }
    }
  }

  lemma SealedWriter(f: Framing, dir: WalDir, w: Writer, m: seq<SegmentEntry>)
    requires WriterSound(f, dir, w, m) && w.stage.Ready? && w.pending == [] && w.active != []
    ensures WriterSound(f, dir, Handoff(w), m) && FlushedEnd(Handoff(w)) == FlushedEnd(w) == w.nextOffset
  {
  }

  lemma SealSurvives(f: Framing, s: System, h: History)
    requires Survives(f, s, h) && s.process.Running? && s.process.writer.stage.Ready?
    requires s.process.writer.pending == [] && s.process.writer.active != []
    ensures Survives(f, SealStep(s), h)
  {
    var w := s.process.writer;
    SealedWriter(f, s.dir, w, s.store.manifest);
    SealedKept(f, s.dir, w);
    SealedUploads(f, s.dir, s.store, h.evicted, s.process.uploader, s.process.queue, s.process.notices, Batch(w.active), FlushedEnd(w));
  }

  /** The same records in every file, and perhaps new empty files. */
  ghost predicate SameOrNew(f: Framing, dir: WalDir, dir': WalDir) {
    && dir.Keys <= dir'.Keys
    && (forall b :: b in dir' ==> if b in dir then dir'[b] == dir[b] else Records(f, dir', b) == [] && Whole(f, dir', b))
  }

  lemma OpenedDir(f: Framing, dir: WalDir, base: int)
    requires Lawful(f) && base !in dir
    ensures SameOrNew(f, dir, dir[base := []])
  {
    EmptyScan(f);
  }

  lemma SameRecordsHere(f: Framing, dir: WalDir, dir': WalDir)
    requires SameOrNew(f, dir, dir')
    ensures forall b :: Records(f, dir', b) == Records(f, dir, b)
  {
  }

  lemma OpenedDisk(f: Framing, dir: WalDir, dir': WalDir, store: Store, evicted: seq<Record>, log: seq<Record>)
    requires DiskSound(f, dir, store, evicted, log) && SameOrNew(f, dir, dir')
    ensures DiskSound(f, dir', store, evicted, log)
  {
    SameRecordsHere(f, dir, dir');
    forall r | InFile(f, dir, r) ensures InFile(f, dir', r) {
      var b :| b in dir && r in Records(f, dir, b);
      assert b in dir.Keys && b in dir' && r in Records(f, dir', b);
    }
    LogMoves(f, dir, store, evicted, dir', store, evicted, log);
  }

  lemma OpenedUploads(f: Framing, dir: WalDir, dir': WalDir, store: Store, evicted: seq<Record>, up: Uploader,
                      queue: seq<SealedBatch>, notices: seq<int>, base: int, end: int)
    requires UploadsSound(f, dir, store, evicted, up, queue, notices, base, end) && SameOrNew(f, dir, dir')
    ensures UploadsSound(f, dir', store, evicted, up, queue, notices, base, end)
  {
    SameRecordsHere(f, dir, dir');
    var work := Held(up) + queue;
    forall i | 0 <= i < |work| ensures BatchKept(f, dir', work[i], end) {
      assert BatchKept(f, dir, work[i], end);
    }
  }

  lemma OpenedWriter(f: Framing, dir: WalDir, dir': WalDir, w: Writer, m: seq<SegmentEntry>)
    requires WriterSound(f, dir, w, m) && SameOrNew(f, dir, dir') && w.segmentBase in dir' && !w.stage.Dead? && !w.stage.Ready?
    ensures WriterSound(f, dir', Opened(w, true), m)
  {
    SameRecordsHere(f, dir, dir');
    forall b | b in dir' ensures Whole(f, dir', b) && (Records(f, dir', b) != [] ==> b < FlushedEnd(w)) {
    }
  }

  lemma OpenSurvives(f: Framing, s: System, h: History)
    requires Lawful(f) && Survives(f, s, h) && s.process.Running?
    requires s.process.writer.stage.Booting? || s.process.writer.stage.Sealing?
    ensures Survives(f, OpenStep(s, true), h)
  {
    var w := s.process.writer;
    var dir' := OpenStep(s, true).dir;
    if w.segmentBase !in s.dir { OpenedDir(f, s.dir, w.segmentBase); }
    assert SameOrNew(f, s.dir, dir');
    OpenedDisk(f, s.dir, dir', s.store, h.evicted, h.log);
    OpenedUploads(f, s.dir, dir', s.store, h.evicted, s.process.uploader, s.process.queue, s.process.notices, w.segmentBase, FlushedEnd(w));
    OpenedWriter(f, s.dir, dir', w, s.store.manifest);
  }

  // ------------------------------------------------------------------------------------------
  // Dropping a file

  /** A file goes whose records are stored. */
  lemma DroppedDisk(f: Framing, dir: WalDir, store: Store, evicted: seq<Record>, log: seq<Record>, base: int)
    requires DiskSound(f, dir, store, evicted, log) && AllStored(store, evicted, Records(f, dir, base))
    ensures DiskSound(f, dir - {base}, store, evicted, log)
  {
    var dir' := dir - {base};
    forall r | InFile(f, dir, r) ensures Safe(f, dir', store, evicted, r) {
      var b :| b in dir && r in Records(f, dir, b);
      if b != base { assert b in dir' && r in Records(f, dir', b); }
    }
    LogMoves(f, dir, store, evicted, dir', store, evicted, log);
    forall b | b in dir' ensures Records(f, dir', b) == Records(f, dir, b) {
    }
  }

  lemma DroppedUploads(f: Framing, dir: WalDir, store: Store, evicted: seq<Record>, up: Uploader, queue: seq<SealedBatch>,
                       notices: seq<int>, segmentBase: int, end: int)
    requires UploadsSound(f, dir, store, evicted, up, queue, notices, segmentBase, end) && notices != []
    ensures UploadsSound(f, dir - {notices[0]}, store, evicted, up, queue, notices[1..], segmentBase, end)
    ensures UploadsSound(f, dir, store, evicted, up, queue, notices[1..], segmentBase, end)
  {
    var dir', base := dir - {notices[0]}, notices[0];
    var work := Held(up) + queue;
    forall i | 0 <= i < |work| ensures BatchKept(f, dir', work[i], end) {
      assert BatchKept(f, dir, work[i], end) && work[i].baseOffset !in notices;
      assert base in notices;
    }
    forall b | b in notices[1..] ensures b in notices && AllStored(store, evicted, Records(f, dir', b)) {
    }
  }

  lemma DroppedWriter(f: Framing, dir: WalDir, w: Writer, m: seq<SegmentEntry>, base: int)
    requires WriterSound(f, dir, w, m) && base != w.segmentBase
    ensures WriterSound(f, dir - {base}, Landed(w, base), m) && WriterSound(f, dir, Landed(w, base), m)
  {
    var dir' := dir - {base};
    forall b | b in dir' ensures b in dir && Records(f, dir', b) == Records(f, dir, b) && dir'[b] == dir[b] {
    }
  }

  lemma DropSurvives(f: Framing, s: System, h: History, ok: bool)
    requires Survives(f, s, h) && s.process.Running? && s.process.writer.stage.Ready? && s.process.notices != []
    ensures Survives(f, DropStep(s, ok), h)
  {
    var w := s.process.writer;
    var base := s.process.notices[0];
    assert base in s.process.notices;
    DroppedDisk(f, s.dir, s.store, h.evicted, h.log, base);
    DroppedWriter(f, s.dir, w, s.store.manifest, base);
    DroppedUploads(f, s.dir, s.store, h.evicted, s.process.uploader, s.process.queue, s.process.notices, w.segmentBase, FlushedEnd(w));
  }

  // ------------------------------------------------------------------------------------------
  // Panic and crash

  lemma TornAppends(f: Framing, dir: WalDir, w: Writer, m: seq<SegmentEntry>, cut: nat)
    requires Lawful(f) && WriterSound(f, dir, w, m) && w.stage.Ready? && cut <= |EncodeAll(f, w.pending)|
    ensures w.walBase in dir
    ensures Appended(f, dir, Append(dir, w.walBase, EncodeAll(f, w.pending)[..cut]), w, Survivors(f, w, cut))
    ensures Survivors(f, w, cut) <= w.pending
  {
    TornAppend(f, dir[w.walBase], w.pending, cut);
  }

  /** What a torn append leaves: on disk, and in the log. */
  lemma TornDisk(f: Framing, s: System, h: History, cut: nat)
    requires Lawful(f) && Survives(f, s, h) && s.process.Running? && s.process.writer.stage.Ready?
    requires cut <= |EncodeAll(f, s.process.writer.pending)|
    ensures var w := s.process.writer;
            && w.walBase in s.dir
            && DiskSound(f, Append(s.dir, w.walBase, EncodeAll(f, w.pending)[..cut]), s.store, h.evicted, h.log + Survivors(f, w, cut))
  {
    var w := s.process.writer;
    TornAppends(f, s.dir, w, s.store.manifest, cut);
    AppendedDisk(f, s.dir, Append(s.dir, w.walBase, EncodeAll(f, w.pending)[..cut]), s.store, h.evicted, h.log, w, Survivors(f, w, cut));
  }

  lemma LoggedLog(h: History, w: Writer, batch: seq<Record>)
    ensures Logged(h, w, batch).log == h.log + batch && Logged(h, w, batch).evicted == h.evicted
    ensures Logged(h, w, batch).acks == h.acks && Logged(h, w, batch).sent == h.sent
  {
    assert h.log + [] == h.log;
  }

  lemma CrashSurvives(f: Framing, s: System, h: History, cut: nat)
    requires Lawful(f) && Survives(f, s, h)
    requires s.process.Running? ==> TornCut(f, s, cut)
    ensures Survives(f, CrashStep(f, s, cut), CrashSeen(f, s, h, cut))
  {
    if s.process.Running? && cut > 0 {
      TornDisk(f, s, h, cut);
      var survivors := Survivors(f, s.process.writer, cut);
      LoggedLog(h, s.process.writer, survivors);
      AcksMove(h.acks, h.log, h.sent, h.log + survivors, h.sent);
    }
  }

  lemma PanicRunning(f: Framing, s: System, h: History, w: Writer, cut: nat)
    requires Lawful(f) && Survives(f, s, h) && s.process.Running? && w == s.process.writer && w.stage.Ready?
    requires w.walBase in s.dir && TornCut(f, s, cut)
    ensures RunningSound(f, PanicStep(f, s, cut), PanicSeen(f, w, h, cut))
  {
    var survivors := Survivors(f, w, cut);
    var dir' := PanicStep(f, s, cut).dir;
    TornAppends(f, s.dir, w, s.store.manifest, cut);
    LoggedLog(h, w, survivors);
    AppendedWriter(f, s.dir, dir', w, Died(w, survivors), s.store.manifest, survivors);
    AppendedUploads(f, s.dir, dir', s.store, h.evicted, s.process.uploader, s.process.queue, s.process.notices,
                    w, survivors, FlushedEnd(w) + |survivors|);
  }

  lemma PanicSurvives(f: Framing, s: System, h: History, cut: nat)
    requires Lawful(f) && Survives(f, s, h) && s.process.Running? && s.process.writer.stage.Ready?
    requires s.process.writer.walBase in s.dir && TornCut(f, s, cut)
    ensures Survives(f, PanicStep(f, s, cut), PanicSeen(f, s.process.writer, h, cut))
  {
    var w := s.process.writer;
    PanicRunning(f, s, h, w, cut);
    TornDisk(f, s, h, cut);
    LoggedLog(h, w, Survivors(f, w, cut));
    AcksMove(h.acks, h.log, h.sent, h.log + Survivors(f, w, cut), h.sent);
  }
}
