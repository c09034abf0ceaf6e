/** The writer's events keep the invariant: produce, flush, seal, open, and dropping a WAL file. */
module WriterSteps {
  import opened WalFrame
  import opened Wal
  import opened Manifest
  import opened Recovery
  import opened Writer
  import opened Uploads
  import opened Partition
  import opened PartitionInvariant
  import opened PartitionLogging

  // ------------------------------------------------------------------------------------------
  // Produce

  lemma TicketOkExtends(t: Ticket, from: int, all: seq<Record>, sent: seq<seq<Record>>, more: seq<Record>, next: seq<Record>)
    requires TicketOk(t, from, all, sent)
    ensures TicketOk(t, from, all + more, sent + [next])
  {
    SliceOfPrefix(all, more, t.base, t.base + t.count);
  }

  lemma TileExtends(tickets: seq<Ticket>, from: int, to: int, t: Ticket)
    requires TicketsTile(tickets, from, to) && t.base == to
    ensures TicketsTile(tickets + [t], from, to + t.count)
  {
  }

  lemma ProduceTickets(tickets: seq<Ticket>, pending: seq<Record>, log: seq<Record>, sent: seq<seq<Record>>, rs: seq<Record>)
    requires TicketsOk(tickets, pending, log, sent)
    ensures TicketsOk(tickets + [Ticket(|sent|, |log| + |pending|, |rs|)], pending + rs, log, sent + [rs])
  {
    var all := log + pending;
    var t := Ticket(|sent|, |all|, |rs|);
    TileExtends(tickets, |log|, |all|, t);
    assert log + (pending + rs) == all + rs;
    TicketsOkExtend(tickets, |log|, all, sent, rs, t);
  }

  lemma TicketsOkExtend(tickets: seq<Ticket>, from: int, all: seq<Record>, sent: seq<seq<Record>>, rs: seq<Record>, t: Ticket)
    requires forall i :: 0 <= i < |tickets| ==> TicketOk(tickets[i], from, all, sent)
    requires t == Ticket(|sent|, |all|, |rs|) && 0 <= from <= |all|
    ensures forall i :: 0 <= i < |tickets + [t]| ==> TicketOk((tickets + [t])[i], from, all + rs, sent + [rs])
  {
    forall i | 0 <= i < |tickets| ensures TicketOk(tickets[i], from, all + rs, sent + [rs]) {
      TicketOkExtends(tickets[i], from, all, sent, rs, rs);
    }
    assert (all + rs)[|all|..|all| + |rs|] == rs;
  }

  lemma ProduceNumbers(acks: seq<Ack>, tickets: seq<Ticket>, log: seq<Record>, all: seq<Record>, sent: seq<seq<Record>>, t: Ticket)
    requires NumbersOk(acks, tickets) && AcksOk(acks, log, sent) && t.id == |sent|
    requires forall i :: 0 <= i < |tickets| ==> TicketOk(tickets[i], |log|, all, sent)
    ensures NumbersOk(acks, tickets + [t])
  {
    forall i | 0 <= i < |acks| ensures acks[i].ticket.id < |sent| {
      assert AckOk(acks[i], log, sent);
    }
  }

  lemma ProducePending(next: int, pending: seq<Record>, end: int, rs: seq<Record>)
    requires PendingOk(next, pending, end) && AllEncodable(rs)
    requires forall i :: 0 <= i < |rs| ==> rs[i].offset == next + i
    ensures PendingOk(next + |rs|, pending + rs, end)
  {
  }

  /** Tickets and pending records change; the file, the active segment and the stage do not. */
  lemma EnqueuedParts(f: Framing, dir: WalDir, w: Writer, w': Writer, h: History, h': History, uploaded: int)
    requires WriterOk(f, dir, w, h, uploaded) && w.stage.Ready?
    requires w' == w.(pending := w'.pending, nextOffset := w'.nextOffset, tickets := w'.tickets)
    requires h' == h.(sent := h'.sent)
    requires PendingOk(w'.nextOffset, w'.pending, |h.log|) && TicketsOk(w'.tickets, w'.pending, h.log, h'.sent)
    ensures WriterOk(f, dir, w', h', uploaded)
  {
  }

  /** Stamped records behind the pending ones, and their ticket behind the others. */
  lemma EnqueuedFacts(next: int, pending: seq<Record>, tickets: seq<Ticket>, log: seq<Record>, sent: seq<seq<Record>>, rs: seq<Record>)
    requires PendingOk(next, pending, |log|) && TicketsOk(tickets, pending, log, sent) && AllEncodable(rs)
    requires forall i :: 0 <= i < |rs| ==> rs[i].offset == next + i
    ensures PendingOk(next + |rs|, pending + rs, |log|)
    ensures TicketsOk(tickets + [Ticket(|sent|, next, |rs|)], pending + rs, log, sent + [rs])
  {
    ProduceTickets(tickets, pending, log, sent, rs);
    ProducePending(next, pending, |log|, rs);
  }

  lemma EnqueuedWriter(f: Framing, dir: WalDir, w: Writer, h: History, rs: seq<Record>, uploaded: int)
    requires WriterOk(f, dir, w, h, uploaded) && w.stage.Ready? && AllEncodable(rs)
    requires forall i :: 0 <= i < |rs| ==> rs[i].offset == w.nextOffset + i
    ensures var w' := w.(pending := w.pending + rs, nextOffset := w.nextOffset + |rs|,
                         tickets := w.tickets + [Ticket(|h.sent|, w.nextOffset, |rs|)]);
            WriterOk(f, dir, w', h.(sent := h.sent + [rs]), uploaded)
  {
    var w' := w.(pending := w.pending + rs, nextOffset := w.nextOffset + |rs|,
                 tickets := w.tickets + [Ticket(|h.sent|, w.nextOffset, |rs|)]);
    EnqueuedFacts(w.nextOffset, w.pending, w.tickets, h.log, h.sent, rs);
    EnqueuedParts(f, dir, w, w', h, h.(sent := h.sent + [rs]), uploaded);
  }

  lemma ProduceWriter(f: Framing, dir: WalDir, w: Writer, h: History, incoming: seq<Incoming>, clocks: seq<int>, uploaded: int)
    requires WriterOk(f, dir, w, h, uploaded) && w.stage.Ready? && |clocks| == |incoming|
    requires AllEncodable(StampAll(incoming, clocks, w.nextOffset))
    ensures WriterOk(f, dir, Enqueue(w, incoming, clocks, |h.sent|), ProduceSeen(h, w, incoming, clocks), uploaded)
  {
    EnqueuedWriter(f, dir, w, h, StampAll(incoming, clocks, w.nextOffset), uploaded);
  }

  lemma ProduceKeeps(f: Framing, s: System, h: History, incoming: seq<Incoming>, clocks: seq<int>)
    requires Inv(f, s, h) && s.process.Running? && s.process.writer.stage.Ready? && |clocks| == |incoming|
    requires AllEncodable(StampAll(incoming, clocks, s.process.writer.nextOffset))
    ensures Inv(f, ProduceStep(s, incoming, clocks), ProduceSeen(h, s.process.writer, incoming, clocks))
  {
    var w := s.process.writer;
    var rs := StampAll(incoming, clocks, w.nextOffset);
    ProduceWriter(f, s.dir, w, h, incoming, clocks, UploadedEnd(s.store.manifest));
    ProduceNumbers(h.acks, w.tickets, h.log, h.log + w.pending, h.sent, Ticket(s.issued, w.nextOffset, |rs|));
    AcksOkExtends(h.acks, h.log, h.sent, h.log, h.sent + [rs]);
  }

  // ------------------------------------------------------------------------------------------
  // Flush

  lemma FlushDisk(f: Framing, dir: WalDir, store: Store, h: History, w: Writer)
    requires Lawful(f) && Durable(f, dir, store, h.log, h.low, h.tail) && Clean(f, dir, UploadedEnd(store.manifest))
    requires Appending(w, h, UploadedEnd(store.manifest)) && PendingOk(w.nextOffset, w.pending, |h.log|)
    requires w.walBase in dir && Scan(f, dir[w.walBase]).records == w.active
    ensures var dir' := Append(dir, w.walBase, EncodeAll(f, w.pending));
            var h' := Logged(h, w, w.pending);
            Clean(f, dir', UploadedEnd(store.manifest)) && Durable(f, dir', store, h'.log, h'.low, h'.tail)
  {
    ActiveAboveUploaded(w.active, w.segmentBase, h.log, h.tail, UploadedEnd(store.manifest));
    assert CleanFile(f, dir[w.walBase], w.walBase, UploadedEnd(store.manifest));
    WholeAppend(f, dir[w.walBase], w.pending);
    LoggedDurable(f, dir, store, h, w, Append(dir, w.walBase, EncodeAll(f, w.pending)), w.pending);
  }

  lemma FlushAcks(w: Writer, log: seq<Record>, sent: seq<seq<Record>>, acks: seq<Ack>)
    requires TicketsOk(w.tickets, w.pending, log, sent) && AcksOk(acks, log, sent)
    requires PendingOk(w.nextOffset, w.pending, |log|)
    ensures AcksOk(acks + Acks(w), log + w.pending, sent)
  {
    AcksOkExtends(acks, log, sent, log + w.pending, sent);
    forall i | 0 <= i < |Acks(w)| ensures AckOk(Acks(w)[i], log + w.pending, sent) {
      assert TicketOk(w.tickets[i], |log|, log + w.pending, sent);
    }
  }

  lemma FlushNumbers(acks: seq<Ack>, w: Writer)
    requires NumbersOk(acks, w.tickets)
    ensures NumbersOk(acks + Acks(w), [])
  {
  }

  lemma LoggedQueue(work: seq<SealedBatch>, w: Writer, h: History, uploaded: int, batch: seq<Record>)
    requires QueueOk(work, w.active, h.log, h.tail) && Appending(w, h, uploaded) && batch != []
    ensures var h' := Logged(h, w, batch);
            QueueOk(work, w.active + batch, h'.log, h'.tail)
  {
    var h' := Logged(h, w, batch);
    LoggedTail(w, h, uploaded, batch);
    forall i | 0 <= i < |work|
      ensures BatchOk(work[i], h'.log, h'.tail[i], SegEnd(h'.tail, |h'.log|, i))
    {
      assert BatchOk(work[i], h.log, h.tail[i], SegEnd(h.tail, |h.log|, i));
      SliceOfPrefix(h.log, batch, h.tail[i], SegEnd(h.tail, |h.log|, i));
    }
  }

  lemma UploaderOkExtends(up: Uploader, store: Store, log: seq<Record>, more: seq<Record>, low: int)
    requires UploaderOk(up, store, log, low)
    ensures UploaderOk(up, store, log + more, low)
  {
    if up.Uploading? && Listed(store.manifest, up.batch.baseOffset) {
      var last := store.manifest[|store.manifest| - 1];
      SliceOfPrefix(log, more, last.baseOffset, last.lastOffset + 1);
    }
  }

  lemma LoggedActive(w: Writer, h: History, uploaded: int, batch: seq<Record>)
    requires Appending(w, h, uploaded) && batch != []
    ensures var h' := Logged(h, w, batch);
            ActiveOk(w.active + batch, w.segmentBase, h'.log, h'.tail)
  {
    LoggedTail(w, h, uploaded, batch);
    SuffixGrows(h.log, w.active, batch);
  }

  lemma FlushNothing(f: Framing, s: System)
    requires s.process.Running? && s.process.writer.walBase in s.dir && s.process.writer.pending == []
    ensures FlushStep(f, s) == s
  {
    var base := s.process.writer.walBase;
    assert s.dir[base] + [] == s.dir[base];
  }

  lemma FlushKeeps(f: Framing, s: System, h: History)
    requires Lawful(f) && Inv(f, s, h)
    requires s.process.Running? && s.process.writer.stage.Ready? && s.process.writer.walBase in s.dir
    ensures Inv(f, FlushStep(f, s), FlushSeen(h, s.process.writer))
  {
    var w := s.process.writer;
    if w.pending == [] {
      FlushNothing(f, s);
    } else {
      FlushSomeKeeps(f, s, h, w);
    }
  }

  lemma FlushSomeKeeps(f: Framing, s: System, h: History, w: Writer)
    requires Lawful(f) && Inv(f, s, h)
    requires s.process.Running? && w == s.process.writer && w.stage.Ready? && w.walBase in s.dir && w.pending != []
    ensures Inv(f, FlushStep(f, s), FlushSeen(h, w))
  {
    var uploaded := UploadedEnd(s.store.manifest);
    ActiveFile(f, s.dir, s.store, h.log, h.low, h.tail, w.active, w.walBase);
    FlushDisk(f, s.dir, s.store, h, w);
    FlushAcks(w, h.log, h.sent, h.acks);
    FlushNumbers(h.acks, w);
    LoggedActive(w, h, uploaded, w.pending);
    LoggedQueue(InHand(s.process.uploader, s.store.manifest) + s.process.queue, w, h, uploaded, w.pending);
    UploaderOkExtends(s.process.uploader, s.store, h.log, w.pending, h.low);
  }

  // ------------------------------------------------------------------------------------------
  // Seal, open, drop

  lemma SealedOk(active: seq<Record>, log: seq<Record>, base: int)
    requires LogOk(log) && 0 <= base < |log| && active == log[base..]
    ensures BatchOk(Batch(active), log, base, |log|)
  {
    assert log[base..|log|] == active;
    assert active[0] == log[base];
  }

  lemma SealQueue(work: seq<SealedBatch>, active: seq<Record>, base: int, log: seq<Record>, tail: seq<int>, uploaded: int)
    requires QueueOk(work, active, log, tail) && ActiveOk(active, base, log, tail) && active != []
    requires TailOk(tail, uploaded, |log|) && LogOk(log)
    ensures QueueOk(work + [Batch(active)], [], log, tail)
  {
    var i := |tail| - 1;
    SealedOk(active, log, tail[i]);
    var work' := work + [Batch(active)];
    forall j | 0 <= j < |work'| ensures BatchOk(work'[j], log, tail[j], SegEnd(tail, |log|, j)) {
      if j < i { assert work'[j] == work[j]; }
    }
  }

  lemma SealUploads(up: Uploader, queue: seq<SealedBatch>, notices: seq<int>, active: seq<Record>, base: int,
                    store: Store, log: seq<Record>, low: int, tail: seq<int>)
    requires UploadsOk(up, queue, notices, active, store, log, low, tail)
    requires ActiveOk(active, base, log, tail) && active != []
    requires TailOk(tail, UploadedEnd(store.manifest), |log|) && LogOk(log)
    ensures UploadsOk(up, queue + [Batch(active)], notices, [], store, log, low, tail)
  {
    var inHand := InHand(up, store.manifest);
    SealQueue(inHand + queue, active, base, log, tail, UploadedEnd(store.manifest));
    assert inHand + (queue + [Batch(active)]) == inHand + queue + [Batch(active)];
  }

  lemma SealWriter(f: Framing, dir: WalDir, w: Writer, h: History, uploaded: int)
    requires WriterOk(f, dir, w, h, uploaded) && w.stage.Ready? && w.pending == [] && w.active != []
    ensures WriterOk(f, dir, Handoff(w), h, uploaded)
  {
  }

  lemma SealKeeps(f: Framing, s: System, h: History)
    requires Inv(f, s, h) && s.process.Running? && s.process.writer.stage.Ready?
    requires s.process.writer.pending == [] && s.process.writer.active != []
    ensures Inv(f, SealStep(s), h)
  {
    var w := s.process.writer;
    SealWriter(f, s.dir, w, h, UploadedEnd(s.store.manifest));
    SealUploads(s.process.uploader, s.process.queue, s.process.notices, w.active, w.segmentBase, s.store, h.log, h.low, h.tail);
  }

  lemma OpenDir(f: Framing, dir: WalDir, store: Store, log: seq<Record>, low: int, tail: seq<int>, base: int)
    requires Lawful(f) && Durable(f, dir, store, log, low, tail) && Clean(f, dir, UploadedEnd(store.manifest)) && base !in dir
    requires base >= UploadedEnd(store.manifest)
    ensures Durable(f, dir[base := []], store, log, low, tail) && Clean(f, dir[base := []], UploadedEnd(store.manifest))
  {
    EmptyScan(f);
    TailInDir(f, dir, log, tail);
    NotListedAbove(store.manifest, base);
    SameRecordsDurable(f, dir, dir[base := []], store, log, low, tail);
  }

  lemma OpenKeeps(f: Framing, s: System, h: History)
    requires Lawful(f) && Inv(f, s, h) && s.process.Running?
    requires s.process.writer.stage.Booting? || s.process.writer.stage.Sealing?
    ensures Inv(f, OpenStep(s, true), h)
  {
    var w := s.process.writer;
    if w.segmentBase !in s.dir {
      ActiveAboveUploaded(w.active, w.segmentBase, h.log, h.tail, UploadedEnd(s.store.manifest));
      OpenDir(f, s.dir, s.store, h.log, h.low, h.tail, w.segmentBase);
    }
  }

  /** Removing the file of a listed or evicted segment. */
  lemma DropDir(f: Framing, dir: WalDir, store: Store, log: seq<Record>, low: int, tail: seq<int>, base: int)
    requires Durable(f, dir, store, log, low, tail) && Clean(f, dir, UploadedEnd(store.manifest)) && base < UploadedEnd(store.manifest)
    ensures Durable(f, dir - {base}, store, log, low, tail) && Clean(f, dir - {base}, UploadedEnd(store.manifest))
  {
    TailInDir(f, dir, log, tail);
    SameRecordsDurable(f, dir, dir - {base}, store, log, low, tail);
  }

  lemma DropWriter(f: Framing, dir: WalDir, w: Writer, h: History, uploaded: int, base: int)
    requires WriterOk(f, dir, w, h, uploaded) && w.stage.Ready? && TailOk(h.tail, uploaded, |h.log|) && base < uploaded
    requires Clean(f, dir - {base}, uploaded)
    ensures WriterOk(f, dir - {base}, Landed(w, base), h, uploaded)
  {
    ActiveAboveUploaded(w.active, w.segmentBase, h.log, h.tail, uploaded);
  }

  lemma DropKeeps(f: Framing, s: System, h: History, ok: bool)
    requires Inv(f, s, h) && s.process.Running? && s.process.writer.stage.Ready? && s.process.notices != []
    ensures Inv(f, DropStep(s, ok), h)
  {
    var base := s.process.notices[0];
    DropDir(f, s.dir, s.store, h.log, h.low, h.tail, base);
    DropWriter(f, s.dir, s.process.writer, h, UploadedEnd(s.store.manifest), base);
  }
}
