/** What every reachable state of a partition satisfies. */
module PartitionInvariant {
  import opened Bytes
  import opened WalFrame
  import opened Wal
  import opened Manifest
  import opened Retention
  import opened Recovery
  import opened Segment
  import opened Writer
  import opened Uploads
  import opened Partition

  // ------------------------------------------------------------------------------------------
  // The durable part

  /** The log has no gap and no repeat: the record at position `i` has offset `i`. */
  ghost predicate LogOk(log: seq<Record>) {
    forall i :: 0 <= i < |log| ==> log[i].offset == i && Encodable(log[i])
  }

  /** A listed entry: its object exists and holds exactly the log records of its range. */
  ghost predicate EntryOk(objects: map<int, Columns>, log: seq<Record>, e: SegmentEntry) {
    && 0 <= e.baseOffset <= e.lastOffset < |log|
    && e.baseOffset in objects
    && objects[e.baseOffset] == ToColumns(log[e.baseOffset..e.lastOffset + 1])
    && e.recordCount == e.lastOffset - e.baseOffset + 1
    && e.baseTimestampNs == log[e.baseOffset].timestampNs
    && e.lastTimestampNs == log[e.lastOffset].timestampNs
  }

  /** The `i`-th entry starts where the one before it ends. */
  ghost predicate Joins(m: seq<SegmentEntry>, i: int)
    requires 0 < i < |m|
  {
    m[i].baseOffset == m[i - 1].lastOffset + 1
  }

  /** The manifest lists the log from `low` on, segment after segment without a gap. */
  ghost predicate ManifestOk(store: Store, log: seq<Record>, low: int) {
    var m := store.manifest;
    && (if m == [] then low == 0 else m[0].baseOffset == low)
    && Ordered(m)
    && (forall i {:trigger EntryOk(store.objects, log, m[i])} :: 0 <= i < |m| ==> EntryOk(store.objects, log, m[i]))
    && (forall i :: 0 < i < |m| ==> Joins(m, i))
    && Keyed(m)
  }

  /** Where the `i`-th unlisted segment ends. */
  function SegEnd(tail: seq<int>, end: int, i: nat): int {
    if i + 1 < |tail| then tail[i + 1] else end
  }

  /** The records of the `i`-th unlisted segment. */
  function Piece(log: seq<Record>, tail: seq<int>, i: nat): seq<Record>
    requires i < |tail|
  {
    var end := SegEnd(tail, |log|, i);
    if 0 <= tail[i] <= end <= |log| then log[tail[i]..end] else []
  }

  /** The unlisted segments cut the log from the uploaded end to its end. */
  ghost predicate TailOk(tail: seq<int>, uploaded: int, end: int) {
    && 0 <= uploaded
    && (if tail == [] then uploaded == end else tail[0] == uploaded)
    && (forall i :: 0 <= i < |tail| ==> uploaded <= tail[i] < end)
    && Increasing(tail)
  }

  ghost predicate FileHolds(f: Framing, dir: WalDir, base: int, records: seq<Record>) {
    base in dir && Scan(f, dir[base]).records == records
  }

  /** Every unlisted segment is in the WAL file named by its base offset. */
  ghost predicate TailStored(f: Framing, dir: WalDir, log: seq<Record>, tail: seq<int>) {
    forall i {:trigger Piece(log, tail, i)} :: 0 <= i < |tail| ==> FileHolds(f, dir, tail[i], Piece(log, tail, i))
  }

  /** The file repeats a listed segment. */
  ghost predicate Repeats(f: Framing, dir: WalDir, manifest: seq<SegmentEntry>, log: seq<Record>, base: int)
    requires base in dir
  {
    exists i :: 0 <= i < |manifest| && manifest[i].baseOffset == base
                && 0 <= base <= manifest[i].lastOffset < |log|
                && Scan(f, dir[base]).records == log[base..manifest[i].lastOffset + 1]
  }

  /** The file holds no record and its base offset is not listed. */
  ghost predicate Stale(f: Framing, dir: WalDir, manifest: seq<SegmentEntry>, base: int)
    requires base in dir
  {
    Scan(f, dir[base]).records == [] && !Listed(manifest, base)
  }

  /** The file repeats records that were evicted: it outlived its segment. */
  ghost predicate Outlived(f: Framing, dir: WalDir, log: seq<Record>, low: int, base: int)
    requires base in dir
  {
    var rs := Scan(f, dir[base]).records;
    rs != [] && 0 <= base && base + |rs| <= low <= |log| && rs == log[base..base + |rs|]
  }

  /** Every other file repeats a listed segment, outlived its segment, or is stale. */
  ghost predicate DirOk(f: Framing, dir: WalDir, manifest: seq<SegmentEntry>, log: seq<Record>, low: int, tail: seq<int>) {
    forall b :: b in dir ==>
      b in tail || Stale(f, dir, manifest, b) || Repeats(f, dir, manifest, log, b) || Outlived(f, dir, log, low, b)
  }

  /** No file holds evicted records. */
  ghost predicate NoneOutlived(f: Framing, dir: WalDir, low: int) {
    forall b :: b in dir && b < low ==> Scan(f, dir[b]).records == []
  }

  /** The disk and the object store together hold the log from `low` on, each record in its place. */
  ghost predicate Durable(f: Framing, dir: WalDir, store: Store, log: seq<Record>, low: int, tail: seq<int>) {
    && LogOk(log)
    && ManifestOk(store, log, low)
    && TailOk(tail, UploadedEnd(store.manifest), |log|)
    && TailStored(f, dir, log, tail)
    && DirOk(f, dir, store.manifest, log, low, tail)
  }

  // ------------------------------------------------------------------------------------------
  // The produces and their acknowledgements

  /** The tickets of the pending batch cover its offsets one after another. */
  ghost predicate TicketsTile(tickets: seq<Ticket>, from: int, to: int) {
    && from >= 0
    && (if tickets == [] then from == to else tickets[0].base == from)
    && (forall i :: 0 < i < |tickets| ==> tickets[i].base == tickets[i - 1].base + tickets[i - 1].count)
    && (tickets != [] ==> var t := tickets[|tickets| - 1]; t.base + t.count == to)
  }

  /** A ticket's records are where its offsets say, in the log or still pending. */
  ghost predicate TicketOk(t: Ticket, from: int, all: seq<Record>, sent: seq<seq<Record>>) {
    t.id < |sent| && 0 <= from <= t.base <= t.base + t.count <= |all| && sent[t.id] == all[t.base..t.base + t.count]
  }

  ghost predicate TicketsOk(tickets: seq<Ticket>, pending: seq<Record>, log: seq<Record>, sent: seq<seq<Record>>) {
    && TicketsTile(tickets, |log|, |log| + |pending|)
    && (forall i :: 0 <= i < |tickets| ==> TicketOk(tickets[i], |log|, log + pending, sent))
  }

  /** Produces are numbered in order of arrival and answered in that order, each at most once. */
  ghost predicate NumbersOk(acks: seq<Ack>, tickets: seq<Ticket>) {
    && (forall i, j :: 0 <= i < j < |acks| ==> acks[i].ticket.id < acks[j].ticket.id)
    && (forall i, j :: 0 <= i < j < |tickets| ==> tickets[i].id < tickets[j].id)
    && (forall i, j :: 0 <= i < |acks| && 0 <= j < |tickets| ==> acks[i].ticket.id < tickets[j].id)
  }

  /** A fired ack: its value is on disk, it covers the produce, and the produce's records are in the log. */
  ghost predicate AckOk(a: Ack, log: seq<Record>, sent: seq<seq<Record>>) {
    var t := a.ticket;
    && t.id < |sent|
    && 0 <= t.base <= t.base + t.count <= a.value + 1 <= |log|
    && sent[t.id] == log[t.base..t.base + t.count]
  }

  ghost predicate AcksOk(acks: seq<Ack>, log: seq<Record>, sent: seq<seq<Record>>) {
    forall i :: 0 <= i < |acks| ==> AckOk(acks[i], log, sent)
  }

  // ------------------------------------------------------------------------------------------
  // The running actors

  /** The file ends with a whole record, or is full of uploaded ones. */
  ghost predicate CleanFile(f: Framing, bytes: seq<byte>, base: int, uploaded: int) {
    Scan(f, bytes).validLen == |bytes| || (base < uploaded && Scan(f, bytes).records != [])
  }

  ghost predicate Clean(f: Framing, dir: WalDir, uploaded: int) {
    forall b :: b in dir ==> CleanFile(f, dir[b], b, uploaded)
  }

  ghost predicate CleanExcept(f: Framing, dir: WalDir, todo: seq<int>, uploaded: int) {
    forall b :: b in dir && b !in todo ==> CleanFile(f, dir[b], b, uploaded)
  }

  ghost predicate PendingOk(nextOffset: int, pending: seq<Record>, end: int) {
    && nextOffset == end + |pending|
    && (forall i :: 0 <= i < |pending| ==> pending[i].offset == end + i && Encodable(pending[i]))
  }

  /** The active segment is the end of the log and the last file of the tail. */
  ghost predicate ActiveOk(active: seq<Record>, segmentBase: int, log: seq<Record>, tail: seq<int>) {
    && |active| <= |log|
    && active == log[|log| - |active|..]
    && segmentBase == |log| - |active|
    && (active != [] ==> tail != [] && tail[|tail| - 1] == segmentBase)
  }

  ghost predicate StageOk(w: Writer, dir: WalDir) {
    if w.stage.Ready? || w.stage.Dead? then w.walBase == w.segmentBase && w.segmentBase in dir && (w.stage.Dead? ==> w.pending == [])
    else w.pending == []
  }

  /** A batch is exactly one segment of the log. */
  ghost predicate BatchOk(b: SealedBatch, log: seq<Record>, base: int, end: int) {
    0 <= base < end <= |log| && b.records == log[base..end] && b.baseOffset == base && b == Batch(log[base..end])
  }

  /** The batch in hand, as long as the manifest does not list it. */
  function InHand(up: Uploader, segments: seq<SegmentEntry>): seq<SealedBatch> {
    if up.Uploading? && !Listed(segments, up.batch.baseOffset) then [up.batch] else []
  }

  /** The batches still to be listed are the tail without the active segment, in order. */
  ghost predicate QueueOk(work: seq<SealedBatch>, active: seq<Record>, log: seq<Record>, tail: seq<int>) {
    && |tail| == |work| + (if active == [] then 0 else 1)
    && (forall i {:trigger work[i]} :: 0 <= i < |work| ==> BatchOk(work[i], log, tail[i], SegEnd(tail, |log|, i)))
  }

  ghost predicate UploaderOk(up: Uploader, store: Store, log: seq<Record>, low: int) {
    match up
    case Idle => true
    case Uploading(b, put) =>
      && (put ==> b.baseOffset in store.objects && store.objects[b.baseOffset] == ToColumns(b.records))
      && (Listed(store.manifest, b.baseOffset) ==>
            var last := store.manifest[|store.manifest| - 1];
            last.baseOffset == b.baseOffset && BatchOk(b, log, b.baseOffset, last.lastOffset + 1))
    case Deleting(doomed) => forall i :: 0 <= i < |doomed| ==> doomed[i] < low
  }

  ghost predicate NoticesOk(notices: seq<int>, uploaded: int) {
    forall i :: 0 <= i < |notices| ==> notices[i] < uploaded
  }

  ghost predicate WriterOk(f: Framing, dir: WalDir, w: Writer, h: History, uploaded: int) {
    && (if w.stage.Dead? then CleanExcept(f, dir, [w.walBase], uploaded) else Clean(f, dir, uploaded))
    && PendingOk(w.nextOffset, w.pending, |h.log|)
    && ActiveOk(w.active, w.segmentBase, h.log, h.tail)
    && StageOk(w, dir)
    && TicketsOk(w.tickets, w.pending, h.log, h.sent)
  }

  ghost predicate UploadsOk(up: Uploader, queue: seq<SealedBatch>, notices: seq<int>, active: seq<Record>,
                            store: Store, log: seq<Record>, low: int, tail: seq<int>) {
    && QueueOk(InHand(up, store.manifest) + queue, active, log, tail)
    && UploaderOk(up, store, log, low)
    && NoticesOk(notices, UploadedEnd(store.manifest))
  }

  ghost predicate RunningOk(f: Framing, s: System, h: History)
    requires s.process.Running?
  {
    var w := s.process.writer;
    && WriterOk(f, s.dir, w, h, UploadedEnd(s.store.manifest))
    && UploadsOk(s.process.uploader, s.process.queue, s.process.notices, w.active, s.store, h.log, h.low, h.tail)
  }

  // ------------------------------------------------------------------------------------------
  // Recovery in progress

  /** The files visited so far yielded the first segments of the tail; the rest are still to come. */
  ghost predicate ProgressOk(p: Progress, uploaded: int, log: seq<Record>, tail: seq<int>) {
    var n := |p.orphans|;
    && n <= |tail|
    && (forall i {:trigger p.orphans[i]} :: 0 <= i < n ==>
          p.orphans[i] == Orphan(tail[i], Piece(log, tail, i)))
    && (forall i :: 0 <= i < n ==> tail[i] !in p.todo)
    && (forall i :: n <= i < |tail| ==> tail[i] in p.todo)
    && p.nextOffset == (if n == 0 then uploaded else SegEnd(tail, |log|, n - 1))
  }

  ghost predicate RecoveringOk(f: Framing, dir: WalDir, store: Store, p: Progress, log: seq<Record>, low: int, tail: seq<int>) {
    && p.uploaded == store.manifest
    && Visitable(dir, p)
    && NoneOutlived(f, dir, low)
    && CleanExcept(f, dir, p.todo, UploadedEnd(store.manifest))
    && ProgressOk(p, UploadedEnd(store.manifest), log, tail)
  }

  ghost predicate ProcessOk(f: Framing, s: System, h: History) {
    match s.process
    case Down => NoneOutlived(f, s.dir, h.low)
    case Recovering(p) => RecoveringOk(f, s.dir, s.store, p, h.log, h.low, h.tail)
    case Running(_, _, _, _) => RunningOk(f, s, h)
  }

  function Waiting(p: Process): seq<Ticket> {
    if p.Running? then p.writer.tickets else []
  }

  ghost predicate Inv(f: Framing, s: System, h: History) {
    && Durable(f, s.dir, s.store, h.log, h.low, h.tail)
    && s.issued == |h.sent|
    && AcksOk(h.acks, h.log, h.sent)
    && NumbersOk(h.acks, Waiting(s.process))
    && ProcessOk(f, s, h)
  }

  lemma InvInitially(f: Framing)
    ensures Inv(f, EmptySystem(), EmptyHistory())
  {
  }
}
