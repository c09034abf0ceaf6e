/**
 What every state keeps whatever its crashes found on disk, files of evicted segments included: where
 each record is, named by the sets of files, listed objects and evicted records.
 */
module Survival {
  import opened WalFrame
  import opened Wal
  import opened Manifest
  import opened Retention
  import opened Recovery
  import opened Segment
  import opened Writer
  import opened Uploads
  import opened Partition
  import opened PartitionInvariant

  // ------------------------------------------------------------------------------------------
  // Where a record is

  /** The records in a file; none if there is no such file. */
  function Records(f: Framing, dir: WalDir, base: int): seq<Record> {
    if base in dir then Scan(f, dir[base]).records else []
  }

  ghost predicate InFile(f: Framing, dir: WalDir, r: Record) {
    exists b :: b in dir && r in Records(f, dir, b)
  }

  ghost predicate InListed(store: Store, r: Record) {
    exists b :: Listed(store.manifest, b) && r in Rows(store.objects, b)
  }

  /** The record needs no file. */
  ghost predicate Stored(store: Store, evicted: seq<Record>, r: Record) {
    InListed(store, r) || r in evicted
  }

  ghost predicate Safe(f: Framing, dir: WalDir, store: Store, evicted: seq<Record>, r: Record) {
    InFile(f, dir, r) || Stored(store, evicted, r)
  }

  // ------------------------------------------------------------------------------------------
  // The durable part

  ghost predicate Rising(rs: seq<Record>) {
    forall i, j :: 0 <= i < j < |rs| ==> rs[i].offset < rs[j].offset
  }

  /** The offsets rise from the one in the name; they may skip some. */
  ghost predicate Named(rs: seq<Record>, base: int) {
    Rising(rs) && (rs != [] ==> rs[0].offset == base)
  }

  /** The entry says what its object holds. */
  ghost predicate Describes(e: SegmentEntry, rows: seq<Record>) {
    && rows != [] && Named(rows, e.baseOffset)
    && e.lastOffset == rows[|rows| - 1].offset
    && e.recordCount == |rows|
    && e.baseTimestampNs == rows[0].timestampNs
    && e.lastTimestampNs == rows[|rows| - 1].timestampNs
  }

  /** Distinct bases in increasing order, and every entry describes the object it names. */
  ghost predicate ManifestSound(store: Store) {
    var m := store.manifest;
    && Ascending(m) && Keyed(m)
    && (forall i {:trigger m[i]} :: 0 <= i < |m| ==> Describes(m[i], Rows(store.objects, m[i].baseOffset)))
  }

  ghost predicate FilesNamed(f: Framing, dir: WalDir) {
    forall b :: b in dir ==> Named(Records(f, dir, b), b)
  }

  ghost predicate Whole(f: Framing, dir: WalDir, base: int)
    requires base in dir
  {
    Scan(f, dir[base]).validLen == |dir[base]|
  }

  ghost predicate Within(rs: seq<Record>, rows: seq<Record>) {
    forall r :: r in rs ==> r in rows
  }

  /** A file under a listed base ends with a whole record and holds nothing its object lacks. */
  ghost predicate ListedFiles(f: Framing, dir: WalDir, store: Store) {
    forall b :: b in dir && Listed(store.manifest, b) ==>
      Whole(f, dir, b) && Within(Records(f, dir, b), Rows(store.objects, b))
  }

  /** Whatever reached the disk is in a file, in a listed object, or evicted. */
  ghost predicate LogSafe(f: Framing, dir: WalDir, store: Store, evicted: seq<Record>, log: seq<Record>) {
    forall r :: r in log ==> Safe(f, dir, store, evicted, r)
  }

  ghost predicate DiskSound(f: Framing, dir: WalDir, store: Store, evicted: seq<Record>, log: seq<Record>) {
    ManifestSound(store) && FilesNamed(f, dir) && ListedFiles(f, dir, store) && LogSafe(f, dir, store, evicted, log)
  }

  // ------------------------------------------------------------------------------------------
  // The produces and their acknowledgements

  /** The ticket's records carry its offsets, end by `end`, and are among `where`. */
  ghost predicate TicketKept(t: Ticket, where: seq<Record>, sent: seq<seq<Record>>, end: int) {
    && t.id < |sent| && |sent[t.id]| == t.count && t.base + t.count <= end
    && (forall k :: 0 <= k < t.count ==> sent[t.id][k].offset == t.base + k && sent[t.id][k] in where)
  }

  ghost predicate AcksKept(acks: seq<Ack>, log: seq<Record>, sent: seq<seq<Record>>) {
    forall i :: 0 <= i < |acks| ==> TicketKept(acks[i].ticket, log, sent, acks[i].value + 1)
  }

  ghost predicate TicketsKept(tickets: seq<Ticket>, pending: seq<Record>, sent: seq<seq<Record>>, next: int) {
    forall i :: 0 <= i < |tickets| ==> TicketKept(tickets[i], pending, sent, next)
  }

  // ------------------------------------------------------------------------------------------
  // The running actors

  /** One past the last offset that was flushed. */
  function FlushedEnd(w: Writer): int { w.nextOffset - |w.pending| }

  /** The file of the current segment holds exactly the active records; it may not be open yet. */
  ghost predicate HomeOk(f: Framing, dir: WalDir, w: Writer) {
    && Records(f, dir, w.segmentBase) == w.active
    && (w.active != [] || w.stage.Ready? || w.stage.Dead? ==> w.segmentBase in dir)
    && (w.stage.Ready? || w.stage.Dead? ==> w.walBase == w.segmentBase)
    && (!w.stage.Ready? ==> w.pending == [])
  }

  ghost predicate OffsetsOk(w: Writer) {
    && PendingOk(w.nextOffset, w.pending, FlushedEnd(w))
    && Named(w.active, w.segmentBase)
    && (forall i :: 0 <= i < |w.active| ==> w.active[i].offset < FlushedEnd(w))
    && (w.active == [] ==> w.segmentBase == FlushedEnd(w))
  }

  /** No listed segment and no file with records starts at `end` or above it. */
  ghost predicate BasesLower(f: Framing, dir: WalDir, m: seq<SegmentEntry>, end: int) {
    && (forall b :: b in dir && Records(f, dir, b) != [] ==> b < end)
    && (forall b :: Listed(m, b) ==> b < end)
  }

  /** Every file ends with a whole record, unless a dead writer tore its own. */
  ghost predicate FilesWhole(f: Framing, dir: WalDir, w: Writer) {
    forall b :: b in dir ==> Whole(f, dir, b) || (w.stage.Dead? && b == w.segmentBase)
  }

  ghost predicate WriterSound(f: Framing, dir: WalDir, w: Writer, m: seq<SegmentEntry>) {
    && HomeOk(f, dir, w) && OffsetsOk(w) && FilesWhole(f, dir, w)
    && BasesLower(f, dir, m, FlushedEnd(w)) && !Listed(m, w.segmentBase)
  }

  /** The batch in hand, listed or not. */
  function Held(up: Uploader): seq<SealedBatch> {
    if up.Uploading? then [up.batch] else []
  }

  /** The batch is exactly its file. */
  ghost predicate BatchKept(f: Framing, dir: WalDir, b: SealedBatch, end: int) {
    && b.records != [] && b == Batch(b.records)
    && b.baseOffset in dir && Records(f, dir, b.baseOffset) == b.records && b.baseOffset < end
  }

  ghost predicate WorkKept(f: Framing, dir: WalDir, work: seq<SealedBatch>, end: int) {
    && (forall i {:trigger work[i]} :: 0 <= i < |work| ==> BatchKept(f, dir, work[i], end))
    && (forall i, j :: 0 <= i < j < |work| ==> work[i].baseOffset != work[j].baseOffset)
  }

  /** Batches, notices and the current segment concern different files. */
  ghost predicate Apart(notices: seq<int>, work: seq<SealedBatch>, segmentBase: int) {
    && segmentBase !in notices
    && (forall i {:trigger work[i]} :: 0 <= i < |work| ==> work[i].baseOffset !in notices && work[i].baseOffset != segmentBase)
  }

  ghost predicate UploaderSound(up: Uploader, store: Store) {
    match up
    case Idle => true
    case Uploading(b, put) =>
      && (put ==> b.baseOffset in store.objects && store.objects[b.baseOffset] == ToColumns(b.records))
      && (Listed(store.manifest, b.baseOffset) ==> put)
    case Deleting(doomed) => forall i :: 0 <= i < |doomed| ==> !Listed(store.manifest, doomed[i])
  }

  ghost predicate QueueUnlisted(queue: seq<SealedBatch>, m: seq<SegmentEntry>) {
    forall i {:trigger queue[i]} :: 0 <= i < |queue| ==> !Listed(m, queue[i].baseOffset)
  }

  ghost predicate AllStored(store: Store, evicted: seq<Record>, rs: seq<Record>) {
    forall r :: r in rs ==> Stored(store, evicted, r)
  }

  /** The file a notice will remove is not needed. */
  ghost predicate NoticesSound(f: Framing, dir: WalDir, store: Store, evicted: seq<Record>, notices: seq<int>, end: int) {
    forall b :: b in notices ==> b < end && AllStored(store, evicted, Records(f, dir, b))
  }

  ghost predicate UploadsSound(f: Framing, dir: WalDir, store: Store, evicted: seq<Record>, up: Uploader,
                               queue: seq<SealedBatch>, notices: seq<int>, segmentBase: int, end: int) {
    && WorkKept(f, dir, Held(up) + queue, end)
    && Apart(notices, Held(up) + queue, segmentBase)
    && UploaderSound(up, store) && QueueUnlisted(queue, store.manifest)
    && NoticesSound(f, dir, store, evicted, notices, end)
  }

  ghost predicate RunningSound(f: Framing, s: System, h: History)
    requires s.process.Running?
  {
    var w := s.process.writer;
    && WriterSound(f, s.dir, w, s.store.manifest)
    && TicketsKept(w.tickets, w.pending, h.sent, w.nextOffset)
    && UploadsSound(f, s.dir, s.store, h.evicted, s.process.uploader, s.process.queue, s.process.notices,
                    w.segmentBase, FlushedEnd(w))
  }

  // ------------------------------------------------------------------------------------------
  // Recovery in progress

  ghost predicate OrphanKept(f: Framing, dir: WalDir, m: seq<SegmentEntry>, o: Orphan, next: int) {
    && o.records != [] && o.base in dir && Records(f, dir, o.base) == o.records && !Listed(m, o.base)
    && o.records[|o.records| - 1].offset < next
  }

  /** The visited files are whole; each is listed, empty or found. */
  ghost predicate VisitedOk(f: Framing, dir: WalDir, m: seq<SegmentEntry>, p: Progress) {
    forall b :: b in dir && b !in p.todo ==>
      Whole(f, dir, b) && (Listed(m, b) || Records(f, dir, b) == [] || Orphan(b, Records(f, dir, b)) in p.orphans)
  }

  ghost predicate OrphansKept(f: Framing, dir: WalDir, m: seq<SegmentEntry>, p: Progress) {
    && (forall i {:trigger p.orphans[i]} :: 0 <= i < |p.orphans| ==> OrphanKept(f, dir, m, p.orphans[i], p.nextOffset))
    && (forall i, j :: 0 <= i < j < |p.orphans| ==> p.orphans[i].base < p.orphans[j].base)
    && (forall i, t :: 0 <= i < |p.orphans| && t in p.todo ==> p.orphans[i].base < t)
  }

  predicate EndsAt(o: Orphan, next: int) { o.records != [] && o.records[|o.records| - 1].offset + 1 == next }

  /** The next offset is where the manifest or one of the orphans ends. */
  ghost predicate NextOk(m: seq<SegmentEntry>, p: Progress) {
    && p.nextOffset >= UploadedEnd(m)
    && (p.nextOffset == UploadedEnd(m) || exists i :: 0 <= i < |p.orphans| && EndsAt(p.orphans[i], p.nextOffset))
  }

  ghost predicate RecoverySound(f: Framing, dir: WalDir, m: seq<SegmentEntry>, p: Progress) {
    && p.uploaded == m && Visitable(dir, p) && NextOk(m, p)
    && VisitedOk(f, dir, m, p) && OrphansKept(f, dir, m, p)
  }

  ghost predicate ProcessSound(f: Framing, s: System, h: History) {
    match s.process
    case Down => true
    case Recovering(p) => RecoverySound(f, s.dir, s.store.manifest, p)
    case Running(_, _, _, _) => RunningSound(f, s, h)
  }

  ghost predicate Survives(f: Framing, s: System, h: History) {
    && DiskSound(f, s.dir, s.store, h.evicted, h.log)
    && s.issued == |h.sent|
    && AcksKept(h.acks, h.log, h.sent)
    && NumbersOk(h.acks, Waiting(s.process))
    && ProcessSound(f, s, h)
  }

  lemma SurvivesInitially(f: Framing)
    ensures Survives(f, EmptySystem(), EmptyHistory())
  {
  }
}
