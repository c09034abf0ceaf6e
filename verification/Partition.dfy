/**
 One partition as a state machine: the writer, the WAL directory, the uploader with its queue, the
 object store, the durable notices, and recovery. Every step is one indivisible action of the code;
 a crash may come between any two of them and may leave a torn append behind.
 */
module Partition {
  import opened Bytes
  import opened WalFrame
  import opened Wal
  import opened Manifest
  import opened Retention
  import opened Recovery
  import opened Writer
  import opened Uploads

  /** The uploader is idle, uploading (with or without the object in place), or deleting evicted objects. */
  datatype Uploader = Idle | Uploading(batch: SealedBatch, objectPut: bool) | Deleting(doomed: seq<int>)

  datatype Process =
    | Down
    | Recovering(progress: Progress)
    | Running(writer: Writer, queue: seq<SealedBatch>, uploader: Uploader, notices: seq<int>)

  /** `issued` numbers the produces, standing for the identity of their reply channels. */
  datatype System = System(dir: WalDir, store: Store, process: Process, issued: nat)

  datatype Event =
    | Produce(incoming: seq<Incoming>, clocks: seq<int>)
    | Flush
    | Seal
    | Open(ok: bool)
    | TakeBatch
    | PutObject
    | PutManifest(byteSize: nat)
    | Notify
    | Evict(count: nat)
    | DeleteObject(ok: bool)
    | DropWal(ok: bool)
    | Panic(cut: nat)
    | Crash(cut: nat)
    | Restart(bases: seq<int>)
    | VisitFile(ok: bool)
    | Boot

  function EmptySystem(): System {
    System(map[], Store(map[], []), Down, 0)
  }

  /** The orphans go back into the upload queue in order. */
  function Requeue(orphans: seq<Orphan>): seq<SealedBatch>
    requires forall i :: 0 <= i < |orphans| ==> orphans[i].records != []
  {
    seq(|orphans|, i requires 0 <= i < |orphans| => Batch(orphans[i].records).(baseOffset := orphans[i].base))
  }

  ghost predicate Enabled(f: Framing, s: System, e: Event) {
    match e
    case Crash(cut) => s.process.Running? ==> TornCut(f, s, cut)
    case Panic(cut) => s.process.Running? && Runnable(s, e) && TornCut(f, s, cut)
    case Restart(bases) => s.process.Down? && Enumerates(bases, s.dir)
    case VisitFile(_) => s.process.Recovering? && s.process.progress.todo != [] && s.process.progress.todo[0] in s.dir
    case Boot =>
      && s.process.Recovering? && s.process.progress.todo == []
      && var os := s.process.progress.orphans;
         forall i :: 0 <= i < |os| ==> os[i].records != []
    case _ => s.process.Running? && Runnable(s, e)
  }

  /** The events of the running actors: the writer's, then the uploader's, then the notices'. */
  predicate Runnable(s: System, e: Event)
    requires s.process.Running?
  {
    var w := s.process.writer;
    var up := s.process.uploader;
    match e
    case Produce(incoming, clocks) => w.stage.Ready? && |clocks| == |incoming|
    case Flush => w.stage.Ready? && w.walBase in s.dir
    case Seal => w.stage.Ready? && w.pending == [] && w.active != []
    case Open(ok) => w.stage.Sealing? || (w.stage.Booting? && ok)
    case TakeBatch => up.Idle? && s.process.queue != []
    case PutObject => up.Uploading?
    case PutManifest(_) => up.Uploading? && up.objectPut
    case Notify => up.Uploading? && up.objectPut && Listed(s.store.manifest, up.batch.baseOffset)
    case Evict(count) => up.Idle? && (count == 0 || count < |s.store.manifest|)
    case DeleteObject(_) => up.Deleting? && up.doomed != []
    case DropWal(_) => w.stage.Ready? && s.process.notices != []
    case Panic(_) => w.stage.Ready? && w.pending != [] && w.walBase in s.dir
    case _ => false
  }

  /** Only an append in progress can be torn: bytes of the pending batch, in order, up to the cut. */
  predicate TornCut(f: Framing, s: System, cut: nat)
    requires s.process.Running?
  {
    var w := s.process.writer;
    cut <= |EncodeAll(f, w.pending)| && (cut > 0 ==> w.stage.Ready? && w.walBase in s.dir)
  }

  function Append(dir: WalDir, base: int, bytes: seq<byte>): WalDir
    requires base in dir
  {
    dir[base := dir[base] + bytes]
  }

  // ------------------------------------------------------------------------------------------
  // What each event does

  function ProduceStep(s: System, incoming: seq<Incoming>, clocks: seq<int>): System
    requires s.process.Running? && |clocks| == |incoming|
  {
    s.(process := s.process.(writer := Enqueue(s.process.writer, incoming, clocks, s.issued)), issued := s.issued + 1)
  }

  /** Append, fsync and acknowledge the pending batch. */
  function FlushStep(f: Framing, s: System): System
    requires s.process.Running? && s.process.writer.walBase in s.dir
  {
    var w := s.process.writer;
    s.(dir := Append(s.dir, w.walBase, EncodeAll(f, w.pending)), process := s.process.(writer := Commit(w)))
  }

  /** Hand the active segment to the uploader; the next file is not open yet. */
  function SealStep(s: System): System
    requires s.process.Running? && s.process.writer.active != []
  {
    var w := s.process.writer;
    s.(process := s.process.(writer := Handoff(w), queue := s.process.queue + [Batch(w.active)]))
  }

  /** Open the segment's file in append mode, creating it if it is missing. */
  function OpenStep(s: System, ok: bool): System
    requires s.process.Running?
  {
    var w := s.process.writer;
    s.(dir := if ok && w.segmentBase !in s.dir then s.dir[w.segmentBase := []] else s.dir,
       process := s.process.(writer := Opened(w, ok)))
  }

  function TakeStep(s: System): System
    requires s.process.Running? && s.process.queue != []
  {
    s.(process := s.process.(queue := s.process.queue[1..], uploader := Uploading(s.process.queue[0], false)))
  }

  function PutObjectStep(s: System): System
    requires s.process.Running? && s.process.uploader.Uploading?
  {
    var batch := s.process.uploader.batch;
    s.(store := PutSegment(s.store, batch), process := s.process.(uploader := Uploading(batch, true)))
  }

  function PutManifestStep(s: System, byteSize: nat): System
    requires s.process.Running? && s.process.uploader.Uploading?
  {
    s.(store := PutEntry(s.store, s.process.uploader.batch, byteSize))
  }

  function NotifyStep(s: System): System
    requires s.process.Running? && s.process.uploader.Uploading?
  {
    s.(process := s.process.(uploader := Idle, notices := s.process.notices + [s.process.uploader.batch.baseOffset]))
  }

  /**
   The retention pass up to its manifest PUT: it drops any number of the oldest entries, but never the
   last one. The objects are deleted afterwards, one by one.
   */
  function EvictStep(s: System, count: nat): System
    requires s.process.Running? && count <= |s.store.manifest|
  {
    var doomed := BasesOf(s.store.manifest[..count]);
    s.(store := Rewrite(s.store, count),
       process := s.process.(uploader := if doomed == [] then Idle else Deleting(doomed)))
  }

  /** A failed delete leaves the object behind and the pass goes on. */
  function DeleteStep(s: System, ok: bool): System
    requires s.process.Running? && s.process.uploader.Deleting? && s.process.uploader.doomed != []
  {
    var doomed := s.process.uploader.doomed;
    s.(store := s.store.(objects := if ok then s.store.objects - {doomed[0]} else s.store.objects),
       process := s.process.(uploader := if |doomed| == 1 then Idle else Deleting(doomed[1..])))
  }

  /** `on_durable`: the WAL file of a durable segment goes; a failed removal goes unnoticed. */
  function DropStep(s: System, ok: bool): System
    requires s.process.Running? && s.process.notices != []
  {
    var base := s.process.notices[0];
    s.(dir := if ok then s.dir - {base} else s.dir,
       process := s.process.(writer := Landed(s.process.writer, base), notices := s.process.notices[1..]))
  }

  /** Everything in memory is lost; an append in progress may have left its first `cut` bytes. */
  function CrashStep(f: Framing, s: System, cut: nat): System
    requires s.process.Running? ==> TornCut(f, s, cut)
  {
    s.(dir := if s.process.Running? && cut > 0
              then Append(s.dir, s.process.writer.walBase, EncodeAll(f, s.process.writer.pending)[..cut])
              else s.dir,
       process := Down)
  }

  /**
   A failed append: its first `cut` bytes are in the file, the writer is gone, the uploader goes on.
   Nobody reads a dead writer; it is left with what its file holds.
   */
  function PanicStep(f: Framing, s: System, cut: nat): System
    requires s.process.Running? && s.process.writer.walBase in s.dir && TornCut(f, s, cut)
  {
    var w := s.process.writer;
    s.(dir := Append(s.dir, w.walBase, EncodeAll(f, w.pending)[..cut]),
       process := s.process.(writer := Died(w, Survivors(f, w, cut))))
  }

  function Died(w: Writer, survivors: seq<Record>): Writer {
    w.(active := w.active + survivors, pending := [], tickets := [], stage := Dead,
       nextOffset := w.nextOffset - |w.pending| + |survivors|)
  }

  function RestartStep(s: System, bases: seq<int>): System {
    s.(process := Recovering(Begin(s.store.manifest, bases)))
  }

  /** One file of recovery; a failed removal of a covered file goes unnoticed. */
  function VisitStep(f: Framing, s: System, ok: bool): System
    requires s.process.Recovering? && s.process.progress.todo != [] && s.process.progress.todo[0] in s.dir
  {
    var p := s.process.progress;
    s.(dir := Repair(f, s.dir, p.uploaded, p.todo[0], ok), process := Recovering(Visit(f, s.dir, p)))
  }

  /** Re-queue the orphans and start the writer on what recovery handed over. */
  function BootStep(s: System): System
    requires s.process.Recovering?
    requires var os := s.process.progress.orphans;
             forall i :: 0 <= i < |os| ==> os[i].records != []
  {
    var r := Finish(s.process.progress);
    s.(process := Running(New(r.nextOffset, r.active), Requeue(r.orphans), Idle, []))
  }

  function Apply(f: Framing, s: System, e: Event): System
    requires Enabled(f, s, e)
  {
    match e
    case Produce(incoming, clocks) => ProduceStep(s, incoming, clocks)
    case Flush => FlushStep(f, s)
    case Seal => SealStep(s)
    case Open(ok) => OpenStep(s, ok)
    case TakeBatch => TakeStep(s)
    case PutObject => PutObjectStep(s)
    case PutManifest(byteSize) => PutManifestStep(s, byteSize)
    case Notify => NotifyStep(s)
    case Evict(count) => EvictStep(s, count)
    case DeleteObject(ok) => DeleteStep(s, ok)
    case DropWal(ok) => DropStep(s, ok)
    case Panic(cut) => PanicStep(f, s, cut)
    case Crash(cut) => CrashStep(f, s, cut)
    case Restart(bases) => RestartStep(s, bases)
    case VisitFile(ok) => VisitStep(f, s, ok)
    case Boot => BootStep(s)
  }

  // ------------------------------------------------------------------------------------------
  // History

  /** A fired acknowledgement: the produce it answers and the value it carried. */
  datatype Ack = Ack(ticket: Ticket, value: int)

  /**
   What an observer has seen, none of which the system reads: every record that reached the disk in
   order (`log`), how many of the oldest were evicted (`low`) and which (`evicted`), the base offsets of
   the non-empty WAL files that no manifest lists yet (`tail`), the records of each produce by its
   number (`sent`), and the acks fired so far.
   */
  datatype History = History(log: seq<Record>, low: int, evicted: seq<Record>, tail: seq<int>, sent: seq<seq<Record>>, acks: seq<Ack>)

  function EmptyHistory(): History { History([], 0, [], [], [], []) }

  function Acks(w: Writer): (acks: seq<Ack>)
    ensures |acks| == |w.tickets|
    ensures forall i :: 0 <= i < |acks| ==> acks[i] == Ack(w.tickets[i], AckValue(w))
  {
    seq(|w.tickets|, i requires 0 <= i < |w.tickets| => Ack(w.tickets[i], AckValue(w)))
  }

  /** The records of `batch` reached the disk; if they open a new segment, its file joins the tail. */
  function Logged(h: History, w: Writer, batch: seq<Record>): History {
    if batch == [] then h
    else h.(log := h.log + batch, tail := if w.active == [] then h.tail + [w.walBase] else h.tail)
  }

  function ProduceSeen(h: History, w: Writer, incoming: seq<Incoming>, clocks: seq<int>): History
    requires |clocks| == |incoming|
  {
    h.(sent := h.sent + [StampAll(incoming, clocks, w.nextOffset)])
  }

  function FlushSeen(h: History, w: Writer): History {
    if w.pending == [] then h else Logged(h, w, w.pending).(acks := h.acks + Acks(w))
  }

  /** A segment that the manifest newly lists leaves the tail. */
  function ListedSeen(h: History, store: Store, batch: SealedBatch): History {
    if Listed(store.manifest, batch.baseOffset) || h.tail == [] then h else h.(tail := h.tail[1..])
  }

  /** What the dropped entries' objects hold is evicted; the log now starts at the first entry kept. */
  function EvictSeen(h: History, store: Store, count: nat): History
    requires count <= |store.manifest|
  {
    var kept := Rewrite(store, count).manifest;
    h.(low := if kept == [] then h.low else kept[0].baseOffset,
       evicted := h.evicted + Concat(PartsOf(store.objects, store.manifest[..count])))
  }

  function CrashSeen(f: Framing, s: System, h: History, cut: nat): History {
    if s.process.Running? && cut > 0
    then Logged(h, s.process.writer, Survivors(f, s.process.writer, cut)) else h
  }

  function PanicSeen(f: Framing, w: Writer, h: History, cut: nat): History {
    Logged(h, w, Survivors(f, w, cut))
  }

  function Observe(f: Framing, s: System, h: History, e: Event): History
    requires Enabled(f, s, e)
  {
    match e
    case Produce(incoming, clocks) => ProduceSeen(h, s.process.writer, incoming, clocks)
    case Flush => FlushSeen(h, s.process.writer)
    case PutManifest(_) => ListedSeen(h, s.store, s.process.uploader.batch)
    case Evict(count) => EvictSeen(h, s.store, count)
    case Crash(cut) => CrashSeen(f, s, h, cut)
    case Panic(cut) => PanicSeen(f, s.process.writer, h, cut)
    case _ => h
  }

  /** The records of the pending batch that lie wholly before the cut of a torn append. */
  function Survivors(f: Framing, w: Writer, cut: nat): seq<Record> {
    w.pending[..WholeBefore(f, w.pending, cut)]
  }

  /** A produce as its client asked for it, with the broker's clock at each of its records. */
  datatype Request = Request(incoming: seq<Incoming>, clocks: seq<int>)

  /** What came in and what went on: the requests by number, and the batches sealed since the last boot. */
  datatype Trace = Trace(requests: seq<Request>, sealed: seq<SealedBatch>)

  function Traced(f: Framing, s: System, t: Trace, e: Event): Trace
    requires Enabled(f, s, e)
  {
    match e
    case Produce(incoming, clocks) => t.(requests := t.requests + [Request(incoming, clocks)])
    case Seal => t.(sealed := t.sealed + [Batch(s.process.writer.active)])
    case Boot => t.(sealed := [])
    case _ => t
  }

  // ------------------------------------------------------------------------------------------
  // Runs

  datatype World = World(sys: System, hist: History, trace: Trace)

  function Initial(): World { World(EmptySystem(), EmptyHistory(), Trace([], [])) }

  function Next(f: Framing, c: World, e: Event): World
    requires Enabled(f, c.sys, e)
  {
    World(Apply(f, c.sys, e), Observe(f, c.sys, c.hist, e), Traced(f, c.sys, c.trace, e))
  }

  /** Every event of the run can happen when it does. */
  ghost predicate Possible(f: Framing, c: World, es: seq<Event>)
    decreases |es|
  {
    es != [] ==> Enabled(f, c.sys, es[0]) && Possible(f, Next(f, c, es[0]), es[1..])
  }

  function After(f: Framing, c: World, es: seq<Event>): World
    requires Possible(f, c, es)
    decreases |es|
  {
    if es == [] then c else After(f, Next(f, c, es[0]), es[1..])
  }

  /** A WAL file that outlived its segment: it holds something, and the manifest starts above it. */
  predicate Leftover(dir: WalDir, manifest: seq<SegmentEntry>, base: int) {
    base in dir && dir[base] != [] && manifest != [] && base < manifest[0].baseOffset
  }

  predicate NothingLeftOver(dir: WalDir, manifest: seq<SegmentEntry>) {
    forall b :: b in dir ==> !Leftover(dir, manifest, b)
  }

  /** Some non-empty file that the manifest does not list lies below the last listed segment, and none lies above. */
  predicate Revives(f: Framing, dir: WalDir, manifest: seq<SegmentEntry>) {
    (exists b :: b in dir && Below(f, dir, manifest, b)) && (forall b :: b in dir ==> !Above(f, dir, manifest, b))
  }

  predicate Below(f: Framing, dir: WalDir, manifest: seq<SegmentEntry>, base: int)
    requires base in dir
  {
    && Scan(f, dir[base]).records != [] && !Listed(manifest, base)
    && manifest != [] && base < manifest[|manifest| - 1].baseOffset
  }

  predicate Above(f: Framing, dir: WalDir, manifest: seq<SegmentEntry>, base: int)
    requires base in dir
  {
    && Scan(f, dir[base]).records != [] && !Listed(manifest, base)
    && (manifest == [] || base > manifest[|manifest| - 1].baseOffset)
  }

  /**
   What every theorem asks for and the code does not check: records fit the frame's length fields, and
   the file after a seal can be opened.
   */
  ghost predicate Admitted(s: System, e: Event) {
    match e
    case Produce(incoming, clocks) =>
      s.process.Running? && |clocks| == |incoming|
      && AllEncodable(StampAll(incoming, clocks, s.process.writer.nextOffset))
    case Open(ok) => ok
    case _ => true
  }

  /**
   What a run keeps to besides: nothing; that no crash leaves a segment from below the manifest's end to
   become the active one; or that no crash finds an evicted segment's file.
   */
  datatype Care = AnyCrash | NoRevival | NothingLeft

  ghost predicate CrashAllowed(f: Framing, care: Care, s: System, cut: nat)
    requires s.process.Running? ==> TornCut(f, s, cut)
  {
    match care
    case AnyCrash => true
    case NoRevival => s.process.Running? ==> !Revives(f, CrashStep(f, s, cut).dir, s.store.manifest)
    case NothingLeft => s.process.Running? ==> NothingLeftOver(s.dir, s.store.manifest)
  }

  ghost predicate Guarded(f: Framing, care: Care, s: System, e: Event)
    requires Enabled(f, s, e)
  {
    Admitted(s, e) && (e.Crash? ==> CrashAllowed(f, care, s, e.cut))
  }

  ghost predicate GuardedRun(f: Framing, care: Care, c: World, es: seq<Event>)
    requires Possible(f, c, es)
    decreases |es|
  {
    es != [] ==> Guarded(f, care, c.sys, es[0]) && GuardedRun(f, care, Next(f, c, es[0]), es[1..])
  }
}
