/** The state of a partition writer and what each message does to it (kafkrs-server/src/partition_writer.rs). */
module Writer {
  import opened Bytes
  import opened WalFrame

  datatype Incoming = Incoming(schemaId: int, key: seq<byte>, value: seq<byte>, timestampNs: int)

  /** A produce waiting for its acknowledgement: which one, and the offsets it was given. */
  datatype Ticket = Ticket(id: nat, base: int, count: nat)

  /** A sealed segment on its way to the object store. */
  datatype SealedBatch = SealedBatch(
    records: seq<Record>, baseOffset: int, lastOffset: int, baseTimestampNs: int, lastTimestampNs: int)

  /**
   `Ready` once the WAL file of the segment is open; `Booting` and `Sealing` are the gaps before it is;
   `Dead` after a failed append, which panics the writer's task alone.
   */
  datatype Stage = Ready | Booting | Sealing | Dead

  datatype Writer = Writer(
    nextOffset: int,
    segmentBase: int,
    walBase: int,
    stage: Stage,
    active: seq<Record>,
    pending: seq<Record>,
    tickets: seq<Ticket>,
    inFlight: map<int, seq<Record>>)

  /** `PartitionWriter::new`, up to opening the file. */
  function New(startOffset: int, recovered: seq<Record>): Writer {
    var base := if recovered == [] then startOffset else recovered[0].offset;
    Writer(startOffset, base, base, Booting, recovered, [], [], map[])
  }

  /** A record with its offset; a timestamp of 0 asks for the broker's clock. */
  function Stamped(inc: Incoming, offset: int, clock: int): Record {
    Record(offset, if inc.timestampNs != 0 then inc.timestampNs else clock, inc.schemaId, inc.key, inc.value)
  }

  /** The records of one produce, numbered from `base`; `clocks` are the broker's clock readings. */
  function StampAll(incoming: seq<Incoming>, clocks: seq<int>, base: int): (rs: seq<Record>)
    requires |clocks| == |incoming|
    ensures |rs| == |incoming|
    ensures forall i :: 0 <= i < |rs| ==> rs[i] == Stamped(incoming[i], base + i, clocks[i])
  {
    seq(|incoming|, i requires 0 <= i < |incoming| => Stamped(incoming[i], base + i, clocks[i]))
  }

  /** `on_produce` before the thresholds are looked at. */
  function Enqueue(w: Writer, incoming: seq<Incoming>, clocks: seq<int>, id: nat): Writer
    requires |clocks| == |incoming|
  {
    w.(pending := w.pending + StampAll(incoming, clocks, w.nextOffset),
       nextOffset := w.nextOffset + |incoming|,
       tickets := w.tickets + [Ticket(id, w.nextOffset, |incoming|)])
  }

  /** `flush_commit` once the batch is in the WAL: the batch joins the active segment, the acks are spent. */
  function Commit(w: Writer): Writer {
    if w.pending == [] then w
    else w.(active := w.active + w.pending, pending := [], tickets := [])
  }

  /** The value every ack of the batch carries. */
  function AckValue(w: Writer): int { w.nextOffset - 1 }

  function Batch(records: seq<Record>): SealedBatch
    requires records != []
  {
    var last := records[|records| - 1];
    SealedBatch(records, records[0].offset, last.offset, records[0].timestampNs, last.timestampNs)
  }

  /** `seal_and_handoff` up to opening the next file. */
  function Handoff(w: Writer): Writer
    requires w.active != []
  {
    w.(active := [], inFlight := w.inFlight[w.active[0].offset := w.active],
       segmentBase := w.nextOffset, stage := Sealing)
  }

  /** Opening the file of the current segment. A failed open after a seal keeps the old file handle. */
  function Opened(w: Writer, ok: bool): Writer {
    if ok then w.(walBase := w.segmentBase, stage := Ready) else w.(stage := Ready)
  }

  function Landed(w: Writer, base: int): Writer {
    w.(inFlight := w.inFlight - {base})
  }

  datatype Location = Hwm(hwm: int) | InActiveBatch | InFlight | BelowInFlight

  /** `locate`: the high-water mark counts records that are still pending. */
  function Locate(w: Writer, from: int): Location {
    var hwm := w.nextOffset - 1;
    if from > hwm then Hwm(hwm)
    else if w.active != [] && from >= w.active[0].offset then InActiveBatch
    else if exists b :: b in w.inFlight && from >= b then InFlight
    else BelowInFlight
  }

  /** `filter(offset >= from)` followed by `take(max)`. */
  function FilterFrom(rs: seq<Record>, from: int): seq<Record> {
    if rs == [] then []
    else if rs[0].offset >= from then [rs[0]] + FilterFrom(rs[1..], from)
    else FilterFrom(rs[1..], from)
  }

  function Take(rs: seq<Record>, max: nat): seq<Record> {
    if |rs| <= max then rs else rs[..max]
  }

  function ReadActive(w: Writer, from: int, max: nat): seq<Record> {
    Take(FilterFrom(w.active, from), max)
  }
}
