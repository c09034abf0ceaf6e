/** The partition writer as the code has it: an actor that updates its fields (kafkrs-server/src/partition_writer.rs). */
module PartitionWriter {
  import opened Bytes
  import opened WalFrame
  import opened Wal
  import opened Recovery
  import opened Writer
  import opened Partition
  import opened ProducePayload

  datatype Config = Config(groupCommitRecordCount: nat, groupCommitSizeBytes: nat, segmentSizeBytes: nat)

  function SizeOf(rs: seq<Record>): nat {
    if rs == [] then 0 else |rs[0].value| + |rs[0].key| + SizeOf(rs[1..])
  }

  lemma {:induction false} SizeOfAppend(rs: seq<Record>, r: Record)
    ensures SizeOf(rs + [r]) == SizeOf(rs) + |r.value| + |r.key|
  {
    if rs == [] {
      assert rs + [r] == [r];
    } else {
      SizeOfAppend(rs[1..], r);
      assert (rs + [r])[1..] == rs[1..] + [r];
    }
  }

  // ------------------------------------------------------------------------------------------
  // What each handler does, as a whole

  /** The writer with everything its handlers write to: the WAL directory, the uploader's queue, the acks. */
  datatype View = View(writer: Writer, dir: WalDir, queue: seq<SealedBatch>, acks: seq<Ack>)

  /** Bytes appended to a file that was removed while open reach no directory. */
  function AppendTo(dir: WalDir, base: int, bytes: seq<byte>): WalDir {
    if base in dir then Append(dir, base, bytes) else dir
  }

  function Flushed(f: Framing, v: View): View {
    var w := v.writer;
    if w.pending == [] then v
    else v.(writer := Commit(w), dir := AppendTo(v.dir, w.walBase, EncodeAll(f, w.pending)), acks := v.acks + Acks(w))
  }

  function Sealed(v: View, opens: bool): View {
    if v.writer.active == [] then v
    else
      var w := Handoff(v.writer);
      v.(writer := Opened(w, opens),
         dir := if opens && w.segmentBase !in v.dir then v.dir[w.segmentBase := []] else v.dir,
         queue := v.queue + [Batch(v.writer.active)])
  }

  /** `flush_commit`, sealing once the active segment is large enough. */
  function Committed(f: Framing, cfg: Config, v: View, opens: bool): View {
    if v.writer.pending == [] then v
    else
      var flushed := Flushed(f, v);
      if SizeOf(flushed.writer.active) >= cfg.segmentSizeBytes then Sealed(flushed, opens) else flushed
  }

  /** A group commit is due: enough records or enough bytes are waiting. */
  predicate Due(cfg: Config, pending: seq<Record>) {
    |pending| >= cfg.groupCommitRecordCount || SizeOf(pending) >= cfg.groupCommitSizeBytes
  }

  function Produced(f: Framing, cfg: Config, v: View, incoming: seq<Incoming>, clocks: seq<int>, id: nat, opens: bool): View
    requires |clocks| == |incoming|
  {
    var queued := v.(writer := Enqueue(v.writer, incoming, clocks, id));
    if Due(cfg, queued.writer.pending) then Committed(f, cfg, queued, opens) else queued
  }

  function Dropped(v: View, base: int, ok: bool): View {
    v.(writer := Landed(v.writer, base), dir := if ok then v.dir - {base} else v.dir)
  }

  // ------------------------------------------------------------------------------------------
  // When the handlers commit and seal

  /** The size of records is the number of key and value bytes their clients packed. */
  lemma {:induction false} SizeIsPayload(rs: seq<Record>)
    ensures SizeOf(rs) == |Payload(rs)|
  {
    if rs != [] {
      SizeIsPayload(rs[1..]);
    }
  }

  /**
   After a produce, records wait only while they are fewer than the configured count and their keys and
   values together shorter than the configured size; otherwise the whole batch was committed.
   */
  lemma CommitsWhenDue(f: Framing, cfg: Config, v: View, incoming: seq<Incoming>, clocks: seq<int>, id: nat, opens: bool)
    requires |clocks| == |incoming|
    ensures var batch := v.writer.pending + StampAll(incoming, clocks, v.writer.nextOffset);
            var v' := Produced(f, cfg, v, incoming, clocks, id, opens);
            if |batch| < cfg.groupCommitRecordCount && |Payload(batch)| < cfg.groupCommitSizeBytes
            then v'.writer.pending == batch && v'.dir == v.dir && v'.queue == v.queue && v'.acks == v.acks
            else v'.writer.pending == []
  {
    SizeIsPayload(v.writer.pending + StampAll(incoming, clocks, v.writer.nextOffset));
  }

  /**
   A commit seals exactly when the active segment has then reached the configured size in key and value
   bytes, and hands over the whole of it; below that size it goes on.
   */
  lemma SealsWhenLarge(f: Framing, cfg: Config, v: View, opens: bool)
    requires v.writer.pending != []
    ensures var segment := v.writer.active + v.writer.pending;
            var v' := Committed(f, cfg, v, opens);
            if |Payload(segment)| >= cfg.segmentSizeBytes
            then v'.writer.active == [] && v'.queue == v.queue + [Batch(segment)]
            else v'.writer.active == segment && v'.queue == v.queue
  {
    SizeIsPayload(v.writer.active + v.writer.pending);
  }

  // ------------------------------------------------------------------------------------------
  // The actor

  class PartitionWriter {
    const framing: Framing
    var cfg: Config
    var nextOffset: int
    var segmentBase: int
    var walBase: int
    var active: seq<Record>
    var activeBytes: nat
    var pending: seq<Record>
    var pendingAcks: seq<Ticket>
    var inFlight: map<int, seq<Record>>
    /** What the actor acts on: the WAL directory, the messages to the uploader, the acks it fired. */
    var dir: WalDir
    var queue: seq<SealedBatch>
    var acks: seq<Ack>

    ghost function Now(): View
      reads this
    {
      View(Writer(nextOffset, segmentBase, walBase, Ready, active, pending, pendingAcks, inFlight), dir, queue, acks)
    }

    /** The running byte count is the size of the active segment. */
    ghost predicate Valid()
      reads this
    {
      activeBytes == SizeOf(active)
    }

    /** `PartitionWriter::new`, which opens the file of the segment it was handed. */
    constructor (framing: Framing, cfg: Config, startOffset: int, recovered: seq<Record>, dir: WalDir, queue: seq<SealedBatch>)
      ensures Valid() && this.framing == framing && this.cfg == cfg
      ensures var w := New(startOffset, recovered);
              Now() == View(Opened(w, true), if w.segmentBase in dir then dir else dir[w.segmentBase := []], queue, [])
    {
      var base := if recovered == [] then startOffset else recovered[0].offset;
      var bytes := 0;
      for i := 0 to |recovered|
        invariant bytes == SizeOf(recovered[..i])
      {
        SizeOfAppend(recovered[..i], recovered[i]);
        assert recovered[..i] + [recovered[i]] == recovered[..i + 1];
        bytes := bytes + |recovered[i].value| + |recovered[i].key|;
      }
      assert recovered[..|recovered|] == recovered;
      this.framing, this.cfg := framing, cfg;
      nextOffset, segmentBase, walBase := startOffset, base, base;
      active, activeBytes, pending, pendingAcks, inFlight := recovered, bytes, [], [], map[];
      this.dir := if base in dir then dir else dir[base := []];
      this.queue, acks := queue, [];
    }

    method OnProduce(incoming: seq<Incoming>, clocks: seq<int>, id: nat, opens: bool)
      requires Valid() && |clocks| == |incoming|
      modifies this
      ensures Valid() && cfg == old(cfg) && Now() == Produced(framing, cfg, old(Now()), incoming, clocks, id, opens)
    {
      var base := nextOffset;
      ghost var stamped := StampAll(incoming, clocks, base);
      for i := 0 to |incoming|
        invariant pending == old(pending) + stamped[..i]
        invariant Valid() && cfg == old(cfg)
        invariant Now() == old(Now()).(writer := old(Now()).writer.(pending := pending, nextOffset := base + i))
      {
        var ts := if incoming[i].timestampNs != 0 then incoming[i].timestampNs else clocks[i];
        pending := pending + [Record(nextOffset, ts, incoming[i].schemaId, incoming[i].key, incoming[i].value)];
        nextOffset := nextOffset + 1;
        assert stamped[..i + 1] == stamped[..i] + [stamped[i]];
      }
      assert stamped[..|incoming|] == stamped;
      pendingAcks := pendingAcks + [Ticket(id, base, |incoming|)];
      var pendingBytes := TotalSize(pending);
      if |pending| >= cfg.groupCommitRecordCount || pendingBytes >= cfg.groupCommitSizeBytes {
        FlushCommit(opens);
      }
    }

    method FlushCommit(opens: bool)
      requires Valid()
      modifies this
      ensures Valid() && cfg == old(cfg) && Now() == Committed(framing, cfg, old(Now()), opens)
    {
      if pending == [] { return; }
      var batch := pending;
      pending := [];
      var bytes := EncodeBatch(framing, batch);
      dir := AppendTo(dir, walBase, bytes);
      FireAcks();
      var added := TotalSize(batch);
      SizeOfJoin(active, batch);
      activeBytes := activeBytes + added;
      active := active + batch;
      if activeBytes >= cfg.segmentSizeBytes {
        SealAndHandoff(opens);
      }
    }

    /** Every waiting produce gets the same value. */
    method FireAcks()
      modifies this
      ensures pendingAcks == [] && acks == old(acks) + Acks(old(Now().writer))
      ensures Now() == old(Now()).(writer := old(Now()).writer.(tickets := []), acks := acks)
      ensures activeBytes == old(activeBytes) && cfg == old(cfg)
    {
      var waiting := pendingAcks;
      pendingAcks := [];
      ghost var fired := Acks(old(Now().writer));
      for i := 0 to |waiting|
        invariant acks == old(acks) + fired[..i] && pendingAcks == []
        invariant Now() == old(Now()).(writer := old(Now()).writer.(tickets := []), acks := acks)
        invariant activeBytes == old(activeBytes) && cfg == old(cfg)
      {
        acks := acks + [Ack(waiting[i], nextOffset - 1)];
        assert fired[..i + 1] == fired[..i] + [fired[i]];
      }
      assert fired[..|waiting|] == fired;
    }

    /** A failed open leaves the writer appending to the old file. */
    method SealAndHandoff(opens: bool)
      requires Valid()
      modifies this
      ensures Valid() && cfg == old(cfg) && Now() == Sealed(old(Now()), opens)
    {
      if active == [] { return; }
      var records := active;
      active, activeBytes := [], 0;
      var first, last := records[0], records[|records| - 1];
      inFlight := inFlight[first.offset := records];
      queue := queue + [SealedBatch(records, first.offset, last.offset, first.timestampNs, last.timestampNs)];
      segmentBase := nextOffset;
      ghost var sealing := Handoff(old(Now().writer));
      assert Now() == View(sealing.(stage := Ready), old(dir), old(queue) + [Batch(records)], old(acks));
      if opens {
        if segmentBase !in dir { dir := dir[segmentBase := []]; }
        walBase := segmentBase;
      }
    }

    method OnDurable(base: int, ok: bool)
      requires Valid()
      modifies this
      ensures Valid() && cfg == old(cfg) && Now() == Dropped(old(Now()), base, ok)
      ensures base !in inFlight && (ok ==> base !in dir)
      ensures forall b :: b != base ==> (b in dir <==> b in old(dir)) && (b in dir ==> dir[b] == old(dir)[b])
      ensures forall b :: b != base ==> (b in inFlight <==> b in old(inFlight)) && (b in inFlight ==> inFlight[b] == old(inFlight)[b])
    {
      inFlight := inFlight - {base};
      if ok { dir := dir - {base}; }
    }

    method Shutdown(opens: bool)
      requires Valid()
      modifies this
      ensures Valid() && cfg == old(cfg) && Now() == Sealed(Committed(framing, cfg, old(Now()), opens), opens)
    {
      FlushCommit(opens);
      SealAndHandoff(opens);
    }

    /** The earliest segment in flight is the first key of an ordered map. */
    method LocateOffset(from: int) returns (loc: Location)
      ensures loc == Locate(Now().writer, from)
    {
      var hwm := nextOffset - 1;
      if from > hwm { return Hwm(hwm); }
      if active != [] && from >= active[0].offset { return InActiveBatch; }
      if inFlight.Keys != {} {
        var earliest := Least(inFlight.Keys);
        if from >= earliest { return InFlight; }
      }
      return BelowInFlight;
    }

    method ReadActiveBatch(from: int, max: nat) returns (records: seq<Record>)
      ensures records == ReadActive(Now().writer, from, max)
    {
      records := [];
      var i := 0;
      while i < |active| && |records| < max
        invariant i <= |active| && |records| <= max
        invariant records == FilterFrom(active[..i], from)
      {
        FilterAppend(active[..i], active[i], from);
        assert active[..i] + [active[i]] == active[..i + 1];
        if active[i].offset >= from { records := records + [active[i]]; }
        i := i + 1;
      }
      FilterJoin(active[..i], active[i..], from);
      assert active[..i] + active[i..] == active;
      assert |records| < max ==> active[i..] == [];
    }
  }

  method TotalSize(rs: seq<Record>) returns (n: nat)
    ensures n == SizeOf(rs)
  {
    n := 0;
    for i := 0 to |rs|
      invariant n == SizeOf(rs[..i])
    {
      SizeOfAppend(rs[..i], rs[i]);
      assert rs[..i] + [rs[i]] == rs[..i + 1];
      n := n + |rs[i].value| + |rs[i].key|;
    }
    assert rs[..|rs|] == rs;
  }

  method Least(keys: set<int>) returns (least: int)
    requires keys != {}
    ensures least in keys && forall k :: k in keys ==> least <= k
  {
    Inhabited(keys);
    least :| least in keys;
    var rest := keys - {least};
    while rest != {}
      invariant least in keys && rest <= keys
      invariant forall k :: k in keys ==> least <= k || k in rest
      decreases |rest|
    {
      Inhabited(rest);
      var k :| k in rest;
      rest := rest - {k};
      if k < least { least := k; }
    }
  }

  lemma {:induction false} SizeOfJoin(xs: seq<Record>, ys: seq<Record>)
    ensures SizeOf(xs + ys) == SizeOf(xs) + SizeOf(ys)
  {
    if xs == [] {
      assert xs + ys == ys;
    } else {
      SizeOfJoin(xs[1..], ys);
      assert (xs + ys)[1..] == xs[1..] + ys;
    }
  }

  lemma Regroup(a: seq<Record>, b: seq<Record>, c: seq<Record>)
    ensures a + (b + c) == a + b + c
  {
  }

  lemma {:induction false} FilterJoin(xs: seq<Record>, ys: seq<Record>, from: int)
    ensures FilterFrom(xs + ys, from) == FilterFrom(xs, from) + FilterFrom(ys, from)
  {
    if xs == [] {
      assert xs + ys == ys;
    } else {
      FilterJoin(xs[1..], ys, from);
      assert (xs + ys)[1..] == xs[1..] + ys && (xs + ys)[0] == xs[0];
      Regroup(if xs[0].offset >= from then [xs[0]] else [], FilterFrom(xs[1..], from), FilterFrom(ys, from));
    }
  }

  lemma FilterAppend(xs: seq<Record>, r: Record, from: int)
    ensures FilterFrom(xs + [r], from) == FilterFrom(xs, from) + (if r.offset >= from then [r] else [])
  {
    FilterJoin(xs, [r], from);
    assert [r][1..] == [];
  }
}
