/** Resolving a fetch against the writer and the object store (kafkrs-server/src/fetcher.rs). */
module Fetch {
  import opened WalFrame
  import opened Options
  import opened Manifest
  import opened Segment
  import opened Writer
  import opened Partition

  datatype FetchError = UnknownTopic | OffsetOutOfRange | BrokerNotReady

  datatype FetchResult = Served(records: seq<Record>, hwm: int) | Failed(error: FetchError)

  /** `ReadActive`: the high-water mark reported is the last record's offset, or the offset before `from`. */
  function ServeActive(w: Writer, from: int, max: nat): FetchResult {
    var records := ReadActive(w, from, max);
    Served(records, if records == [] then from - 1 else records[|records| - 1].offset)
  }

  /** A writer that can answer: a writer that is gone leaves the channel closed. */
  predicate Answers(s: System) {
    s.process.Running? && !s.process.writer.stage.Dead?
  }

  function AskActive(s: System, from: int, max: nat): FetchResult {
    if Answers(s) then ServeActive(s.process.writer, from, max) else Failed(BrokerNotReady)
  }

  /** How the two GETs of a read go: is the manifest there, does it parse, can the object be read. */
  datatype Gets = Gets(manifestFound: bool, manifestParses: bool, objectReads: bool)

  /** Two GETs: the manifest, then the object of the segment that contains `from`. */
  function ServeStored(gets: Gets, manifest: seq<SegmentEntry>, objects: map<int, Columns>, from: int, max: nat): FetchResult {
    if !gets.manifestFound then Failed(UnknownTopic)
    else if !gets.manifestParses then Failed(BrokerNotReady)
    else
      match SegmentForOffset(manifest, from)
      case None => Failed(OffsetOutOfRange)
      case Some(seg) =>
        if seg.baseOffset !in objects || !gets.objectReads then Failed(BrokerNotReady)
        else Served(Take(FilterFrom(FromColumns(objects[seg.baseOffset]), from), max), UploadedEnd(manifest) - 1)
  }

  /**
   One fetch. Its messages and GETs read the partition at four moments that other steps may separate:
   the first Locate, the Locate after the long poll, the read (of the active batch or of the
   manifest), and the read of the object.
   */
  function Answer(from: int, max: nat, waits: bool, gets: Gets, first: System, again: System, read: System, fetched: System)
    : FetchResult
  {
    if from < 0 then Failed(OffsetOutOfRange)
    else if !Answers(first) then Failed(BrokerNotReady)
    else
      match Locate(first.process.writer, from)
      case Hwm(hwm) =>
        if !waits then Served([], hwm)
        else if !Answers(again) then Failed(BrokerNotReady)
        else (match Locate(again.process.writer, from)
              case InActiveBatch => AskActive(read, from, max)
              case Hwm(h) => Served([], h)
              case _ => ServeStored(gets, read.store.manifest, fetched.store.objects, from, max))
      case InActiveBatch => AskActive(read, from, max)
      case InFlight =>
        var r := ServeStored(gets, read.store.manifest, fetched.store.objects, from, max);
        if r.Served? then r else Served([], -1)
      case BelowInFlight => ServeStored(gets, read.store.manifest, fetched.store.objects, from, max)
  }

  // ------------------------------------------------------------------------------------------
  // The row loop

  /** The rows of an object, delivered by the reader batch by batch. */
  function RowsOf(reader: seq<Columns>): seq<Record> {
    if reader == [] then [] else FromColumns(reader[0]) + RowsOf(reader[1..])
  }

  lemma Regroup(a: seq<Record>, b: seq<Record>, c: seq<Record>)
    ensures a + (b + c) == a + b + c
  {
  }

  lemma {:induction false} RowsAppend(xs: seq<Columns>, last: Columns)
    ensures RowsOf(xs + [last]) == RowsOf(xs) + FromColumns(last)
  {
    if xs == [] {
      assert xs + [last] == [last];
    } else {
      RowsAppend(xs[1..], last);
      assert (xs + [last])[1..] == xs[1..] + [last];
      Regroup(FromColumns(xs[0]), RowsOf(xs[1..]), FromColumns(last));
    }
  }

  /** The loop of `read_object_store` and the slice it ends with. */
  method ReadRows(reader: seq<Columns>, from: int, max: nat) returns (records: seq<Record>)
    ensures records == Take(FilterFrom(RowsOf(reader), from), max)
    ensures |records| <= max && forall i :: 0 <= i < |records| ==> records[i].offset >= from
  {
    var out: seq<Record> := [];
    for i := 0 to |reader|
      invariant out == RowsOf(reader[..i])
    {
      RowsAppend(reader[..i], reader[i]);
      assert reader[..i] + [reader[i]] == reader[..i + 1];
      out := out + FromColumns(reader[i]);
    }
    assert reader[..|reader|] == reader;
    FilterKeepsFrom(out, from);
    records := Take(FilterFrom(out, from), max);
  }

  lemma {:induction false} FilterKeepsFrom(rs: seq<Record>, from: int)
    ensures forall i :: 0 <= i < |FilterFrom(rs, from)| ==> FilterFrom(rs, from)[i].offset >= from
  {
    if rs != [] {
      FilterKeepsFrom(rs[1..], from);
    }
  }
}
