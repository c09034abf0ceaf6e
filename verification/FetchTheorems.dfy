/** A fetch returns a slice of the log. */
module FetchTheorems {
  import opened WalFrame
  import opened Wal
  import opened Options
  import opened Manifest
  import opened Retention
  import opened Recovery
  import opened Segment
  import opened Writer
  import opened Uploads
  import opened Partition
  import opened PartitionInvariant
  import opened PartitionLogging
  import opened UploaderSteps
  import opened PartitionRuns
  import opened PartitionTheorems
  import opened LogTheorems
  import opened ProducePayload
  import opened Requests
  import opened InFlight
  import opened Fetch

  // ------------------------------------------------------------------------------------------
  // Filter and take on a slice of the log

  function Min(a: int, b: int): int { if a < b then a else b }

  lemma TakeOfSlice(log: seq<Record>, lo: int, b: int, max: nat)
    requires 0 <= lo <= b <= |log|
    ensures Take(log[lo..b], max) == log[lo..Min(lo + max, b)]
  {
    if b - lo > max {
      assert log[lo..b][..max] == log[lo..lo + max];
    }
  }

  lemma SliceStarts(log: seq<Record>, lo: int, hi: int)
    requires LogOk(log) && 0 <= lo <= hi <= |log|
    ensures |log[lo..hi]| == hi - lo && (lo < hi ==> log[lo..hi][0].offset == lo)
  {
  }

  lemma {:induction false} FilterSlice(log: seq<Record>, a: int, b: int, from: int)
    requires LogOk(log) && 0 <= a <= b <= |log|
    ensures FilterFrom(log[a..b], from) == if from <= b then log[Max(a, from)..b] else []
    decreases b - a
  {
    if a < b {
      assert log[a..b][0] == log[a] && log[a..b][1..] == log[a + 1..b];
      FilterSlice(log, a + 1, b, from);
      if a >= from { assert log[a..b] == [log[a]] + log[a + 1..b]; }
    }
  }

  /** `records` is a run of the log that starts at or above `from`. */
  ghost predicate RunOf(records: seq<Record>, log: seq<Record>, from: int, max: nat) {
    |records| <= max &&
    (records != [] ==>
       && from <= records[0].offset
       && 0 <= records[0].offset <= records[0].offset + |records| <= |log|
       && records == log[records[0].offset..records[0].offset + |records|])
  }

  lemma SliceIsRun(log: seq<Record>, a: int, b: int, from: int, max: nat)
    requires LogOk(log) && 0 <= a <= b <= |log|
    ensures var records := Take(FilterFrom(log[a..b], from), max);
            && RunOf(records, log, from, max)
            && (records != [] <==> max > 0 && from < b && a < b)
            && (records != [] ==> records[0].offset == Max(a, from))
  {
    FilterSlice(log, a, b, from);
    if from <= b {
      var lo := Max(a, from);
      TakeOfSlice(log, lo, b, max);
      SliceStarts(log, lo, Min(lo + max, b));
    }
  }

  lemma RunOfExtends(records: seq<Record>, log: seq<Record>, log': seq<Record>, from: int, max: nat)
    requires RunOf(records, log, from, max) && log <= log'
    ensures RunOf(records, log', from, max)
  {
    if records != [] {
      var a := records[0].offset;
      assert log'[a..a + |records|] == log[a..a + |records|];
    }
  }

  lemma ActiveIsRun(w: Writer, log: seq<Record>, tail: seq<int>, from: int, max: nat)
    requires LogOk(log) && ActiveOk(w.active, w.segmentBase, log, tail)
    ensures var records := ReadActive(w, from, max);
            && RunOf(records, log, from, max)
            && (records != [] <==> max > 0 && from < |log| && w.active != [])
            && (records != [] ==> records[0].offset == Max(|log| - |w.active|, from))
  {
    assert log[|log| - |w.active|..|log|] == w.active;
    SliceIsRun(log, |log| - |w.active|, |log|, from, max);
  }

  // ------------------------------------------------------------------------------------------
  // A listed object never changes

  /** The uploader agrees with the listed entry about the records of its segment. */
  ghost predicate HandAgrees(p: Process, log: seq<Record>, e: SegmentEntry)
    requires 0 <= e.baseOffset <= e.lastOffset < |log|
  {
    p.Running? && p.uploader.Uploading? && p.uploader.batch.baseOffset == e.baseOffset ==>
      p.uploader.batch.records == log[e.baseOffset..e.lastOffset + 1]
  }

  /** What stays true of an entry once it was listed: its range is uploaded, its object is its slice of the log. */
  ghost predicate Settled(store: Store, p: Process, log: seq<Record>, e: SegmentEntry) {
    && 0 <= e.baseOffset <= e.lastOffset < UploadedEnd(store.manifest) <= |log|
    && (e.baseOffset in store.objects ==> store.objects[e.baseOffset] == ToColumns(log[e.baseOffset..e.lastOffset + 1]))
    && HandAgrees(p, log, e)
  }

  lemma ListedRange(store: Store, log: seq<Record>, low: int, i: nat)
    requires ManifestOk(store, log, low) && i < |store.manifest|
    ensures EntryOk(store.objects, log, store.manifest[i])
    ensures store.manifest[i].lastOffset < UploadedEnd(store.manifest) <= |log|
  {
    EntryAt(store, log, low, i);
    LastInLog(store, log, low);
    BelowUploadedEnd(store.manifest, i);
  }

  lemma EntryAt(store: Store, log: seq<Record>, low: int, i: nat)
    requires ManifestOk(store, log, low) && i < |store.manifest|
    ensures EntryOk(store.objects, log, store.manifest[i])
  {
  }

  lemma LastInLog(store: Store, log: seq<Record>, low: int)
    requires ManifestOk(store, log, low)
    ensures UploadedEnd(store.manifest) <= |log|
  {
    var m := store.manifest;
    assert m != [] ==> EntryOk(store.objects, log, m[|m| - 1]);
  }

  lemma HandAgreesWithListed(up: Uploader, store: Store, log: seq<Record>, low: int, i: nat)
    requires ManifestOk(store, log, low) && UploaderOk(up, store, log, low) && i < |store.manifest|
    requires up.Uploading? && up.batch.baseOffset == store.manifest[i].baseOffset
    ensures BatchOk(up.batch, log, store.manifest[i].baseOffset, store.manifest[i].lastOffset + 1)
  {
    InHandRecords(store.manifest, up, store, log, low, i);
  }

  lemma ListedEntryIsSettled(store: Store, p: Process, log: seq<Record>, low: int, i: nat)
    requires ManifestOk(store, log, low) && (p.Running? ==> UploaderOk(p.uploader, store, log, low)) && i < |store.manifest|
    ensures Settled(store, p, log, store.manifest[i])
  {
    ListedRange(store, log, low, i);
    if p.Running? && p.uploader.Uploading? && p.uploader.batch.baseOffset == store.manifest[i].baseOffset {
      HandAgreesWithListed(p.uploader, store, log, low, i);
    }
  }

  lemma ListedIsSettled(f: Framing, s: System, h: History, i: nat)
    requires Inv(f, s, h) && i < |s.store.manifest|
    ensures Settled(s.store, s.process, h.log, s.store.manifest[i])
  {
    ListedEntryIsSettled(s.store, s.process, h.log, h.low, i);
  }

  lemma SettledExtends(store: Store, p: Process, log: seq<Record>, more: seq<Record>, e: SegmentEntry)
    requires Settled(store, p, log, e)
    ensures Settled(store, p, log + more, e)
  {
    SliceOfPrefix(log, more, e.baseOffset, e.lastOffset + 1);
  }

  lemma TakeKeepsSettled(f: Framing, s: System, h: History, e: SegmentEntry)
    requires Inv(f, s, h) && Settled(s.store, s.process, h.log, e) && Enabled(f, s, TakeBatch)
    ensures Settled(Apply(f, s, TakeBatch).store, Apply(f, s, TakeBatch).process, h.log, e)
  {
    assert [] + s.process.queue == s.process.queue;
    FirstBatch(s.process.queue, s.process.writer.active, h.log, h.tail, UploadedEnd(s.store.manifest));
  }

  lemma PutManifestKeepsSettled(f: Framing, s: System, h: History, byteSize: nat, e: SegmentEntry)
    requires Inv(f, s, h) && Settled(s.store, s.process, h.log, e) && Enabled(f, s, PutManifest(byteSize))
    ensures var s' := Apply(f, s, PutManifest(byteSize));
            Settled(s'.store, s'.process, h.log, e)
  {
    var up := s.process.uploader;
    if !Listed(s.store.manifest, up.batch.baseOffset) {
      InHandBase(up, s.process.queue, s.process.notices, s.process.writer.active, s.store, h.log, h.low, h.tail);
      ListedDurable(f, s.dir, s.store, h.log, h.low, h.tail, up.batch, byteSize);
    }
  }

  lemma EvictKeepsSettled(f: Framing, s: System, h: History, count: nat, e: SegmentEntry)
    requires Inv(f, s, h) && Settled(s.store, s.process, h.log, e) && Enabled(f, s, Evict(count))
    ensures var s' := Apply(f, s, Evict(count));
            Settled(s'.store, s'.process, h.log, e)
  {
    EvictDurable(f, s.dir, s.store, h.log, h.low, h.tail, count);
  }

  /** The other steps leave the manifest alone, and no object under a settled entry changes. */
  lemma OtherStepsKeepSettled(f: Framing, s: System, h: History, ev: Event, e: SegmentEntry)
    requires Settled(s.store, s.process, h.log, e) && Enabled(f, s, ev)
    requires !ev.TakeBatch? && !ev.PutManifest? && !ev.Evict?
    ensures Settled(Apply(f, s, ev).store, Apply(f, s, ev).process, Observe(f, s, h, ev).log, e)
  {
    if ev.Flush? {
      SettledExtends(s.store, s.process, h.log, s.process.writer.pending, e);
    } else if (ev.Crash? && s.process.Running?) || ev.Panic? {
      SettledExtends(s.store, s.process, h.log, Survivors(f, s.process.writer, ev.cut), e);
    }
  }

  lemma StepKeepsSettled(f: Framing, s: System, h: History, ev: Event, e: SegmentEntry)
    requires Inv(f, s, h) && Settled(s.store, s.process, h.log, e) && Enabled(f, s, ev) && Guarded(f, NothingLeft, s, ev)
    ensures Settled(Apply(f, s, ev).store, Apply(f, s, ev).process, Observe(f, s, h, ev).log, e)
    ensures h.log <= Observe(f, s, h, ev).log
  {
    LogGrows(f, s, h, ev);
    if ev.TakeBatch? {
      TakeKeepsSettled(f, s, h, e);
    } else if ev.PutManifest? {
      PutManifestKeepsSettled(f, s, h, ev.byteSize, e);
    } else if ev.Evict? {
      EvictKeepsSettled(f, s, h, ev.count, e);
    } else {
      OtherStepsKeepSettled(f, s, h, ev, e);
    }
  }

  lemma {:induction false} RunKeepsSettled(f: Framing, c: World, es: seq<Event>, d: World, e: SegmentEntry)
    requires Lawful(f) && Inv(f, c.sys, c.hist) && Settled(c.sys.store, c.sys.process, c.hist.log, e) && Leads(f, NothingLeft, c, es, d)
    ensures Settled(d.sys.store, d.sys.process, d.hist.log, e) && c.hist.log <= d.hist.log
    decreases |es|
  {
    if es != [] {
      StepKeepsSettled(f, c.sys, c.hist, es[0], e);
      StepKeeps(f, c, es[0]);
      RunKeepsSettled(f, Next(f, c, es[0]), es[1..], d, e);
    }
  }

  lemma LogGrows(f: Framing, s: System, h: History, ev: Event)
    requires Enabled(f, s, ev)
    ensures h.log <= Observe(f, s, h, ev).log
  {
  }

  lemma {:induction false} RunGrowsLog(f: Framing, c: World, es: seq<Event>, d: World)
    requires Leads(f, NothingLeft, c, es, d)
    ensures c.hist.log <= d.hist.log
    decreases |es|
  {
    if es != [] {
      LogGrows(f, c.sys, c.hist, es[0]);
      RunGrowsLog(f, Next(f, c, es[0]), es[1..], d);
    }
  }

  // ------------------------------------------------------------------------------------------
  // A fetch whose messages other steps separate

  lemma FoundAt(segments: seq<SegmentEntry>, offset: int) returns (i: nat)
    requires SegmentForOffset(segments, offset).Some?
    ensures i < |segments| && SegmentForOffset(segments, offset) == Some(segments[i]) && segments[i].Contains(offset)
  {
    i := PartitionPoint(segments, offset, 0, |segments|);
  }

  lemma InvLog(f: Framing, s: System, h: History)
    requires Inv(f, s, h)
    ensures LogOk(h.log)
    ensures s.process.Running? ==> ActiveOk(s.process.writer.active, s.process.writer.segmentBase, h.log, h.tail)
  {
  }

  lemma ActiveAnswer(f: Framing, s: System, h: History, from: int, max: nat)
    requires Inv(f, s, h)
    ensures var r := AskActive(s, from, max);
            r.Served? ==> RunOf(r.records, h.log, from, max)
  {
    InvLog(f, s, h);
    if s.process.Running? {
      ActiveIsRun(s.process.writer, h.log, h.tail, from, max);
    }
  }

  /** The rows of a settled object that is still there. */
  lemma SettledRows(store: Store, p: Process, log: seq<Record>, e: SegmentEntry)
    requires Settled(store, p, log, e) && LogOk(log) && e.baseOffset in store.objects
    ensures FromColumns(store.objects[e.baseOffset]) == log[e.baseOffset..e.lastOffset + 1]
  {
    ColumnsRoundTrip(log[e.baseOffset..e.lastOffset + 1]);
  }

  /** Every entry of the manifest is settled in every later world. */
  lemma SettledLater(f: Framing, c: World, es: seq<Event>, d: World, i: nat)
    requires Lawful(f) && Inv(f, c.sys, c.hist) && Leads(f, NothingLeft, c, es, d) && i < |c.sys.store.manifest|
    ensures Settled(d.sys.store, d.sys.process, d.hist.log, c.sys.store.manifest[i])
  {
    ListedIsSettled(f, c.sys, c.hist, i);
    RunKeepsSettled(f, c, es, d, c.sys.store.manifest[i]);
  }

  lemma SettledServed(gets: Gets, manifest: seq<SegmentEntry>, store: Store, p: Process, log: seq<Record>, from: int, max: nat)
    requires LogOk(log) && forall i :: 0 <= i < |manifest| ==> Settled(store, p, log, manifest[i])
    ensures var r := ServeStored(gets, manifest, store.objects, from, max);
            r.Served? ==> RunOf(r.records, log, from, max)
  {
    var r := ServeStored(gets, manifest, store.objects, from, max);
    if r.Served? {
      var i := FoundAt(manifest, from);
      var e := manifest[i];
      SettledRows(store, p, log, e);
      SliceIsRun(log, e.baseOffset, e.lastOffset + 1, from, max);
    }
  }

  lemma StoredAnswer(f: Framing, c: World, es: seq<Event>, d: World, gets: Gets, from: int, max: nat)
    requires Lawful(f) && Inv(f, c.sys, c.hist) && LogOk(d.hist.log) && Leads(f, NothingLeft, c, es, d)
    ensures var r := ServeStored(gets, c.sys.store.manifest, d.sys.store.objects, from, max);
            r.Served? ==> RunOf(r.records, d.hist.log, from, max)
  {
    forall i: nat | i < |c.sys.store.manifest|
      ensures Settled(d.sys.store, d.sys.process, d.hist.log, c.sys.store.manifest[i])
    {
      SettledLater(f, c, es, d, i);
    }
    SettledServed(gets, c.sys.store.manifest, d.sys.store, d.sys.process, d.hist.log, from, max);
  }

  /** Both reads of a fetch, whichever it makes, return a run of the log as it stands at the end. */
  lemma AnswersAreRuns(f: Framing, read: World, es: seq<Event>, fetched: World, gets: Gets, from: int, max: nat)
    requires Lawful(f) && Inv(f, read.sys, read.hist) && Leads(f, NothingLeft, read, es, fetched)
    ensures var a := AskActive(read.sys, from, max);
            a.Served? ==> RunOf(a.records, fetched.hist.log, from, max)
    ensures var b := ServeStored(gets, read.sys.store.manifest, fetched.sys.store.objects, from, max);
            b.Served? ==> RunOf(b.records, fetched.hist.log, from, max)
  {
    RunKeeps(f, read, es);
    InvLog(f, fetched.sys, fetched.hist);
    RunGrowsLog(f, read, es, fetched);
    ActiveAnswer(f, read.sys, read.hist, from, max);
    var a := AskActive(read.sys, from, max);
    if a.Served? { RunOfExtends(a.records, read.hist.log, fetched.hist.log, from, max); }
    StoredAnswer(f, read, es, fetched, gets, from, max);
  }

  /** A fetch answers with no records or with what one of its two reads returned. */
  lemma AnswerIsARead(from: int, max: nat, waits: bool, gets: Gets, first: System, again: System, read: System, fetched: System)
    ensures var r := Answer(from, max, waits, gets, first, again, read, fetched);
            r.Served? ==> r.records == [] || r == AskActive(read, from, max)
                          || r == ServeStored(gets, read.store.manifest, fetched.store.objects, from, max)
  {
  }

  lemma LeadsTwice(f: Framing, a: World, es1: seq<Event>, b: World, es2: seq<Event>, c: World)
    requires Lawful(f) && Reachable(f, a) && Leads(f, NothingLeft, a, es1, b) && Leads(f, NothingLeft, b, es2, c)
    ensures Inv(f, c.sys, c.hist)
  {
    ReachableInv(f, a);
    RunKeeps(f, a, es1);
    RunKeeps(f, b, es2);
  }

  /**
   Whatever steps of the writer, the uploader, retention, a crash or a recovery come between its
   messages, a fetch that succeeds returns a contiguous run of fsynced records at or above `from`,
   at most `max` of them and equal field by field to the log.
   */
  lemma FetchReturnsRunOfLog(f: Framing, from: int, max: nat, waits: bool, gets: Gets, first: World, again: World,
                             read: World, fetched: World, es1: seq<Event>, es2: seq<Event>, es3: seq<Event>)
    requires Lawful(f) && Reachable(f, first)
    requires Leads(f, NothingLeft, first, es1, again) && Leads(f, NothingLeft, again, es2, read) && Leads(f, NothingLeft, read, es3, fetched)
    ensures var r := Answer(from, max, waits, gets, first.sys, again.sys, read.sys, fetched.sys);
            r.Served? ==> RunOf(r.records, fetched.hist.log, from, max)
  {
    LeadsTwice(f, first, es1, again, es2, read);
    AnswersAreRuns(f, read, es3, fetched, gets, from, max);
    AnswerIsARead(from, max, waits, gets, first.sys, again.sys, read.sys, fetched.sys);
  }

  // ------------------------------------------------------------------------------------------
  // A fetch with no step between its messages

  /** A slice of the log; nothing when there is none. */
  function Slice(log: seq<Record>, a: int, b: int): seq<Record> {
    if 0 <= a <= b <= |log| then log[a..b] else []
  }

  /** Where the listed segment that contains `from` ends. */
  function SegmentEndOf(manifest: seq<SegmentEntry>, from: int): int {
    match SegmentForOffset(manifest, from) case Some(e) => e.lastOffset + 1 case None => from
  }

  /** The object store: a listed offset is served up to the end of its segment, every other is out of range. */
  function ExpectedStored(gets: Gets, manifest: seq<SegmentEntry>, log: seq<Record>, low: int, from: int, max: nat): FetchResult {
    if !gets.manifestFound then Failed(UnknownTopic)
    else if !gets.manifestParses then Failed(BrokerNotReady)
    else if !(low <= from < UploadedEnd(manifest)) then Failed(OffsetOutOfRange)
    else if !gets.objectReads then Failed(BrokerNotReady)
    else Served(Slice(log, from, Min(from + max, SegmentEndOf(manifest, from))), UploadedEnd(manifest) - 1)
  }

  /** The active segment: served up to its end, with the offset before the next as the mark. */
  function ExpectedActive(log: seq<Record>, from: int, max: nat): FetchResult {
    var rs := Slice(log, from, Min(from + max, |log|));
    Served(rs, from + |rs| - 1)
  }

  /** No sealed segment still in memory starts at or below `from`. */
  predicate NothingInFlight(w: Writer, from: int) {
    forall b :: b in w.inFlight ==> from < b
  }

  /**
   What a running partition answers: nothing yet at or above the next offset, the active segment from
   where it starts, the object store below it. `hides`: an error of the store is hidden behind an empty
   answer.
   */
  function Expected(gets: Gets, w: Writer, manifest: seq<SegmentEntry>, log: seq<Record>, low: int, hides: bool, from: int, max: nat)
    : FetchResult
  {
    if from >= w.nextOffset then Served([], w.nextOffset - 1)
    else if w.active != [] && from >= |log| - |w.active| then ExpectedActive(log, from, max)
    else
      var r := ExpectedStored(gets, manifest, log, low, from, max);
      if r.Served? || !hides then r else Served([], -1)
  }

  /** Some batch sealed since the last boot, at or below the offset, is queued, in hand or noticed. */
  ghost predicate AwaitsBelow(c: World, from: int)
    requires c.sys.process.Running?
  {
    exists x :: AwaitsNotice(c, x) && x.baseOffset <= from
  }

  lemma AwaitsBelowIff(f: Framing, c: World, from: int)
    requires Lawful(f) && Attainable(f, c) && c.sys.process.Running?
    ensures AwaitsBelow(c, from) <==> !NothingInFlight(c.sys.process.writer, from)
  {
    var inFlight := c.sys.process.writer.inFlight;
    if x :| AwaitsNotice(c, x) && x.baseOffset <= from {
      InFlightExact(f, c, x.baseOffset, x.records);
    }
    if b :| b in inFlight && b <= from {
      InFlightExact(f, c, b, inFlight[b]);
    }
  }

  lemma TakeSlice(log: seq<Record>, a: int, b: int, from: int, max: nat)
    requires LogOk(log) && 0 <= a <= from < b <= |log|
    ensures Take(FilterFrom(log[a..b], from), max) == log[from..Min(from + max, b)]
  {
    FilterSlice(log, a, b, from);
    TakeOfSlice(log, from, b, max);
  }

  lemma ListedFound(store: Store, log: seq<Record>, low: int, from: int) returns (e: SegmentEntry)
    requires LogOk(log) && ManifestOk(store, log, low) && low <= from < UploadedEnd(store.manifest)
    ensures SegmentForOffset(store.manifest, from) == Some(e) && e.Contains(from) && EntryOk(store.objects, log, e)
  {
    var i := FindListed(store, log, low, from, |store.manifest|);
    SegmentForOffsetIff(store.manifest, from, i);
    e := store.manifest[i];
  }

  lemma EntryServed(gets: Gets, store: Store, log: seq<Record>, low: int, e: SegmentEntry, from: int, max: nat)
    requires SegmentForOffset(store.manifest, from) == Some(e) && e.Contains(from)
    requires LogOk(log) && EntryOk(store.objects, log, e) && low <= from < UploadedEnd(store.manifest)
    ensures ServeStored(gets, store.manifest, store.objects, from, max)
         == ExpectedStored(gets, store.manifest, log, low, from, max)
    ensures 0 <= from < SegmentEndOf(store.manifest, from) <= |log|
  {
    ObjectRecords(store, log, e);
    TakeSlice(log, e.baseOffset, e.lastOffset + 1, from, max);
  }

  lemma UnlistedRefused(store: Store, log: seq<Record>, low: int, from: int)
    requires ManifestOk(store, log, low) && !(low <= from < UploadedEnd(store.manifest))
    ensures SegmentForOffset(store.manifest, from) == None
  {
    if SegmentForOffset(store.manifest, from).Some? {
      var i := FoundAt(store.manifest, from);
      ListedRange(store, log, low, i);
      FirstIsLowest(store, log, low, i);
    }
  }

  lemma FirstIsLowest(store: Store, log: seq<Record>, low: int, i: nat)
    requires ManifestOk(store, log, low) && i < |store.manifest|
    ensures low <= store.manifest[i].baseOffset
  {
    assert 0 < i ==> store.manifest[0].lastOffset < store.manifest[i].baseOffset;
    assert EntryOk(store.objects, log, store.manifest[0]);
  }

  lemma ServesStoreExactly(gets: Gets, store: Store, log: seq<Record>, low: int, from: int, max: nat)
    requires LogOk(log) && ManifestOk(store, log, low)
    ensures ServeStored(gets, store.manifest, store.objects, from, max)
         == ExpectedStored(gets, store.manifest, log, low, from, max)
    ensures low <= from < UploadedEnd(store.manifest) ==> 0 <= from < SegmentEndOf(store.manifest, from) <= |log|
  {
    if low <= from < UploadedEnd(store.manifest) {
      var e := ListedFound(store, log, low, from);
      EntryServed(gets, store, log, low, e, from, max);
    } else {
      UnlistedRefused(store, log, low, from);
    }
  }

  lemma ActiveExact(w: Writer, log: seq<Record>, tail: seq<int>, from: int, max: nat)
    requires LogOk(log) && ActiveOk(w.active, w.segmentBase, log, tail) && |log| - |w.active| <= from
    ensures ServeActive(w, from, max) == ExpectedActive(log, from, max)
  {
    var a := |log| - |w.active|;
    assert log[a..|log|] == w.active;
    if from < |log| {
      TakeSlice(log, a, |log|, from, max);
    } else {
      FilterSlice(log, a, |log|, from);
    }
  }

  lemma ActiveStarts(active: seq<Record>, base: int, log: seq<Record>, tail: seq<int>)
    requires ActiveOk(active, base, log, tail) && LogOk(log) && active != []
    ensures active[0].offset == |log| - |active|
  {
  }

  /** From the next offset on, and within the active segment, the object store is not asked. */
  lemma AnswerAbove(s: System, gets: Gets, from: int, max: nat, waits: bool)
    requires Answers(s) && 0 <= from
    ensures var w := s.process.writer;
            && (from >= w.nextOffset ==> Answer(from, max, waits, gets, s, s, s, s) == Served([], w.nextOffset - 1))
            && (from < w.nextOffset && w.active != [] && from >= w.active[0].offset ==>
                  Answer(from, max, waits, gets, s, s, s, s) == ServeActive(w, from, max))
  {
  }

  /** Below the active segment a fetch answers what the object store does, its errors hidden when a segment is in flight. */
  lemma AnswerBelow(s: System, gets: Gets, from: int, max: nat, waits: bool)
    requires Answers(s) && 0 <= from < s.process.writer.nextOffset
    requires var w := s.process.writer; w.active == [] || from < w.active[0].offset
    ensures var r := ServeStored(gets, s.store.manifest, s.store.objects, from, max);
            Answer(from, max, waits, gets, s, s, s, s)
            == if r.Served? || NothingInFlight(s.process.writer, from) then r else Served([], -1)
  {
  }

  lemma AnswerExpected(s: System, gets: Gets, log: seq<Record>, low: int, tail: seq<int>, from: int, max: nat, waits: bool)
    requires Answers(s) && from >= 0 && LogOk(log) && ManifestOk(s.store, log, low)
    requires var w := s.process.writer; ActiveOk(w.active, w.segmentBase, log, tail)
    ensures Answer(from, max, waits, gets, s, s, s, s)
         == Expected(gets, s.process.writer, s.store.manifest, log, low, !NothingInFlight(s.process.writer, from), from, max)
  {
    var w := s.process.writer;
    if w.active != [] { ActiveStarts(w.active, w.segmentBase, log, tail); }
    if from >= w.nextOffset {
      AnswerAbove(s, gets, from, max, waits);
    } else if w.active != [] && from >= |log| - |w.active| {
      AnswerAbove(s, gets, from, max, waits);
      ActiveExact(w, log, tail, from, max);
    } else {
      AnswerBelow(s, gets, from, max, waits);
      ServesStoreExactly(gets, s.store, log, low, from, max);
    }
  }

  /**
   With no step between its messages, a fetch of a partition whose writer is alive answers exactly what slicing the
   log gives: from `from` to the end of the segment that serves it, cut to `max`, whenever `from` is
   listed or in the active segment, and no records otherwise. The offsets in between are fsynced but
   cannot be read until their segment is listed; the answer is then empty, as any error of the store is
   while a batch sealed at or below the offset is queued, in the uploader's hand, or waits for its
   durable notice to be handled. (`PartitionGaps.LeftoverHidesRecord` is a run in which
   a crash found a left-over file and a listed record cannot be fetched.)
   */
  lemma FetchRefinesSlicing(f: Framing, c: World, gets: Gets, from: int, max: nat, waits: bool)
    requires Lawful(f) && Reachable(f, c) && Answers(c.sys) && from >= 0
    ensures var s, log := c.sys, c.hist.log;
            && Answer(from, max, waits, gets, s, s, s, s)
               == Expected(gets, s.process.writer, s.store.manifest, log, c.hist.low, AwaitsBelow(c, from), from, max)
            && (c.hist.low <= from < UploadedEnd(s.store.manifest) ==> 0 <= from < SegmentEndOf(s.store.manifest, from) <= |log|)
            && UploadedEnd(s.store.manifest) <= |log| - |s.process.writer.active|
            && s.process.writer.nextOffset == |log| + |s.process.writer.pending|
  {
    ReachableInv(f, c);
    InvLog(f, c.sys, c.hist);
    ReachedIsAttainable(f, NothingLeft, c);
    AwaitsBelowIff(f, c, from);
    AnswerExpected(c.sys, gets, c.hist.log, c.hist.low, c.hist.tail, from, max, waits);
    ServesStoreExactly(gets, c.sys.store, c.hist.log, c.hist.low, from, max);
    ActiveAboveListed(c.sys.process.writer.active, c.sys.process.writer.segmentBase, c.hist.log, c.hist.tail,
                      UploadedEnd(c.sys.store.manifest));
  }

  /** The active segment lies above everything listed. */
  lemma ActiveAboveListed(active: seq<Record>, base: int, log: seq<Record>, tail: seq<int>, uploaded: int)
    requires ActiveOk(active, base, log, tail) && TailOk(tail, uploaded, |log|)
    ensures uploaded <= |log| - |active|
  {
  }

  /**
   A fetch at the end that waits answers, once it has asked again, as a fetch made then would, with one
   difference: an error of the store is reported where that fetch would hide it behind an empty answer.
   A fetch that does not wait answers with the mark.
   */
  lemma LongPollAsksAgain(from: int, max: nat, gets: Gets, first: System, again: System, read: System, fetched: System)
    requires from >= 0 && Answers(first) && from > first.process.writer.nextOffset - 1
    ensures Answer(from, max, false, gets, first, again, read, fetched) == Served([], first.process.writer.nextOffset - 1)
    ensures var late := Answer(from, max, true, gets, first, again, read, fetched);
            var anew := Answer(from, max, false, gets, again, again, read, fetched);
            if Answers(again) && Locate(again.process.writer, from).InFlight? && anew == Served([], -1)
            then late == ServeStored(gets, read.store.manifest, fetched.store.objects, from, max)
            else late == anew
  {
  }

  // ------------------------------------------------------------------------------------------
  // From the client and back

  /** The ack answers the produce that this offset was given to. */
  predicate AckCovers(a: Ack, offset: int) { a.ticket.base <= offset < a.ticket.base + a.ticket.count }

  /** A record of the log at an acknowledged offset is the client's. */
  lemma AckedInLogIsClients(c: World, a: Ack, o: int)
    requires LogOk(c.hist.log) && AckOk(a, c.hist.log, c.hist.sent) && RequestsOk(c.hist.sent, c.trace.requests)
    requires AckCovers(a, o)
    ensures 0 <= o < |c.hist.log| && IsClients(c, c.hist.log[o], a.ticket.id, o - a.ticket.base)
  {
    var t := a.ticket;
    assert c.hist.sent[t.id][o - t.base] == c.hist.log[o];
  }

  lemma RunAt(records: seq<Record>, log: seq<Record>, from: int, max: nat, j: nat)
    requires LogOk(log) && RunOf(records, log, from, max) && j < |records|
    ensures var o := records[j].offset;
            0 <= o < |log| && records[j] == log[o] && o == records[0].offset + j
  {
    assert records[j] == log[records[0].offset + j];
  }

  /**
   Whatever comes between its messages, every record that a successful fetch returns and whose offset
   was acknowledged to a client is what that client packed: its key, value, schema and timestamp, or the
   broker's clock when it gave no timestamp.
   */
  lemma FetchedIsTheClients(f: Framing, from: int, max: nat, waits: bool, gets: Gets, first: World, again: World,
                            read: World, fetched: World, es1: seq<Event>, es2: seq<Event>, es3: seq<Event>, i: nat, j: nat)
    requires Lawful(f) && Reachable(f, first)
    requires Leads(f, NothingLeft, first, es1, again) && Leads(f, NothingLeft, again, es2, read) && Leads(f, NothingLeft, read, es3, fetched)
    requires var r := Answer(from, max, waits, gets, first.sys, again.sys, read.sys, fetched.sys);
             r.Served? && j < |r.records| && i < |fetched.hist.acks| && AckCovers(fetched.hist.acks[i], r.records[j].offset)
    ensures var r := Answer(from, max, waits, gets, first.sys, again.sys, read.sys, fetched.sys);
            var t := fetched.hist.acks[i].ticket;
            IsClients(fetched, r.records[j], t.id, r.records[j].offset - t.base)
  {
    var r := Answer(from, max, waits, gets, first.sys, again.sys, read.sys, fetched.sys);
    FetchReturnsRunOfLog(f, from, max, waits, gets, first, again, read, fetched, es1, es2, es3);
    LaterFacts(f, first, again, read, fetched, es1, es2, es3);
    RunAt(r.records, fetched.hist.log, from, max, j);
    AckedInLogIsClients(fetched, fetched.hist.acks[i], r.records[j].offset);
  }

  lemma LaterFacts(f: Framing, first: World, again: World, read: World, fetched: World,
                   es1: seq<Event>, es2: seq<Event>, es3: seq<Event>)
    requires Lawful(f) && Reachable(f, first)
    requires Leads(f, NothingLeft, first, es1, again) && Leads(f, NothingLeft, again, es2, read) && Leads(f, NothingLeft, read, es3, fetched)
    ensures LogOk(fetched.hist.log) && AcksOk(fetched.hist.acks, fetched.hist.log, fetched.hist.sent)
    ensures RequestsOk(fetched.hist.sent, fetched.trace.requests)
  {
    LeadsTwice(f, first, es1, again, es2, read);
    RunKeeps(f, read, es3);
    ReachedRequests(f, NothingLeft, first);
    RunKeepsRequests(f, NothingLeft, first, es1, again);
    RunKeepsRequests(f, NothingLeft, again, es2, read);
    RunKeepsRequests(f, NothingLeft, read, es3, fetched);
  }

  /** The offset can be read: it is listed and not evicted, or in the active segment. */
  predicate Readable(c: World, o: int)
    requires c.sys.process.Running?
  {
    var w := c.sys.process.writer;
    || c.hist.low <= o < UploadedEnd(c.sys.store.manifest)
    || (w.active != [] && |c.hist.log| - |w.active| <= o < |c.hist.log|)
  }

  lemma SliceServed(log: seq<Record>, from: int, end: int, max: nat)
    requires LogOk(log) && 0 <= from < end <= |log| && max > 0
    ensures var rs := Slice(log, from, Min(from + max, end));
            rs != [] && RunOf(rs, log, from, max) && rs[0].offset == from
  {
    SliceStarts(log, from, Min(from + max, end));
  }

  /** What is expected at a readable offset: a run of the log from there. */
  lemma ExpectedServed(w: Writer, m: seq<SegmentEntry>, log: seq<Record>, low: int, hides: bool, from: int, max: nat)
    requires LogOk(log) && 0 <= from < w.nextOffset && max > 0 && UploadedEnd(m) <= |log| - |w.active|
    requires if low <= from < UploadedEnd(m) then from < SegmentEndOf(m, from) <= |log|
             else w.active != [] && |log| - |w.active| <= from < |log|
    ensures var r := Expected(Gets(true, true, true), w, m, log, low, hides, from, max);
            r.Served? && r.records != [] && RunOf(r.records, log, from, max) && r.records[0].offset == from
  {
    SliceServed(log, from, if low <= from < UploadedEnd(m) then SegmentEndOf(m, from) else |log|, max);
  }

  lemma ReadableServed(f: Framing, c: World, from: int, max: nat, waits: bool)
    requires Lawful(f) && Reachable(f, c) && Answers(c.sys) && from >= 0 && max > 0 && Readable(c, from)
    ensures var s := c.sys;
            var r := Answer(from, max, waits, Gets(true, true, true), s, s, s, s);
            && r.Served? && r.records != [] && RunOf(r.records, c.hist.log, from, max) && r.records[0].offset == from
  {
    ReachableInv(f, c);
    InvLog(f, c.sys, c.hist);
    FetchRefinesSlicing(f, c, Gets(true, true, true), from, max, waits);
    ExpectedServed(c.sys.process.writer, c.sys.store.manifest, c.hist.log, c.hist.low, AwaitsBelow(c, from), from, max);
  }

  /** The records of a run of the log that an ack covers are its client's. */
  lemma RunIsClients(c: World, a: Ack, records: seq<Record>, k: nat, max: nat)
    requires LogOk(c.hist.log) && AckOk(a, c.hist.log, c.hist.sent) && RequestsOk(c.hist.sent, c.trace.requests)
    requires records != [] && records[0].offset == a.ticket.base + k && RunOf(records, c.hist.log, a.ticket.base + k, max)
    ensures forall j :: 0 <= j < |records| && k + j < a.ticket.count ==>
              records[j].offset == a.ticket.base + k + j && IsClients(c, records[j], a.ticket.id, k + j)
  {
    forall j | 0 <= j < |records| && k + j < a.ticket.count
      ensures records[j].offset == a.ticket.base + k + j && IsClients(c, records[j], a.ticket.id, k + j)
    {
      RunAt(records, c.hist.log, a.ticket.base + k, max, j);
      AckedInLogIsClients(c, a, a.ticket.base + k + j);
    }
  }

  /**
   From record `k` of an acknowledged produce on, the records are what its client packed. Records that
   start with the produce's first one and reach its last start with exactly the payload it sent.
   */
  ghost predicate GivesBack(c: World, t: Ticket, k: nat, records: seq<Record>) {
    && (forall j :: 0 <= j < |records| && k + j < t.count ==>
          records[j].offset == t.base + k + j && IsClients(c, records[j], t.id, k + j))
    && (k == 0 && |records| >= t.count ==>
          t.id < |c.trace.requests| && Payload(records[..t.count]) == Pack(c.trace.requests[t.id].incoming))
  }

  lemma RunGivesBack(c: World, a: Ack, records: seq<Record>, k: nat, max: nat)
    requires LogOk(c.hist.log) && AckOk(a, c.hist.log, c.hist.sent) && RequestsOk(c.hist.sent, c.trace.requests)
    requires records != [] && records[0].offset == a.ticket.base + k && RunOf(records, c.hist.log, a.ticket.base + k, max)
    ensures GivesBack(c, a.ticket, k, records)
  {
    RunIsClients(c, a, records, k, max);
    if k == 0 && |records| >= a.ticket.count { WholeProduce(c, a, records); }
  }

  /**
   A client packs records, is acknowledged, and later fetches at the offset of its `k`-th record, which
   is listed or in the active segment: it gets back what it packed.
   */
  lemma AckedProduceIsFetched(f: Framing, c: World, i: nat, k: nat, max: nat, waits: bool)
    requires Lawful(f) && Reachable(f, c) && Answers(c.sys) && max > 0
    requires i < |c.hist.acks| && k < c.hist.acks[i].ticket.count
    requires Readable(c, c.hist.acks[i].ticket.base + k)
    ensures var s, t := c.sys, c.hist.acks[i].ticket;
            var r := Answer(t.base + k, max, waits, Gets(true, true, true), s, s, s, s);
            r.Served? && r.records != [] && GivesBack(c, t, k, r.records)
  {
    var from := c.hist.acks[i].ticket.base + k;
    AckedFrom(f, c, i);
    ReadableServed(f, c, from, max, waits);
    AckedRunGivesBack(f, c, i, k, max, Answer(from, max, waits, Gets(true, true, true), c.sys, c.sys, c.sys, c.sys).records);
  }

  lemma AckedFrom(f: Framing, c: World, i: nat)
    requires Lawful(f) && Reachable(f, c) && i < |c.hist.acks|
    ensures c.hist.acks[i].ticket.base >= 0
  {
    ReachedFacts(f, c, i);
  }

  lemma AckedRunGivesBack(f: Framing, c: World, i: nat, k: nat, max: nat, records: seq<Record>)
    requires Lawful(f) && Reachable(f, c) && i < |c.hist.acks|
    requires var from := c.hist.acks[i].ticket.base + k;
             records != [] && records[0].offset == from && RunOf(records, c.hist.log, from, max)
    ensures GivesBack(c, c.hist.acks[i].ticket, k, records)
  {
    ReachedFacts(f, c, i);
    RunGivesBack(c, c.hist.acks[i], records, k, max);
  }

  lemma ReachedFacts(f: Framing, c: World, i: nat)
    requires Lawful(f) && Reachable(f, c) && i < |c.hist.acks|
    ensures LogOk(c.hist.log) && AckOk(c.hist.acks[i], c.hist.log, c.hist.sent) && RequestsOk(c.hist.sent, c.trace.requests)
  {
    ReachableInv(f, c);
    InvLog(f, c.sys, c.hist);
    ReachedRequests(f, NothingLeft, c);
  }

  lemma WholeProduce(c: World, a: Ack, records: seq<Record>)
    requires AckOk(a, c.hist.log, c.hist.sent) && RequestsOk(c.hist.sent, c.trace.requests) && |records| >= a.ticket.count
    requires forall j :: 0 <= j < a.ticket.count ==> IsClients(c, records[j], a.ticket.id, j)
    ensures a.ticket.id < |c.trace.requests| && Payload(records[..a.ticket.count]) == Pack(c.trace.requests[a.ticket.id].incoming)
  {
    var q := c.trace.requests[a.ticket.id];
    assert Carries(c.hist.sent[a.ticket.id], q.incoming, q.clocks);
    CarriedPayload(records[..a.ticket.count], q.incoming, q.clocks);
  }
}
