/** The object store of one partition and what the uploader does to it (kafkrs-server/src/uploader.rs). */
module Uploads {
  import opened Manifest
  import opened ObjectKeys
  import opened Recovery
  import opened Retention
  import opened Segment
  import opened WalFrame
  import opened Writer

  /** Segment objects by base offset, and the segment list of `manifest.json`. */
  datatype Store = Store(objects: map<int, Columns>, manifest: seq<SegmentEntry>)

  function EntryFor(batch: SealedBatch, byteSize: nat): SegmentEntry {
    SegmentEntry(batch.baseOffset, batch.lastOffset, batch.baseTimestampNs, batch.lastTimestampNs,
                 |batch.records|, byteSize, SegmentLeaf(batch.baseOffset))
  }

  /** Stable insertion by base offset; `sort_by_key` is a stable sort. */
  function InsertByBase(sorted: seq<SegmentEntry>, e: SegmentEntry): seq<SegmentEntry> {
    if sorted == [] then [e]
    else if e.baseOffset < sorted[0].baseOffset then [e] + sorted
    else [sorted[0]] + InsertByBase(sorted[1..], e)
  }

  function SortByBase(segments: seq<SegmentEntry>): seq<SegmentEntry> {
    if segments == [] then []
    else InsertByBase(SortByBase(segments[..|segments| - 1]), segments[|segments| - 1])
  }

  /** The manifest that `upload_once` puts back: nothing changes when the base is already listed. */
  function WithEntry(segments: seq<SegmentEntry>, batch: SealedBatch, byteSize: nat): seq<SegmentEntry> {
    if Listed(segments, batch.baseOffset) then segments
    else SortByBase(segments + [EntryFor(batch, byteSize)])
  }

  function PutSegment(store: Store, batch: SealedBatch): Store {
    store.(objects := store.objects[batch.baseOffset := ToColumns(batch.records)])
  }

  function PutEntry(store: Store, batch: SealedBatch, byteSize: nat): Store {
    store.(manifest := WithEntry(store.manifest, batch, byteSize))
  }

  /** The manifest that a retention pass writes, before it deletes any object, when it evicts the first `k` entries. */
  function Rewrite(store: Store, k: nat): Store
    requires k <= |store.manifest|
  {
    store.(manifest := RetainByKey(store.manifest, store.manifest[..k]))
  }

  /** What a reader gets from the object under a base offset. */
  function Rows(objects: map<int, Columns>, base: int): seq<Record> {
    if base in objects then FromColumns(objects[base]) else []
  }

  /** What a reader of listed objects gets, entry after entry. */
  function PartsOf(objects: map<int, Columns>, segments: seq<SegmentEntry>): (parts: seq<seq<Record>>)
    ensures |parts| == |segments|
    ensures forall i :: 0 <= i < |parts| ==> parts[i] == Rows(objects, segments[i].baseOffset)
  {
    seq(|segments|, i requires 0 <= i < |segments| => Rows(objects, segments[i].baseOffset))
  }

  function Concat(parts: seq<seq<Record>>): seq<Record> {
    if parts == [] then [] else parts[0] + Concat(parts[1..])
  }

  lemma {:induction false} ConcatHas(parts: seq<seq<Record>>, i: nat, r: Record)
    requires i < |parts| && r in parts[i]
    ensures r in Concat(parts)
  {
    if i > 0 {
      ConcatHas(parts[1..], i - 1, r);
    }
  }

  function BasesOf(segments: seq<SegmentEntry>): (bs: seq<int>)
    ensures |bs| == |segments|
    ensures forall i :: 0 <= i < |bs| ==> bs[i] == segments[i].baseOffset
  {
    seq(|segments|, i requires 0 <= i < |segments| => segments[i].baseOffset)
  }

  lemma {:induction false} InsertLast(sorted: seq<SegmentEntry>, e: SegmentEntry)
    requires forall i :: 0 <= i < |sorted| ==> sorted[i].baseOffset <= e.baseOffset
    ensures InsertByBase(sorted, e) == sorted + [e]
  {
    if sorted != [] {
      InsertLast(sorted[1..], e);
      assert sorted == [sorted[0]] + sorted[1..];
    }
  }

  lemma {:induction false} SortSorted(segments: seq<SegmentEntry>)
    requires forall i, j :: 0 <= i < j < |segments| ==> segments[i].baseOffset <= segments[j].baseOffset
    ensures SortByBase(segments) == segments
  {
    if segments != [] {
      var init := segments[..|segments| - 1];
      SortSorted(init);
      InsertLast(init, segments[|segments| - 1]);
    }
  }

  /** A segment above everything listed is appended. */
  lemma WithNewEntry(segments: seq<SegmentEntry>, batch: SealedBatch, byteSize: nat)
    requires Ordered(segments) && batch.baseOffset >= UploadedEnd(segments)
    ensures WithEntry(segments, batch, byteSize) == segments + [EntryFor(batch, byteSize)]
  {
    var all := segments + [EntryFor(batch, byteSize)];
    forall i | 0 <= i < |segments| ensures segments[i].baseOffset < batch.baseOffset {
      if i < |segments| - 1 {
        assert segments[i].lastOffset < segments[|segments| - 1].baseOffset;
      }
    }
    SortSorted(all);
  }

  lemma {:induction false} InsertLists(sorted: seq<SegmentEntry>, e: SegmentEntry)
    ensures multiset(InsertByBase(sorted, e)) == multiset(sorted) + multiset{e}
  {
    if sorted != [] && e.baseOffset >= sorted[0].baseOffset {
      InsertLists(sorted[1..], e);
      HeadFirst(sorted);
      assert InsertByBase(sorted, e) == [sorted[0]] + InsertByBase(sorted[1..], e);
    }
  }

  lemma HeadFirst(segments: seq<SegmentEntry>)
    requires segments != []
    ensures multiset(segments) == multiset{segments[0]} + multiset(segments[1..])
  {
    assert segments == [segments[0]] + segments[1..];
  }

  predicate SortedByBase(segments: seq<SegmentEntry>) {
    forall i, j :: 0 <= i < j < |segments| ==> segments[i].baseOffset <= segments[j].baseOffset
  }

  lemma {:induction false} InsertSorts(sorted: seq<SegmentEntry>, e: SegmentEntry)
    requires SortedByBase(sorted)
    ensures SortedByBase(InsertByBase(sorted, e))
  {
    if sorted != [] && e.baseOffset >= sorted[0].baseOffset {
      InsertSorts(sorted[1..], e);
      InsertLists(sorted[1..], e);
      var rest := InsertByBase(sorted[1..], e);
      forall i | 0 <= i < |rest| ensures sorted[0].baseOffset <= rest[i].baseOffset {
        assert rest[i] in multiset(rest);
        assert rest[i] in sorted[1..] || rest[i] == e;
      }
    }
  }

  /** The sort of the manifest puts the same entries in order of their base offsets. */
  lemma {:induction false} SortByBaseSorts(segments: seq<SegmentEntry>)
    ensures SortedByBase(SortByBase(segments)) && multiset(SortByBase(segments)) == multiset(segments)
  {
    if segments != [] {
      var init, last := segments[..|segments| - 1], segments[|segments| - 1];
      SortByBaseSorts(init);
      InsertSorts(SortByBase(init), last);
      InsertLists(SortByBase(init), last);
      assert segments == init + [last];
    }
  }

  lemma SortedListed(segments: seq<SegmentEntry>, batch: SealedBatch, byteSize: nat)
    ensures Listed(WithEntry(segments, batch, byteSize), batch.baseOffset)
  {
    if !Listed(segments, batch.baseOffset) {
      var all := segments + [EntryFor(batch, byteSize)];
      SortByBaseSorts(all);
      assert all[|segments|] in multiset(all);
      assert EntryFor(batch, byteSize) in multiset(SortByBase(all));
      assert EntryFor(batch, byteSize) in SortByBase(all);
    }
  }
}
