/** The segment list of a partition and its lookups (kafkrs-models/src/manifest.rs). */
module Manifest {
  import opened Options

  datatype SegmentEntry = SegmentEntry(
    baseOffset: int,
    lastOffset: int,
    baseTimestampNs: int,
    lastTimestampNs: int,
    recordCount: nat,
    byteSize: nat,
    objectKey: string)
  {
    predicate Contains(offset: int) { baseOffset <= offset <= lastOffset }
  }

  /** Entries in offset order with disjoint ranges. */
  ghost predicate Ordered(segments: seq<SegmentEntry>) {
    && (forall i :: 0 <= i < |segments| ==> segments[i].baseOffset <= segments[i].lastOffset)
    && (forall i, j :: 0 <= i < j < |segments| ==> segments[i].lastOffset < segments[j].baseOffset)
  }

  /** Distinct base offsets in increasing order, whatever the ranges. */
  ghost predicate Ascending(segments: seq<SegmentEntry>) {
    forall i, j :: 0 <= i < j < |segments| ==> segments[i].baseOffset < segments[j].baseOffset
  }

  /** `partition_point` of `last_offset < offset` between `lo` and `hi`, by halving. */
  function PartitionPoint(segments: seq<SegmentEntry>, offset: int, lo: nat, hi: nat): (p: nat)
    requires lo <= hi <= |segments|
    ensures lo <= p <= hi
    decreases hi - lo
  {
    if lo == hi then lo
    else
      var mid := (lo + hi) / 2;
      if segments[mid].lastOffset < offset then PartitionPoint(segments, offset, mid + 1, hi)
      else PartitionPoint(segments, offset, lo, mid)
  }

  function SegmentForOffset(segments: seq<SegmentEntry>, offset: int): Option<SegmentEntry> {
    var p := PartitionPoint(segments, offset, 0, |segments|);
    if p < |segments| && segments[p].Contains(offset) then Some(segments[p]) else None
  }

  lemma OrderedAscends(segments: seq<SegmentEntry>)
    requires Ordered(segments)
    ensures Ascending(segments)
  {
    forall i, j | 0 <= i < j < |segments| ensures segments[i].baseOffset < segments[j].baseOffset {
      assert segments[i].lastOffset < segments[j].baseOffset;
    }
  }

  /** One past the last uploaded offset, or 0 when nothing was uploaded: where recovery starts counting. */
  function UploadedEnd(segments: seq<SegmentEntry>): int {
    if segments == [] then 0 else segments[|segments| - 1].lastOffset + 1
  }

  lemma BelowUploadedEnd(segments: seq<SegmentEntry>, i: nat)
    requires Ordered(segments) && i < |segments|
    ensures segments[i].lastOffset < UploadedEnd(segments)
  {
    assert i < |segments| - 1 ==> segments[i].lastOffset < segments[|segments| - 1].baseOffset;
  }

  /** The linear scan that the search must agree with. */
  function FindLinear(segments: seq<SegmentEntry>, offset: int): Option<SegmentEntry> {
    if segments == [] then None
    else if segments[0].Contains(offset) then Some(segments[0])
    else FindLinear(segments[1..], offset)
  }

  lemma {:induction false} PartitionPointSplits(segments: seq<SegmentEntry>, offset: int, lo: nat, hi: nat)
    requires Ordered(segments) && lo <= hi <= |segments|
    requires forall i :: 0 <= i < lo ==> segments[i].lastOffset < offset
    requires forall i :: hi <= i < |segments| ==> segments[i].lastOffset >= offset
    ensures var p := PartitionPoint(segments, offset, lo, hi);
            forall i :: 0 <= i < |segments| ==> (segments[i].lastOffset < offset <==> i < p)
    decreases hi - lo
  {
    if lo < hi {
      var mid := (lo + hi) / 2;
      if segments[mid].lastOffset < offset {
        PartitionPointSplits(segments, offset, mid + 1, hi);
      } else {
        PartitionPointSplits(segments, offset, lo, mid);
      }
    }
  }

  /** The search finds a listed segment that contains the offset, and finds one whenever there is one. */
  lemma SegmentForOffsetIff(segments: seq<SegmentEntry>, offset: int, i: nat)
    requires Ordered(segments) && i < |segments|
    ensures SegmentForOffset(segments, offset) == Some(segments[i]) <==> segments[i].Contains(offset)
  {
    PartitionPointSplits(segments, offset, 0, |segments|);
    var p := PartitionPoint(segments, offset, 0, |segments|);
    if i < p {
      assert segments[i].lastOffset < offset;
    } else if p < i {
      assert segments[p].lastOffset < segments[i].baseOffset;
    }
  }

  lemma {:induction false} FindLinearIff(segments: seq<SegmentEntry>, offset: int)
    ensures FindLinear(segments, offset).None?
       <==> forall i :: 0 <= i < |segments| ==> !segments[i].Contains(offset)
    ensures FindLinear(segments, offset).Some? ==>
              exists i :: 0 <= i < |segments| && segments[i].Contains(offset)
                          && FindLinear(segments, offset) == Some(segments[i])
  {
    if segments != [] && !segments[0].Contains(offset) {
      FindLinearIff(segments[1..], offset);
      if i :| 0 <= i < |segments[1..]| && segments[1..][i].Contains(offset)
              && FindLinear(segments[1..], offset) == Some(segments[1..][i]) {
        assert segments[i + 1].Contains(offset);
      } else {
        forall i | 0 <= i < |segments| ensures !segments[i].Contains(offset) {
          if i > 0 { assert segments[i] == segments[1..][i - 1]; }
        }
      }
    }
  }

  /** Binary search and linear scan agree on every ordered manifest and every offset. */
  lemma BinaryAgreesWithLinear(segments: seq<SegmentEntry>, offset: int)
    requires Ordered(segments)
    ensures SegmentForOffset(segments, offset) == FindLinear(segments, offset)
  {
    FindLinearIff(segments, offset);
    if i :| 0 <= i < |segments| && segments[i].Contains(offset)
            && FindLinear(segments, offset) == Some(segments[i]) {
      SegmentForOffsetIff(segments, offset, i);
    }
  }

  /** The halving loop of `partition_point`. */
  method SearchPartitionPoint(segments: seq<SegmentEntry>, offset: int) returns (p: nat)
    ensures p == PartitionPoint(segments, offset, 0, |segments|)
    ensures Ordered(segments) ==> forall i :: 0 <= i < |segments| ==> (segments[i].lastOffset < offset <==> i < p)
  {
    p := 0;
    var hi := |segments|;
    while p < hi
      invariant p <= hi <= |segments|
      invariant PartitionPoint(segments, offset, p, hi) == PartitionPoint(segments, offset, 0, |segments|)
    {
      var mid := (p + hi) / 2;
      if segments[mid].lastOffset < offset { p := mid + 1; } else { hi := mid; }
    }
    if Ordered(segments) {
      PartitionPointSplits(segments, offset, 0, |segments|);
    }
  }
}
