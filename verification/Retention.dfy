/** Eviction policy (kafkrs-server/src/retention.rs) and the manifest rewrite of `retention_pass`. */
module Retention {
  import opened Bytes
  import opened Options
  import opened Manifest
  import opened ObjectKeys

  /** The two limits of a topic; a negative limit means unlimited. */
  datatype Limits = Limits(retentionMs: int, retentionBytes: int)

  /** `i64::saturating_mul` by a million, for a non-negative number of milliseconds. */
  function NanosSaturating(ms: nat): nat {
    if ms * 1_000_000 >= TWO_63 then TWO_63 - 1 else ms * 1_000_000
  }

  function SumBytes(segments: seq<SegmentEntry>): nat {
    if segments == [] then 0 else segments[0].byteSize + SumBytes(segments[1..])
  }

  predicate Expired(seg: SegmentEntry, limits: Limits, now: int) {
    limits.retentionMs >= 0 && seg.lastTimestampNs < now - NanosSaturating(limits.retentionMs)
  }

  /** The listed bytes from index `i` on exceed the cap. */
  predicate OverCap(segments: seq<SegmentEntry>, limits: Limits, i: nat)
    requires i <= |segments|
  {
    limits.retentionBytes >= 0 && SumBytes(segments[i..]) > limits.retentionBytes
  }

  predicate Stops(segments: seq<SegmentEntry>, limits: Limits, now: int, i: nat)
    requires i < |segments|
  {
    i == |segments| - 1 || (!Expired(segments[i], limits, now) && !OverCap(segments, limits, i))
  }

  /** The least index at or after `i` where the policy stops. */
  function FirstStop(segments: seq<SegmentEntry>, limits: Limits, now: int, i: nat): (k: nat)
    requires i < |segments|
    ensures i <= k < |segments| && Stops(segments, limits, now, k)
    ensures forall j :: i <= j < k ==> !Stops(segments, limits, now, j)
    decreases |segments| - i
  {
    if Stops(segments, limits, now, i) then i else FirstStop(segments, limits, now, i + 1)
  }

  /** How many of the oldest segments the policy evicts. */
  function EvictCount(segments: seq<SegmentEntry>, limits: Limits, now: int): (k: nat)
    ensures k <= |segments|
    ensures segments != [] ==> k < |segments|
  {
    if segments == [] then 0 else FirstStop(segments, limits, now, 0)
  }

  // ------------------------------------------------------------------------------------------
  // Laws of the policy

  /** The count is the least stopping index: no other index stops with none before it stopping. */
  lemma LeastStop(segments: seq<SegmentEntry>, limits: Limits, now: int, k: nat)
    requires k < |segments| && Stops(segments, limits, now, k)
    requires forall j :: 0 <= j < k ==> !Stops(segments, limits, now, j)
    ensures EvictCount(segments, limits, now) == k
  {
    var e := EvictCount(segments, limits, now);
    assert Stops(segments, limits, now, e);
  }

  lemma {:induction false} SumBytesSplit(a: seq<SegmentEntry>, b: seq<SegmentEntry>)
    ensures SumBytes(a + b) == SumBytes(a) + SumBytes(b)
  {
    if a == [] {
      assert a + b == b;
    } else {
      SumBytesSplit(a[1..], b);
      assert (a + b)[1..] == a[1..] + b;
    }
  }

  /** After the pass the listed bytes fit the cap, or only the tail segment is left. */
  lemma FitsOrOnlyTail(segments: seq<SegmentEntry>, limits: Limits, now: int)
    requires segments != []
    ensures var rest := segments[EvictCount(segments, limits, now)..];
            |rest| == 1 || limits.retentionBytes < 0 || SumBytes(rest) <= limits.retentionBytes
  {
    var k := EvictCount(segments, limits, now);
    assert Stops(segments, limits, now, k);
  }

  /** A second pass at the same time finds nothing to evict. */
  lemma SecondPassEvictsNothing(segments: seq<SegmentEntry>, limits: Limits, now: int)
    ensures EvictCount(segments[EvictCount(segments, limits, now)..], limits, now) == 0
  {
    if segments != [] {
      var k := EvictCount(segments, limits, now);
      var rest := segments[k..];
      assert Stops(segments, limits, now, k);
      assert rest[0..] == rest;
      assert Stops(rest, limits, now, 0);
    }
  }

  /** `a` is at least as permissive a limit as `b`. */
  predicate AtLeast(a: int, b: int) { a < 0 || (b >= 0 && a >= b) }

  /** More time or tighter limits evict at least as much. */
  lemma EvictCountMonotone(segments: seq<SegmentEntry>, loose: Limits, tight: Limits, early: int, late: int)
    requires AtLeast(loose.retentionMs, tight.retentionMs) && AtLeast(loose.retentionBytes, tight.retentionBytes)
    requires early <= late
    ensures EvictCount(segments, loose, early) <= EvictCount(segments, tight, late)
  {
    if segments != [] {
      var k := EvictCount(segments, tight, late);
      assert Stops(segments, tight, late, k);
      assert Stops(segments, loose, early, k);
    }
  }

  // ------------------------------------------------------------------------------------------
  // Which segments go, in the limits' own units

  /** The bytes of a list of segments: nothing for none, a segment's own size, and additive. */
  lemma SumBytesLaws(a: seq<SegmentEntry>, e: SegmentEntry)
    ensures SumBytes([]) == 0 && SumBytes(a + [e]) == SumBytes(a) + e.byteSize
  {
    SumBytesSplit(a, [e]);
  }

  /** Nanoseconds after which a segment is too old. */
  function MaxAge(retentionMs: nat): int {
    if retentionMs * 1_000_000 <= 9_223_372_036_854_775_807 then retentionMs * 1_000_000 else 9_223_372_036_854_775_807
  }

  /** More than the retention time has passed since the segment's last record. */
  predicate TooOld(e: SegmentEntry, limits: Limits, now: int) {
    limits.retentionMs >= 0 && now - e.lastTimestampNs > MaxAge(limits.retentionMs)
  }

  /** From this segment on, there is more than the byte cap. */
  predicate TooMuch(segments: seq<SegmentEntry>, limits: Limits, i: nat)
    requires i <= |segments|
  {
    limits.retentionBytes >= 0 && SumBytes(segments[i..]) > limits.retentionBytes
  }

  lemma StopsIff(segments: seq<SegmentEntry>, limits: Limits, now: int, i: nat)
    requires i < |segments|
    ensures Stops(segments, limits, now, i)
       <==> i == |segments| - 1 || !(TooOld(segments[i], limits, now) || TooMuch(segments, limits, i))
  {
  }

  /** What goes is the longest prefix without the tail in which every segment is too old or one too much. */
  lemma LongestPrefix(segments: seq<SegmentEntry>, limits: Limits, now: int, n: nat)
    requires segments != []
    ensures n <= EvictCount(segments, limits, now)
       <==> n < |segments| && forall i :: 0 <= i < n ==> TooOld(segments[i], limits, now) || TooMuch(segments, limits, i)
  {
    var k := EvictCount(segments, limits, now);
    StopsIff(segments, limits, now, k);
    forall i | 0 <= i < k ensures TooOld(segments[i], limits, now) || TooMuch(segments, limits, i) {
      assert !Stops(segments, limits, now, i);
      StopsIff(segments, limits, now, i);
    }
  }

  /**
   With no byte cap and a retention time that fits 64 bits in nanoseconds, the longest prefix without
   the tail goes in which every segment ended more than that time ago.
   */
  lemma TimeLimitExact(segments: seq<SegmentEntry>, limits: Limits, now: int, n: nat)
    requires segments != [] && limits.retentionBytes < 0
    requires 0 <= limits.retentionMs && limits.retentionMs * 1_000_000 < 0x8000_0000_0000_0000
    ensures n <= EvictCount(segments, limits, now)
       <==> n < |segments| && forall i :: 0 <= i < n ==> now - segments[i].lastTimestampNs > limits.retentionMs * 1_000_000
  {
    LongestPrefix(segments, limits, now, n);
  }

  /** A longer retention time saturates: no segment that ended within 2^63 - 1 nanoseconds goes by time. */
  lemma SaturatedTimeLimit(segments: seq<SegmentEntry>, limits: Limits, now: int, i: nat)
    requires limits.retentionBytes < 0 && limits.retentionMs * 1_000_000 >= 0x8000_0000_0000_0000
    requires i < EvictCount(segments, limits, now)
    ensures segments[i].lastTimestampNs < now - (0x8000_0000_0000_0000 - 1)
  {
    LongestPrefix(segments, limits, now, i + 1);
  }

  // ------------------------------------------------------------------------------------------
  // The loop, in 64-bit arithmetic

  lemma SuffixBytes(segments: seq<SegmentEntry>, i: nat)
    requires i <= |segments|
    ensures SumBytes(segments[i..]) <= SumBytes(segments)
    ensures i < |segments| ==> SumBytes(segments[i..]) == segments[i].byteSize + SumBytes(segments[i + 1..])
  {
    SumBytesSplit(segments[..i], segments[i..]);
    assert segments[..i] + segments[i..] == segments;
    if i < |segments| {
      assert segments[i..][1..] == segments[i + 1..];
    }
  }

  lemma SignedInRange(x: int)
    ensures Signed64(x) == x <==> IsI64(x)
  {
  }

  /** The `u64` sum of the listed sizes. */
  method TotalBytes(segments: seq<SegmentEntry>) returns (total: nat)
    ensures total == SumBytes(segments) % TWO_64
  {
    total := 0;
    for i := 0 to |segments|
      invariant total == SumBytes(segments[..i]) % TWO_64
    {
      SumBytesSplit(segments[..i], [segments[i]]);
      assert segments[..i] + [segments[i]] == segments[..i + 1];
      total := (total + segments[i].byteSize) % TWO_64;
    }
    assert segments[..|segments|] == segments;
  }

  /**
   `evaluate_eviction`: every sum, cast and difference wraps to 64 bits as compiled. The result is a
   prefix without the tail; while the listed bytes stay below 2^63 and the clock is not negative nothing
   wraps, and it is the policy's prefix.
   */
  method EvaluateEviction(segments: seq<SegmentEntry>, limits: Limits, now: int) returns (evict: seq<SegmentEntry>)
    requires IsI64(now) && IsI64(limits.retentionMs) && IsI64(limits.retentionBytes)
    requires forall i :: 0 <= i < |segments| ==> IsI64(segments[i].lastTimestampNs)
    ensures |evict| <= |segments| && evict == segments[..|evict|]
    ensures segments != [] ==> |evict| < |segments|
    ensures SumBytes(segments) < TWO_63 && now >= 0 ==> evict == segments[..EvictCount(segments, limits, now)]
  {
    if |segments| <= 1 {
      evict := segments[..0];
      return;
    }
    var cutoff: Option<int> := None;
    if limits.retentionMs >= 0 {
      cutoff := Some(Signed64(now - NanosSaturating(limits.retentionMs)));
      SignedInRange(now - NanosSaturating(limits.retentionMs));
    }
    var total := TotalBytes(segments);
    var overSizeBy := 0;
    if limits.retentionBytes >= 0 {
      overSizeBy := Signed64(Signed64(total) - limits.retentionBytes);
      SignedInRange(total);
      SignedInRange(total - limits.retentionBytes);
    }
    ghost var calm := SumBytes(segments) < TWO_63 && now >= 0;
    ghost var cap := if limits.retentionBytes >= 0 then limits.retentionBytes else SumBytes(segments);
    evict := segments[..0];
    assert segments[0..] == segments;
    for i := 0 to |segments| - 1
      invariant evict == segments[..i]
      invariant calm ==> overSizeBy == SumBytes(segments[i..]) - cap
      invariant calm ==> forall j :: 0 <= j < i ==> !Stops(segments, limits, now, j)
    {
      SuffixBytes(segments, i);
      var timeSays := cutoff.Some? && segments[i].lastTimestampNs < cutoff.value;
      assert calm ==> timeSays == Expired(segments[i], limits, now);
      assert calm ==> (overSizeBy > 0) == OverCap(segments, limits, i);
      if !timeSays && overSizeBy <= 0 {
        if calm { LeastStop(segments, limits, now, i); }
        return;
      }
      SignedInRange(overSizeBy - segments[i].byteSize);
      overSizeBy := Signed64(overSizeBy - segments[i].byteSize);
      evict := evict + [segments[i]];
    }
    if calm { LeastStop(segments, limits, now, |segments| - 1); }
  }

  // ------------------------------------------------------------------------------------------
  // The rewrite by object key

  /** `manifest.segments.retain`: drop every entry whose key is among the evicted ones. */
  function RetainByKey(segments: seq<SegmentEntry>, evict: seq<SegmentEntry>): seq<SegmentEntry> {
    if segments == [] then []
    else
      var rest := RetainByKey(segments[1..], evict);
      if exists i :: 0 <= i < |evict| && evict[i].objectKey == segments[0].objectKey then rest
      else [segments[0]] + rest
  }

  /** The entry carries the key derived from its base offset. */
  predicate KeyOk(e: SegmentEntry) { e.objectKey == SegmentLeaf(e.baseOffset) }

  ghost predicate Keyed(segments: seq<SegmentEntry>) {
    forall i {:trigger KeyOk(segments[i])} :: 0 <= i < |segments| ==> KeyOk(segments[i])
  }

  lemma {:induction false} RetainNone(segments: seq<SegmentEntry>, evict: seq<SegmentEntry>)
    requires forall i, j :: 0 <= i < |segments| && 0 <= j < |evict| ==> segments[i].objectKey != evict[j].objectKey
    ensures RetainByKey(segments, evict) == segments
  {
    if segments != [] {
      RetainNone(segments[1..], evict);
      assert segments == [segments[0]] + segments[1..];
    }
  }

  lemma {:induction false} RetainDropsPrefixFrom(segments: seq<SegmentEntry>, k: nat, i: nat)
    requires Keyed(segments) && Ascending(segments) && i <= k <= |segments|
    ensures RetainByKey(segments[i..], segments[..k]) == segments[k..]
    decreases k - i
  {
    if i == k {
      forall a, b | 0 <= a < |segments[k..]| && 0 <= b < k
        ensures segments[k..][a].objectKey != segments[..k][b].objectKey
      {
        assert KeyOk(segments[k + a]) && KeyOk(segments[b]);
        if segments[k + a].objectKey == segments[b].objectKey {
          SegmentLeafInjective(segments[k + a].baseOffset, segments[b].baseOffset);
        }
      }
      RetainNone(segments[k..], segments[..k]);
    } else {
      assert segments[i..][1..] == segments[i + 1..];
      assert segments[..k][i].objectKey == segments[i..][0].objectKey;
      RetainDropsPrefixFrom(segments, k, i + 1);
    }
  }

  /** Rewriting by key drops exactly the evicted prefix, because keys are injective in the base offset. */
  lemma RetainDropsPrefix(segments: seq<SegmentEntry>, k: nat)
    requires Keyed(segments) && Ascending(segments) && k <= |segments|
    ensures RetainByKey(segments, segments[..k]) == segments[k..]
  {
    assert segments[0..] == segments;
    RetainDropsPrefixFrom(segments, k, 0);
  }
}
