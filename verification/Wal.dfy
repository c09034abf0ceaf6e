/**
 A whole write-ahead-log file: `append_and_sync`, `scan_wal` and `recover_wal_file`.

 Everything here, and the partition built on it, holds for any framing of records that satisfies
 `Lawful`; `FrameLawful` shows that the byte format of `WalFrame` does, for every checksum.
 */
module Wal {
  import opened Bytes
  import opened WalFrame

  datatype Framing = Framing(encode: Record -> seq<byte>, decode: seq<byte> -> DecodeResult)

  function FrameWith(crc: Checksum): Framing {
    Framing(r => Encode(crc, r), buf => Decode(crc, buf))
  }

  /** A whole frame is read back, whatever follows it. */
  ghost predicate RoundTrips(f: Framing, r: Record, rest: seq<byte>) {
    Encodable(r) ==> f.decode(f.encode(r) + rest) == Ok(r, |f.encode(r)|)
  }

  /** A frame cut short is not read at all. */
  ghost predicate RejectsCut(f: Framing, r: Record, cut: nat) {
    Encodable(r) && cut < |f.encode(r)| ==> !f.decode(f.encode(r)[..cut]).Ok?
  }

  /** A decoded frame is encodable and stands for exactly the bytes it consumed. */
  ghost predicate Faithful(f: Framing, buf: seq<byte>) {
    var d := f.decode(buf);
    d.Ok? ==> 0 < d.consumed <= |buf| && Encodable(d.record) && f.encode(d.record) == buf[..d.consumed]
  }

  /** What a frame must satisfy for a log of frames to survive a torn tail. */
  ghost predicate Lawful(f: Framing) {
    && (forall r, rest :: RoundTrips(f, r, rest))
    && (forall r, cut :: RejectsCut(f, r, cut))
    && (forall buf :: Faithful(f, buf))
  }

  lemma FrameLawful(crc: Checksum)
    ensures Lawful(FrameWith(crc))
  {
    var f := FrameWith(crc);
    forall r, rest ensures RoundTrips(f, r, rest) {
      if Encodable(r) { DecodeEncode(crc, r, rest); }
    }
    forall r, cut: nat ensures RejectsCut(f, r, cut) {
      if Encodable(r) && cut < |f.encode(r)| { PrefixIncomplete(crc, r, cut); }
    }
    forall buf ensures Faithful(f, buf) {
      if f.decode(buf).Ok? { EncodeDecode(crc, buf); }
    }
  }

  predicate AllEncodable(rs: seq<Record>) {
    forall i :: 0 <= i < |rs| ==> Encodable(rs[i])
  }

  function EncodeAll(f: Framing, rs: seq<Record>): seq<byte> {
    if rs == [] then [] else f.encode(rs[0]) + EncodeAll(f, rs[1..])
  }

  /** What the scan yields: the records before the first failure and the bytes they take. */
  datatype Scanned = Scanned(records: seq<Record>, validLen: nat)

  /** A decoded frame takes at least one byte and no more than there are; anything else stops the scan. */
  function Scan(f: Framing, buf: seq<byte>): (s: Scanned)
    ensures s.validLen <= |buf|
    decreases |buf|
  {
    var d := f.decode(buf);
    if d.Ok? && 0 < d.consumed <= |buf| then
      var rest := Scan(f, buf[d.consumed..]);
      Scanned([d.record] + rest.records, d.consumed + rest.validLen)
    else Scanned([], 0)
  }

  /** How many records of `rs` lie wholly within the first `cut` bytes of their encoding. */
  function WholeBefore(f: Framing, rs: seq<Record>, cut: nat): (k: nat)
    ensures k <= |rs|
  {
    if rs == [] || cut < |f.encode(rs[0])| then 0
    else 1 + WholeBefore(f, rs[1..], cut - |f.encode(rs[0])|)
  }

  lemma {:induction false} EncodeAllAppend(f: Framing, xs: seq<Record>, ys: seq<Record>)
    ensures EncodeAll(f, xs + ys) == EncodeAll(f, xs) + EncodeAll(f, ys)
  {
    if xs == [] {
      assert xs + ys == ys;
    } else {
      EncodeAllAppend(f, xs[1..], ys);
      assert (xs + ys)[1..] == xs[1..] + ys;
    }
  }

  /** `WholeBefore` counts the records whose encoding ends at or before the cut. */
  lemma {:induction false} WholeBeforeIsGreatest(f: Framing, rs: seq<Record>, cut: nat, j: nat)
    requires j <= |rs|
    ensures |EncodeAll(f, rs[..j])| <= cut <==> j <= WholeBefore(f, rs, cut)
  {
    if j != 0 {
      var n := |f.encode(rs[0])|;
      assert rs[..j][1..] == rs[1..][..j - 1];
      assert |EncodeAll(f, rs[..j])| == n + |EncodeAll(f, rs[1..][..j - 1])|;
      if cut >= n {
        WholeBeforeIsGreatest(f, rs[1..], cut - n, j - 1);
      }
    }
  }

  lemma WholeOfAll(f: Framing, rs: seq<Record>)
    ensures WholeBefore(f, rs, |EncodeAll(f, rs)|) == |rs|
  {
    assert rs[..|rs|] == rs;
    WholeBeforeIsGreatest(f, rs, |EncodeAll(f, rs)|, |rs|);
  }

  /** A whole frame at the front is read and the scan goes on behind it. */
  lemma ScanStep(f: Framing, r: Record, rest: seq<byte>)
    requires Lawful(f) && Encodable(r)
    ensures var s := Scan(f, rest);
            Scan(f, f.encode(r) + rest) == Scanned([r] + s.records, |f.encode(r)| + s.validLen)
  {
    var e := f.encode(r);
    assert RoundTrips(f, r, rest) && Faithful(f, e + rest);
    assert (e + rest)[|e|..] == rest;
  }

  /** A cut within the first frame leaves nothing to read. */
  lemma TornFirst(f: Framing, r: Record, tail: seq<byte>, cut: nat)
    requires Lawful(f) && Encodable(r) && cut < |f.encode(r)|
    ensures Scan(f, (f.encode(r) + tail)[..cut]) == Scanned([], 0)
  {
    assert (f.encode(r) + tail)[..cut] == f.encode(r)[..cut];
    assert RejectsCut(f, r, cut);
  }

  /** A cut behind the first frame leaves that frame and a cut of the rest. */
  lemma TornLater(f: Framing, r: Record, tail: seq<byte>, cut: nat)
    requires Lawful(f) && Encodable(r) && |f.encode(r)| <= cut <= |f.encode(r) + tail|
    ensures var s := Scan(f, tail[..cut - |f.encode(r)|]);
            Scan(f, (f.encode(r) + tail)[..cut]) == Scanned([r] + s.records, |f.encode(r)| + s.validLen)
  {
    var e := f.encode(r);
    assert (e + tail)[..cut] == e + tail[..cut - |e|];
    ScanStep(f, r, tail[..cut - |e|]);
  }

  /** A torn tail: at any cut the scan returns the records wholly before it, and their length. */
  lemma {:induction false} TornTail(f: Framing, rs: seq<Record>, cut: nat)
    requires Lawful(f) && AllEncodable(rs) && cut <= |EncodeAll(f, rs)|
    ensures var k := WholeBefore(f, rs, cut);
            Scan(f, EncodeAll(f, rs)[..cut]) == Scanned(rs[..k], |EncodeAll(f, rs[..k])|)
    decreases |rs|
  {
    if rs == [] {
      EmptyScan(f);
    } else {
      var e, tail := f.encode(rs[0]), EncodeAll(f, rs[1..]);
      if cut < |e| {
        TornFirst(f, rs[0], tail, cut);
      } else {
        TornLater(f, rs[0], tail, cut);
        TornTail(f, rs[1..], cut - |e|);
        var k := WholeBefore(f, rs[1..], cut - |e|);
        assert rs[..k + 1] == [rs[0]] + rs[1..][..k];
        assert rs[..k + 1][1..] == rs[1..][..k];
      }
    }
  }

  lemma EmptyScan(f: Framing)
    requires Lawful(f)
    ensures Scan(f, []) == Scanned([], 0)
  {
    assert Faithful(f, []);
  }

  /** An untorn file gives back exactly the records that were appended to it. */
  lemma ScanEncodeAll(f: Framing, rs: seq<Record>)
    requires Lawful(f) && AllEncodable(rs)
    ensures Scan(f, EncodeAll(f, rs)) == Scanned(rs, |EncodeAll(f, rs)|)
  {
    var all := EncodeAll(f, rs);
    TornTail(f, rs, |all|);
    WholeOfAll(f, rs);
    assert all[..|all|] == all && rs[..|rs|] == rs;
  }

  /** The codec is canonical: re-encoding what a scan read reproduces the valid prefix, for every buffer. */
  lemma {:induction false} ScanCanonical(f: Framing, buf: seq<byte>)
    requires Lawful(f)
    ensures var s := Scan(f, buf);
            AllEncodable(s.records) && EncodeAll(f, s.records) == buf[..s.validLen]
    decreases |buf|
  {
    var d := f.decode(buf);
    assert Faithful(f, buf);
    if d.Ok? {
      var n := d.consumed;
      var rest := Scan(f, buf[n..]);
      ScanCanonical(f, buf[n..]);
      assert Scan(f, buf).records[1..] == rest.records;
      assert buf[..n] + buf[n..][..rest.validLen] == buf[..n + rest.validLen];
    }
  }

  /** Scan, truncate, scan again: a fixed point for every buffer, valid or not. */
  lemma ScanTruncateFixed(f: Framing, buf: seq<byte>)
    requires Lawful(f)
    ensures var s := Scan(f, buf);
            Scan(f, buf[..s.validLen]) == s
  {
    ScanCanonical(f, buf);
    ScanEncodeAll(f, Scan(f, buf).records);
    assert |buf[..Scan(f, buf).validLen]| == Scan(f, buf).validLen;
  }

  lemma ScanBehindFirst(f: Framing, r: Record, tail: seq<byte>, rest: seq<byte>)
    requires Lawful(f) && Encodable(r)
    ensures var s := Scan(f, tail + rest);
            Scan(f, f.encode(r) + tail + rest) == Scanned([r] + s.records, |f.encode(r)| + s.validLen)
  {
    assert f.encode(r) + tail + rest == f.encode(r) + (tail + rest);
    ScanStep(f, r, tail + rest);
  }

  /** Whole frames at the front are all read, and the scan goes on behind them. */
  lemma {:induction false} ScanBehind(f: Framing, rs: seq<Record>, rest: seq<byte>)
    requires Lawful(f) && AllEncodable(rs)
    ensures var s := Scan(f, rest);
            Scan(f, EncodeAll(f, rs) + rest) == Scanned(rs + s.records, |EncodeAll(f, rs)| + s.validLen)
  {
    if rs == [] {
      assert EncodeAll(f, rs) + rest == rest;
      assert rs + Scan(f, rest).records == Scan(f, rest).records;
    } else {
      ScanBehind(f, rs[1..], rest);
      ScanBehindFirst(f, rs[0], EncodeAll(f, rs[1..]), rest);
      assert [rs[0]] + (rs[1..] + Scan(f, rest).records) == rs + Scan(f, rest).records;
    }
  }

  /** Appending any cut of a batch's encoding to a clean file adds exactly the whole records. */
  lemma TornAppend(f: Framing, bytes: seq<byte>, batch: seq<Record>, cut: nat)
    requires Lawful(f) && AllEncodable(batch) && cut <= |EncodeAll(f, batch)|
    requires Scan(f, bytes).validLen == |bytes|
    ensures var k := WholeBefore(f, batch, cut);
            Scan(f, bytes + EncodeAll(f, batch)[..cut])
              == Scanned(Scan(f, bytes).records + batch[..k], |bytes| + |EncodeAll(f, batch[..k])|)
  {
    ScanCanonical(f, bytes);
    assert bytes[..|bytes|] == bytes;
    ScanBehind(f, Scan(f, bytes).records, EncodeAll(f, batch)[..cut]);
    TornTail(f, batch, cut);
  }

  /** The group commit's append, when it completes. */
  lemma WholeAppend(f: Framing, bytes: seq<byte>, batch: seq<Record>)
    requires Lawful(f) && AllEncodable(batch)
    requires Scan(f, bytes).validLen == |bytes|
    ensures var after := bytes + EncodeAll(f, batch);
            Scan(f, after) == Scanned(Scan(f, bytes).records + batch, |after|)
  {
    var e := EncodeAll(f, batch);
    TornAppend(f, bytes, batch, |e|);
    WholeOfAll(f, batch);
    assert e[..|e|] == e && batch[..|batch|] == batch;
  }

  /** A frame that cannot be read hides everything behind it. */
  lemma UnreadableHidesTheRest(f: Framing, before: seq<Record>, r: Record, rest: seq<Record>)
    requires Lawful(f) && AllEncodable(before) && !f.decode(f.encode(r) + EncodeAll(f, rest)).Ok?
    ensures Scan(f, EncodeAll(f, before + [r] + rest)).records == before
  {
    var tail := f.encode(r) + EncodeAll(f, rest);
    ScanStops(f, tail);
    ScanBehind(f, before, tail);
    EncodeAllAppend(f, before, [r] + rest);
    assert before + [r] + rest == before + ([r] + rest) && ([r] + rest)[1..] == rest;
    assert before + [] == before;
  }

  /**
   What the unbounded key limit costs: everything from the first over-long key on is unreadable,
   although the writer fsynced and acknowledged it.
   */
  lemma OverlongKeyLosesTheRest(crc: Checksum, before: seq<Record>, r: Record, rest: seq<Record>)
    requires AllEncodable(before) && |r.key| >= TWO_16 && |Body(r)| < TWO_32
    ensures var f := FrameWith(crc);
            Scan(f, EncodeAll(f, before + [r] + rest)).records == before
  {
    var f := FrameWith(crc);
    FrameLawful(crc);
    OverlongKeyMalformed(crc, r, EncodeAll(f, rest));
    UnreadableHidesTheRest(f, before, r, rest);
  }

  // ------------------------------------------------------------------------------------------
  // The loops of the source

  /** `append_and_sync` fills one buffer record by record before the single write. */
  method EncodeBatch(f: Framing, records: seq<Record>) returns (buf: seq<byte>)
    ensures buf == EncodeAll(f, records)
  {
    buf := [];
    for i := 0 to |records|
      invariant buf == EncodeAll(f, records[..i])
    {
      EncodeAllAppend(f, records[..i], [records[i]]);
      assert records[..i] + [records[i]] == records[..i + 1];
      buf := buf + f.encode(records[i]);
    }
    assert records[..|records|] == records;
  }

  lemma ScanStops(f: Framing, buf: seq<byte>)
    requires !f.decode(buf).Ok?
    ensures Scan(f, buf) == Scanned([], 0)
  {
  }

  /** One more frame behind what was already read. */
  lemma ReadOne(f: Framing, buf: seq<byte>, pos: nat, records: seq<Record>)
    requires Lawful(f) && pos < |buf| && f.decode(buf[pos..]).Ok?
    requires AllEncodable(records) && EncodeAll(f, records) == buf[..pos]
    ensures var d := f.decode(buf[pos..]);
            && 0 < d.consumed && pos + d.consumed <= |buf|
            && AllEncodable(records + [d.record]) && EncodeAll(f, records + [d.record]) == buf[..pos + d.consumed]
  {
    var d := f.decode(buf[pos..]);
    assert Faithful(f, buf[pos..]);
    EncodeAllAppend(f, records, [d.record]);
    assert EncodeAll(f, [d.record]) == f.encode(d.record) + [];
    assert buf[..pos] + buf[pos..][..d.consumed] == buf[..pos + d.consumed];
  }

  /** Once the next frame cannot be read, what was read is the whole scan. */
  lemma ReadAll(f: Framing, buf: seq<byte>, pos: nat, records: seq<Record>)
    requires Lawful(f) && pos <= |buf| && AllEncodable(records) && EncodeAll(f, records) == buf[..pos]
    requires pos == |buf| || !f.decode(buf[pos..]).Ok?
    ensures Scan(f, buf) == Scanned(records, pos)
  {
    if pos == |buf| {
      EmptyScan(f);
      assert buf[pos..] == [];
    } else {
      ScanStops(f, buf[pos..]);
    }
    ScanBehind(f, records, buf[pos..]);
    assert buf[..pos] + buf[pos..] == buf;
  }

  /** `scan_wal`: decode from `validLen` until the first failure. */
  method ScanWal(f: Framing, buf: seq<byte>) returns (records: seq<Record>, validLen: nat)
    requires Lawful(f)
    ensures Scanned(records, validLen) == Scan(f, buf)
    ensures validLen <= |buf| && EncodeAll(f, records) == buf[..validLen]
  {
    records, validLen := [], 0;
    while validLen < |buf|
      invariant validLen <= |buf|
      invariant AllEncodable(records) && EncodeAll(f, records) == buf[..validLen]
      decreases |buf| - validLen
    {
      var d := f.decode(buf[validLen..]);
      if !d.Ok? { break; }
      ReadOne(f, buf, validLen, records);
      records, validLen := records + [d.record], validLen + d.consumed;
    }
    ReadAll(f, buf, validLen, records);
  }
}
