/** One framed record of the write-ahead log: `encode_record` and `decode_record` in kafkrs-models/src/wal.rs. */
module WalFrame {
  import opened Bytes

  datatype Record = Record(offset: int, timestampNs: int, schemaId: int, key: seq<byte>, value: seq<byte>)

  /** Any checksum: the codec's laws do not depend on the CRC32C polynomial. */
  type Checksum = seq<byte> -> u32

  const HEADER_AFTER_LEN := 26

  datatype DecodeResult =
    | Ok(record: Record, consumed: nat)
    | Incomplete
    | CrcMismatch
    | Malformed

  /** The integer fields fit the widths that the record type gives them. */
  predicate Typed(r: Record) {
    IsI64(r.offset) && IsI64(r.timestampNs) && IsU32(r.schemaId)
  }

  /** The two length fields hold the real lengths: `key_len` is 16 bits and the frame length 32. */
  predicate LengthsFit(r: Record) {
    |r.key| < TWO_16 && HEADER_AFTER_LEN + |r.key| + |r.value| < TWO_32
  }

  predicate Encodable(r: Record) { Typed(r) && LengthsFit(r) }

  function Header(r: Record): (h: seq<byte>)
    ensures |h| == HEADER_AFTER_LEN
  {
    ToLe(Unsigned64(r.offset), 8) + ToLe(Unsigned64(r.timestampNs), 8) + ToLe(r.schemaId % TWO_32, 4)
    + ToLe(|r.key| % TWO_16, 2) + ToLe(|r.value| % TWO_32, 4)
  }

  function Body(r: Record): (b: seq<byte>)
    ensures |b| == HEADER_AFTER_LEN + |r.key| + |r.value|
  {
    Header(r) + r.key + r.value
  }

  /** Length prefix, body, checksum trailer. */
  function Frame(length: nat, body: seq<byte>, sum: nat): (b: seq<byte>)
    ensures |b| == |body| + 8
  {
    ToLe(length, 4) + body + ToLe(sum, 4)
  }

  /** One framed record. Over-long lengths are narrowed without a check, as the casts do. */
  function Encode(crc: Checksum, r: Record): seq<byte> {
    Frame(|Body(r)| % TWO_32, Body(r), crc(Body(r)))
  }

  function DecodeBody(body: seq<byte>, consumed: nat): DecodeResult
    requires |body| >= HEADER_AFTER_LEN
  {
    var keyLen := FromLe(body[20..22]);
    var valueLen := FromLe(body[22..26]);
    if HEADER_AFTER_LEN + keyLen + valueLen != |body| then Malformed
    else
      Ok(Record(Signed64(FromLe(body[0..8])), Signed64(FromLe(body[8..16])), FromLe(body[16..20]),
                body[26..26 + keyLen], body[26 + keyLen..26 + keyLen + valueLen]),
         consumed)
  }

  function Decode(crc: Checksum, buf: seq<byte>): DecodeResult {
    if |buf| < 4 then Incomplete
    else
      var bodyLen := FromLe(buf[0..4]);
      var total := 4 + bodyLen + 4;
      if |buf| < total then Incomplete
      else if bodyLen < HEADER_AFTER_LEN then Malformed
      else if crc(buf[4..4 + bodyLen]) != FromLe(buf[4 + bodyLen..total]) then CrcMismatch
      else DecodeBody(buf[4..4 + bodyLen], total)
  }

  // ------------------------------------------------------------------------------------------
  // The fixed-width header

  lemma HeaderFields(r: Record)
    ensures var h := Header(r);
            && h[0..8] == ToLe(Unsigned64(r.offset), 8)
            && h[8..16] == ToLe(Unsigned64(r.timestampNs), 8)
            && h[16..20] == ToLe(r.schemaId % TWO_32, 4)
            && h[20..22] == ToLe(|r.key| % TWO_16, 2)
            && h[22..26] == ToLe(|r.value| % TWO_32, 4)
  {
  }

  /** What the decoder reads back from each field of a header. */
  lemma HeaderValues(r: Record)
    ensures var h := Header(r);
            && FromLe(h[0..8]) == Unsigned64(r.offset)
            && FromLe(h[8..16]) == Unsigned64(r.timestampNs)
            && FromLe(h[16..20]) == r.schemaId % TWO_32
            && FromLe(h[20..22]) == |r.key| % TWO_16
            && FromLe(h[22..26]) == |r.value| % TWO_32
  {
    HeaderFields(r);
    Widths();
    FromToLe(Unsigned64(r.offset), 8);
    FromToLe(Unsigned64(r.timestampNs), 8);
    FromToLe(r.schemaId % TWO_32, 4);
    FromToLe(|r.key| % TWO_16, 2);
    FromToLe(|r.value| % TWO_32, 4);
  }

  /** The fields of a body are those of the header it starts with. */
  lemma HeaderOfBody(body: seq<byte>, h: seq<byte>)
    requires |h| == HEADER_AFTER_LEN && h <= body
    ensures body[0..8] == h[0..8] && body[8..16] == h[8..16] && body[16..20] == h[16..20]
    ensures body[20..22] == h[20..22] && body[22..26] == h[22..26]
  {
  }

  /** A signed field read from its bytes is in range and is written back as those bytes. */
  lemma SignedField(s: seq<byte>)
    requires |s| == 8
    ensures IsI64(Signed64(FromLe(s))) && ToLe(Unsigned64(Signed64(FromLe(s))), 8) == s
  {
    Widths();
    UnsignedOfSigned(FromLe(s));
    ToFromLe(s);
  }

  /** The same for an unsigned field narrower than eight bytes. */
  lemma UnsignedField(s: seq<byte>, limit: nat)
    requires limit == Pow256(|s|)
    ensures FromLe(s) < limit && ToLe(FromLe(s) % limit, |s|) == s
  {
    ToFromLe(s);
    SmallMod(FromLe(s), limit);
  }

  lemma HeaderFromFields(r: Record, body: seq<byte>)
    requires |body| >= HEADER_AFTER_LEN
    requires r.offset == Signed64(FromLe(body[0..8])) && r.timestampNs == Signed64(FromLe(body[8..16]))
    requires r.schemaId == FromLe(body[16..20])
    requires |r.key| == FromLe(body[20..22]) && |r.value| == FromLe(body[22..26])
    ensures Typed(r) && |r.key| < TWO_16 && Header(r) == body[..26]
  {
    SignedField(body[0..8]);
    SignedField(body[8..16]);
    Widths();
    UnsignedField(body[16..20], TWO_32);
    UnsignedField(body[20..22], TWO_16);
    UnsignedField(body[22..26], TWO_32);
    FiveFields(body);
  }

  lemma FiveFields(body: seq<byte>)
    requires |body| >= 26
    ensures body[0..8] + body[8..16] + body[16..20] + body[20..22] + body[22..26] == body[..26]
  {
  }

  // ------------------------------------------------------------------------------------------
  // Round trips

  lemma BodyKeyValue(r: Record)
    ensures var b := Body(r);
            && Header(r) <= b
            && b[26..26 + |r.key|] == r.key
            && b[26 + |r.key|..26 + |r.key| + |r.value|] == r.value
  {
  }

  /** What the decoder reads back from the header of an encodable record. */
  lemma HeaderReads(r: Record)
    requires Encodable(r)
    ensures var h := Header(r);
            && Signed64(FromLe(h[0..8])) == r.offset && Signed64(FromLe(h[8..16])) == r.timestampNs
            && FromLe(h[16..20]) == r.schemaId
            && FromLe(h[20..22]) == |r.key| && FromLe(h[22..26]) == |r.value|
  {
    HeaderValues(r);
    SignedOfUnsigned(r.offset);
    SignedOfUnsigned(r.timestampNs);
    SmallMod(r.schemaId, TWO_32);
    SmallMod(|r.key|, TWO_16);
    SmallMod(|r.value|, TWO_32);
  }

  lemma BodyValues(r: Record, body: seq<byte>, h: seq<byte>)
    requires Encodable(r) && body == Body(r) && h == Header(r)
    ensures Signed64(FromLe(body[0..8])) == r.offset && Signed64(FromLe(body[8..16])) == r.timestampNs
    ensures FromLe(body[16..20]) == r.schemaId
    ensures FromLe(body[20..22]) == |r.key| && FromLe(body[22..26]) == |r.value|
  {
    BodyKeyValue(r);
    HeaderOfBody(body, h);
    HeaderReads(r);
  }

  lemma DecodeOwnBody(r: Record, consumed: nat)
    requires Encodable(r)
    ensures DecodeBody(Body(r), consumed) == Ok(r, consumed)
  {
    BodyValues(r, Body(r), Header(r));
    BodyKeyValue(r);
  }

  lemma DecodeOverlongBody(r: Record, consumed: nat)
    requires |r.key| >= TWO_16 && |Body(r)| < TWO_32
    ensures DecodeBody(Body(r), consumed) == Malformed
  {
    BodyKeyValue(r);
    HeaderOfBody(Body(r), Header(r));
    HeaderValues(r);
  }

  lemma Reassemble(body: seq<byte>, k: nat, v: nat)
    requires 26 + k + v == |body|
    ensures body[..26] + body[26..26 + k] + body[26 + k..26 + k + v] == body
  {
  }

  lemma DecodedBody(body: seq<byte>, consumed: nat)
    requires HEADER_AFTER_LEN <= |body| < TWO_32
    requires DecodeBody(body, consumed).Ok?
    ensures var r := DecodeBody(body, consumed).record;
            Encodable(r) && Body(r) == body
  {
    var r := DecodeBody(body, consumed).record;
    HeaderFromFields(r, body);
    Reassemble(body, |r.key|, |r.value|);
  }

  /** A frame at the front of a buffer, with anything after it. */
  lemma FrameParts(length: nat, body: seq<byte>, sum: nat, rest: seq<byte>)
    requires length < TWO_32 && sum < TWO_32
    ensures var buf := Frame(length, body, sum) + rest;
            && FromLe(buf[0..4]) == length
            && buf[4..4 + |body|] == body
            && FromLe(buf[4 + |body|..8 + |body|]) == sum
  {
    var buf := Frame(length, body, sum) + rest;
    assert buf[0..4] == ToLe(length, 4);
    assert buf[4 + |body|..8 + |body|] == ToLe(sum, 4);
    Widths();
    FromToLe(length, 4);
    FromToLe(sum, 4);
  }

  lemma FrameFromParts(buf: seq<byte>, n: nat)
    requires 8 + n <= |buf|
    ensures Frame(FromLe(buf[0..4]), buf[4..4 + n], FromLe(buf[4 + n..8 + n])) == buf[..8 + n]
  {
    ToFromLe(buf[0..4]);
    ToFromLe(buf[4 + n..8 + n]);
    assert buf[..8 + n] == buf[0..4] + buf[4..4 + n] + buf[4 + n..8 + n];
  }

  /** The decoder strips a whole frame down to its body. */
  lemma DecodeFrame(crc: Checksum, body: seq<byte>, rest: seq<byte>)
    requires HEADER_AFTER_LEN <= |body| < TWO_32
    ensures Decode(crc, Frame(|body|, body, crc(body)) + rest) == DecodeBody(body, |body| + 8)
  {
    FrameParts(|body|, body, crc(body), rest);
  }

  /** A body damaged in place so that its checksum changes is reported as such, whatever follows. */
  lemma DamagedBodyMismatches(crc: Checksum, r: Record, damaged: seq<byte>, rest: seq<byte>)
    requires Encodable(r) && |damaged| == |Body(r)| && crc(damaged) != crc(Body(r))
    ensures Decode(crc, Frame(|damaged|, damaged, crc(Body(r))) + rest) == CrcMismatch
  {
    FrameParts(|damaged|, damaged, crc(Body(r)), rest);
  }

  lemma DecodeTornFrame(crc: Checksum, body: seq<byte>, cut: nat)
    requires |body| < TWO_32 && cut < |body| + 8
    ensures Decode(crc, Frame(|body|, body, crc(body))[..cut]) == Incomplete
  {
    var f := Frame(|body|, body, crc(body));
    FrameParts(|body|, body, crc(body), []);
    assert f + [] == f;
    if cut >= 4 {
      assert f[..cut][0..4] == f[0..4];
    }
  }

  lemma EncodeIsFrame(crc: Checksum, r: Record, body: seq<byte>)
    requires body == Body(r) && |body| < TWO_32
    ensures Encode(crc, r) == Frame(|body|, body, crc(body))
  {
    SmallMod(|body|, TWO_32);
  }

  lemma DecodeEncode(crc: Checksum, r: Record, rest: seq<byte>)
    requires Encodable(r)
    ensures Decode(crc, Encode(crc, r) + rest) == Ok(r, |Encode(crc, r)|)
  {
    var body := Body(r);
    EncodeIsFrame(crc, r, body);
    DecodeFrame(crc, body, rest);
    DecodeOwnBody(r, |body| + 8);
  }

  lemma FrameBody(crc: Checksum, r: Record)
    requires Encodable(r)
    ensures var e, n := Encode(crc, r), |Body(r)|;
            && |e| == n + 8 && e[4..4 + n] == Body(r) && FromLe(e[0..4]) == n && FromLe(e[4 + n..]) == crc(Body(r))
  {
    var body, e := Body(r), Encode(crc, r);
    EncodeIsFrame(crc, r, body);
    FrameParts(|body|, body, crc(body), []);
    assert e + [] == e;
    assert e[4 + |body|..] == e[4 + |body|..8 + |body|];
  }

  lemma BodyFields(e: seq<byte>, r: Record, body: seq<byte>)
    requires Encodable(r) && body == Body(r) && |e| >= 4 + |body| && e[4..4 + |body|] == body
    ensures Signed64(FromLe(e[4..12])) == r.offset && Signed64(FromLe(e[12..20])) == r.timestampNs
    ensures FromLe(e[20..24]) == r.schemaId && FromLe(e[24..26]) == |r.key| && FromLe(e[26..30]) == |r.value|
    ensures e[30..30 + |r.key|] == r.key && e[30 + |r.key|..30 + |r.key| + |r.value|] == r.value
  {
    BodyValues(r, body, Header(r));
    BodyKeyValue(r);
    BodyWithin(e, body);
    SliceOfSlice(e, body, 26, 26 + |r.key|);
    SliceOfSlice(e, body, 26 + |r.key|, 26 + |r.key| + |r.value|);
  }

  /**
   The frame byte by byte: the body's length, then offset, timestamp, schema id, key length and value
   length, then the key, the value, and the checksum of all but the length.
   */
  lemma FrameLayout(crc: Checksum, r: Record)
    requires Encodable(r)
    ensures var e, k, v := Encode(crc, r), |r.key|, |r.value|;
            && |e| == 34 + k + v
            && FromLe(e[0..4]) == 26 + k + v
            && Signed64(FromLe(e[4..12])) == r.offset && Signed64(FromLe(e[12..20])) == r.timestampNs
            && FromLe(e[20..24]) == r.schemaId && FromLe(e[24..26]) == k && FromLe(e[26..30]) == v
            && e[30..30 + k] == r.key && e[30 + k..30 + k + v] == r.value
            && FromLe(e[30 + k + v..]) == crc(e[4..30 + k + v])
  {
    FrameBody(crc, r);
    BodyFields(Encode(crc, r), r, Body(r));
  }

  lemma BodyWithin(e: seq<byte>, body: seq<byte>)
    requires |body| >= 26 && |e| >= 4 + |body| && e[4..4 + |body|] == body
    ensures e[4..12] == body[0..8] && e[12..20] == body[8..16] && e[20..24] == body[16..20]
    ensures e[24..26] == body[20..22] && e[26..30] == body[22..26]
  {
    SliceOfSlice(e, body, 0, 8);
    SliceOfSlice(e, body, 8, 16);
    SliceOfSlice(e, body, 16, 20);
    SliceOfSlice(e, body, 20, 22);
    SliceOfSlice(e, body, 22, 26);
  }

  lemma SliceOfSlice(e: seq<byte>, body: seq<byte>, i: nat, j: nat)
    requires i <= j <= |body| && |e| >= 4 + |body| && e[4..4 + |body|] == body
    ensures e[4 + i..4 + j] == body[i..j]
  {
    forall k | 0 <= k < j - i ensures e[4 + i..4 + j][k] == body[i..j][k] {
      assert body[i + k] == e[4..4 + |body|][i + k];
    }
  }

  /** An over-long key makes the frame undecodable, whatever follows it. */
  lemma OverlongKeyMalformed(crc: Checksum, r: Record, rest: seq<byte>)
    requires |r.key| >= TWO_16 && |Body(r)| < TWO_32
    ensures Decode(crc, Encode(crc, r) + rest) == Malformed
  {
    var body := Body(r);
    EncodeIsFrame(crc, r, body);
    DecodeFrame(crc, body, rest);
    DecodeOverlongBody(r, |body| + 8);
  }

  lemma PrefixIncomplete(crc: Checksum, r: Record, cut: nat)
    requires Encodable(r) && cut < |Encode(crc, r)|
    ensures Decode(crc, Encode(crc, r)[..cut]) == Incomplete
  {
    EncodeIsFrame(crc, r, Body(r));
    DecodeTornFrame(crc, Body(r), cut);
  }

  /** Every decoded record is encodable, and its encoding is the very bytes that were read. */
  lemma EncodeDecode(crc: Checksum, buf: seq<byte>)
    requires Decode(crc, buf).Ok?
    ensures var d := Decode(crc, buf);
            && 34 <= d.consumed <= |buf|
            && Encodable(d.record)
            && Encode(crc, d.record) == buf[..d.consumed]
  {
    var n := DecodedParts(crc, buf);
    var d := DecodeBody(buf[4..4 + n], 8 + n);
    DecodedBody(buf[4..4 + n], 8 + n);
    EncodeIsFrame(crc, d.record, buf[4..4 + n]);
    FrameFromParts(buf, n);
  }

  /** What the decoder has checked once it succeeds. */
  lemma DecodedParts(crc: Checksum, buf: seq<byte>) returns (n: nat)
    requires Decode(crc, buf).Ok?
    ensures HEADER_AFTER_LEN <= n < TWO_32 && 8 + n <= |buf|
    ensures n == FromLe(buf[0..4]) && crc(buf[4..4 + n]) == FromLe(buf[4 + n..8 + n])
    ensures Decode(crc, buf) == DecodeBody(buf[4..4 + n], 8 + n) && Decode(crc, buf).consumed == 8 + n
  {
    Widths();
    n := FromLe(buf[0..4]);
  }

  /**
   The round trip of one record holds exactly when both length fields fit. The encoder narrows
   without checking, so a key of 65536 bytes is written and cannot be read back.
   */
  lemma RoundTripIff(crc: Checksum, r: Record)
    requires Typed(r)
    ensures Decode(crc, Encode(crc, r)) == Ok(r, |Encode(crc, r)|) <==> LengthsFit(r)
  {
    var e := Encode(crc, r);
    if LengthsFit(r) {
      assert e + [] == e;
      DecodeEncode(crc, r, []);
    } else if Decode(crc, e) == Ok(r, |e|) {
      EncodeDecode(crc, e);
    }
  }
}
