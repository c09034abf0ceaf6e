/** Cutting a produce payload into records (kafkrs-server/src/wire/dispatch/produce.rs). */
module ProducePayload {
  import opened Bytes
  import opened WalFrame
  import opened Wal
  import opened Writer

  datatype RecordMeta = RecordMeta(keyLen: nat, valueLen: nat, schemaId: int, timestampNs: int)

  datatype Rejection = PayloadTooShort | PayloadTooLong | KeyTooLarge(index: nat) | RecordTooLarge(index: nat)

  datatype Checked<T> = Accepted(value: T) | Rejected(why: Rejection)

  function MetaOf(inc: Incoming): RecordMeta {
    RecordMeta(|inc.key|, |inc.value|, inc.schemaId, inc.timestampNs)
  }

  /** The declaration gives the lengths of key and value, the schema and the timestamp. */
  predicate Declares(m: RecordMeta, inc: Incoming) {
    m.keyLen == |inc.key| && m.valueLen == |inc.value| && m.schemaId == inc.schemaId && m.timestampNs == inc.timestampNs
  }

  /** What a client declares for its records. */
  function Metas(records: seq<Incoming>): (ms: seq<RecordMeta>)
    ensures |ms| == |records|
    ensures forall i :: 0 <= i < |ms| ==> ms[i] == MetaOf(records[i])
  {
    seq(|records|, i requires 0 <= i < |records| => MetaOf(records[i]))
  }

  /** What a client sends: key and value of each record, one after another (kafkrs-python/kafkrs/client.py). */
  function Pack(records: seq<Incoming>): seq<byte> {
    if records == [] then [] else records[0].key + records[0].value + Pack(records[1..])
  }

  function Declared(metas: seq<RecordMeta>): nat {
    if metas == [] then 0 else metas[0].keyLen + metas[0].valueLen + Declared(metas[1..])
  }

  lemma {:induction false} PackAppend(records: seq<Incoming>, last: Incoming)
    ensures Pack(records + [last]) == Pack(records) + last.key + last.value
  {
    if records == [] {
      assert records + [last] == [last];
    } else {
      PackAppend(records[1..], last);
      assert (records + [last])[1..] == records[1..] + [last];
    }
  }

  lemma {:induction false} DeclaredAppend(metas: seq<RecordMeta>, last: RecordMeta)
    ensures Declared(metas + [last]) == Declared(metas) + last.keyLen + last.valueLen
  {
    if metas == [] {
      assert metas + [last] == [last];
    } else {
      DeclaredAppend(metas[1..], last);
      assert (metas + [last])[1..] == metas[1..] + [last];
    }
  }

  lemma {:induction false} DeclaredGrows(metas: seq<RecordMeta>, i: nat)
    requires i <= |metas|
    ensures Declared(metas[..i]) <= Declared(metas)
  {
    if i > 0 {
      DeclaredGrows(metas[1..], i - 1);
      assert metas[..i][1..] == metas[1..][..i - 1];
    }
  }

  /** The declarations and the payload determine the records. */
  lemma {:induction false} PackInjective(a: seq<Incoming>, b: seq<Incoming>)
    requires Metas(a) == Metas(b) && Pack(a) == Pack(b)
    ensures a == b
  {
    assert |a| == |Metas(a)| == |Metas(b)| == |b|;
    if a != [] {
      assert MetaOf(a[0]) == Metas(a)[0] == MetaOf(b[0]);
      var k, n := |a[0].key|, |a[0].key| + |a[0].value|;
      assert Pack(a)[..k] == a[0].key && Pack(b)[..k] == b[0].key;
      assert Pack(a)[k..n] == a[0].value && Pack(b)[k..n] == b[0].value;
      assert Pack(a)[n..] == Pack(a[1..]) && Pack(b)[n..] == Pack(b[1..]);
      assert Metas(a[1..]) == Metas(a)[1..] && Metas(b[1..]) == Metas(b)[1..];
      PackInjective(a[1..], b[1..]);
    }
  }

  /**
   `slice_payload`: accepted exactly when the declared lengths add up to the payload, and then the
   records are the only ones that a client could have packed into it.
   */
  method SlicePayload(metas: seq<RecordMeta>, payload: seq<byte>) returns (r: Checked<seq<Incoming>>)
    ensures r.Accepted? <==> Declared(metas) == |payload|
    ensures r == Rejected(PayloadTooShort) <==> Declared(metas) > |payload|
    ensures r == Rejected(PayloadTooLong) <==> Declared(metas) < |payload|
    ensures r.Accepted? ==> Metas(r.value) == metas && Pack(r.value) == payload
    ensures forall sent :: Metas(sent) == metas && Pack(sent) == payload ==> r == Accepted(sent)
    ensures r.Accepted? ==> |r.value| == |metas| && forall i :: 0 <= i < |metas| ==> Declares(metas[i], r.value[i])
  {
    var records: seq<Incoming> := [];
    var cursor := 0;
    for i := 0 to |metas|
      invariant cursor == Declared(metas[..i]) && cursor <= |payload|
      invariant Metas(records) == metas[..i] && Pack(records) == payload[..cursor]
      invariant |records| == i && forall j :: 0 <= j < i ==> Declares(metas[j], records[j])
    {
      var m := metas[i];
      DeclaredAppend(metas[..i], m);
      assert metas[..i] + [m] == metas[..i + 1];
      if cursor + m.keyLen + m.valueLen > |payload| {
        DeclaredGrows(metas, i + 1);
        PackedIsDeclared(metas, payload);
        return Rejected(PayloadTooShort);
      }
      var key := payload[cursor..cursor + m.keyLen];
      var value := payload[cursor + m.keyLen..cursor + m.keyLen + m.valueLen];
      var inc := Incoming(m.schemaId, key, value, m.timestampNs);
      PackAppend(records, inc);
      assert payload[..cursor] + key + value == payload[..cursor + m.keyLen + m.valueLen];
      cursor := cursor + m.keyLen + m.valueLen;
      records := records + [inc];
      assert Metas(records) == metas[..i + 1];
    }
    assert metas[..|metas|] == metas;
    PackedIsDeclared(metas, payload);
    if cursor != |payload| {
      return Rejected(PayloadTooLong);
    }
    assert payload[..cursor] == payload;
    forall sent | Metas(sent) == metas && Pack(sent) == payload ensures sent == records {
      PackInjective(sent, records);
    }
    r := Accepted(records);
  }

  // ------------------------------------------------------------------------------------------
  // What becomes of the records of a produce

  /** The record is the client's: its key, value, schema and timestamp, or the broker's clock when it gave no timestamp. */
  predicate CarriesOne(r: Record, inc: Incoming, clock: int) {
    && r.key == inc.key && r.value == inc.value && r.schemaId == inc.schemaId
    && (inc.timestampNs != 0 ==> r.timestampNs == inc.timestampNs)
    && (inc.timestampNs == 0 ==> r.timestampNs == clock)
  }

  ghost predicate Carries(rs: seq<Record>, incoming: seq<Incoming>, clocks: seq<int>) {
    && |rs| == |incoming| == |clocks|
    && forall i :: 0 <= i < |rs| ==> CarriesOne(rs[i], incoming[i], clocks[i])
  }

  /** Key and value of each record, one after another. */
  function Payload(rs: seq<Record>): seq<byte> {
    if rs == [] then [] else rs[0].key + rs[0].value + Payload(rs[1..])
  }

  lemma {:induction false} CarriedPayload(rs: seq<Record>, incoming: seq<Incoming>, clocks: seq<int>)
    requires Carries(rs, incoming, clocks)
    ensures Payload(rs) == Pack(incoming)
  {
    if rs != [] {
      assert CarriesOne(rs[0], incoming[0], clocks[0]);
      CarriedPayload(rs[1..], incoming[1..], clocks[1..]);
    }
  }

  /** The stamped records are the client's, in order and numbered from the base; their payload is what the client packed. */
  lemma StampedCarries(incoming: seq<Incoming>, clocks: seq<int>, base: int)
    requires |clocks| == |incoming|
    ensures var rs := StampAll(incoming, clocks, base);
            && Carries(rs, incoming, clocks) && Payload(rs) == Pack(incoming)
            && forall i :: 0 <= i < |rs| ==> rs[i].offset == base + i
  {
    CarriedPayload(StampAll(incoming, clocks, base), incoming, clocks);
  }

  lemma {:induction false} PackLength(records: seq<Incoming>)
    ensures |Pack(records)| == Declared(Metas(records))
  {
    if records != [] {
      PackLength(records[1..]);
      assert Metas(records)[1..] == Metas(records[1..]);
    }
  }

  lemma PackedIsDeclared(metas: seq<RecordMeta>, payload: seq<byte>)
    ensures forall sent :: Metas(sent) == metas && Pack(sent) == payload ==> |payload| == Declared(metas)
  {
    forall sent | Metas(sent) == metas && Pack(sent) == payload ensures |payload| == Declared(metas) {
      PackLength(sent);
    }
  }

  // ------------------------------------------------------------------------------------------
  // The size limits

  predicate Within(m: RecordMeta, maxKey: nat, maxValue: nat) {
    m.keyLen <= maxKey && m.valueLen <= maxValue
  }

  /** `validate_record_sizes`: the first record over a limit, its key looked at before its value. */
  method ValidateRecordSizes(metas: seq<RecordMeta>, maxKey: nat, maxValue: nat) returns (r: Checked<()>)
    ensures r.Accepted? <==> forall i :: 0 <= i < |metas| ==> Within(metas[i], maxKey, maxValue)
    ensures r.Rejected? ==>
              exists i :: 0 <= i < |metas|
                          && (forall j :: 0 <= j < i ==> Within(metas[j], maxKey, maxValue))
                          && (if metas[i].keyLen > maxKey then r.why == KeyTooLarge(i)
                              else metas[i].valueLen > maxValue && r.why == RecordTooLarge(i))
  {
    for i := 0 to |metas|
      invariant forall j :: 0 <= j < i ==> Within(metas[j], maxKey, maxValue)
    {
      if metas[i].keyLen > maxKey {
        return Rejected(KeyTooLarge(i));
      }
      if metas[i].valueLen > maxValue {
        return Rejected(RecordTooLarge(i));
      }
    }
    r := Accepted(());
  }

  /** Every record the limits let through fits the length fields of a WAL frame. */
  ghost predicate LimitsProtectFrame(maxKey: nat, maxValue: nat) {
    forall inc, offset, clock :: Within(MetaOf(inc), maxKey, maxValue) ==> LengthsFit(Stamped(inc, offset, clock))
  }

  /**
   The size limits keep records encodable exactly when the key limit fits 16 bits and the largest
   record fits 32. Nothing checks this of a topic's configuration.
   */
  lemma LimitsProtectFrameIff(maxKey: nat, maxValue: nat)
    ensures LimitsProtectFrame(maxKey, maxValue)
       <==> maxKey < TWO_16 && HEADER_AFTER_LEN + maxKey + maxValue < TWO_32
  {
    if LimitsProtectFrame(maxKey, maxValue) {
      var largest := Incoming(0, seq(maxKey, _ => 0), seq(maxValue, _ => 0), 0);
      assert Within(MetaOf(largest), maxKey, maxValue);
      assert LengthsFit(Stamped(largest, 0, 0));
    }
  }

  /** A request that passes both checks under such limits can be written to the WAL and read back. */
  lemma AcceptedIsEncodable(records: seq<Incoming>, clocks: seq<int>, base: int, maxKey: nat, maxValue: nat)
    requires |clocks| == |records| && LimitsProtectFrame(maxKey, maxValue)
    requires forall i :: 0 <= i < |records| ==> Within(MetaOf(records[i]), maxKey, maxValue)
    requires forall i :: 0 <= i < |records| ==> Typed(Stamped(records[i], base + i, clocks[i]))
    ensures AllEncodable(StampAll(records, clocks, base))
  {
    forall i | 0 <= i < |records| ensures Encodable(StampAll(records, clocks, base)[i]) {
      assert Within(MetaOf(records[i]), maxKey, maxValue);
    }
  }
}
