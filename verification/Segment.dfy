/** The columns of a segment object: `records_to_recordbatch` and `recordbatch_to_records`. */
module Segment {
  import opened Bytes
  import opened WalFrame
  import opened Options

  /** One row per record, in the column order of the Parquet schema; a null key stands for an empty one. */
  datatype Columns = Columns(
    offsets: seq<int>,
    timestamps: seq<int>,
    keys: seq<Option<seq<byte>>>,
    values: seq<seq<byte>>,
    schemaIds: seq<int>)

  const TWO_31 := 0x8000_0000

  /** `u32 as i32` and back. */
  function AsI32(x: int): int { if x % TWO_32 >= TWO_31 then x % TWO_32 - TWO_32 else x % TWO_32 }
  function AsU32(x: int): int { x % TWO_32 }

  function KeyCell(key: seq<byte>): Option<seq<byte>> { if key == [] then None else Some(key) }
  function KeyOf(cell: Option<seq<byte>>): seq<byte> { if cell.None? then [] else cell.value }

  function ToColumns(rs: seq<Record>): Columns {
    Columns(seq(|rs|, i requires 0 <= i < |rs| => rs[i].offset),
            seq(|rs|, i requires 0 <= i < |rs| => rs[i].timestampNs),
            seq(|rs|, i requires 0 <= i < |rs| => KeyCell(rs[i].key)),
            seq(|rs|, i requires 0 <= i < |rs| => rs[i].value),
            seq(|rs|, i requires 0 <= i < |rs| => AsI32(rs[i].schemaId)))
  }

  predicate Rectangular(c: Columns) {
    |c.offsets| == |c.timestamps| == |c.keys| == |c.values| == |c.schemaIds|
  }

  function RowOf(c: Columns, i: nat): Record
    requires Rectangular(c) && i < |c.offsets|
  {
    Record(c.offsets[i], c.timestamps[i], AsU32(c.schemaIds[i]), KeyOf(c.keys[i]), c.values[i])
  }

  /** Rows of an object; every object is written by `ToColumns`, so the columns have equal length. */
  function FromColumns(c: Columns): seq<Record> {
    if Rectangular(c) then seq(|c.offsets|, i requires 0 <= i < |c.offsets| => RowOf(c, i)) else []
  }

  /** Row `i` of the columns: a null key for an empty one, and the schema id's 32 bits as a signed number. */
  ghost predicate RowIs(c: Columns, i: nat, r: Record)
    requires Rectangular(c) && i < |c.offsets|
  {
    && c.offsets[i] == r.offset && c.timestamps[i] == r.timestampNs
    && (r.key == [] ==> c.keys[i] == None) && (r.key != [] ==> c.keys[i] == Some(r.key)) && c.values[i] == r.value
    && -TWO_31 <= c.schemaIds[i] < TWO_31 && (c.schemaIds[i] - r.schemaId) % TWO_32 == 0
  }

  /** The columns hold every field of every record in its place, and give it back, for the record type's own `u32` schema ids. */
  lemma ColumnsRoundTrip(rs: seq<Record>)
    requires forall i :: 0 <= i < |rs| ==> IsU32(rs[i].schemaId)
    ensures FromColumns(ToColumns(rs)) == rs
    ensures Rectangular(ToColumns(rs)) && |ToColumns(rs).offsets| == |rs|
    ensures forall i :: 0 <= i < |rs| ==> RowIs(ToColumns(rs), i, rs[i])
  {
    var c := ToColumns(rs);
    forall i | 0 <= i < |rs| ensures FromColumns(c)[i] == rs[i] {
      SchemaIdRoundTrip(rs[i].schemaId);
      assert FromColumns(c)[i] == RowOf(c, i);
    }
  }

  lemma SchemaIdRoundTrip(x: int)
    ensures AsU32(AsI32(x)) == x <==> IsU32(x)
  {
  }

  /** The two builder loops of the writer. */
  method BuildColumns(rs: seq<Record>) returns (c: Columns)
    ensures c == ToColumns(rs)
  {
    var keys: seq<Option<seq<byte>>>, values: seq<seq<byte>> := [], [];
    for i := 0 to |rs|
      invariant |keys| == i && forall j :: 0 <= j < i ==> keys[j] == KeyCell(rs[j].key)
    {
      if rs[i].key == [] { keys := keys + [None]; } else { keys := keys + [Some(rs[i].key)]; }
    }
    for i := 0 to |rs|
      invariant |values| == i && forall j :: 0 <= j < i ==> values[j] == rs[j].value
    {
      values := values + [rs[i].value];
    }
    c := ToColumns(rs).(keys := keys, values := values);
  }
}
