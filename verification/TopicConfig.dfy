/** Per-topic configuration (kafkrs-models/src/topic.rs). */
module TopicConfig {
  import opened Options

  datatype Overrides = Overrides(
    segmentSizeBytes: Option<nat>,
    segmentSealTimeMs: Option<nat>,
    maxKeySizeBytes: Option<nat>,
    maxValueSizeBytes: Option<nat>,
    groupCommitTimeMs: Option<nat>,
    groupCommitSizeBytes: Option<nat>,
    groupCommitRecordCount: Option<nat>,
    maxFetchWaitMs: Option<nat>,
    retentionMs: Option<int>,
    retentionBytes: Option<int>)

  function NoOverrides(): Overrides { Overrides(None, None, None, None, None, None, None, None, None, None) }

  datatype Field = SegmentSize | SegmentSealTime | RetentionMs | RetentionBytes

  /** `validate`: the first field out of range, if any. */
  function Validate(o: Overrides): Option<Field> {
    if o.segmentSizeBytes.Some? && o.segmentSizeBytes.value < 1 then Some(SegmentSize)
    else if o.segmentSealTimeMs.Some? && o.segmentSealTimeMs.value < 1 then Some(SegmentSealTime)
    else if o.retentionMs.Some? && o.retentionMs.value < -1 then Some(RetentionMs)
    else if o.retentionBytes.Some? && o.retentionBytes.value < -1 then Some(RetentionBytes)
    else None
  }

  predicate Valid(o: Overrides) { Validate(o).None? }

  function Patched<T>(current: Option<T>, patch: Option<T>): Option<T> {
    if patch.Some? then patch else current
  }

  /** The patch that an alter lays over the current overrides: a field it leaves out keeps its value. */
  function Merge(o: Overrides, p: Overrides): Overrides {
    Overrides(
      Patched(o.segmentSizeBytes, p.segmentSizeBytes),
      Patched(o.segmentSealTimeMs, p.segmentSealTimeMs),
      Patched(o.maxKeySizeBytes, p.maxKeySizeBytes),
      Patched(o.maxValueSizeBytes, p.maxValueSizeBytes),
      Patched(o.groupCommitTimeMs, p.groupCommitTimeMs),
      Patched(o.groupCommitSizeBytes, p.groupCommitSizeBytes),
      Patched(o.groupCommitRecordCount, p.groupCommitRecordCount),
      Patched(o.maxFetchWaitMs, p.maxFetchWaitMs),
      Patched(o.retentionMs, p.retentionMs),
      Patched(o.retentionBytes, p.retentionBytes))
  }

  /** The patch's value where it gives one, the old value where it does not. */
  predicate Over<T(==)>(result: Option<T>, current: Option<T>, patch: Option<T>) {
    (patch.Some? ==> result == patch) && (patch.None? ==> result == current)
  }

  /** Field by field, the patch lies over the old overrides. */
  predicate Overlays(r: Overrides, o: Overrides, p: Overrides) {
    && Over(r.segmentSizeBytes, o.segmentSizeBytes, p.segmentSizeBytes)
    && Over(r.segmentSealTimeMs, o.segmentSealTimeMs, p.segmentSealTimeMs)
    && Over(r.maxKeySizeBytes, o.maxKeySizeBytes, p.maxKeySizeBytes)
    && Over(r.maxValueSizeBytes, o.maxValueSizeBytes, p.maxValueSizeBytes)
    && Over(r.groupCommitTimeMs, o.groupCommitTimeMs, p.groupCommitTimeMs)
    && Over(r.groupCommitSizeBytes, o.groupCommitSizeBytes, p.groupCommitSizeBytes)
    && Over(r.groupCommitRecordCount, o.groupCommitRecordCount, p.groupCommitRecordCount)
    && Over(r.maxFetchWaitMs, o.maxFetchWaitMs, p.maxFetchWaitMs)
    && Over(r.retentionMs, o.retentionMs, p.retentionMs)
    && Over(r.retentionBytes, o.retentionBytes, p.retentionBytes)
  }

  /** The merge is decided field by field: an empty patch changes nothing, and over nothing a patch is what results. */
  lemma MergeOverlays(o: Overrides, p: Overrides)
    ensures Overlays(Merge(o, p), o, p)
    ensures Merge(o, NoOverrides()) == o && Merge(NoOverrides(), p) == p
  {
  }

  /** A size or time below one, or a retention limit below -1, which means unlimited. */
  predicate OutOfRange(o: Overrides, f: Field) {
    match f
    case SegmentSize => o.segmentSizeBytes == Some(0)
    case SegmentSealTime => o.segmentSealTimeMs == Some(0)
    case RetentionMs => o.retentionMs.Some? && o.retentionMs.value <= -2
    case RetentionBytes => o.retentionBytes.Some? && o.retentionBytes.value <= -2
  }

  predicate Before(f: Field, g: Field) {
    (f.SegmentSize? && !g.SegmentSize?) || (f.SegmentSealTime? && (g.RetentionMs? || g.RetentionBytes?))
    || (f.RetentionMs? && g.RetentionBytes?)
  }

  /** The field named is the first out of range; none is named exactly when none is. */
  lemma ValidateNamesFirst(o: Overrides, f: Field)
    ensures Validate(o) == Some(f) <==> OutOfRange(o, f) && forall g :: Before(g, f) ==> !OutOfRange(o, g)
    ensures Valid(o) <==> forall g :: !OutOfRange(o, g)
  {
    if Validate(o).Some? { assert OutOfRange(o, Validate(o).value); }
    assert Before(SegmentSize, SegmentSealTime) && Before(SegmentSealTime, RetentionMs) && Before(RetentionMs, RetentionBytes);
    assert Before(SegmentSize, RetentionMs) && Before(SegmentSize, RetentionBytes) && Before(SegmentSealTime, RetentionBytes);
  }
}
