/** Every upload, with its retries, and every retention pass is a run of the partition's steps. */
module UploaderRefinement {
  import opened Wal
  import opened Recovery
  import opened Retention
  import opened Writer
  import opened Uploads
  import opened Partition
  import opened PartitionRuns
  import opened UploaderActor

  /** The writer's side is as it was. */
  predicate WriterKept(c: World, d: World)
    requires c.sys.process.Running? && d.sys.process.Running?
  {
    d.sys.dir == c.sys.dir && d.sys.process.writer == c.sys.process.writer && d.sys.process.queue == c.sys.process.queue
  }

  predicate InUpload(c: World, batch: SealedBatch) {
    c.sys.process.Running? && c.sys.process.uploader.Uploading? && c.sys.process.uploader.batch == batch
  }

  lemma PutObjectIsStep(f: Framing, care: Care, c: World, batch: SealedBatch) returns (d: World)
    requires Reached(f, care, c) && InUpload(c, batch)
    ensures Reached(f, care, d) && InUpload(d, batch) && WriterKept(c, d) && d.sys.process.notices == c.sys.process.notices
    ensures d.sys.store == PutSegment(c.sys.store, batch) && d.sys.process.uploader.objectPut
  {
    ReachedNext(f, care, c, PutObject);
    d := Next(f, c, PutObject);
  }

  lemma PutManifestIsStep(f: Framing, care: Care, c: World, batch: SealedBatch, byteSize: nat) returns (d: World)
    requires Reached(f, care, c) && InUpload(c, batch) && c.sys.process.uploader.objectPut
    ensures Reached(f, care, d) && InUpload(d, batch) && WriterKept(c, d) && d.sys.process.notices == c.sys.process.notices
    ensures d.sys.store == PutEntry(c.sys.store, batch, byteSize) && d.sys.process.uploader.objectPut
  {
    ReachedNext(f, care, c, PutManifest(byteSize));
    d := Next(f, c, PutManifest(byteSize));
  }

  lemma AttemptRefines(f: Framing, care: Care, c: World, batch: SealedBatch, byteSize: nat, a: Attempt) returns (d: World)
    requires Reached(f, care, c) && InUpload(c, batch)
    ensures Reached(f, care, d) && InUpload(d, batch) && WriterKept(c, d) && d.sys.process.notices == c.sys.process.notices
    ensures d.sys.store == Attempted(c.sys.store, batch, byteSize, a)
    ensures Succeeds(c.sys.store, batch, a) ==>
              d.sys.process.uploader.objectPut && Listed(d.sys.store.manifest, batch.baseOffset)
  {
    d := c;
    if Took(a.segment) {
      d := PutObjectIsStep(f, care, c, batch);
    }
    var put := d;
    if a.segment.Answered? && a.manifestRead && Took(a.manifestWrite) {
      d := PutManifestIsStep(f, care, put, batch, byteSize);
      SortedListed(put.sys.store.manifest, batch, byteSize);
    }
  }

  lemma NotifyIsStep(f: Framing, care: Care, c: World, batch: SealedBatch) returns (d: World)
    requires Reached(f, care, c) && InUpload(c, batch)
    requires c.sys.process.uploader.objectPut && Listed(c.sys.store.manifest, batch.baseOffset)
    ensures Reached(f, care, d) && d.sys.process.Running? && d.sys.process.uploader.Idle? && WriterKept(c, d)
    ensures d.sys.store == c.sys.store && d.sys.process.notices == c.sys.process.notices + [batch.baseOffset]
  {
    ReachedNext(f, care, c, Notify);
    d := Next(f, c, Notify);
  }

  /**
   The retry loop of an upload, from every reachable state and for all failures on the way, stays
   within reachable states and ends, once it succeeds, with the segment uploaded and its notice sent.
   */
  lemma {:induction false} UploadRefines(f: Framing, care: Care, c: World, batch: SealedBatch, byteSize: nat, attempts: seq<Attempt>)
    returns (d: World, done: bool)
    requires Reached(f, care, c) && InUpload(c, batch)
    ensures Reached(f, care, d) && d.sys.process.Running? && WriterKept(c, d)
    ensures if done then
              && d.sys.process.uploader.Idle? && d.sys.store == Uploaded(c.sys.store, batch, byteSize)
              && d.sys.process.notices == c.sys.process.notices + [batch.baseOffset]
            else
              && InUpload(d, batch) && OnTheWay(c.sys.store, d.sys.store, batch, byteSize)
              && d.sys.process.notices == c.sys.process.notices
    decreases |attempts|
  {
    if attempts == [] {
      d, done := c, false;
    } else {
      var n := |attempts| - 1;
      var before, ended := UploadRefines(f, care, c, batch, byteSize, attempts[..n]);
      if ended {
        d, done := before, true;
      } else {
        AttemptsConverge(c.sys.store, before.sys.store, batch, byteSize, attempts[n]);
        d := AttemptRefines(f, care, before, batch, byteSize, attempts[n]);
        done := Succeeds(before.sys.store, batch, attempts[n]);
        if done {
          var after := d;
          d := NotifyIsStep(f, care, after, batch);
        }
      }
    }
  }

  lemma DeleteIsStep(f: Framing, care: Care, c: World, ok: bool) returns (d: World)
    requires Reached(f, care, c) && c.sys.process.Running? && c.sys.process.uploader.Deleting? && c.sys.process.uploader.doomed != []
    ensures Reached(f, care, d) && d.sys.process.Running? && WriterKept(c, d) && d.sys == DeleteStep(c.sys, ok)
  {
    ReachedNext(f, care, c, DeleteObject(ok));
    d := Next(f, c, DeleteObject(ok));
  }

  lemma {:induction false} DeletesRefine(f: Framing, care: Care, c: World, doomed: seq<int>, undeletable: set<int>) returns (d: World)
    requires Reached(f, care, c) && c.sys.process.Running? && c.sys.process.uploader == Deleting(doomed) && doomed != []
    ensures Reached(f, care, d) && d.sys.process.Running? && d.sys.process.uploader.Idle? && WriterKept(c, d)
    ensures d.sys.store.manifest == c.sys.store.manifest
    ensures d.sys.store.objects == c.sys.store.objects - set b | b in doomed && b !in undeletable
    ensures d.sys.process.notices == c.sys.process.notices
    decreases |doomed|
  {
    var next := DeleteIsStep(f, care, c, doomed[0] !in undeletable);
    if |doomed| == 1 {
      d := next;
    } else {
      d := DeletesRefine(f, care, next, doomed[1..], undeletable);
      assert forall b :: b in doomed <==> b == doomed[0] || b in doomed[1..];
    }
  }

  lemma EvictIsStep(f: Framing, care: Care, c: World, k: nat) returns (d: World)
    requires Reached(f, care, c) && c.sys.process.Running? && c.sys.process.uploader.Idle? && k < |c.sys.store.manifest|
    ensures Reached(f, care, d) && d.sys == EvictStep(c.sys, k)
  {
    ReachedNext(f, care, c, Evict(k));
    d := Next(f, c, Evict(k));
  }

  lemma Undeletable(doomed: seq<int>) returns (bases: set<int>)
    ensures forall b :: b in doomed <==> b in bases
  {
    bases := set b | b in doomed;
  }

  /**
   A retention pass, whichever prefix its arithmetic picks, whether the manifest can be read, whatever
   becomes of its PUT and whichever deletes fail, is a run of the partition's steps. A PUT without an
   answer ends the pass before any object goes.
   */
  lemma RetentionRefines(f: Framing, care: Care, c: World, k: nat, read: bool, write: Outcome, undeletable: set<int>)
    returns (d: World)
    requires Reached(f, care, c) && c.sys.process.Running? && c.sys.process.uploader.Idle?
    requires k == 0 || k < |c.sys.store.manifest|
    ensures Reached(f, care, d) && d.sys.process.Running? && d.sys.process.uploader.Idle? && WriterKept(c, d)
    ensures d.sys.process.notices == c.sys.process.notices
    ensures d.sys.store == RetainedFirst(c.sys.store, k, read, write, undeletable)
  {
    var doomed := BasesOf(c.sys.store.manifest[..k]);
    if !read || doomed == [] || write.Refused? {
      d := c;
    } else {
      var evicted := EvictIsStep(f, care, c, k);
      var spared := undeletable;
      if write.Unanswered? { spared := Undeletable(doomed); }
      d := DeletesRefine(f, care, evicted, doomed, spared);
      if write.Unanswered? {
        assert (set b | b in doomed && b !in spared) == {};
      }
    }
  }
}
