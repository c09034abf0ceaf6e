/** What no crash can break, left-over files or not. */
module SurvivalTheorems {
  import opened WalFrame
  import opened Wal
  import opened Manifest
  import opened Recovery
  import opened Writer
  import opened Uploads
  import opened Partition
  import opened PartitionInvariant
  import opened PartitionRuns
  import opened PartitionTheorems
  import opened EvictionTheorems
  import opened Requests
  import opened RecoveryActor
  import opened Survival
  import opened SurvivalSteps
  import opened SurvivalUploads
  import opened SurvivalRecovery

  /**
   In every state of every run, whatever its crashes found on disk, each record of each acknowledged
   produce, as the client packed it, is in a WAL file, in a listed object, or evicted.
   */
  lemma NoAckedRecordIsLost(f: Framing, c: World, i: nat, k: nat)
    requires Lawful(f) && Attainable(f, c)
    requires i < |c.hist.acks| && k < c.hist.acks[i].ticket.count
    ensures var t := c.hist.acks[i].ticket;
            && t.id < |c.hist.sent| && |c.hist.sent[t.id]| == t.count
            && var r := c.hist.sent[t.id][k];
               && r.offset == t.base + k <= c.hist.acks[i].value && IsClients(c, r, t.id, k)
               && Safe(f, c.sys.dir, c.sys.store, c.hist.evicted, r)
  {
    AttainableSurvives(f, c);
    ReachedRequests(f, AnyCrash, c);
    assert TicketKept(c.hist.acks[i].ticket, c.hist.log, c.hist.sent, c.hist.acks[i].value + 1);
  }

  /** No produce is answered twice, in any run. */
  lemma AcksAreUnique(f: Framing, c: World, i: nat, j: nat)
    requires Lawful(f) && Attainable(f, c)
    requires i < j < |c.hist.acks|
    ensures c.hist.acks[i].ticket.id != c.hist.acks[j].ticket.id
  {
    AttainableSurvives(f, c);
  }

  /** Whatever step removes a WAL file, in any run, each of its records is in a listed object or was evicted. */
  lemma WalGoesOnlyWhenStored(f: Framing, c: World, e: Event, b: int, r: Record)
    requires Lawful(f) && Attainable(f, c)
    requires Enabled(f, c.sys, e)
    requires b in c.sys.dir && b !in Apply(f, c.sys, e).dir && r in Records(f, c.sys.dir, b)
    ensures Stored(c.sys.store, c.hist.evicted, r)
  {
    AttainableSurvives(f, c);
    Removed(f, c.sys, c.hist, e, b);
  }

  lemma Removed(f: Framing, s: System, h: History, e: Event, b: int)
    requires Lawful(f) && Survives(f, s, h) && Enabled(f, s, e) && b in s.dir && b !in Apply(f, s, e).dir
    ensures AllStored(s.store, h.evicted, Records(f, s.dir, b))
  {
    if e.DropWal? {
      assert b == s.process.notices[0];
      assert b in s.process.notices;
    } else if e.VisitFile? {
      Repaired(f, s.dir, s.store, b, e.ok);
      ListedStored(f, s.dir, s.store, h.evicted, b);
    }
  }

  /**
   At every point of every run, the manifest lists distinct bases in increasing order, and each entry's
   object exists and is what the entry says: its first and last record, how many, in rising offsets.
   */
  lemma ManifestDescribesObjects(f: Framing, c: World, i: nat)
    requires Lawful(f) && Attainable(f, c)
    requires i < |c.sys.store.manifest|
    ensures var m := c.sys.store.manifest;
            && Ascending(m)
            && m[i].baseOffset in c.sys.store.objects
            && Describes(m[i], Rows(c.sys.store.objects, m[i].baseOffset))
  {
    AttainableSurvives(f, c);
  }

  /** In every run, a WAL file starts with the offset in its name and its offsets rise. */
  lemma FilesStartAtTheirName(f: Framing, c: World, b: int)
    requires Lawful(f) && Attainable(f, c) && b in c.sys.dir
    ensures Named(Records(f, c.sys.dir, b), b)
  {
    AttainableSurvives(f, c);
  }

  // ------------------------------------------------------------------------------------------
  // Recovery serves everything

  lemma ListedServed(store: Store, r: Record, rec: Recovered)
    requires InListed(store, r)
    ensures r in Rebuilt(store, rec)
  {
    var b :| Listed(store.manifest, b) && r in Rows(store.objects, b);
    DroppedRows(store.objects, store.manifest, b, r);
  }

  lemma SafeServed(f: Framing, dir: WalDir, store: Store, evicted: seq<Record>, bases: seq<int>, stuck: set<int>, r: Record)
    requires ManifestSound(store) && ListedFiles(f, dir, store) && Enumerates(bases, dir) && Safe(f, dir, store, evicted, r)
    ensures r in Rebuilt(store, Recover(f, dir, store.manifest, bases, stuck).1) || r in evicted
  {
    var rec := Recover(f, dir, store.manifest, bases, stuck).1;
    if InFile(f, dir, r) {
      var b :| b in dir && r in Records(f, dir, b);
      if Covered(store.manifest, b) {
        ListedStored(f, dir, store, evicted, b);
      } else {
        RecoveredFileIsServed(f, dir, store, bases, stuck, b, r);
      }
    }
    if InListed(store, r) { ListedServed(store, r, rec); }
  }

  /**
   Crash anywhere, with any torn append and any left-over files, and recover, whichever removals fail:
   every record that ever reached the disk, the whole ones of the torn batch included, is served from a
   listed object, an orphan or the active segment, or was evicted.
   */
  lemma RecoveryServesEveryRecord(f: Framing, c: World, cut: nat, bases: seq<int>, stuck: set<int>, r: Record)
    requires Lawful(f) && Attainable(f, c) && Enabled(f, c.sys, Crash(cut))
    requires Enumerates(bases, CrashStep(f, c.sys, cut).dir)
    requires r in c.hist.log || r in Torn(f, c.sys, cut)
    ensures var down := CrashStep(f, c.sys, cut);
            || r in Rebuilt(down.store, Recover(f, down.dir, down.store.manifest, bases, stuck).1)
            || r in c.hist.evicted
  {
    AttainableSurvives(f, c);
    CrashSurvives(f, c.sys, c.hist, cut);
    CrashLog(f, c.sys, c.hist, cut);
    var down := CrashStep(f, c.sys, cut);
    SafeServed(f, down.dir, down.store, c.hist.evicted, bases, stuck, r);
  }

  /**
   In every run, recovery leaves no file under the base of a listed segment, except those whose removal
   fails, and every other file stays.
   */
  lemma RecoveryRemovesListed(f: Framing, c: World, bases: seq<int>, stuck: set<int>, b: int)
    requires Lawful(f) && Attainable(f, c) && Enumerates(bases, c.sys.dir) && b in c.sys.dir
    ensures var after := Recover(f, c.sys.dir, c.sys.store.manifest, bases, stuck).0;
            if Listed(c.sys.store.manifest, b) then b in after <==> b in stuck
            else b in after && Records(f, after, b) == Records(f, c.sys.dir, b)
  {
    AttainableSurvives(f, c);
    RecoverTreats(f, c.sys.dir, c.sys.store.manifest, bases, stuck);
    ScanTruncateFixed(f, c.sys.dir[b]);
    if Listed(c.sys.store.manifest, b) { ListedCovered(c.sys.store, b); }
  }
}
