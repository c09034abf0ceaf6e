/**
 Recovery as the code has it: a loop over the WAL files that deletes and truncates them
 (kafkrs-server/src/recovery.rs, kafkrs-server/src/wal_writer.rs, kafkrs-server/src/startup.rs:79-90).
 */
module RecoveryActor {
  import opened WalFrame
  import opened Wal
  import opened Manifest
  import opened Recovery
  import opened Writer
  import opened Partition

  /** There is only one sorted enumeration of a directory. */
  lemma {:induction false} EnumerationUnique(xs: seq<int>, ys: seq<int>)
    requires Increasing(xs) && Increasing(ys) && forall b :: b in xs <==> b in ys
    ensures xs == ys
  {
    if xs == [] {
      assert forall i :: 0 <= i < |ys| ==> ys[i] in ys;
    } else {
      assert xs[0] in ys && ys[0] in xs;
      assert xs[0] == ys[0];
      forall b ensures b in xs[1..] <==> b in ys[1..] {
        assert b in xs[1..] ==> b in xs && b != xs[0];
        assert b in ys[1..] ==> b in ys && b != ys[0];
      }
      EnumerationUnique(xs[1..], ys[1..]);
    }
  }

  lemma InsertedBetween(below: seq<int>, above: seq<int>, b: int)
    requires Increasing(below + above)
    requires forall i :: 0 <= i < |below| ==> below[i] < b
    requires forall i :: 0 <= i < |above| ==> b < above[i]
    ensures Increasing(below + [b] + above)
    ensures forall x :: x in below + [b] + above <==> x in below + above || x == b
  {
    var r, both := below + [b] + above, below + above;
    forall i, j | 0 <= i < j < |r| ensures r[i] < r[j] {
      if i != |below| && j != |below| {
        var i', j' := if i < |below| then i else i - 1, if j < |below| then j else j - 1;
        assert both[i'] < both[j'];
      }
    }
  }

  /** Insertion into a sorted list of distinct numbers. */
  method InsertBase(sorted: seq<int>, b: int) returns (r: seq<int>)
    requires Increasing(sorted) && b !in sorted
    ensures Increasing(r) && forall x :: x in r <==> x in sorted || x == b
  {
    var i := 0;
    while i < |sorted| && sorted[i] < b
      invariant i <= |sorted| && forall j :: 0 <= j < i ==> sorted[j] < b
    {
      i := i + 1;
    }
    r := sorted[..i] + [b] + sorted[i..];
    assert i < |sorted| ==> sorted[i] in sorted;
    InsertedBetween(sorted[..i], sorted[i..], b);
    assert sorted == sorted[..i] + sorted[i..];
  }

  lemma {:induction false} AdvanceStep(f: Framing, dir: WalDir, p: Progress, stuck: set<int>, n: nat)
    requires Visitable(dir, p) && n < |p.todo|
    ensures var r := Advance(f, dir, p, stuck, n);
            && r.1.todo != [] && r.1.todo[0] == p.todo[n] && p.todo[n] in r.0
            && Advance(f, dir, p, stuck, n + 1)
               == (Repair(f, r.0, p.uploaded, p.todo[n], p.todo[n] !in stuck), Visit(f, r.0, r.1))
    decreases n
  {
    if n != 0 {
      var removes := p.todo[0] !in stuck;
      VisitKeepsVisitable(f, dir, p, removes);
      AdvanceStep(f, Repair(f, dir, p.uploaded, p.todo[0], removes), Visit(f, dir, p), stuck, n - 1);
    }
  }

  /** The manifest lists a segment under this base, and its last offset is not below it. */
  predicate Uploaded(manifest: seq<SegmentEntry>, base: int) {
    && manifest != [] && base <= manifest[|manifest| - 1].lastOffset
    && exists i :: 0 <= i < |manifest| && manifest[i].baseOffset == base
  }

  /** What recovery makes of one file: an uploaded one goes unless it is stuck, any other is cut to its valid length. */
  ghost predicate Treated(f: Framing, before: WalDir, after: WalDir, manifest: seq<SegmentEntry>, stuck: set<int>, b: int)
    requires b in before
  {
    if Uploaded(manifest, b) then (b in after <==> b in stuck) && (b in after ==> after[b] == before[b])
    else b in after && after[b] == before[b][..Scan(f, before[b]).validLen]
  }

  lemma RepairTreats(f: Framing, dir: WalDir, manifest: seq<SegmentEntry>, b: int, stuck: set<int>)
    requires b in dir
    ensures var dir' := Repair(f, dir, manifest, b, b !in stuck);
            && Treated(f, dir, dir', manifest, stuck, b)
            && (forall x :: x in dir' ==> x in dir)
            && (forall x :: x in dir && x != b ==> x in dir' && dir'[x] == dir[x])
  {
  }

  /** The files visited are treated, the others are as they were, and no file is new. */
  lemma {:induction false} AdvanceTreats(f: Framing, dir: WalDir, p: Progress, stuck: set<int>, n: nat)
    requires Visitable(dir, p) && n <= |p.todo|
    ensures var after := Advance(f, dir, p, stuck, n).0;
            && (forall b :: b in dir && b !in p.todo[..n] ==> b in after && after[b] == dir[b])
            && (forall b :: b in dir && b in p.todo[..n] ==> Treated(f, dir, after, p.uploaded, stuck, b))
            && (forall b :: b in after ==> b in dir)
    decreases n
  {
    if n != 0 {
      var b := p.todo[0];
      var removes := b !in stuck;
      var dir', p' := Repair(f, dir, p.uploaded, b, removes), Visit(f, dir, p);
      var after := Advance(f, dir, p, stuck, n).0;
      VisitKeepsVisitable(f, dir, p, removes);
      RepairTreats(f, dir, p.uploaded, b, stuck);
      AdvanceTreats(f, dir', p', stuck, n - 1);
      assert p.todo[..n] == [b] + p'.todo[..n - 1];
      FirstNotAgain(p.todo, n);
      forall x | x in dir && x in p.todo[..n] ensures Treated(f, dir, after, p.uploaded, stuck, x) {
        if x == b {
          assert b in dir' ==> after[b] == dir'[b];
        } else {
          assert x in dir' && Treated(f, dir', after, p.uploaded, stuck, x);
        }
      }
    }
  }

  lemma FirstNotAgain(todo: seq<int>, n: nat)
    requires Increasing(todo) && 0 < n <= |todo|
    ensures todo[0] !in todo[1..][..n - 1]
  {
  }

  /** The whole of recovery treats every file and makes none. */
  lemma RecoverTreats(f: Framing, dir: WalDir, manifest: seq<SegmentEntry>, bases: seq<int>, stuck: set<int>)
    requires Recovery.Enumerates(bases, dir)
    ensures var after := Recover(f, dir, manifest, bases, stuck).0;
            && (forall b :: b in dir ==> Treated(f, dir, after, manifest, stuck, b))
            && (forall b :: b in after ==> b in dir)
  {
    AdvanceTreats(f, dir, Begin(manifest, bases), stuck, |bases|);
    assert bases[..|bases|] == bases;
  }

  class WalDirectory {
    const framing: Framing
    var files: WalDir

    constructor (framing: Framing, files: WalDir)
      ensures this.framing == framing && this.files == files
    {
      this.framing, this.files := framing, files;
    }

    /** Reads the directory and sorts the base offsets. */
    method Bases() returns (bases: seq<int>)
      ensures Recovery.Enumerates(bases, files)
    {
      bases := [];
      var rest := files.Keys;
      while rest != {}
        invariant rest <= files.Keys && Increasing(bases)
        invariant forall b :: b in bases <==> b in files && b !in rest
        decreases |rest|
      {
        Inhabited(rest);
        var b :| b in rest;
        rest := rest - {b};
        bases := InsertBase(bases, b);
      }
      forall i | 0 <= i < |bases| ensures bases[i] in files {
        assert bases[i] in bases;
      }
    }

    /** `recover_wal_file`: the valid records, with the file cut behind them. */
    method RecoverWalFile(base: int) returns (records: seq<Record>)
      requires Lawful(framing) && base in files
      modifies this
      ensures records == Scan(framing, old(files[base])).records
      ensures files == old(files)[base := old(files[base])[..Scan(framing, old(files[base])).validLen]]
      ensures EncodeAll(framing, records) == files[base]
    {
      var bytes := files[base];
      var validLen: nat;
      records, validLen := ScanWal(framing, bytes);
      if validLen < |bytes| {
        files := files[base := bytes[..validLen]];
      } else {
        assert bytes[..validLen] == bytes;
      }
    }

    /** The body of the loop: one file, removed, skipped, or read and noted. */
    method VisitFile(p: Progress, stuck: set<int>) returns (p': Progress)
      requires Lawful(framing) && p.todo != [] && p.todo[0] in files
      modifies this
      ensures files == Repair(framing, old(files), p.uploaded, p.todo[0], p.todo[0] !in stuck)
      ensures Treated(framing, old(files), files, p.uploaded, stuck, p.todo[0])
      ensures forall b :: b != p.todo[0] ==> (b in files <==> b in old(files)) && (b in files ==> files[b] == old(files)[b])
      ensures p' == Visit(framing, old(files), p)
    {
      var base := p.todo[0];
      if Covered(p.uploaded, base) {
        if base !in stuck { files := files - {base}; }
        return p.(todo := p.todo[1..]);
      }
      var records := RecoverWalFile(base);
      p' := p.(todo := p.todo[1..]);
      if records != [] {
        var last := records[|records| - 1];
        p' := p'.(orphans := p.orphans + [Orphan(base, records)], nextOffset := Max(p.nextOffset, last.offset + 1));
      }
    }

    /** The loop over the sorted files. */
    method VisitAll(start: Progress, stuck: set<int>) returns (p: Progress)
      requires Lawful(framing) && Visitable(files, start)
      modifies this
      ensures (files, p) == Advance(framing, old(files), start, stuck, |start.todo|)
    {
      p := start;
      var i := 0;
      while i < |start.todo|
        invariant 0 <= i <= |start.todo|
        invariant (files, p) == Advance(framing, old(files), start, stuck, i)
      {
        AdvanceStep(framing, old(files), start, stuck, i);
        p := VisitFile(p, stuck);
        i := i + 1;
      }
    }

    /** `recover_partition`, for one listing of the directory. */
    method RecoverFrom(manifest: seq<SegmentEntry>, bases: seq<int>, stuck: set<int>) returns (r: Recovered)
      requires Lawful(framing) && Recovery.Enumerates(bases, files)
      modifies this
      ensures (files, r) == Recover(framing, old(files), manifest, bases, stuck)
    {
      var p := VisitAll(Begin(manifest, bases), stuck);
      if p.orphans == [] {
        return Recovered([], [], p.nextOffset);
      }
      var n := |p.orphans| - 1;
      r := Recovered(p.orphans[n].records, p.orphans[..n], p.nextOffset);
    }

    /**
     `recover_partition` does to the directory, and hands over, what `Recover` says; no orphan is empty.
     No file is left under the base of an uploaded segment unless its removal failed; every other file is
     still there, cut behind its last valid record; and no file is new.
     */
    method RecoverPartition(manifest: seq<SegmentEntry>, stuck: set<int>) returns (r: Recovered)
      requires Lawful(framing)
      modifies this
      ensures forall bases :: Recovery.Enumerates(bases, old(files)) ==>
                (files, r) == Recover(framing, old(files), manifest, bases, stuck)
      ensures Filled(r.orphans)
      ensures forall b :: b in old(files) ==> Treated(framing, old(files), files, manifest, stuck, b)
      ensures forall b :: b in files ==> b in old(files)
    {
      var bases := Bases();
      RecoverTreats(framing, files, manifest, bases, stuck);
      r := RecoverFrom(manifest, bases, stuck);
      RecoverFilled(framing, old(files), manifest, bases, stuck);
      forall bs | Recovery.Enumerates(bs, old(files)) ensures bs == bases {
        SameBases(bs, bases, old(files));
      }
    }
  }

  /** No orphan is empty. */
  predicate Filled(orphans: seq<Orphan>) {
    forall i :: 0 <= i < |orphans| ==> orphans[i].records != []
  }

  lemma {:induction false} AdvanceFilled(f: Framing, dir: WalDir, p: Progress, stuck: set<int>, n: nat)
    requires Visitable(dir, p) && n <= |p.todo| && Filled(p.orphans)
    ensures Filled(Advance(f, dir, p, stuck, n).1.orphans)
    decreases n
  {
    if n != 0 {
      var removes := p.todo[0] !in stuck;
      VisitKeepsVisitable(f, dir, p, removes);
      AdvanceFilled(f, Repair(f, dir, p.uploaded, p.todo[0], removes), Visit(f, dir, p), stuck, n - 1);
    }
  }

  lemma RecoverFilled(f: Framing, dir: WalDir, manifest: seq<SegmentEntry>, bases: seq<int>, stuck: set<int>)
    requires Recovery.Enumerates(bases, dir)
    ensures Filled(Recover(f, dir, manifest, bases, stuck).1.orphans)
  {
    AdvanceFilled(f, dir, Begin(manifest, bases), stuck, |bases|);
  }

  lemma SameBases(xs: seq<int>, ys: seq<int>, dir: WalDir)
    requires Recovery.Enumerates(xs, dir) && Recovery.Enumerates(ys, dir)
    ensures xs == ys
  {
    EnumerationUnique(xs, ys);
  }

  /** The re-queue loop of `spawn_partition`: one upload per orphan, in order. */
  method RequeueOrphans(orphans: seq<Orphan>) returns (queue: seq<SealedBatch>)
    requires Filled(orphans)
    ensures queue == Requeue(orphans)
  {
    queue := [];
    for i := 0 to |orphans|
      invariant queue == Requeue(orphans[..i])
    {
      var rs := orphans[i].records;
      var last := rs[|rs| - 1];
      queue := queue + [SealedBatch(rs, orphans[i].base, last.offset, rs[0].timestampNs, last.timestampNs)];
    }
    assert orphans[..|orphans|] == orphans;
  }
}
