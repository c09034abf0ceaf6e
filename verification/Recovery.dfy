/** Partition recovery (kafkrs-server/src/recovery.rs) over a directory of WAL files. */
module Recovery {
  import opened Bytes
  import opened WalFrame
  import opened Wal
  import opened Manifest

  /** WAL files by the base offset in their name. */
  type WalDir = map<int, seq<byte>>

  lemma Inhabited(bases: set<int>)
    requires bases != {}
    ensures exists b :: b in bases
  {
    assert (forall b :: b !in bases) ==> bases == {};
  }

  datatype Orphan = Orphan(base: int, records: seq<Record>)

  /** The loop of `recover_partition`: files still to visit and what was found so far. */
  datatype Progress = Progress(todo: seq<int>, uploaded: seq<SegmentEntry>, orphans: seq<Orphan>, nextOffset: int)

  /** What recovery hands to the partition. */
  datatype Recovered = Recovered(active: seq<Record>, orphans: seq<Orphan>, nextOffset: int)

  predicate Listed(segments: seq<SegmentEntry>, base: int) {
    exists i :: 0 <= i < |segments| && segments[i].baseOffset == base
  }

  /** A file whose segment the manifest lists: left over from a crash before the delete. */
  predicate Covered(segments: seq<SegmentEntry>, base: int) {
    segments != [] && base < UploadedEnd(segments) && Listed(segments, base)
  }

  predicate Increasing(bases: seq<int>) {
    forall i, j :: 0 <= i < j < |bases| ==> bases[i] < bases[j]
  }

  predicate AllIn(bases: seq<int>, dir: WalDir) {
    forall i :: 0 <= i < |bases| ==> bases[i] in dir
  }

  /** The sorted base offsets found in the directory. */
  ghost predicate Enumerates(bases: seq<int>, dir: WalDir) {
    && Increasing(bases)
    && AllIn(bases, dir)
    && (forall b :: b in dir ==> b in bases)
  }

  function Begin(uploaded: seq<SegmentEntry>, bases: seq<int>): Progress {
    Progress(bases, uploaded, [], UploadedEnd(uploaded))
  }

  /** The records recovery takes from one file: none from a covered one. */
  function Found(f: Framing, dir: WalDir, uploaded: seq<SegmentEntry>, base: int): seq<Record>
    requires base in dir
  {
    if Covered(uploaded, base) then [] else Scan(f, dir[base]).records
  }

  /** A covered file is removed, unless that fails; any other is cut at its first invalid record. */
  function Repair(f: Framing, dir: WalDir, uploaded: seq<SegmentEntry>, base: int, removes: bool): WalDir
    requires base in dir
  {
    if Covered(uploaded, base) then (if removes then dir - {base} else dir)
    else dir[base := dir[base][..Scan(f, dir[base]).validLen]]
  }

  function Max(a: int, b: int): int { if a < b then b else a }

  function Note(p: Progress, base: int, records: seq<Record>): Progress {
    if records == [] then p
    else p.(orphans := p.orphans + [Orphan(base, records)],
            nextOffset := Max(p.nextOffset, records[|records| - 1].offset + 1))
  }

  function Visit(f: Framing, dir: WalDir, p: Progress): Progress
    requires p.todo != [] && p.todo[0] in dir
  {
    var base := p.todo[0];
    Note(p, base, Found(f, dir, p.uploaded, base)).(todo := p.todo[1..])
  }

  /** The last file that held records becomes the active segment; the others are re-queued. */
  function Finish(p: Progress): Recovered {
    if p.orphans == [] then Recovered([], [], p.nextOffset)
    else Recovered(p.orphans[|p.orphans| - 1].records, p.orphans[..|p.orphans| - 1], p.nextOffset)
  }

  predicate Visitable(dir: WalDir, p: Progress) {
    Increasing(p.todo) && AllIn(p.todo, dir)
  }

  lemma VisitKeepsVisitable(f: Framing, dir: WalDir, p: Progress, removes: bool)
    requires Visitable(dir, p) && p.todo != []
    ensures Visitable(Repair(f, dir, p.uploaded, p.todo[0], removes), Visit(f, dir, p))
  {
  }

  /** Runs the loop for `n` files; `stuck` are the covered files whose removal fails. */
  function Advance(f: Framing, dir: WalDir, p: Progress, stuck: set<int>, n: nat): (r: (WalDir, Progress))
    requires Visitable(dir, p) && n <= |p.todo|
    ensures r.1.todo == p.todo[n..] && r.1.uploaded == p.uploaded && Visitable(r.0, r.1)
    decreases n
  {
    if n == 0 then (dir, p)
    else
      var removes := p.todo[0] !in stuck;
      VisitKeepsVisitable(f, dir, p, removes);
      Advance(f, Repair(f, dir, p.uploaded, p.todo[0], removes), Visit(f, dir, p), stuck, n - 1)
  }

  /** A property of the directory and the progress that every visit keeps. */
  ghost predicate Preserved(f: Framing, inv: (WalDir, Progress) -> bool) {
    forall dir, p, removes ::
      Visitable(dir, p) && p.todo != [] && inv(dir, p) ==>
        inv(Repair(f, dir, p.uploaded, p.todo[0], removes), Visit(f, dir, p))
  }

  /** The loop keeps what every visit keeps. */
  lemma {:induction false} AdvancePreserves(f: Framing, inv: (WalDir, Progress) -> bool, dir: WalDir, p: Progress,
                                            stuck: set<int>, n: nat)
    requires Preserved(f, inv) && inv(dir, p) && Visitable(dir, p) && n <= |p.todo|
    ensures inv(Advance(f, dir, p, stuck, n).0, Advance(f, dir, p, stuck, n).1)
    decreases n
  {
    if n != 0 {
      var removes := p.todo[0] !in stuck;
      VisitKeepsVisitable(f, dir, p, removes);
      AdvancePreserves(f, inv, Repair(f, dir, p.uploaded, p.todo[0], removes), Visit(f, dir, p), stuck, n - 1);
    }
  }

  /** The whole of recovery: the directory it leaves and what it hands over. */
  function Recover(f: Framing, dir: WalDir, uploaded: seq<SegmentEntry>, bases: seq<int>, stuck: set<int>): (WalDir, Recovered)
    requires Enumerates(bases, dir)
  {
    var r := Advance(f, dir, Begin(uploaded, bases), stuck, |bases|);
    (r.0, Finish(r.1))
  }

  // ------------------------------------------------------------------------------------------
  // Recovery is idempotent under interruption

  function AsOrphan(base: int, records: seq<Record>): seq<Orphan> {
    if records == [] then [] else [Orphan(base, records)]
  }

  /** What every file contributes, visited or not. */
  function Contribution(f: Framing, dir: WalDir, uploaded: seq<SegmentEntry>, bases: seq<int>): seq<Orphan>
    requires AllIn(bases, dir)
  {
    if bases == [] then []
    else
      AsOrphan(bases[0], Found(f, dir, uploaded, bases[0])) + Contribution(f, dir, uploaded, bases[1..])
  }

  function NextAfter(next: int, orphans: seq<Orphan>): int
    decreases orphans
  {
    if orphans == [] then next
    else
      var rs := orphans[0].records;
      NextAfter(if rs == [] then next else Max(next, rs[|rs| - 1].offset + 1), orphans[1..])
  }

  /** Repairing one file leaves every other file's contribution alone. */
  lemma {:induction false} ContributionFrame(f: Framing, d1: WalDir, d2: WalDir, uploaded: seq<SegmentEntry>, bases: seq<int>)
    requires forall i :: 0 <= i < |bases| ==> bases[i] in d1 && bases[i] in d2 && d1[bases[i]] == d2[bases[i]]
    ensures Contribution(f, d1, uploaded, bases) == Contribution(f, d2, uploaded, bases)
  {
    if bases != [] {
      ContributionFrame(f, d1, d2, uploaded, bases[1..]);
    }
  }

  lemma VisitFinds(f: Framing, dir: WalDir, p: Progress, rest: seq<Orphan>)
    requires p.todo != [] && p.todo[0] in dir
    ensures var one := AsOrphan(p.todo[0], Found(f, dir, p.uploaded, p.todo[0]));
            && Visit(f, dir, p).orphans + rest == p.orphans + (one + rest)
            && NextAfter(Visit(f, dir, p).nextOffset, rest) == NextAfter(p.nextOffset, one + rest)
  {
    var rs := Found(f, dir, p.uploaded, p.todo[0]);
    if rs == [] {
      assert [] + rest == rest;
    } else {
      assert ([Orphan(p.todo[0], rs)] + rest)[1..] == rest;
    }
  }

  /** What was found and what the files to come contribute add up to the same throughout. */
  ghost predicate AddsUp(f: Framing, dir: WalDir, p: Progress, uploaded: seq<SegmentEntry>, total: seq<Orphan>, next: int) {
    && p.uploaded == uploaded && AllIn(p.todo, dir)
    && p.orphans + Contribution(f, dir, uploaded, p.todo) == total
    && NextAfter(p.nextOffset, Contribution(f, dir, uploaded, p.todo)) == next
  }

  lemma VisitAddsUp(f: Framing, dir: WalDir, p: Progress, removes: bool, uploaded: seq<SegmentEntry>, total: seq<Orphan>, next: int)
    requires Visitable(dir, p) && p.todo != [] && AddsUp(f, dir, p, uploaded, total, next)
    ensures AddsUp(f, Repair(f, dir, p.uploaded, p.todo[0], removes), Visit(f, dir, p), uploaded, total, next)
  {
    VisitKeepsVisitable(f, dir, p, removes);
    ContributionFrame(f, dir, Repair(f, dir, p.uploaded, p.todo[0], removes), uploaded, p.todo[1..]);
    VisitFinds(f, dir, p, Contribution(f, dir, uploaded, p.todo[1..]));
  }

  lemma AdvanceAddsUp(f: Framing, dir: WalDir, p: Progress, stuck: set<int>)
    requires Visitable(dir, p) && p.orphans == []
    ensures var r := Advance(f, dir, p, stuck, |p.todo|).1;
            var c := Contribution(f, dir, p.uploaded, p.todo);
            r == Progress([], p.uploaded, c, NextAfter(p.nextOffset, c))
  {
    var c := Contribution(f, dir, p.uploaded, p.todo);
    var inv := (d, q) => AddsUp(f, d, q, p.uploaded, c, NextAfter(p.nextOffset, c));
    forall d, q, removes | Visitable(d, q) && q.todo != [] && inv(d, q)
      ensures inv(Repair(f, d, q.uploaded, q.todo[0], removes), Visit(f, d, q))
    {
      VisitAddsUp(f, d, q, removes, p.uploaded, c, NextAfter(p.nextOffset, c));
    }
    assert [] + c == c;
    AdvancePreserves(f, inv, dir, p, stuck, |p.todo|);
    var r := Advance(f, dir, p, stuck, |p.todo|);
    assert inv(r.0, r.1) && r.1.todo == [];
    assert r.1.orphans + [] == r.1.orphans;
  }

  lemma RecoverIsFinish(f: Framing, dir: WalDir, uploaded: seq<SegmentEntry>, bases: seq<int>, stuck: set<int>)
    requires Enumerates(bases, dir)
    ensures Recover(f, dir, uploaded, bases, stuck).1
         == Finish(Advance(f, dir, Begin(uploaded, bases), stuck, |Begin(uploaded, bases).todo|).1)
  {
  }

  /** What recovery hands over depends only on the contributions of the files, not on which removals fail. */
  lemma RecoverClosed(f: Framing, dir: WalDir, uploaded: seq<SegmentEntry>, bases: seq<int>, stuck: set<int>)
    requires Enumerates(bases, dir)
    ensures var c := Contribution(f, dir, uploaded, bases);
            Recover(f, dir, uploaded, bases, stuck).1
            == Finish(Progress([], uploaded, c, NextAfter(UploadedEnd(uploaded), c)))
  {
    RecoverIsFinish(f, dir, uploaded, bases, stuck);
    AdvanceAddsUp(f, dir, Begin(uploaded, bases), stuck);
  }

  /** What one visit leaves behind is worth the same to a second recovery. */
  lemma RepairedFileContributesTheSame(f: Framing, dir: WalDir, uploaded: seq<SegmentEntry>, base: int, removes: bool)
    requires Lawful(f) && base in dir
    ensures var dir' := Repair(f, dir, uploaded, base, removes);
            if base in dir' then Found(f, dir', uploaded, base) == Found(f, dir, uploaded, base)
            else Found(f, dir, uploaded, base) == []
  {
    ScanTruncateFixed(f, dir[base]);
  }

  ghost predicate SameOrEmptier(f: Framing, before: WalDir, after: WalDir, uploaded: seq<SegmentEntry>) {
    && after.Keys <= before.Keys
    && (forall b :: b in before ==>
          if b in after then Found(f, after, uploaded, b) == Found(f, before, uploaded, b)
          else Found(f, before, uploaded, b) == [])
  }

  lemma RepairKeepsWorth(f: Framing, before: WalDir, dir: WalDir, uploaded: seq<SegmentEntry>, base: int, removes: bool)
    requires Lawful(f) && SameOrEmptier(f, before, dir, uploaded) && base in dir
    ensures SameOrEmptier(f, before, Repair(f, dir, uploaded, base, removes), uploaded)
  {
    RepairedFileContributesTheSame(f, dir, uploaded, base, removes);
  }

  lemma AdvanceKeepsWorth(f: Framing, dir: WalDir, p: Progress, stuck: set<int>, n: nat)
    requires Lawful(f) && Visitable(dir, p) && n <= |p.todo|
    ensures SameOrEmptier(f, dir, Advance(f, dir, p, stuck, n).0, p.uploaded)
  {
    var inv := (d, q: Progress) => q.uploaded == p.uploaded && SameOrEmptier(f, dir, d, p.uploaded);
    forall d, q, removes | Visitable(d, q) && q.todo != [] && inv(d, q)
      ensures inv(Repair(f, d, q.uploaded, q.todo[0], removes), Visit(f, d, q))
    {
      RepairKeepsWorth(f, dir, d, p.uploaded, q.todo[0], removes);
    }
    AdvancePreserves(f, inv, dir, p, stuck, n);
  }

  /** Two sorted enumerations of directories with the same contributions contribute the same list. */
  lemma {:induction false} ContributionOfSurvivors(f: Framing, before: WalDir, after: WalDir, uploaded: seq<SegmentEntry>,
                                                   xs: seq<int>, ys: seq<int>)
    requires SameOrEmptier(f, before, after, uploaded) && Increasing(xs) && Increasing(ys)
    requires AllIn(xs, before) && AllIn(ys, after)
    requires forall i :: 0 <= i < |ys| ==> ys[i] in xs
    requires forall i :: 0 <= i < |xs| && xs[i] in after ==> xs[i] in ys
    ensures Contribution(f, before, uploaded, xs) == Contribution(f, after, uploaded, ys)
    decreases |xs|
  {
    if xs == [] {
      assert forall y :: y in ys ==> y in xs;
      assert ys == [];
    } else if xs[0] in after {
      assert xs[0] in ys;
      assert ys[0] == xs[0];
      ContributionOfSurvivors(f, before, after, uploaded, xs[1..], ys[1..]);
    } else {
      forall i | 0 <= i < |ys| ensures ys[i] in xs[1..] {
        assert ys[i] in xs && ys[i] != xs[0];
      }
      ContributionOfSurvivors(f, before, after, uploaded, xs[1..], ys);
    }
  }

  lemma EnumeratesSubset(dir: WalDir, bases: seq<int>, dir': WalDir, bases': seq<int>)
    requires Enumerates(bases, dir) && Enumerates(bases', dir') && dir'.Keys <= dir.Keys
    ensures forall i :: 0 <= i < |bases'| ==> bases'[i] in bases
  {
    forall i | 0 <= i < |bases'| ensures bases'[i] in bases {
      var b := bases'[i];
      assert b in dir';
      assert b in dir'.Keys;
      assert b in dir;
    }
  }

  /**
   Stop recovery after any number of files and run it again on the directory it left, for any
   directory and any manifest and whichever removals fail in either run: the second run hands over
   exactly what the first would have.
   */
  lemma InterruptedRecoveryIsIdempotent(f: Framing, dir: WalDir, uploaded: seq<SegmentEntry>,
                                        bases: seq<int>, stuck: set<int>, n: nat, bases': seq<int>, stuck': set<int>)
    requires Lawful(f) && Enumerates(bases, dir) && n <= |bases|
    requires Enumerates(bases', Advance(f, dir, Begin(uploaded, bases), stuck, n).0)
    ensures Recover(f, Advance(f, dir, Begin(uploaded, bases), stuck, n).0, uploaded, bases', stuck').1
         == Recover(f, dir, uploaded, bases, stuck).1
  {
    var dir' := Advance(f, dir, Begin(uploaded, bases), stuck, n).0;
    AdvanceKeepsWorth(f, dir, Begin(uploaded, bases), stuck, n);
    EnumeratesSubset(dir, bases, dir', bases');
    ContributionOfSurvivors(f, dir, dir', uploaded, bases, bases');
    RecoverClosed(f, dir, uploaded, bases, stuck);
    RecoverClosed(f, dir', uploaded, bases', stuck');
  }
}
