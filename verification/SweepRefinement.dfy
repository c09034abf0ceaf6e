/** Every run of the sweep's code, whatever fails in it, is a run of the steps of `SweepTheorems`. */
module SweepRefinement {
  import opened AtomicFile
  import opened ObjectKeys
  import opened PendingDeletes
  import opened Sweep
  import opened SweepTheorems

  ghost predicate RunsTo(prefix: string, c: Scene, es: seq<Happening>, d: Scene) {
    SweepTheorems.Possible(prefix, c, es) && SweepTheorems.After(prefix, c, es) == d
  }

  /** Some steps lead from one scene to the other. */
  ghost predicate Leads(prefix: string, c: Scene, d: Scene) {
    exists es :: RunsTo(prefix, c, es, d)
  }

  lemma Stays(prefix: string, c: Scene)
    ensures Leads(prefix, c, c)
  {
    assert RunsTo(prefix, c, [], c);
  }

  lemma Then(prefix: string, c: Scene, e: Happening, d: Scene)
    requires SweepTheorems.Enabled(prefix, c, e) && Leads(prefix, Next(prefix, c, e), d)
    ensures Leads(prefix, c, d)
  {
    var es :| RunsTo(prefix, Next(prefix, c, e), es, d);
    SweepTheorems.OneMore(prefix, c, e, es);
    assert RunsTo(prefix, c, [e] + es, d);
  }

  /** The scene with a sweep at some phase, over some objects. */
  function At(c: Scene, objects: set<Path>, uuid: string, sweep: Sweeper): Scene {
    c.(cloud := c.cloud.(objects := objects, sweeps := c.cloud.sweeps[uuid := sweep]))
  }

  /** The scene after the sweep ended without success. */
  function Gone(c: Scene, objects: set<Path>, uuid: string): Scene {
    c.(cloud := c.cloud.(objects := objects, sweeps := c.cloud.sweeps - {uuid}))
  }

  /** The scene after it finished. */
  function Done(c: Scene, objects: set<Path>, uuid: string, left: set<Path>): Scene {
    Scene(c.cloud.(objects := objects, pending := Without(c.cloud.pending, uuid), sweeps := c.cloud.sweeps - {uuid}),
          c.seen.(finished := c.seen.finished[uuid := left]))
  }

  /** The first phase: on to the listing, or out at the first failure. */
  lemma {:induction false} SnapshotRefines(prefix: string, c: Scene, objects: set<Path>, r: PendingDelete,
                                           todo: seq<Path>, fails: set<Path>, d: Scene)
    requires var rest := DeleteRun(objects, todo, fails);
             if Deletable(todo, fails) then Leads(prefix, At(c, rest, r.uuid, Sweeper(r, Snapshotted([]))), d)
             else d == Gone(c, rest, r.uuid)
    ensures Leads(prefix, At(c, objects, r.uuid, Sweeper(r, Snapshotted(todo))), d)
    decreases |todo|
  {
    var here := At(c, objects, r.uuid, Sweeper(r, Snapshotted(todo)));
    if todo != [] {
      assert forall k :: k in todo <==> k == todo[0] || k in todo[1..];
      var ok := todo[0] !in fails;
      if ok {
        SnapshotRefines(prefix, c, objects - {todo[0]}, r, todo[1..], fails, d);
        assert Next(prefix, here, DeleteNext(r.uuid, true)) == At(c, objects - {todo[0]}, r.uuid, Sweeper(r, Snapshotted(todo[1..])));
      } else {
        assert Next(prefix, here, DeleteNext(r.uuid, false)) == Gone(c, objects, r.uuid);
        Stays(prefix, d);
      }
      Then(prefix, here, DeleteNext(r.uuid, ok), d);
    }
  }

  /** The second phase, for the first `n` of the listed keys. */
  lemma {:induction false} OrphansRefine(prefix: string, c: Scene, objects: set<Path>, r: PendingDelete,
                                         todo: seq<Path>, failed: set<Path>, n: nat, fails: set<Path>, d: Scene)
    requires n <= |todo|
    requires var failed' := failed + set k | k in todo[..n] && k in fails;
             Leads(prefix, At(c, OrphanRun(objects, todo[..n], fails), r.uuid, Sweeper(r, Listed(todo[n..], failed'))), d)
    ensures Leads(prefix, At(c, objects, r.uuid, Sweeper(r, Listed(todo, failed))), d)
    decreases n
  {
    var here := At(c, objects, r.uuid, Sweeper(r, Listed(todo, failed)));
    if n == 0 {
      assert OrphanRun(objects, todo[..0], fails) == objects;
      assert failed + (set k | k in todo[..0] && k in fails) == failed;
    } else {
      var key, ok := todo[0], todo[0] !in fails;
      var objects' := if ok then objects - {key} else objects;
      var failed' := if ok then failed else failed + {key};
      assert Next(prefix, here, DeleteNext(r.uuid, ok)) == At(c, objects', r.uuid, Sweeper(r, Listed(todo[1..], failed')));
      OrphansFirst(objects, todo, failed, n, fails);
      OrphansRefine(prefix, c, objects', r, todo[1..], failed', n - 1, fails, d);
      Then(prefix, here, DeleteNext(r.uuid, ok), d);
    }
  }

  lemma OrphansFirst(objects: set<Path>, todo: seq<Path>, failed: set<Path>, n: nat, fails: set<Path>)
    requires 0 < n <= |todo|
    ensures var key, ok := todo[0], todo[0] !in fails;
            var objects' := if ok then objects - {key} else objects;
            var failed' := if ok then failed else failed + {key};
            && OrphanRun(objects', todo[1..][..n - 1], fails) == OrphanRun(objects, todo[..n], fails)
            && failed' + (set k | k in todo[1..][..n - 1] && k in fails) == failed + (set k | k in todo[..n] && k in fails)
            && todo[1..][n - 1..] == todo[n..]
  {
    assert todo[..n] == [todo[0]] + todo[1..][..n - 1];
    assert forall k :: k in todo[..n] <==> k == todo[0] || k in todo[1..][..n - 1];
  }

  /** Where a run of the code leaves the scene. */
  function Ended(c: Scene, r: PendingDelete, w: Weather, listed: seq<Path>, after: set<Path>, ok: bool): Scene {
    if ok then Done(c, after, r.uuid, set k | k in listed && k in w.fails) else Gone(c, after, r.uuid)
  }

  lemma ListedRefines(prefix: string, c: Scene, objects: set<Path>, r: PendingDelete, w: Weather, listed: seq<Path>)
    requires Enumerates(listed, objects, ListOf(prefix, r))
    ensures var ok := !w.streamBreaks && w.fileLoads && w.fileFault.NoFault?;
            Leads(prefix, At(c, objects, r.uuid, Sweeper(r, Snapshotted([]))),
                  Ended(c, r, w, listed, OrphanRun(objects, Arrived(listed, w), w.fails), ok))
  {
    var ok := !w.streamBreaks && w.fileLoads && w.fileFault.NoFault?;
    var arrived := Arrived(listed, w);
    var n := |arrived|;
    assert listed[..n] == arrived;
    var rest := OrphanRun(objects, arrived, w.fails);
    var failed := {} + set k | k in listed[..n] && k in w.fails;
    var late := At(c, rest, r.uuid, Sweeper(r, Listed(listed[n..], failed)));
    var d := Ended(c, r, w, listed, rest, ok);
    if w.streamBreaks {
      assert Next(prefix, late, Break(r.uuid)) == Gone(c, rest, r.uuid);
      Stays(prefix, d);
      Then(prefix, late, Break(r.uuid), d);
    } else {
      assert listed[n..] == [] && arrived == listed;
      assert failed == set k | k in listed && k in w.fails;
      assert Next(prefix, late, Finish(r.uuid, ok)) == d;
      Stays(prefix, d);
      Then(prefix, late, Finish(r.uuid, ok), d);
    }
    OrphansRefine(prefix, c, objects, r, listed, {}, n, w.fails, d);
    var asked := At(c, objects, r.uuid, Sweeper(r, Snapshotted([])));
    assert Next(prefix, asked, List(r.uuid, listed)) == At(c, objects, r.uuid, Sweeper(r, Listed(listed, {})));
    Then(prefix, asked, List(r.uuid, listed), d);
  }

  /**
   From every scene with a pending record, and for every failure of a DELETE, of the LIST stream or of
   the pending-delete file, what one run of the code does to the objects, the pending records and the
   running sweeps is a run of the machine; it finishes exactly when the code reports success.
   */
  lemma SweepRefines(prefix: string, c: Scene, r: PendingDelete, w: Weather, listed: seq<Path>, after: set<Path>, ok: bool)
    requires r in c.cloud.pending && r.uuid !in c.cloud.sweeps
    requires SweepRun(r, prefix, w, listed, c.cloud.objects, after, ok)
    ensures Leads(prefix, c, Ended(c, r, w, listed, after, ok))
  {
    var todo := SnapshotKeys(prefix, r.topic, r.uuid, r.manifests);
    var d := Ended(c, r, w, listed, after, ok);
    if Deletable(todo, w.fails) {
      ListedRefines(prefix, c, DeleteRun(c.cloud.objects, todo, w.fails), r, w, listed);
    }
    SnapshotRefines(prefix, c, c.cloud.objects, r, todo, w.fails, d);
    assert Next(prefix, c, Start(r)) == At(c, c.cloud.objects, r.uuid, Sweeper(r, Snapshotted(todo)));
    Then(prefix, c, Start(r), d);
  }
}
