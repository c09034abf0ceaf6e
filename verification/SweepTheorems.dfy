/**
 Sweeps of many topics side by side, interrupted and replayed any number of times, while other
 topics go on writing objects (kafkrs-server/src/deletion.rs, kafkrs-server/src/main.rs:115-127).
 */
module SweepTheorems {
  import opened ObjectKeys
  import opened PendingDeletes
  import opened Sweep

  /** Deleting the snapshot's keys, then deleting what LIST returned; `failed` are the orphans whose DELETE failed. */
  datatype Phase = Snapshotted(todo: seq<Path>) | Listed(todo: seq<Path>, failed: set<Path>)

  datatype Sweeper = Sweeper(record: PendingDelete, phase: Phase)

  /** The object store, the pending-delete file and the sweeps now running, by UUID. */
  datatype Cloud = Cloud(objects: set<Path>, pending: seq<PendingDelete>, sweeps: map<string, Sweeper>)

  datatype Happening =
    | Put(topic: string, uuid: string, partition: nat, leaf: string)
    | Retire(record: PendingDelete)
    | Start(record: PendingDelete)
    | DeleteNext(uuid: string, ok: bool)
    | List(uuid: string, keys: seq<Path>)
    | Break(uuid: string)
    | Finish(uuid: string, ok: bool)
    | Halt

  /**
   What an observer has seen: the record of each retired UUID, what was left under it when its sweep
   finished, and the keys put.
   */
  datatype Witnessed = Witnessed(retired: map<string, PendingDelete>, finished: map<string, set<Path>>, puts: set<Path>)

  datatype Scene = Scene(cloud: Cloud, seen: Witnessed)

  function ListOf(prefix: string, r: PendingDelete): Path { ListPrefix(prefix, r.topic, r.uuid) }

  /** No writer is left for a retired UUID, and a UUID is retired once. */
  ghost predicate Enabled(prefix: string, c: Scene, e: Happening) {
    var cloud := c.cloud;
    match e
    case Put(topic, uuid, _, leaf) => NamesOk(topic, uuid) && Component(leaf) && uuid !in c.seen.retired
    case Retire(record) => NamesOk(record.topic, record.uuid) && record.uuid !in c.seen.retired
    case Start(record) => record in cloud.pending && record.uuid !in cloud.sweeps
    case DeleteNext(uuid, _) => uuid in cloud.sweeps && cloud.sweeps[uuid].phase.todo != []
    case List(uuid, keys) =>
      && uuid in cloud.sweeps && cloud.sweeps[uuid].phase.Snapshotted? && cloud.sweeps[uuid].phase.todo == []
      && Enumerates(keys, cloud.objects, ListOf(prefix, cloud.sweeps[uuid].record))
    case Break(uuid) => uuid in cloud.sweeps && cloud.sweeps[uuid].phase.Listed?
    case Finish(uuid, _) => uuid in cloud.sweeps && cloud.sweeps[uuid].phase.Listed? && cloud.sweeps[uuid].phase.todo == []
    case Halt => true
  }

  function PutScene(prefix: string, c: Scene, key: Path): Scene {
    Scene(c.cloud.(objects := c.cloud.objects + {key}), c.seen.(puts := c.seen.puts + {key}))
  }

  /** The record is saved before its sweep starts; the append is one step because it holds the file's lock. */
  function RetireScene(c: Scene, r: PendingDelete): Scene {
    Scene(c.cloud.(pending := c.cloud.pending + [r]), c.seen.(retired := c.seen.retired[r.uuid := r]))
  }

  function StartScene(prefix: string, c: Scene, r: PendingDelete): Scene {
    var todo := SnapshotKeys(prefix, r.topic, r.uuid, r.manifests);
    c.(cloud := c.cloud.(sweeps := c.cloud.sweeps[r.uuid := Sweeper(r, Snapshotted(todo))]))
  }

  /** A failed DELETE ends the first phase with an error; in the second it is only noted. */
  function DeleteScene(c: Scene, uuid: string, ok: bool): Scene
    requires uuid in c.cloud.sweeps && c.cloud.sweeps[uuid].phase.todo != []
  {
    var cloud := c.cloud;
    var phase := cloud.sweeps[uuid].phase;
    var key := phase.todo[0];
    if phase.Snapshotted? && !ok then c.(cloud := cloud.(sweeps := cloud.sweeps - {uuid}))
    else
      var phase' := if ok then phase.(todo := phase.todo[1..])
                    else Listed(phase.todo[1..], phase.failed + {key});
      c.(cloud := cloud.(objects := if ok then cloud.objects - {key} else cloud.objects,
                         sweeps := cloud.sweeps[uuid := cloud.sweeps[uuid].(phase := phase')]))
  }

  function ListScene(c: Scene, uuid: string, keys: seq<Path>): Scene
    requires uuid in c.cloud.sweeps
  {
    c.(cloud := c.cloud.(sweeps := c.cloud.sweeps[uuid := c.cloud.sweeps[uuid].(phase := Listed(keys, {}))]))
  }

  function BreakScene(c: Scene, uuid: string): Scene {
    c.(cloud := c.cloud.(sweeps := c.cloud.sweeps - {uuid}))
  }

  function FinishScene(c: Scene, uuid: string): Scene
    requires uuid in c.cloud.sweeps && c.cloud.sweeps[uuid].phase.Listed?
  {
    var cloud := c.cloud;
    Scene(cloud.(pending := Without(cloud.pending, uuid), sweeps := cloud.sweeps - {uuid}),
          c.seen.(finished := c.seen.finished[uuid := cloud.sweeps[uuid].phase.failed]))
  }

  function Next(prefix: string, c: Scene, e: Happening): Scene
    requires Enabled(prefix, c, e)
  {
    match e
    case Put(topic, uuid, partition, leaf) => PutScene(prefix, c, Join(prefix, topic, uuid, partition, leaf))
    case Retire(record) => RetireScene(c, record)
    case Start(record) => StartScene(prefix, c, record)
    case DeleteNext(uuid, ok) => DeleteScene(c, uuid, ok)
    case List(uuid, keys) => ListScene(c, uuid, keys)
    case Break(uuid) => BreakScene(c, uuid)
    case Finish(uuid, ok) => if ok then FinishScene(c, uuid) else BreakScene(c, uuid)
    case Halt => c.(cloud := c.cloud.(sweeps := map[]))
  }

  ghost predicate Possible(prefix: string, c: Scene, es: seq<Happening>)
    decreases |es|
  {
    es != [] ==> Enabled(prefix, c, es[0]) && Possible(prefix, Next(prefix, c, es[0]), es[1..])
  }

  function After(prefix: string, c: Scene, es: seq<Happening>): Scene
    requires Possible(prefix, c, es)
    decreases |es|
  {
    if es == [] then c else After(prefix, Next(prefix, c, es[0]), es[1..])
  }

  /** A store with any objects in it and nothing to delete. */
  function Opening(objects: set<Path>): Scene {
    Scene(Cloud(objects, [], map[]), Witnessed(map[], map[], {}))
  }

  // ------------------------------------------------------------------------------------------
  // The invariant

  ghost predicate Known(retired: map<string, PendingDelete>, r: PendingDelete) {
    NamesOk(r.topic, r.uuid) && r.uuid in retired && retired[r.uuid] == r
  }

  /** After LIST, everything under the prefix is still to be deleted or failed to be. */
  ghost predicate PhaseOk(objects: set<Path>, list: Path, phase: Phase) {
    match phase
    case Snapshotted(todo) => forall k :: k in todo ==> Under(list, k)
    case Listed(todo, failed) =>
      && (forall k :: k in objects && Under(list, k) <==> k in todo || k in failed)
      && (forall k :: k in todo ==> k !in failed)
      && (forall i, j :: 0 <= i < j < |todo| ==> todo[i] != todo[j])
  }

  ghost predicate SweepsOk(prefix: string, cloud: Cloud) {
    forall u :: u in cloud.sweeps ==>
      && cloud.sweeps[u].record.uuid == u
      && cloud.sweeps[u].record in cloud.pending
      && PhaseOk(cloud.objects, ListOf(prefix, cloud.sweeps[u].record), cloud.sweeps[u].phase)
  }

  /** What a finished sweep left is all there is under its prefix, and it is not pending any more. */
  ghost predicate FinishedOk(prefix: string, objects: set<Path>, pending: seq<PendingDelete>, seen: Witnessed) {
    forall u :: u in seen.finished ==>
      && u in seen.retired && NamesOk(seen.retired[u].topic, u)
      && (forall r :: r in pending ==> r.uuid != u)
      && (forall k :: k in objects && Under(ListPrefix(prefix, seen.retired[u].topic, u), k) <==> k in seen.finished[u])
  }

  /** The key belongs to no retired incarnation. */
  ghost predicate Foreign(prefix: string, retired: map<string, PendingDelete>, key: Path) {
    forall u :: u in retired ==> !Under(ListPrefix(prefix, retired[u].topic, u), key)
  }

  ghost predicate OthersOk(prefix: string, initial: set<Path>, objects: set<Path>, seen: Witnessed) {
    forall k :: Foreign(prefix, seen.retired, k) ==> (k in objects <==> k in initial || k in seen.puts)
  }

  ghost predicate Inv(prefix: string, initial: set<Path>, c: Scene) {
    && (forall r :: r in c.cloud.pending ==> Known(c.seen.retired, r))
    && (forall u :: u in c.seen.retired ==> NamesOk(c.seen.retired[u].topic, u))
    && SweepsOk(prefix, c.cloud)
    && FinishedOk(prefix, c.cloud.objects, c.cloud.pending, c.seen)
    && OthersOk(prefix, initial, c.cloud.objects, c.seen)
  }

  // ------------------------------------------------------------------------------------------
  // Every step keeps it

  lemma PutElsewhere(prefix: string, c: Scene, topic: string, uuid: string, partition: nat, leaf: string)
    requires forall u :: u in c.seen.retired ==> NamesOk(c.seen.retired[u].topic, u)
    requires NamesOk(topic, uuid) && Component(leaf) && uuid !in c.seen.retired
    ensures Foreign(prefix, c.seen.retired, Join(prefix, topic, uuid, partition, leaf))
  {
    var key := Join(prefix, topic, uuid, partition, leaf);
    JoinedUnder(prefix, topic, uuid, partition, leaf);
    forall u | u in c.seen.retired ensures !Under(ListPrefix(prefix, c.seen.retired[u].topic, u), key) {
      if Under(ListPrefix(prefix, c.seen.retired[u].topic, u), key) {
        IncarnationsDisjoint(prefix, c.seen.retired[u].topic, u, topic, uuid, key);
      }
    }
  }

  lemma PutKeepsSweeps(prefix: string, c: Scene, key: Path)
    requires forall r :: r in c.cloud.pending ==> Known(c.seen.retired, r)
    requires SweepsOk(prefix, c.cloud) && Foreign(prefix, c.seen.retired, key)
    ensures SweepsOk(prefix, PutScene(prefix, c, key).cloud)
  {
    forall u | u in c.cloud.sweeps
      ensures PhaseOk(c.cloud.objects + {key}, ListOf(prefix, c.cloud.sweeps[u].record), c.cloud.sweeps[u].phase)
    {
      assert Known(c.seen.retired, c.cloud.sweeps[u].record);
      PhaseFrame(c.cloud.objects, key, ListOf(prefix, c.cloud.sweeps[u].record), c.cloud.sweeps[u].phase);
    }
  }

  lemma PutKeeps(prefix: string, initial: set<Path>, c: Scene, topic: string, uuid: string, partition: nat, leaf: string)
    requires Inv(prefix, initial, c) && NamesOk(topic, uuid) && Component(leaf) && uuid !in c.seen.retired
    ensures Inv(prefix, initial, PutScene(prefix, c, Join(prefix, topic, uuid, partition, leaf)))
  {
    PutElsewhere(prefix, c, topic, uuid, partition, leaf);
    PutForeignKeeps(prefix, initial, c, Join(prefix, topic, uuid, partition, leaf));
  }

  lemma PutForeignKeeps(prefix: string, initial: set<Path>, c: Scene, key: Path)
    requires Inv(prefix, initial, c) && Foreign(prefix, c.seen.retired, key)
    ensures Inv(prefix, initial, PutScene(prefix, c, key))
  {
    PutKeepsSweeps(prefix, c, key);
  }

  lemma RetireKeeps(prefix: string, initial: set<Path>, c: Scene, r: PendingDelete)
    requires Inv(prefix, initial, c) && NamesOk(r.topic, r.uuid) && r.uuid !in c.seen.retired
    ensures Inv(prefix, initial, RetireScene(c, r))
  {
    var retired' := c.seen.retired[r.uuid := r];
    forall k | Foreign(prefix, retired', k) ensures Foreign(prefix, c.seen.retired, k) {
      forall u | u in c.seen.retired ensures !Under(ListPrefix(prefix, c.seen.retired[u].topic, u), k) {
        assert u in retired' && retired'[u] == c.seen.retired[u];
      }
    }
  }

  lemma StartKeeps(prefix: string, initial: set<Path>, c: Scene, r: PendingDelete)
    requires Inv(prefix, initial, c) && r in c.cloud.pending
    ensures Inv(prefix, initial, StartScene(prefix, c, r))
  {
    SnapshotKeysUnder(prefix, r.topic, r.uuid, r.manifests);
  }

  /** The key about to be deleted is under the sweep's own prefix and no other. */
  lemma NextKeyIsOwn(prefix: string, c: Scene, initial: set<Path>, uuid: string)
    requires Inv(prefix, initial, c) && uuid in c.cloud.sweeps && c.cloud.sweeps[uuid].phase.todo != []
    ensures var key := c.cloud.sweeps[uuid].phase.todo[0];
            && Under(ListOf(prefix, c.cloud.sweeps[uuid].record), key)
            && !Foreign(prefix, c.seen.retired, key)
            && (forall u :: u in c.cloud.sweeps && u != uuid ==> !Under(ListOf(prefix, c.cloud.sweeps[u].record), key))
            && (forall u :: u in c.seen.finished ==> !Under(ListPrefix(prefix, c.seen.retired[u].topic, u), key))
  {
    var r := c.cloud.sweeps[uuid].record;
    var key := c.cloud.sweeps[uuid].phase.todo[0];
    assert PhaseOk(c.cloud.objects, ListOf(prefix, r), c.cloud.sweeps[uuid].phase);
    assert key in c.cloud.sweeps[uuid].phase.todo;
    assert Known(c.seen.retired, r);
    forall u | u in c.cloud.sweeps && u != uuid ensures !Under(ListOf(prefix, c.cloud.sweeps[u].record), key) {
      var q := c.cloud.sweeps[u].record;
      assert Known(c.seen.retired, q);
      if Under(ListOf(prefix, q), key) { IncarnationsDisjoint(prefix, r.topic, r.uuid, q.topic, q.uuid, key); }
    }
    forall u | u in c.seen.finished ensures !Under(ListPrefix(prefix, c.seen.retired[u].topic, u), key) {
      if Under(ListPrefix(prefix, c.seen.retired[u].topic, u), key) {
        IncarnationsDisjoint(prefix, r.topic, r.uuid, c.seen.retired[u].topic, u, key);
      }
    }
  }

  lemma PhaseAdvances(objects: set<Path>, list: Path, phase: Phase, ok: bool)
    requires PhaseOk(objects, list, phase) && phase.todo != [] && (ok || phase.Listed?)
    ensures var key := phase.todo[0];
            if ok then PhaseOk(objects - {key}, list, phase.(todo := phase.todo[1..]))
            else PhaseOk(objects, list, Listed(phase.todo[1..], phase.failed + {key}))
  {
    assert phase.todo == [phase.todo[0]] + phase.todo[1..];
    assert forall k :: k in phase.todo <==> k == phase.todo[0] || k in phase.todo[1..];
  }

  /** Objects of other incarnations do not matter to a sweep. */
  lemma PhaseFrame(objects: set<Path>, key: Path, list: Path, phase: Phase)
    requires PhaseOk(objects, list, phase) && !Under(list, key)
    ensures PhaseOk(objects - {key}, list, phase) && PhaseOk(objects + {key}, list, phase)
  {
  }

  lemma RemoveKeepsSweeps(prefix: string, initial: set<Path>, c: Scene, uuid: string)
    requires Inv(prefix, initial, c) && uuid in c.cloud.sweeps && c.cloud.sweeps[uuid].phase.todo != []
    ensures SweepsOk(prefix, DeleteScene(c, uuid, true).cloud)
  {
    var key := c.cloud.sweeps[uuid].phase.todo[0];
    NextKeyIsOwn(prefix, c, initial, uuid);
    PhaseAdvances(c.cloud.objects, ListOf(prefix, c.cloud.sweeps[uuid].record), c.cloud.sweeps[uuid].phase, true);
    forall u | u in c.cloud.sweeps && u != uuid
      ensures PhaseOk(c.cloud.objects - {key}, ListOf(prefix, c.cloud.sweeps[u].record), c.cloud.sweeps[u].phase)
    {
      PhaseFrame(c.cloud.objects, key, ListOf(prefix, c.cloud.sweeps[u].record), c.cloud.sweeps[u].phase);
    }
  }

  lemma RemoveKeepsOthers(prefix: string, initial: set<Path>, c: Scene, uuid: string)
    requires Inv(prefix, initial, c) && uuid in c.cloud.sweeps && c.cloud.sweeps[uuid].phase.todo != []
    ensures var objects' := c.cloud.objects - {c.cloud.sweeps[uuid].phase.todo[0]};
            FinishedOk(prefix, objects', c.cloud.pending, c.seen) && OthersOk(prefix, initial, objects', c.seen)
  {
    NextKeyIsOwn(prefix, c, initial, uuid);
  }

  lemma FailKeeps(prefix: string, initial: set<Path>, c: Scene, uuid: string)
    requires Inv(prefix, initial, c) && uuid in c.cloud.sweeps && c.cloud.sweeps[uuid].phase.todo != []
    ensures Inv(prefix, initial, DeleteScene(c, uuid, false))
  {
    var sweep := c.cloud.sweeps[uuid];
    if sweep.phase.Listed? {
      PhaseAdvances(c.cloud.objects, ListOf(prefix, sweep.record), sweep.phase, false);
    }
  }

  lemma DeleteKeeps(prefix: string, initial: set<Path>, c: Scene, uuid: string, ok: bool)
    requires Inv(prefix, initial, c) && uuid in c.cloud.sweeps && c.cloud.sweeps[uuid].phase.todo != []
    ensures Inv(prefix, initial, DeleteScene(c, uuid, ok))
  {
    if ok {
      RemoveKeepsSweeps(prefix, initial, c, uuid);
      RemoveKeepsOthers(prefix, initial, c, uuid);
    } else {
      FailKeeps(prefix, initial, c, uuid);
    }
  }

  lemma FinishKeeps(prefix: string, initial: set<Path>, c: Scene, uuid: string)
    requires Inv(prefix, initial, c) && uuid in c.cloud.sweeps
    requires c.cloud.sweeps[uuid].phase.Listed? && c.cloud.sweeps[uuid].phase.todo == []
    ensures Inv(prefix, initial, FinishScene(c, uuid))
  {
    var sweep := c.cloud.sweeps[uuid];
    assert Known(c.seen.retired, sweep.record);
    assert PhaseOk(c.cloud.objects, ListOf(prefix, sweep.record), sweep.phase);
  }

  lemma ListKeeps(prefix: string, initial: set<Path>, c: Scene, uuid: string, keys: seq<Path>)
    requires Inv(prefix, initial, c) && uuid in c.cloud.sweeps
    requires Enumerates(keys, c.cloud.objects, ListOf(prefix, c.cloud.sweeps[uuid].record))
    ensures Inv(prefix, initial, ListScene(c, uuid, keys))
  {
    assert PhaseOk(c.cloud.objects, ListOf(prefix, c.cloud.sweeps[uuid].record), Listed(keys, {}));
  }

  lemma StepKeeps(prefix: string, initial: set<Path>, c: Scene, e: Happening)
    requires Inv(prefix, initial, c) && Enabled(prefix, c, e)
    ensures Inv(prefix, initial, Next(prefix, c, e))
  {
    match e
    case Put(topic, uuid, partition, leaf) => PutKeeps(prefix, initial, c, topic, uuid, partition, leaf);
    case Retire(record) => RetireKeeps(prefix, initial, c, record);
    case Start(record) => StartKeeps(prefix, initial, c, record);
    case DeleteNext(uuid, ok) => DeleteKeeps(prefix, initial, c, uuid, ok);
    case List(uuid, keys) => ListKeeps(prefix, initial, c, uuid, keys);
    case Break(uuid) =>
    case Finish(uuid, ok) => if ok { FinishKeeps(prefix, initial, c, uuid); }
    case Halt =>
  }

  // ------------------------------------------------------------------------------------------
  // Nothing that a snapshot accounts for is left

  /** A snapshot's key that is still there is still to be deleted, in the first phase. */
  ghost predicate SnapshotGone(prefix: string, objects: set<Path>, sweep: Sweeper) {
    forall k :: k in objects && IsSnapshotKey(prefix, sweep.record, k) ==> sweep.phase.Snapshotted? && k in sweep.phase.todo
  }

  ghost predicate NoneOf(prefix: string, r: PendingDelete, keys: set<Path>) {
    forall k :: k in keys ==> !IsSnapshotKey(prefix, r, k)
  }

  ghost predicate Swept(prefix: string, c: Scene) {
    && (forall u :: u in c.seen.retired ==> c.seen.retired[u].uuid == u)
    && (forall u :: u in c.cloud.sweeps ==> SnapshotGone(prefix, c.cloud.objects, c.cloud.sweeps[u]))
    && (forall u :: u in c.seen.finished ==> u in c.seen.retired && NoneOf(prefix, c.seen.retired[u], c.seen.finished[u]))
  }

  lemma SnapshotKeyUnder(prefix: string, r: PendingDelete, key: Path)
    requires NamesOk(r.topic, r.uuid) && IsSnapshotKey(prefix, r, key)
    ensures Under(ListOf(prefix, r), key)
  {
    SnapshotKeysComplete(prefix, r, key);
    SnapshotKeysUnder(prefix, r.topic, r.uuid, r.manifests);
  }

  lemma PutKeepsSwept(prefix: string, c: Scene, key: Path)
    requires Swept(prefix, c) && SweepsOk(prefix, c.cloud) && Foreign(prefix, c.seen.retired, key)
    requires forall r :: r in c.cloud.pending ==> Known(c.seen.retired, r)
    ensures Swept(prefix, PutScene(prefix, c, key))
  {
    forall u | u in c.cloud.sweeps ensures SnapshotGone(prefix, c.cloud.objects + {key}, c.cloud.sweeps[u]) {
      var r := c.cloud.sweeps[u].record;
      assert Known(c.seen.retired, r);
      if IsSnapshotKey(prefix, r, key) { SnapshotKeyUnder(prefix, r, key); }
    }
  }

  lemma StartKeepsSwept(prefix: string, c: Scene, r: PendingDelete)
    requires Swept(prefix, c)
    ensures Swept(prefix, StartScene(prefix, c, r))
  {
    forall k | IsSnapshotKey(prefix, r, k) ensures k in SnapshotKeys(prefix, r.topic, r.uuid, r.manifests) {
      SnapshotKeysComplete(prefix, r, k);
    }
  }

  lemma DeleteKeepsSwept(prefix: string, c: Scene, uuid: string, ok: bool)
    requires Swept(prefix, c) && uuid in c.cloud.sweeps && c.cloud.sweeps[uuid].phase.todo != []
    ensures Swept(prefix, DeleteScene(c, uuid, ok))
  {
    var sweep := c.cloud.sweeps[uuid];
    var todo := sweep.phase.todo;
    assert SnapshotGone(prefix, c.cloud.objects, sweep);
    assert forall k :: k in todo <==> k == todo[0] || k in todo[1..] by { assert todo == [todo[0]] + todo[1..]; }
  }

  lemma FinishKeepsSwept(prefix: string, initial: set<Path>, c: Scene, uuid: string)
    requires Inv(prefix, initial, c) && Swept(prefix, c) && uuid in c.cloud.sweeps
    requires c.cloud.sweeps[uuid].phase.Listed? && c.cloud.sweeps[uuid].phase.todo == []
    ensures Swept(prefix, FinishScene(c, uuid))
  {
    var sweep := c.cloud.sweeps[uuid];
    assert Known(c.seen.retired, sweep.record);
    assert PhaseOk(c.cloud.objects, ListOf(prefix, sweep.record), sweep.phase);
    assert SnapshotGone(prefix, c.cloud.objects, sweep);
    forall k | k in sweep.phase.failed ensures !IsSnapshotKey(prefix, sweep.record, k) {
      assert k in c.cloud.objects;
    }
  }

  lemma StepKeepsSwept(prefix: string, initial: set<Path>, c: Scene, e: Happening)
    requires Inv(prefix, initial, c) && Swept(prefix, c) && Enabled(prefix, c, e)
    ensures Swept(prefix, Next(prefix, c, e))
  {
    if e.Put? {
      PutElsewhere(prefix, c, e.topic, e.uuid, e.partition, e.leaf);
      PutKeepsSwept(prefix, c, Join(prefix, e.topic, e.uuid, e.partition, e.leaf));
    } else if e.Start? {
      StartKeepsSwept(prefix, c, e.record);
    } else if e.DeleteNext? {
      DeleteKeepsSwept(prefix, c, e.uuid, e.ok);
    } else if e.Finish? && e.ok {
      FinishKeepsSwept(prefix, initial, c, e.uuid);
    }
  }

  lemma {:induction false} RunKeepsSwept(prefix: string, initial: set<Path>, c: Scene, es: seq<Happening>)
    requires Inv(prefix, initial, c) && Swept(prefix, c) && Possible(prefix, c, es)
    ensures Swept(prefix, After(prefix, c, es))
    decreases |es|
  {
    if es != [] {
      StepKeeps(prefix, initial, c, es[0]);
      StepKeepsSwept(prefix, initial, c, es[0]);
      RunKeepsSwept(prefix, initial, Next(prefix, c, es[0]), es[1..]);
    }
  }

  lemma {:induction false} RunKeeps(prefix: string, initial: set<Path>, c: Scene, es: seq<Happening>)
    requires Inv(prefix, initial, c) && Possible(prefix, c, es)
    ensures Inv(prefix, initial, After(prefix, c, es))
    decreases |es|
  {
    if es != [] {
      StepKeeps(prefix, initial, c, es[0]);
      RunKeeps(prefix, initial, Next(prefix, c, es[0]), es[1..]);
    }
  }

  // ------------------------------------------------------------------------------------------
  // What a finished sweep means

  /**
   After any number of interrupted and replayed sweeps of any topics, a UUID whose sweep once
   finished has no pending record, and what is under its prefix, then and ever after, is exactly
   what the finishing sweep failed to delete: nothing when no orphan delete failed, and never a segment
   or manifest that a snapshot of the topic accounts for.
   */
  lemma FinishedSweepLeavesOnlyFailures(prefix: string, initial: set<Path>, es: seq<Happening>, uuid: string)
    requires Possible(prefix, Opening(initial), es)
    requires uuid in After(prefix, Opening(initial), es).seen.finished
    ensures var c := After(prefix, Opening(initial), es);
            && uuid in c.seen.retired
            && (forall r :: r in c.cloud.pending ==> r.uuid != uuid)
            && (forall k :: k in c.cloud.objects && Under(ListPrefix(prefix, c.seen.retired[uuid].topic, uuid), k)
                       <==> k in c.seen.finished[uuid])
            && (forall k :: k in c.cloud.objects ==> !IsSnapshotKey(prefix, c.seen.retired[uuid], k))
  {
    RunKeeps(prefix, initial, Opening(initial), es);
    RunKeepsSwept(prefix, initial, Opening(initial), es);
    SnapshotKeysLeft(prefix, initial, After(prefix, Opening(initial), es), uuid);
  }

  lemma SnapshotKeysLeft(prefix: string, initial: set<Path>, c: Scene, uuid: string)
    requires Inv(prefix, initial, c) && Swept(prefix, c) && uuid in c.seen.finished
    ensures uuid in c.seen.retired && forall k :: k in c.cloud.objects ==> !IsSnapshotKey(prefix, c.seen.retired[uuid], k)
  {
    FinishedIsAll(prefix, c.cloud.objects, c.cloud.pending, c.seen, uuid);
    forall k | k in c.cloud.objects ensures !IsSnapshotKey(prefix, c.seen.retired[uuid], k) {
      if IsSnapshotKey(prefix, c.seen.retired[uuid], k) { SnapshotKeyUnder(prefix, c.seen.retired[uuid], k); }
    }
  }

  lemma FinishedIsAll(prefix: string, objects: set<Path>, pending: seq<PendingDelete>, seen: Witnessed, uuid: string)
    requires FinishedOk(prefix, objects, pending, seen) && uuid in seen.finished
    requires uuid in seen.retired ==> seen.retired[uuid].uuid == uuid
    ensures uuid in seen.retired && NamesOk(seen.retired[uuid].topic, seen.retired[uuid].uuid)
    ensures forall k :: k in objects && Under(ListOf(prefix, seen.retired[uuid]), k) ==> k in seen.finished[uuid]
  {
  }

  /** No sweep touches a key of an incarnation that was not deleted: such a key is there if and only if it was put. */
  lemma OtherKeysUntouched(prefix: string, initial: set<Path>, es: seq<Happening>,
                           topic: string, uuid: string, partition: nat, leaf: string)
    requires Possible(prefix, Opening(initial), es) && NamesOk(topic, uuid) && Component(leaf)
    requires uuid !in After(prefix, Opening(initial), es).seen.retired
    ensures var c := After(prefix, Opening(initial), es);
            var key := Join(prefix, topic, uuid, partition, leaf);
            key in c.cloud.objects <==> key in initial || key in c.seen.puts
  {
    RunKeeps(prefix, initial, Opening(initial), es);
    PutElsewhere(prefix, After(prefix, Opening(initial), es), topic, uuid, partition, leaf);
  }

  /** A record stays pending until its own sweep finishes: an interrupted sweep is always replayed. */
  lemma {:induction false} PendingUntilFinished(prefix: string, initial: set<Path>, c: Scene, es: seq<Happening>, r: PendingDelete)
    requires Inv(prefix, initial, c) && Possible(prefix, c, es) && r in c.cloud.pending
    ensures var d := After(prefix, c, es);
            r in d.cloud.pending || r.uuid in d.seen.finished
    decreases |es|
  {
    if es != [] {
      var d := Next(prefix, c, es[0]);
      StepKeeps(prefix, initial, c, es[0]);
      if r in d.cloud.pending {
        PendingUntilFinished(prefix, initial, d, es[1..], r);
      } else {
        assert r.uuid in d.seen.finished;
        FinishedForGood(prefix, d, es[1..], r.uuid);
      }
    }
  }

  lemma {:induction false} FinishedForGood(prefix: string, c: Scene, es: seq<Happening>, uuid: string)
    requires Possible(prefix, c, es) && uuid in c.seen.finished
    ensures uuid in After(prefix, c, es).seen.finished
    decreases |es|
  {
    if es != [] {
      FinishedForGood(prefix, Next(prefix, c, es[0]), es[1..], uuid);
    }
  }

  // ------------------------------------------------------------------------------------------
  // A sweep that reports success although an object stays

  function FailedOrphanRun(record: PendingDelete, key: Path): seq<Happening> {
    [Retire(record)] + ([Start(record)] + ([List(record.uuid, [key])] + ([DeleteNext(record.uuid, false)] + [Finish(record.uuid, true)])))
  }

  lemma OneMore(prefix: string, c: Scene, e: Happening, es: seq<Happening>)
    requires Enabled(prefix, c, e) && Possible(prefix, Next(prefix, c, e), es)
    ensures Possible(prefix, c, [e] + es) && After(prefix, c, [e] + es) == After(prefix, Next(prefix, c, e), es)
  {
    assert ([e] + es)[1..] == es;
  }

  /**
   An object that no snapshot lists and whose DELETE fails once: the sweep finishes, its record is gone,
   and the object is under the prefix still. By `FinishedSweepLeavesOnlyFailures` it stays there.
   */
  lemma FailedOrphanStays(prefix: string, topic: string, uuid: string)
    requires NamesOk(topic, uuid)
    ensures var key := Join(prefix, topic, uuid, 0, "manifest.json");
            var es := FailedOrphanRun(PendingDelete(topic, uuid, [], 0), key);
            && Possible(prefix, Opening({key}), es)
            && var c := After(prefix, Opening({key}), es);
               && uuid in c.seen.finished && c.seen.finished[uuid] == {key}
               && c.cloud.pending == [] && key in c.cloud.objects && Under(ListPrefix(prefix, topic, uuid), key)
  {
    var key := Join(prefix, topic, uuid, 0, "manifest.json");
    var r := PendingDelete(topic, uuid, [], 0);
    LeavesAreComponents(0);
    JoinedUnder(prefix, topic, uuid, 0, "manifest.json");
    var c0 := Opening({key});
    var c1 := RetireScene(c0, r);
    assert c1.cloud.pending == [r];
    var c2 := StartScene(prefix, c1, r);
    assert Enumerates([key], c2.cloud.objects, ListOf(prefix, r));
    var c3 := ListScene(c2, uuid, [key]);
    var c4 := DeleteScene(c3, uuid, false);
    assert c4.cloud.sweeps[uuid].phase == Listed([], {key});
    var c5 := FinishScene(c4, uuid);
    assert Without([r], uuid) == [];
    assert c5.cloud.pending == [] && key in c5.cloud.objects && c5.seen.finished[uuid] == {key};
    var finish := Finish(uuid, true);
    assert [finish] + [] == [finish];
    OneMore(prefix, c4, finish, []);
    OneMore(prefix, c3, DeleteNext(uuid, false), [finish]);
    OneMore(prefix, c2, List(uuid, [key]), [DeleteNext(uuid, false)] + [finish]);
    OneMore(prefix, c1, Start(r), [List(uuid, [key])] + ([DeleteNext(uuid, false)] + [finish]));
    OneMore(prefix, c0, Retire(r), [Start(r)] + ([List(uuid, [key])] + ([DeleteNext(uuid, false)] + [finish])));
    assert After(prefix, c0, FailedOrphanRun(r, key)) == c5;
  }
}
