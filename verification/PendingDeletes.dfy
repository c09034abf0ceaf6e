/**
 The pending-delete file (kafkrs-server/src/pending_deletes.rs): any number of tasks append to it and
 remove from it, each through a load, a change and a rewrite under one lock.
 */
module PendingDeletes {
  import opened Options
  import opened AtomicFile
  import opened Manifest

  /** The manifest of one partition as it stood when its topic was deleted. */
  datatype Snapshot = Snapshot(partition: nat, segments: seq<SegmentEntry>)

  datatype PendingDelete = PendingDelete(topic: string, uuid: string, manifests: seq<Snapshot>, createdNs: int)

  datatype Op = Append(record: PendingDelete) | Remove(uuid: string)

  /** `retain(|r| r.uuid != uuid)`. */
  function Without(rs: seq<PendingDelete>, uuid: string): (kept: seq<PendingDelete>)
    ensures forall r :: r in kept <==> r in rs && r.uuid != uuid
  {
    if rs == [] then []
    else if rs[0].uuid == uuid then Without(rs[1..], uuid)
    else [rs[0]] + Without(rs[1..], uuid)
  }

  function Perform(op: Op, rs: seq<PendingDelete>): seq<PendingDelete> {
    match op
    case Append(record) => rs + [record]
    case Remove(uuid) => Without(rs, uuid)
  }

  // ------------------------------------------------------------------------------------------
  // Tasks

  /** How far a task has come: waiting for the lock, holding it, with the file loaded, with the temporary file written. */
  datatype Stage = Waiting | Holding | Loaded(current: seq<PendingDelete>) | Written | Finished(ok: bool)

  datatype Task = Task(op: Op, stage: Stage)

  /** An operation whose rename went through, and the task that ran it. */
  datatype Commit = Commit(task: nat, op: Op)

  /** The file and its temporary neighbour, the lock, the tasks. `committed` is never read. */
  datatype State = State(target: Content<seq<PendingDelete>>, tmp: Content<seq<PendingDelete>>, lock: Option<nat>,
                         tasks: map<nat, Task>, issued: nat, committed: seq<Commit>)

  /** `ok` says whether the I/O of the step succeeded; a failure ends the task and frees the lock. */
  datatype Event =
    | Arrive(op: Op)
    | Acquire(id: nat)
    | Load(id: nat, ok: bool)
    | WriteTmp(id: nat, ok: bool)
    | Rename(id: nat, ok: bool)
    | Crash

  function Empty(): State { State(Missing, Missing, None, map[], 0, []) }

  /** `load_all`: a missing file is an empty list. */
  function Contents(file: Content<seq<PendingDelete>>): seq<PendingDelete> {
    if file.Whole? then file.value else []
  }

  predicate At(s: State, id: nat) { id in s.tasks }

  predicate Enabled(s: State, e: Event) {
    match e
    case Arrive(_) => true
    case Acquire(id) => At(s, id) && s.tasks[id].stage.Waiting? && s.lock.None?
    case Load(id, ok) => At(s, id) && s.tasks[id].stage.Holding? && (s.target.Torn? ==> !ok)
    case WriteTmp(id, _) => At(s, id) && s.tasks[id].stage.Loaded?
    case Rename(id, _) => At(s, id) && s.tasks[id].stage.Written?
    case Crash => true
  }

  function Goto(s: State, id: nat, stage: Stage): State
    requires At(s, id)
  {
    s.(tasks := s.tasks[id := s.tasks[id].(stage := stage)])
  }

  function Fail(s: State, id: nat): State
    requires At(s, id)
  {
    Goto(s, id, Finished(false)).(lock := None)
  }

  function Apply(s: State, e: Event): State
    requires Enabled(s, e)
  {
    match e
    case Arrive(op) => s.(tasks := s.tasks[s.issued := Task(op, Waiting)], issued := s.issued + 1)
    case Acquire(id) => Goto(s, id, Holding).(lock := Some(id))
    case Load(id, ok) => if ok then Goto(s, id, Loaded(Contents(s.target))) else Fail(s, id)
    case WriteTmp(id, ok) =>
      var next := Perform(s.tasks[id].op, s.tasks[id].stage.current);
      if ok then Goto(s, id, Written).(tmp := Whole(next)) else Fail(s, id).(tmp := Torn)
    case Rename(id, ok) =>
      if ok then Goto(s, id, Finished(true)).(target := s.tmp, tmp := Missing, lock := None,
                                              committed := s.committed + [Commit(id, s.tasks[id].op)])
      else Fail(s, id)
    case Crash => s.(tmp := Torn, lock := None, tasks := map[])
  }

  predicate Possible(s: State, es: seq<Event>)
    decreases |es|
  {
    es != [] ==> Enabled(s, es[0]) && Possible(Apply(s, es[0]), es[1..])
  }

  function After(s: State, es: seq<Event>): State
    requires Possible(s, es)
    decreases |es|
  {
    if es == [] then s else After(Apply(s, es[0]), es[1..])
  }

  // ------------------------------------------------------------------------------------------
  // Every run is some serial order

  /** The operations one after another, starting from an empty list. */
  function Serial(cs: seq<Commit>): seq<PendingDelete> {
    if cs == [] then [] else Perform(cs[|cs| - 1].op, Serial(cs[..|cs| - 1]))
  }

  predicate Busy(stage: Stage) { stage.Holding? || stage.Loaded? || stage.Written? }

  /** What a task that holds the lock has seen is what the file still holds. */
  ghost predicate Current(s: State, t: Task) {
    && (t.stage.Loaded? ==> t.stage.current == Contents(s.target))
    && (t.stage.Written? ==> s.tmp == Whole(Perform(t.op, Contents(s.target))))
  }

  ghost predicate LockOk(s: State) {
    && (s.lock.Some? ==> s.lock.value in s.tasks)
    && forall id :: id in s.tasks ==>
         && (Busy(s.tasks[id].stage) <==> s.lock == Some(id))
         && Current(s, s.tasks[id])
  }

  /** Each task committed at most once, and a task that is still there did so exactly when it reported success. */
  ghost predicate CommitsOk(s: State) {
    && (forall id :: id in s.tasks ==> id < s.issued)
    && (forall i :: 0 <= i < |s.committed| ==> s.committed[i].task < s.issued)
    && (forall i, j :: 0 <= i < j < |s.committed| ==> s.committed[i].task != s.committed[j].task)
    && (forall id :: id in s.tasks && s.tasks[id].stage == Finished(true) ==> Commit(id, s.tasks[id].op) in s.committed)
    && (forall i :: 0 <= i < |s.committed| && s.committed[i].task in s.tasks ==>
          s.tasks[s.committed[i].task] == Task(s.committed[i].op, Finished(true)))
  }

  ghost predicate Inv(s: State) {
    && !s.target.Torn? && Contents(s.target) == Serial(s.committed)
    && LockOk(s)
    && CommitsOk(s)
  }

  lemma RenameKeepsLock(s: State, id: nat)
    requires LockOk(s) && Enabled(s, Rename(id, true))
    ensures LockOk(Apply(s, Rename(id, true)))
  {
  }

  lemma RenameKeepsCommits(s: State, id: nat)
    requires CommitsOk(s) && Enabled(s, Rename(id, true))
    ensures CommitsOk(Apply(s, Rename(id, true)))
  {
    var s' := Apply(s, Rename(id, true));
    assert forall i :: 0 <= i < |s.committed| ==> s.committed[i].task != id;
    assert s'.committed[|s.committed|] == Commit(id, s.tasks[id].op);
  }

  /** The rename puts in place what the serial order with this operation at its end leaves. */
  lemma RenameKeeps(s: State, id: nat)
    requires Inv(s) && Enabled(s, Rename(id, true))
    ensures Inv(Apply(s, Rename(id, true)))
  {
    var s' := Apply(s, Rename(id, true));
    RenameKeepsLock(s, id);
    RenameKeepsCommits(s, id);
    assert Current(s, s.tasks[id]);
    assert s'.committed[..|s.committed|] == s.committed;
  }

  lemma StepKeepsLock(s: State, e: Event)
    requires LockOk(s) && CommitsOk(s) && Enabled(s, e) && !(e.Rename? && e.ok)
    ensures LockOk(Apply(s, e))
  {
  }

  lemma StepKeepsCommits(s: State, e: Event)
    requires CommitsOk(s) && Enabled(s, e) && !(e.Rename? && e.ok)
    ensures CommitsOk(Apply(s, e))
  {
  }

  lemma {:induction false} RunKeeps(s: State, es: seq<Event>)
    requires Inv(s) && Possible(s, es)
    ensures Inv(After(s, es))
    decreases |es|
  {
    if es != [] {
      if es[0].Rename? && es[0].ok {
        RenameKeeps(s, es[0].id);
      } else {
        StepKeepsLock(s, es[0]);
        StepKeepsCommits(s, es[0]);
      }
      RunKeeps(Apply(s, es[0]), es[1..]);
    }
  }

  predicate RemovedIn(cs: seq<Commit>, uuid: string) {
    exists j :: 0 <= j < |cs| && cs[j].op == Remove(uuid)
  }

  /** The appended records in the order of their renames, without those whose UUID is removed later. */
  function Standing(cs: seq<Commit>): seq<PendingDelete> {
    if cs == [] then []
    else
      IfStanding(cs[0], cs[1..]) + Standing(cs[1..])
  }

  lemma RemovedInMore(cs: seq<Commit>, c: Commit, uuid: string)
    ensures RemovedIn(cs + [c], uuid) <==> RemovedIn(cs, uuid) || c.op == Remove(uuid)
  {
    var all := cs + [c];
    if j :| 0 <= j < |cs| && cs[j].op == Remove(uuid) { assert all[j].op == Remove(uuid); }
    if c.op == Remove(uuid) { assert all[|cs|].op == Remove(uuid); }
  }

  function IfStanding(c: Commit, later: seq<Commit>): seq<PendingDelete> {
    if c.op.Append? && !RemovedIn(later, c.op.record.uuid) then [c.op.record] else []
  }

  lemma WithoutFirst(first: seq<PendingDelete>, rest: seq<PendingDelete>, uuid: string)
    requires |first| <= 1
    ensures Without(first + rest, uuid) == (if first != [] && first[0].uuid != uuid then first else []) + Without(rest, uuid)
  {
    if first == [] {
      assert first + rest == rest;
    } else {
      assert (first + rest)[1..] == rest && first == [first[0]];
    }
  }

  lemma {:induction false} StandingMore(cs: seq<Commit>, c: Commit)
    ensures Standing(cs + [c])
         == if c.op.Append? then Standing(cs) + [c.op.record] else Without(Standing(cs), c.op.uuid)
  {
    if cs == [] {
      assert cs + [c] == [c] && [c][1..] == [];
    } else {
      assert (cs + [c])[1..] == cs[1..] + [c];
      StandingMore(cs[1..], c);
      var first, rest := IfStanding(cs[0], cs[1..]), Standing(cs[1..]);
      if cs[0].op.Append? { RemovedInMore(cs[1..], c, cs[0].op.record.uuid); }
      if c.op.Append? {
        assert first + (rest + [c.op.record]) == first + rest + [c.op.record];
      } else {
        WithoutFirst(first, rest, c.op.uuid);
      }
    }
  }

  /** The file holds every standing record as often as it was appended, in the order of the renames. */
  lemma {:induction false} SerialInOrder(cs: seq<Commit>)
    ensures Serial(cs) == Standing(cs)
  {
    if cs != [] {
      var n := |cs| - 1;
      SerialInOrder(cs[..n]);
      StandingMore(cs[..n], cs[n]);
      assert cs[..n] + [cs[n]] == cs;
    }
  }

  /**
   However the tasks interleave, fail or crash, the file can be parsed and holds what the committed operations leave
   when they run one after another in the order of their renames: every appended record whose UUID was not
   removed after it, in that order. Each operation ran once, and a task that reported success is among them.
   */
  lemma FileIsSerial(es: seq<Event>)
    requires Possible(Empty(), es)
    ensures var s := After(Empty(), es);
            && !s.target.Torn? && Contents(s.target) == Serial(s.committed) == Standing(s.committed)
            && (forall i, j :: 0 <= i < j < |s.committed| ==> s.committed[i].task != s.committed[j].task)
            && (forall id :: id in s.tasks ==>
                  (s.tasks[id].stage == Finished(true) <==> Commit(id, s.tasks[id].op) in s.committed))
  {
    RunKeeps(Empty(), es);
    SerialInOrder(After(Empty(), es).committed);
  }

  /** Position `i` appends `r` and nothing after it removes its UUID. */
  predicate Survives(cs: seq<Commit>, i: nat, r: PendingDelete) {
    && i < |cs| && cs[i].op == Append(r)
    && forall j :: i < j < |cs| ==> cs[j].op != Remove(r.uuid)
  }

  /** A record is in the file exactly when some append of it was not followed by a remove of its UUID. */
  lemma {:induction false} SerialHasIff(cs: seq<Commit>, r: PendingDelete)
    ensures r in Serial(cs) <==> exists i: nat :: Survives(cs, i, r)
  {
    if cs != [] {
      var n := |cs| - 1;
      var init := cs[..n];
      SerialHasIff(init, r);
      if i: nat :| Survives(init, i, r) && cs[n].op != Remove(r.uuid) {
        assert Survives(cs, i, r);
      }
      if cs[n].op == Append(r) {
        assert Survives(cs, n, r);
      }
      if i: nat :| Survives(cs, i, r) && i < n {
        assert Survives(init, i, r);
        assert cs[n].op != Remove(r.uuid);
      }
    }
  }

  /** No append is lost and nothing else is there, whatever the interleaving. */
  lemma PendingIff(es: seq<Event>, r: PendingDelete)
    requires Possible(Empty(), es)
    ensures var s := After(Empty(), es);
            r in Contents(s.target) <==> exists i: nat :: Survives(s.committed, i, r)
  {
    FileIsSerial(es);
    SerialHasIff(After(Empty(), es).committed, r);
  }

  // ------------------------------------------------------------------------------------------
  // The code of one task

  lemma {:induction false} WithoutAppend(rs: seq<PendingDelete>, last: PendingDelete, uuid: string)
    ensures Without(rs + [last], uuid) == Without(rs, uuid) + (if last.uuid == uuid then [] else [last])
  {
    if rs == [] {
      assert rs + [last] == [last];
    } else {
      WithoutAppend(rs[1..], last, uuid);
      assert (rs + [last])[1..] == rs[1..] + [last];
    }
  }

  method AppendRecord(file: ReplacedFile<seq<PendingDelete>>, record: PendingDelete, loads: bool, fault: Fault)
    returns (ok: bool)
    requires !file.target.Torn?
    modifies file
    ensures ok == (loads && fault.NoFault?)
    ensures file.target == if ok then Whole(Perform(Append(record), Contents(old(file.target)))) else old(file.target)
  {
    if !loads { return false; }
    var current := Contents(file.target);
    current := current + [record];
    ok := file.Replace(current, fault);
  }

  method RemoveRecord(file: ReplacedFile<seq<PendingDelete>>, uuid: string, loads: bool, fault: Fault) returns (ok: bool)
    requires !file.target.Torn?
    modifies file
    ensures ok == (loads && fault.NoFault?)
    ensures file.target == if ok then Whole(Perform(Remove(uuid), Contents(old(file.target)))) else old(file.target)
  {
    if !loads { return false; }
    var current := Contents(file.target);
    var kept: seq<PendingDelete> := [];
    for i := 0 to |current|
      invariant kept == Without(current[..i], uuid)
      invariant file.target == old(file.target)
    {
      WithoutAppend(current[..i], current[i], uuid);
      assert current[..i] + [current[i]] == current[..i + 1];
      if current[i].uuid != uuid { kept := kept + [current[i]]; }
    }
    assert current[..|current|] == current;
    ok := file.Replace(kept, fault);
  }

  // ------------------------------------------------------------------------------------------
  // The code of one task is a run of its steps

  /** The steps of the task that holds the lock, up to the first failure. */
  function TaskRun(id: nat, loads: bool, fault: Fault): seq<Event> {
    [Acquire(id)] + ([Load(id, loads)] + (if loads then WriteRun(id, fault) else []))
  }

  function WriteRun(id: nat, fault: Fault): seq<Event> {
    if fault.NoFault? || fault.RenameFails? then [WriteTmp(id, true)] + [Rename(id, fault.NoFault?)]
    else [WriteTmp(id, false)]
  }

  lemma OneMore(s: State, e: Event, es: seq<Event>)
    requires Enabled(s, e) && Possible(Apply(s, e), es)
    ensures Possible(s, [e] + es) && After(s, [e] + es) == After(Apply(s, e), es)
  {
    assert ([e] + es)[1..] == es;
  }

  lemma OnlyOne(s: State, e: Event)
    requires Enabled(s, e)
    ensures Possible(s, [e]) && After(s, [e]) == Apply(s, e)
  {
    assert [e][1..] == [];
  }

  /** What a task leaves behind. */
  ghost predicate TaskEnds(s: State, t: State, id: nat, op: Op, before: Content<seq<PendingDelete>>, ok: bool) {
    && t.lock.None? && At(t, id) && t.tasks[id] == Task(op, Finished(ok))
    && t.target == (if ok then Whole(Perform(op, Contents(before))) else before)
    && t.committed == (if ok then s.committed + [Commit(id, op)] else s.committed)
  }

  lemma WriteRefines(s: State, id: nat, fault: Fault)
    requires At(s, id) && s.tasks[id].stage == Loaded(Contents(s.target))
    ensures Possible(s, WriteRun(id, fault))
    ensures TaskEnds(s, After(s, WriteRun(id, fault)), id, s.tasks[id].op, s.target, fault.NoFault?)
  {
    if fault.NoFault? || fault.RenameFails? {
      var written := Apply(s, WriteTmp(id, true));
      OnlyOne(written, Rename(id, fault.NoFault?));
      OneMore(s, WriteTmp(id, true), [Rename(id, fault.NoFault?)]);
    } else {
      OnlyOne(s, WriteTmp(id, false));
    }
  }

  /**
   A task that finds the lock free runs through the machine's steps to what its code does to the file,
   commits exactly when the code reports success, and leaves the lock free.
   */
  lemma TaskRefines(s: State, id: nat, loads: bool, fault: Fault)
    requires Inv(s) && At(s, id) && s.tasks[id].stage.Waiting? && s.lock.None?
    ensures Possible(s, TaskRun(id, loads, fault))
    ensures TaskEnds(s, After(s, TaskRun(id, loads, fault)), id, s.tasks[id].op, s.target, loads && fault.NoFault?)
  {
    var held := Apply(s, Acquire(id));
    var loaded := Apply(held, Load(id, loads));
    var rest := if loads then WriteRun(id, fault) else [];
    if loads {
      WriteRefines(loaded, id, fault);
    }
    OneMore(held, Load(id, loads), rest);
    OneMore(s, Acquire(id), [Load(id, loads)] + rest);
  }
}
