/**
 Starting the writer of one (topic, partition) from any number of tasks at once
 (kafkrs-server/src/startup.rs:26-42, 120-129), while deletes of the topic take the handle out of the
 map and later drop the key's lock (kafkrs-server/src/wire/dispatch/topic_admin.rs:207-216, 260-266).
 */
module SpawnLock {
  import opened Options

  /**
   Where a call of `spawn_partition` is: before it looks up the key's lock, waiting for it, holding
   it, recovering the partition, or over. `inserted` tells whether it put the handle in place.
   */
  datatype Pc =
    | Called
    | Waiting(lock: nat)
    | Holding(lock: nat)
    | Recovering(lock: nat)
    | Returned(inserted: bool)
    | Panicked

  /** The lock map's entry for the key, who holds which lock, and the call whose handle is in the map. */
  datatype State = State(entry: Option<nat>, locks: nat, owner: map<nat, nat>, calls: map<nat, Pc>, issued: nat, handle: Option<nat>)

  /**
   `Panic`: recovery or the writer's start failed, which drops the guard. `TakeHandle` and `DropEntry`
   are the two halves of a delete of the topic, which any number of tasks may run at once.
   */
  datatype Event =
    | Call | LookUp(id: nat) | Lock(id: nat) | Check(id: nat) | Insert(id: nat) | Panic(id: nat)
    | TakeHandle | DropEntry

  function Idle(): State { State(None, 0, map[], map[], 0, None) }

  predicate Enabled(s: State, e: Event) {
    match e
    case Call => true
    case LookUp(id) => id in s.calls && s.calls[id].Called?
    case Lock(id) => id in s.calls && s.calls[id].Waiting? && s.calls[id].lock !in s.owner
    case Check(id) => id in s.calls && s.calls[id].Holding?
    case Insert(id) => id in s.calls && s.calls[id].Recovering?
    case Panic(id) => id in s.calls && s.calls[id].Recovering?
    case TakeHandle => true
    case DropEntry => true
  }

  function Goto(s: State, id: nat, pc: Pc): State { s.(calls := s.calls[id := pc]) }

  function Release(s: State, lock: nat): State { s.(owner := s.owner - {lock}) }

  function Apply(s: State, e: Event): State
    requires Enabled(s, e)
  {
    match e
    case Call => Goto(s, s.issued, Called).(issued := s.issued + 1)
    case LookUp(id) =>
      if s.entry.Some? then Goto(s, id, Waiting(s.entry.value))
      else Goto(s, id, Waiting(s.locks)).(entry := Some(s.locks), locks := s.locks + 1)
    case Lock(id) =>
      var lock := s.calls[id].lock;
      Goto(s, id, Holding(lock)).(owner := s.owner[lock := id])
    case Check(id) =>
      var lock := s.calls[id].lock;
      if s.handle.Some? then Release(Goto(s, id, Returned(false)), lock) else Goto(s, id, Recovering(lock))
    case Insert(id) => Release(Goto(s, id, Returned(true)), s.calls[id].lock).(handle := Some(id))
    case Panic(id) => Release(Goto(s, id, Panicked), s.calls[id].lock)
    case TakeHandle => s.(handle := None)
    case DropEntry => s.(entry := None)
  }

  predicate InFlight(pc: Pc) { pc.Waiting? || pc.Holding? || pc.Recovering? }

  predicate Owns(pc: Pc) { pc.Holding? || pc.Recovering? }

  /** The lock entry may go while no call has looked it up and is still under way. */
  ghost predicate DropSafe(s: State) {
    forall id :: id in s.calls ==> !InFlight(s.calls[id])
  }

  ghost predicate Possible(s: State, es: seq<Event>)
    decreases |es|, 0
  {
    es != [] ==> Possible(s, es[..|es| - 1]) && Enabled(After(s, es[..|es| - 1]), es[|es| - 1])
  }

  ghost function After(s: State, es: seq<Event>): State
    requires Possible(s, es)
    decreases |es|, 1
  {
    if es == [] then s else Apply(After(s, es[..|es| - 1]), es[|es| - 1])
  }

  /** Every drop of the lock entry along the run is safe. */
  ghost predicate SafeRun(s: State, es: seq<Event>)
    requires Possible(s, es)
  {
    es != [] ==> SafeRun(s, es[..|es| - 1]) && (es[|es| - 1].DropEntry? ==> DropSafe(After(s, es[..|es| - 1])))
  }

  // ------------------------------------------------------------------------------------------
  // The invariant

  ghost predicate LocksOk(s: State) {
    && (s.entry.Some? ==> s.entry.value < s.locks)
    && (forall l :: l in s.owner ==> s.owner[l] in s.calls && Owns(s.calls[s.owner[l]]) && s.calls[s.owner[l]].lock == l)
    && (forall id :: id in s.calls ==>
          && id < s.issued
          && (InFlight(s.calls[id]) ==> s.calls[id].lock < s.locks)
          && (Owns(s.calls[id]) ==> s.calls[id].lock in s.owner && s.owner[s.calls[id].lock] == id))
  }

  /** Every call under way uses the lock of the map, and while one recovers no handle is there. */
  ghost predicate HandleOk(s: State) {
    && (forall id :: id in s.calls && InFlight(s.calls[id]) ==> s.entry == Some(s.calls[id].lock))
    && (s.handle.Some? ==> forall id :: id in s.calls ==> !s.calls[id].Recovering?)
    && (s.handle.Some? ==> s.handle.value in s.calls && s.calls[s.handle.value] == Returned(true))
  }

  ghost predicate Inv(s: State) { LocksOk(s) && HandleOk(s) }

  lemma StepKeepsLocks(s: State, e: Event)
    requires LocksOk(s) && Enabled(s, e)
    ensures LocksOk(Apply(s, e))
  {
  }

  lemma StepKeepsHandle(s: State, e: Event)
    requires Inv(s) && Enabled(s, e) && (e.DropEntry? ==> DropSafe(s))
    ensures HandleOk(Apply(s, e))
  {
  }

  lemma {:induction false} RunKeeps(s: State, es: seq<Event>)
    requires Inv(s) && Possible(s, es) && SafeRun(s, es)
    ensures Inv(After(s, es))
  {
    if es != [] {
      var init := es[..|es| - 1];
      RunKeeps(s, init);
      StepKeepsLocks(After(s, init), es[|es| - 1]);
      StepKeepsHandle(After(s, init), es[|es| - 1]);
    }
  }

  ghost predicate TwoRecover(s: State) {
    exists a, b :: a in s.calls && b in s.calls && a != b && s.calls[a].Recovering? && s.calls[b].Recovering?
  }

  /**
   However many calls and deletes interleave, as long as every drop of the lock entry finds no call
   under way, no two calls recover the partition at the same time.
   */
  lemma OneRecoversAtATime(es: seq<Event>)
    requires Possible(Idle(), es) && SafeRun(Idle(), es)
    ensures !TwoRecover(After(Idle(), es))
  {
    RunKeeps(Idle(), es);
  }

  lemma PrefixRun(s: State, es: seq<Event>, i: nat)
    requires Possible(s, es) && i <= |es|
    ensures Possible(s, es[..i]) && (SafeRun(s, es) ==> SafeRun(s, es[..i]))
    ensures i < |es| ==> Possible(s, es[..i + 1])
    ensures i < |es| ==> Enabled(After(s, es[..i]), es[i]) && After(s, es[..i + 1]) == Apply(After(s, es[..i]), es[i])
    decreases |es|
  {
    if i == |es| {
      assert es[..i] == es;
    } else {
      var n := |es| - 1;
      PrefixRun(s, es[..n], i);
      assert es[..n][..i] == es[..i];
      if i == n {
        assert es[..i + 1] == es;
      } else {
        assert es[..n][..i + 1] == es[..i + 1] && es[..n][i] == es[i];
      }
    }
  }

  /** Once inserted, a handle stays until a delete takes it. */
  lemma {:induction false} HandleStays(s: State, es: seq<Event>, i: nat, j: nat)
    requires Possible(s, es) && i <= j <= |es|
    requires forall k :: i <= k < j ==> !es[k].TakeHandle?
    ensures Possible(s, es[..i]) && Possible(s, es[..j])
    ensures After(s, es[..i]).handle.Some? ==> After(s, es[..j]).handle.Some?
    decreases j - i
  {
    PrefixRun(s, es, i);
    if i < j {
      HandleStays(s, es, i, j - 1);
      PrefixRun(s, es, j - 1);
      StepKeepsHandlePresent(After(s, es[..j - 1]), es[j - 1]);
    }
  }

  lemma StepKeepsHandlePresent(s: State, e: Event)
    requires Enabled(s, e) && !e.TakeHandle?
    ensures s.handle.Some? ==> Apply(s, e).handle.Some?
  {
  }

  /** Between two inserts a delete has taken the first handle: at most one insert per lifetime of a handle. */
  lemma OneInsertPerHandle(es: seq<Event>, i: nat, j: nat)
    requires Possible(Idle(), es) && SafeRun(Idle(), es)
    requires i < j < |es| && es[i].Insert? && es[j].Insert?
    ensures exists k :: i < k < j && es[k].TakeHandle?
  {
    PrefixRun(Idle(), es, i);
    PrefixRun(Idle(), es, j);
    RunKeeps(Idle(), es[..j]);
    if forall k :: i < k < j ==> !es[k].TakeHandle? {
      HandleStays(Idle(), es, i + 1, j);
      assert false;
    }
  }

  /** No delete of the topic takes part in the run. */
  predicate NoDelete(es: seq<Event>) {
    forall i :: 0 <= i < |es| ==> !es[i].TakeHandle? && !es[i].DropEntry?
  }

  ghost predicate ReturnedOk(s: State) {
    forall id :: id in s.calls && s.calls[id].Returned? ==>
      s.handle.Some? && (s.calls[id] == Returned(true) <==> s.handle == Some(id))
  }

  lemma {:induction false} NoDeleteKeepsReturned(es: seq<Event>)
    requires Possible(Idle(), es) && NoDelete(es)
    ensures SafeRun(Idle(), es) && Inv(After(Idle(), es)) && ReturnedOk(After(Idle(), es))
  {
    if es != [] {
      var init := es[..|es| - 1];
      NoDeleteKeepsReturned(init);
      RunKeeps(Idle(), es);
    }
  }

  /**
   Without a delete of the topic, for any number of interleaved calls: no two recover at once, at most
   one ever inserts a handle, and every call that returns does so with the handle in place.
   */
  lemma AtMostOneWriter(es: seq<Event>)
    requires Possible(Idle(), es) && NoDelete(es)
    ensures var s := After(Idle(), es);
            && !TwoRecover(s)
            && (forall a, b :: a in s.calls && b in s.calls && s.calls[a] == Returned(true) && s.calls[b] == Returned(true) ==> a == b)
            && (forall id :: id in s.calls && s.calls[id].Returned? ==>
                  s.handle.Some? && s.handle.value in s.calls && s.calls[s.handle.value] == Returned(true))
  {
    NoDeleteKeepsReturned(es);
  }

  // ------------------------------------------------------------------------------------------
  // Dropping the lock entry

  lemma Extends(s: State, es: seq<Event>, e: Event)
    requires Possible(s, es) && Enabled(After(s, es), e)
    ensures Possible(s, es + [e]) && After(s, es + [e]) == Apply(After(s, es), e)
  {
    assert (es + [e])[..|es|] == es;
  }

  /** Some call that has the dropped lock can get into recovery. */
  lemma ReachesRecovery(s: State, a: nat) returns (es: seq<Event>, b: nat)
    requires Inv(s) && s.handle.None? && a in s.calls && InFlight(s.calls[a])
    ensures Possible(s, es)
    ensures var t := After(s, es);
            && b in t.calls && b in s.calls && t.calls[b].Recovering? && t.handle.None?
            && t.entry == s.entry && t.locks == s.locks && t.issued == s.issued && LocksOk(t)
    ensures forall i :: 0 <= i < |es| ==> es[i].Lock? || es[i].Check?
  {
    var lock := s.calls[a].lock;
    es, b := [], a;
    if s.calls[a].Waiting? {
      if lock in s.owner {
        b := s.owner[lock];
      } else {
        Extends(s, [], Lock(a));
        es := [] + [Lock(a)];
        StepKeepsLocks(s, Lock(a));
      }
    }
    var t := After(s, es);
    if t.calls[b].Holding? {
      Extends(s, es, Check(b));
      StepKeepsLocks(t, Check(b));
      es := es + [Check(b)];
    }
  }

  /** With no entry in the map, a new call makes its own lock and recovers too. */
  lemma NewcomerRecovers(s: State) returns (es: seq<Event>)
    requires LocksOk(s) && s.entry.None? && s.handle.None?
    ensures Possible(s, es) && s.issued in After(s, es).calls && After(s, es).calls[s.issued].Recovering?
    ensures forall id :: id in s.calls ==> id in After(s, es).calls && After(s, es).calls[id] == s.calls[id]
    ensures forall i :: 0 <= i < |es| ==> !es[i].DropEntry?
  {
    var n := s.issued;
    assert n !in s.calls;
    es := [Call];
    Extends(s, [], Call);
    assert [] + [Call] == es;
    Extends(s, es, LookUp(n));
    es := es + [LookUp(n)];
    assert s.locks !in s.owner;
    Extends(s, es, Lock(n));
    es := es + [Lock(n)];
    Extends(s, es, Check(n));
    es := es + [Check(n)];
  }

  lemma {:induction false} RunsJoin(s: State, xs: seq<Event>, ys: seq<Event>)
    requires Possible(s, xs) && Possible(After(s, xs), ys)
    ensures Possible(s, xs + ys) && After(s, xs + ys) == After(After(s, xs), ys)
    decreases |ys|
  {
    if ys == [] {
      assert xs + ys == xs;
    } else {
      var n := |ys| - 1;
      RunsJoin(s, xs, ys[..n]);
      Extends(s, xs + ys[..n], ys[n]);
      assert xs + ys[..n] + [ys[n]] == xs + ys;
    }
  }

  lemma {:induction false} NoDropIsSafe(s: State, es: seq<Event>)
    requires Possible(s, es) && forall i :: 0 <= i < |es| ==> !es[i].DropEntry?
    ensures SafeRun(s, es)
  {
    if es != [] { NoDropIsSafe(s, es[..|es| - 1]); }
  }

  /** A run without another drop that ends with two calls in recovery. */
  ghost predicate LeadsToTwo(s: State, es: seq<Event>) {
    && Possible(s, es) && TwoRecover(After(s, es))
    && forall i :: 0 <= i < |es| ==> !es[i].DropEntry?
  }

  /** With a handle in place another delete takes it first. */
  lemma HandleGone(s: State) returns (es: seq<Event>)
    requires Inv(s)
    ensures Possible(s, es) && After(s, es) == s.(handle := None) && Inv(s.(handle := None))
    ensures forall i :: 0 <= i < |es| ==> es[i].TakeHandle?
  {
    if s.handle.None? {
      es := [];
    } else {
      Extends(s, [], TakeHandle);
      es := [TakeHandle];
      assert [] + [TakeHandle] == es;
    }
  }

  lemma UnsafeDropLeadsToTwo(s: State, a: nat) returns (es: seq<Event>)
    requires Inv(s) && a in s.calls && InFlight(s.calls[a])
    ensures LeadsToTwo(Apply(s, DropEntry), es)
  {
    var gone := HandleGone(s);
    var bare := s.(handle := None);
    var held, b := ReachesRecovery(bare, a);
    RunsJoin(s, gone, held);
    var first := gone + held;
    DropCommutes(s, first);
    var dropped := Apply(s, DropEntry);
    var t := After(dropped, first);
    var second := NewcomerRecovers(t);
    RunsJoin(dropped, first, second);
    es := first + second;
    assert b != t.issued;
  }

  /** Calls that already have their lock do not look at the map again. */
  lemma {:induction false} DropCommutes(s: State, es: seq<Event>)
    requires Possible(s, es) && forall i :: 0 <= i < |es| ==> es[i].Lock? || es[i].Check? || es[i].TakeHandle?
    ensures Possible(s.(entry := None), es) && After(s.(entry := None), es) == After(s, es).(entry := None)
  {
    if es != [] {
      DropCommutes(s, es[..|es| - 1]);
    }
  }

  /**
   Dropping the lock entry of a partition is harmless exactly when no call has looked the lock up and
   is still under way. Otherwise some run, in which later calls and deletes take part, has two calls
   recover the partition at once, whether or not a handle is in place when the entry goes.
   */
  lemma DropSafeIff(before: seq<Event>)
    requires Possible(Idle(), before) && SafeRun(Idle(), before)
    ensures var s := After(Idle(), before);
            DropSafe(s) <==> !exists es :: LeadsToTwo(Apply(s, DropEntry), es)
  {
    var s := After(Idle(), before);
    RunKeeps(Idle(), before);
    if DropSafe(s) {
      StepKeepsLocks(s, DropEntry);
      StepKeepsHandle(s, DropEntry);
      forall es | LeadsToTwo(Apply(s, DropEntry), es) ensures false {
        NoDropIsSafe(Apply(s, DropEntry), es);
        RunKeeps(Apply(s, DropEntry), es);
      }
    } else {
      var a :| a in s.calls && InFlight(s.calls[a]);
      var es := UnsafeDropLeadsToTwo(s, a);
    }
  }
}
