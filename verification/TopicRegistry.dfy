/** The topic registry and its file (kafkrs-server/src/topic_registry.rs). */
module TopicRegistry {
  import opened Options
  import opened AtomicFile
  import opened TopicConfig

  datatype TopicEntry = TopicEntry(name: string, uuid: string, partitionCount: nat, createdAtNs: int, config: Overrides)

  datatype Error = AlreadyExists | Io | UnknownTopic | InvalidConfig(field: Field)

  datatype Reply = Created(uuid: string) | Deleted(uuid: string, partitionCount: nat) | Altered(config: Overrides) | Refused(error: Error)

  /** The topics in memory and those in `topics.json`, both by name. */
  datatype State = State(memory: map<string, TopicEntry>, disk: map<string, TopicEntry>)

  /** `fault`: what went wrong in the rewrite of the file; `prepares`: the WAL directories and manifests that follow were made. */
  datatype Event =
    | Create(name: string, partitionCount: nat, overrides: Overrides, uuid: string, now: int, fault: Fault, prepares: bool)
    | Ensure(name: string, partitionCount: nat, uuid: string, now: int, fault: Fault, prepares: bool)
    | Delete(name: string, fault: Fault)
    | Alter(name: string, patch: Overrides, fault: Fault)
    | Restart

  /** An auto-create looks the name up first and then is a create without overrides. */
  function AsCreate(e: Event): Event
    requires e.Ensure?
  {
    Create(e.name, e.partitionCount, NoOverrides(), e.uuid, e.now, e.fault, e.prepares)
  }

  function EntryOf(e: Event): TopicEntry
    requires e.Create?
  {
    TopicEntry(e.name, e.uuid, e.partitionCount, e.now, e.overrides)
  }

  /** What the caller is told. */
  function ReplyTo(memory: map<string, TopicEntry>, e: Event): Reply
    requires !e.Restart?
  {
    match e
    case Create(name, _, overrides, uuid, _, fault, prepares) =>
      if !Valid(overrides) then Refused(InvalidConfig(Validate(overrides).value))
      else if name in memory then Refused(AlreadyExists)
      else if fault.NoFault? && prepares then Created(uuid) else Refused(Io)
    case Ensure(name, _, uuid, _, fault, prepares) =>
      if name in memory then Refused(AlreadyExists)
      else if fault.NoFault? && prepares then Created(uuid) else Refused(Io)
    case Delete(name, fault) =>
      if name !in memory then Refused(UnknownTopic)
      else if fault.NoFault? then Deleted(memory[name].uuid, memory[name].partitionCount) else Refused(Io)
    case Alter(name, patch, fault) =>
      if name !in memory then Refused(UnknownTopic)
      else
        var merged := Merge(memory[name].config, patch);
        if !Valid(merged) then Refused(InvalidConfig(Validate(merged).value))
        else if fault.NoFault? then Altered(merged) else Refused(Io)
  }

  function CreateStep(s: State, e: Event): State
    requires e.Create?
  {
    if !Valid(e.overrides) || e.name in s.memory || !e.fault.NoFault? then s
    else
      var written := s.memory[e.name := EntryOf(e)];
      State(if e.prepares then written else s.memory, written)
  }

  function DeleteStep(s: State, name: string, fault: Fault): State {
    if name !in s.memory || !fault.NoFault? then s
    else State(s.memory - {name}, s.memory - {name})
  }

  function AlterStep(s: State, name: string, patch: Overrides, fault: Fault): State {
    if name !in s.memory || !fault.NoFault? then s
    else
      var merged := Merge(s.memory[name].config, patch);
      if !Valid(merged) then s
      else
        var next := s.memory[name := s.memory[name].(config := merged)];
        State(next, next)
  }

  function Apply(s: State, e: Event): State {
    match e
    case Create(_, _, _, _, _, _, _) => CreateStep(s, e)
    case Ensure(name, _, _, _, _, _) => if name in s.memory then s else CreateStep(s, AsCreate(e))
    case Delete(name, fault) => DeleteStep(s, name, fault)
    case Alter(name, patch, fault) => AlterStep(s, name, patch, fault)
    case Restart => State(s.disk, s.disk)
  }

  function After(s: State, es: seq<Event>): State {
    if es == [] then s else Apply(After(s, es[..|es| - 1]), es[|es| - 1])
  }

  function Empty(): State { State(map[], map[]) }

  // ------------------------------------------------------------------------------------------
  // Memory and file over whole runs

  /**
   The entry that a failed create left in the file: set by a create that rewrote the file and then
   failed, cleared by the next successful rewrite or restart.
   */
  function Leftover(s: State, e: Event, before: Option<TopicEntry>): Option<TopicEntry> {
    match e
    case Create(name, _, overrides, _, _, fault, prepares) =>
      if !Valid(overrides) || name in s.memory || !fault.NoFault? then before
      else if prepares then None else Some(EntryOf(e))
    case Ensure(name, _, _, _, fault, prepares) =>
      if name in s.memory || !fault.NoFault? then before
      else if prepares then None else Some(EntryOf(AsCreate(e)))
    case Restart => None
    case _ => if ReplyTo(s.memory, e).Refused? then before else None
  }

  function LeftAfter(es: seq<Event>): Option<TopicEntry> {
    if es == [] then None
    else
      var init := es[..|es| - 1];
      Leftover(After(Empty(), init), es[|es| - 1], LeftAfter(init))
  }

  function With(m: map<string, TopicEntry>, left: Option<TopicEntry>): map<string, TopicEntry> {
    if left.Some? then m[left.value.name := left.value] else m
  }

  ghost predicate EntriesOk(m: map<string, TopicEntry>) {
    forall n :: n in m ==> m[n].name == n && Valid(m[n].config)
  }

  ghost predicate Inv(s: State, left: Option<TopicEntry>) {
    && s.disk == With(s.memory, left)
    && (left.Some? ==> left.value.name !in s.memory)
    && EntriesOk(s.memory) && EntriesOk(s.disk)
  }

  lemma CreateKeeps(s: State, e: Event, left: Option<TopicEntry>)
    requires Inv(s, left) && e.Create?
    ensures Inv(CreateStep(s, e), Leftover(s, e, left))
  {
  }

  lemma ChangeKeeps(s: State, e: Event, left: Option<TopicEntry>)
    requires Inv(s, left) && !e.Create? && !e.Ensure?
    ensures Inv(Apply(s, e), Leftover(s, e, left))
  {
  }

  lemma StepKeeps(s: State, e: Event, left: Option<TopicEntry>)
    requires Inv(s, left)
    ensures Inv(Apply(s, e), Leftover(s, e, left))
  {
    if e.Create? {
      CreateKeeps(s, e, left);
    } else if e.Ensure? {
      CreateKeeps(s, AsCreate(e), left);
    } else {
      ChangeKeeps(s, e, left);
    }
  }

  /**
   After any run of creates, auto-creates, deletes, alters and restarts with any I/O failures, the
   file holds memory and at most one entry more: the one a failed create left, whose name is not in
   memory. Every entry in it validates.
   */
  lemma {:induction false} FileIsMemoryAndLeftover(es: seq<Event>)
    ensures var s := After(Empty(), es);
            && s.disk == With(s.memory, LeftAfter(es))
            && (LeftAfter(es).Some? ==> LeftAfter(es).value.name !in s.memory)
            && EntriesOk(s.memory) && EntriesOk(s.disk)
  {
    if es != [] {
      var init := es[..|es| - 1];
      FileIsMemoryAndLeftover(init);
      StepKeeps(After(Empty(), init), es[|es| - 1], LeftAfter(init));
    }
  }

  /** An alter is refused for its configuration exactly when the patch itself does not validate. */
  lemma AlterJudgesPatch(es: seq<Event>, name: string, patch: Overrides)
    requires name in After(Empty(), es).memory
    ensures Valid(Merge(After(Empty(), es).memory[name].config, patch)) <==> Valid(patch)
  {
    FileIsMemoryAndLeftover(es);
  }

  /** Nobody was told that this topic was deleted or altered. */
  ghost predicate LeftAlone(s: State, es: seq<Event>, name: string) {
    forall i :: 0 <= i < |es| && (es[i].Delete? || es[i].Alter?) && es[i].name == name ==>
      ReplyTo(After(s, es[..i]).memory, es[i]).Refused?
  }

  lemma StepKeepsEntry(s: State, e: Event, name: string, entry: TopicEntry)
    requires name in s.memory && s.memory[name] == entry && name in s.disk && s.disk[name] == entry
    requires (e.Delete? || e.Alter?) && e.name == name ==> ReplyTo(s.memory, e).Refused?
    ensures var s' := Apply(s, e);
            name in s'.memory && s'.memory[name] == entry && name in s'.disk && s'.disk[name] == entry
  {
  }

  lemma {:induction false} EntrySurvives(s: State, es: seq<Event>, name: string, entry: TopicEntry)
    requires name in s.memory && s.memory[name] == entry && name in s.disk && s.disk[name] == entry
    requires LeftAlone(s, es, name)
    ensures var s' := After(s, es);
            name in s'.memory && s'.memory[name] == entry && name in s'.disk && s'.disk[name] == entry
  {
    if es != [] {
      var n := |es| - 1;
      var init := es[..n];
      forall i | 0 <= i < n ensures init[..i] == es[..i] {}
      EntrySurvives(s, init, name, entry);
      StepKeepsEntry(After(s, init), es[n], name, entry);
    }
  }

  /** The entry that an acknowledged create or auto-create made. */
  function EntryMade(e: Event): TopicEntry
    requires e.Create? || e.Ensure?
  {
    EntryOf(if e.Create? then e else AsCreate(e))
  }

  /** The entry says what the create asked for; an auto-create asks for no overrides. */
  ghost predicate AsAsked(entry: TopicEntry, e: Event)
    requires e.Create? || e.Ensure?
  {
    && entry.name == e.name && entry.uuid == e.uuid && entry.partitionCount == e.partitionCount && entry.createdAtNs == e.now
    && (e.Create? ==> entry.config == e.overrides)
    && (e.Ensure? ==> entry.config == Overrides(None, None, None, None, None, None, None, None, None, None))
  }

  /**
   Whatever came before, a topic whose creation was answered with its UUID stays, in memory and on
   disk, through every failure and restart, until a delete or an alter of it is acknowledged: with the
   name, UUID, partition count, creation time and configuration of the request.
   */
  lemma AckedTopicSurvives(before: seq<Event>, e: Event, after: seq<Event>)
    requires e.Create? || e.Ensure?
    requires var s := After(Empty(), before);
             ReplyTo(s.memory, e).Created? && LeftAlone(Apply(s, e), after, e.name)
    ensures var s := After(Empty(), before);
            var s' := After(Apply(s, e), after);
            && ReplyTo(s.memory, e) == Created(e.uuid)
            && e.name in s'.memory && AsAsked(s'.memory[e.name], e)
            && e.name in s'.disk && AsAsked(s'.disk[e.name], e)
  {
    EntrySurvives(Apply(After(Empty(), before), e), after, e.name, EntryMade(e));
  }

  /**
   A create that rewrites the file and then fails to prepare its partitions is refused and does not enter
   memory, but its entry is in the file: a restart right after it brings the topic up.
   */
  lemma RefusedCreateComesBack(before: seq<Event>, e: Event)
    requires (e.Create? && Valid(e.overrides)) || e.Ensure?
    requires e.fault.NoFault? && !e.prepares && e.name !in After(Empty(), before).memory
    ensures var s := After(Empty(), before);
            var s' := Apply(s, e);
            && ReplyTo(s.memory, e) == Refused(Io) && s'.memory == s.memory
            && e.name in s'.disk && AsAsked(s'.disk[e.name], e)
            && e.name in Apply(s', Restart).memory && AsAsked(Apply(s', Restart).memory[e.name], e)
  {
  }

  /** The delete that ends it answers with the UUID and the partition count of the create, and removes the topic. */
  lemma DeleteAnswersCreate(before: seq<Event>, e: Event, after: seq<Event>, fault: Fault)
    requires e.Create? || e.Ensure?
    requires var s := After(Empty(), before);
             ReplyTo(s.memory, e).Created? && LeftAlone(Apply(s, e), after, e.name)
    ensures var s := After(Apply(After(Empty(), before), e), after);
            var s' := Apply(s, Delete(e.name, fault));
            && (fault.NoFault? ==>
                  && ReplyTo(s.memory, Delete(e.name, fault)) == Deleted(e.uuid, e.partitionCount)
                  && e.name !in s'.memory && e.name !in s'.disk)
            && (!fault.NoFault? ==> ReplyTo(s.memory, Delete(e.name, fault)) == Refused(Io) && s' == s)
  {
    AckedTopicSurvives(before, e, after);
  }

  /** Every field of the entry but its configuration, which the patch overlays. */
  predicate AlteredFrom(entry: TopicEntry, was: TopicEntry, patch: Overrides) {
    && entry.name == was.name && entry.uuid == was.uuid
    && entry.partitionCount == was.partitionCount && entry.createdAtNs == was.createdAtNs
    && Overlays(entry.config, was.config, patch)
  }

  /**
   After any run, an alter is acknowledged exactly when the topic exists, the patch validates and the
   file is rewritten; it then overlays the configuration in memory and on disk, and answers with it.
   Otherwise nothing changes.
   */
  lemma AlterTakesEffect(before: seq<Event>, name: string, patch: Overrides, fault: Fault)
    ensures var s := After(Empty(), before);
            var s' := Apply(s, Alter(name, patch, fault));
            var reply := ReplyTo(s.memory, Alter(name, patch, fault));
            && (reply.Altered? <==> name in s.memory && Valid(patch) && fault.NoFault?)
            && (reply.Altered? ==>
                  && name in s'.memory && AlteredFrom(s'.memory[name], s.memory[name], patch)
                  && name in s'.disk && s'.disk[name] == s'.memory[name] && reply == Altered(s'.memory[name].config))
            && (!reply.Altered? ==> reply.Refused? && s' == s)
  {
    var s := After(Empty(), before);
    if name in s.memory {
      AlterJudgesPatch(before, name, patch);
      MergeOverlays(s.memory[name].config, patch);
    }
  }

  /** The change that the event asks for is possible. */
  predicate Possible(memory: map<string, TopicEntry>, e: Event)
    requires !e.Restart?
  {
    match e
    case Create(name, _, overrides, _, _, _, _) => name !in memory && Valid(overrides)
    case Ensure(name, _, _, _, _, _) => name !in memory
    case Delete(name, _) => name in memory
    case Alter(name, patch, _) => name in memory && Valid(Merge(memory[name].config, patch))
  }

  /** Each refusal names its reason: an unknown topic, one that exists, a bad configuration, or failed I/O on a possible change. */
  lemma RefusalsSayWhy(memory: map<string, TopicEntry>, e: Event, field: Field)
    requires !e.Restart?
    ensures ReplyTo(memory, e) == Refused(UnknownTopic) <==> (e.Delete? || e.Alter?) && e.name !in memory
    ensures ReplyTo(memory, e) == Refused(AlreadyExists) <==> (e.Ensure? || (e.Create? && Valid(e.overrides))) && e.name in memory
    ensures ReplyTo(memory, e) == Refused(Io)
       <==> Possible(memory, e) && (!e.fault.NoFault? || ((e.Create? || e.Ensure?) && !e.prepares))
    ensures ReplyTo(memory, e) == Refused(InvalidConfig(field))
       <==> (e.Create? && Validate(e.overrides) == Some(field))
            || (e.Alter? && e.name in memory && Validate(Merge(memory[e.name].config, e.patch)) == Some(field))
  {
  }

  /** Nothing but a restart touches the entry of another topic in memory, and a refusal touches none. */
  lemma OtherTopicsKept(s: State, e: Event, name: string)
    requires !e.Restart? && (e.name != name || ReplyTo(s.memory, e).Refused?)
    ensures name in Apply(s, e).memory <==> name in s.memory
    ensures name in s.memory ==> Apply(s, e).memory[name] == s.memory[name]
  {
  }

  // ------------------------------------------------------------------------------------------
  // The actor

  predicate DistinctNames(file: seq<TopicEntry>) {
    forall i, j :: 0 <= i < j < |file| ==> file[i].name != file[j].name
  }

  /** The file lists exactly the entries of the map, in some order. */
  ghost predicate Lists(file: seq<TopicEntry>, m: map<string, TopicEntry>) {
    && DistinctNames(file)
    && (forall i :: 0 <= i < |file| ==> file[i].name in m && m[file[i].name] == file[i])
    && (forall n :: n in m ==> m[n] in file)
  }

  /** `topics.values()`, in the map's own order. */
  method Values(m: map<string, TopicEntry>) returns (file: seq<TopicEntry>)
    requires forall n :: n in m ==> m[n].name == n
    ensures Lists(file, m)
  {
    file := [];
    var rest := m.Keys;
    while rest != {}
      invariant rest <= m.Keys
      invariant DistinctNames(file)
      invariant forall i :: 0 <= i < |file| ==> file[i].name in m && file[i].name !in rest && m[file[i].name] == file[i]
      invariant forall n :: n in m && n !in rest ==> m[n] in file
      decreases |rest|
    {
      var n :| n in rest;
      file := file + [m[n]];
      rest := rest - {n};
    }
  }

  /** The entries in the file; a missing file has none. */
  function Entries(file: Content<seq<TopicEntry>>): seq<TopicEntry> {
    if file.Whole? then file.value else []
  }

  class Registry {
    const file: ReplacedFile<seq<TopicEntry>>
    var topics: map<string, TopicEntry>
    ghost var disk: map<string, TopicEntry>

    ghost predicate Valid()
      reads this, file
    {
      EntriesOk(topics) && EntriesOk(disk) && !file.target.Torn? && Lists(Entries(file.target), disk)
    }

    constructor ()
      ensures Valid() && fresh(file) && State(topics, disk) == Empty()
    {
      file := new ReplacedFile();
      topics, disk := map[], map[];
    }

    /** `atomic_write_registry`; a fault in any of its steps leaves the old file. */
    method Rewrite(ghost next: map<string, TopicEntry>, body: seq<TopicEntry>, fault: Fault) returns (ok: bool)
      requires Valid() && EntriesOk(next) && Lists(body, next)
      modifies this, file
      ensures Valid() && topics == old(topics) && ok == fault.NoFault?
      ensures disk == if ok then next else old(disk)
    {
      ok := file.Replace(body, fault);
      if ok { disk := next; }
    }

    method CreateTopic(e: Event) returns (reply: Reply)
      requires Valid() && e.Create?
      modifies this, file
      ensures Valid() && State(topics, disk) == Apply(old(State(topics, disk)), e)
      ensures reply == ReplyTo(old(topics), e)
    {
      var invalid := Validate(e.overrides);
      if invalid.Some? { return Refused(InvalidConfig(invalid.value)); }
      if e.name in topics { return Refused(AlreadyExists); }
      var entry := EntryOf(e);
      var values := Values(topics);
      var written := Rewrite(topics[e.name := entry], values + [entry], e.fault);
      if !written || !e.prepares { return Refused(Io); }
      topics := topics[e.name := entry];
      return Created(entry.uuid);
    }

    method EnsureExists(e: Event) returns (reply: Reply)
      requires Valid() && e.Ensure?
      modifies this, file
      ensures Valid() && State(topics, disk) == Apply(old(State(topics, disk)), e)
      ensures reply == ReplyTo(old(topics), e)
    {
      if e.name in topics { return Refused(AlreadyExists); }
      reply := CreateTopic(AsCreate(e));
    }

    /** Removes first and puts the entry back when the rewrite fails. */
    method DeleteTopic(name: string, fault: Fault) returns (reply: Reply)
      requires Valid()
      modifies this, file
      ensures Valid() && State(topics, disk) == Apply(old(State(topics, disk)), Delete(name, fault))
      ensures reply == ReplyTo(old(topics), Delete(name, fault))
    {
      if name !in topics { return Refused(UnknownTopic); }
      var entry := topics[name];
      topics := topics - {name};
      var values := Values(topics);
      var written := Rewrite(topics, values, fault);
      if !written {
        topics := topics[name := entry];
        assert topics == old(topics);
        return Refused(Io);
      }
      return Deleted(entry.uuid, entry.partitionCount);
    }

    /** Swaps the configuration in first and puts the old one back when the rewrite fails. */
    method AlterTopic(name: string, patch: Overrides, fault: Fault) returns (reply: Reply)
      requires Valid()
      modifies this, file
      ensures Valid() && State(topics, disk) == Apply(old(State(topics, disk)), Alter(name, patch, fault))
      ensures reply == ReplyTo(old(topics), Alter(name, patch, fault))
    {
      if name !in topics { return Refused(UnknownTopic); }
      var previous := topics[name].config;
      var merged := Merge(previous, patch);
      var invalid := Validate(merged);
      if invalid.Some? { return Refused(InvalidConfig(invalid.value)); }
      topics := topics[name := topics[name].(config := merged)];
      var values := Values(topics);
      var written := Rewrite(topics, values, fault);
      if !written {
        topics := topics[name := topics[name].(config := previous)];
        assert topics == old(topics);
        return Refused(Io);
      }
      return Altered(merged);
    }

    /** `load`: reads the file back. The gate that refuses an invalid entry never fires. */
    method Load() returns (gateFired: bool)
      requires Valid()
      modifies this
      ensures !gateFired && Valid()
      ensures State(topics, disk) == Apply(old(State(topics, disk)), Restart)
    {
      gateFired := false;
      var listed := Entries(file.target);
      for i := 0 to |listed|
        invariant !gateFired && Valid() && disk == old(disk)
      {
        if Validate(listed[i].config).Some? { gateFired := true; }
      }
      var loaded: map<string, TopicEntry> := map[];
      for i := 0 to |listed|
        invariant forall n :: n in loaded <==> exists j :: 0 <= j < i && listed[j].name == n
        invariant forall n :: n in loaded ==> n in disk && loaded[n] == disk[n]
        invariant Valid() && disk == old(disk)
      {
        loaded := loaded[listed[i].name := listed[i]];
      }
      forall n | n in disk ensures n in loaded {
        assert disk[n] in listed;
      }
      assert loaded == disk;
      topics := loaded;
    }
  }
}
