/** A client that waits for a task by following the versions of its key, and the interleaving of
    log entries with subscriptions in general. */
module Waiting {
  import opened Core
  import opened Replica
  import opened ReplicaLaws
  import opened Objects
  import opened Fsm

  // ---- Any interleaving -------------------------------------------------------------------

  /** What can happen at a node: an entry is applied, somebody subscribes, the engine takes an event. */
  datatype Op =
    | Entry(cmd: Command)
    | Sub(prefix: string, id: string, version: nat)
    | TakeEvent

  function Entries(ops: seq<Op>): seq<Command> {
    if ops == [] then []
    else Entries(ops[..|ops| - 1]) + if ops[|ops| - 1].Entry? then [ops[|ops| - 1].cmd] else []
  }

  function StateAfter(s: State, op: Op): State {
    if op.Entry? then Apply(s, op.cmd) else s
  }

  method Do(fsm: SyncMapFSM, op: Op)
    requires fsm.Valid()
    modifies fsm, fsm.channels, fsm.pool
    ensures fsm.Valid()
    ensures fsm.View() == StateAfter(old(fsm.View()), op) && fsm.Committed() == StateAfter(old(fsm.Committed()), op)
    ensures old(fsm.channels) <= fsm.channels
    ensures fresh(fsm.channels - old(fsm.channels)) && old(fsm.pool) <= fsm.pool && fresh(fsm.pool - old(fsm.pool))
  {
    hide TaskValues, AreValues;
    match op {
      case Entry(cmd) =>
        var failed := fsm.ApplyEntry(cmd);
      case Sub(prefix, id, version) =>
        var ch := fsm.Subscribe(prefix, id, version);
      case TakeEvent =>
        if |fsm.eventCh| > 0 {
          fsm.eventCh := fsm.eventCh[1..];
        }
    }
  }

  /** Replicas are deterministic: whatever the node, its subscribers, the fullness of its event
      queue and the speed of its consumer, the state is the fold over the entries alone. Every
      channel handed out on the way obeys the invariant of the class: one entry, closed once, and
      no update of a key missed while its channel is registered. */
  method Drive(fsm: SyncMapFSM, ops: seq<Op>)
    requires fsm.Valid()
    modifies fsm, fsm.channels, fsm.pool
    ensures fsm.Valid() && fsm.View() == Replay(old(fsm.View()), Entries(ops))
    ensures fsm.Committed() == Replay(old(fsm.Committed()), Entries(ops))
    ensures old(fsm.channels) <= fsm.channels
  {
    for i := 0 to |ops|
      invariant fsm.Valid() && old(fsm.channels) <= fsm.channels
      invariant fresh(fsm.channels - old(fsm.channels)) && old(fsm.pool) <= fsm.pool && fresh(fsm.pool - old(fsm.pool))
      invariant fsm.View() == Replay(old(fsm.View()), Entries(ops[..i]))
      invariant fsm.Committed() == Replay(old(fsm.Committed()), Entries(ops[..i]))
    {
      EntriesStep(old(fsm.View()), ops, i);
      EntriesStep(old(fsm.Committed()), ops, i);
      Do(fsm, ops[i]);
    }
    assert ops[..|ops|] == ops;
  }

  lemma EntriesStep(s: State, ops: seq<Op>, i: nat)
    requires i < |ops|
    ensures Replay(s, Entries(ops[..i + 1])) == StateAfter(Replay(s, Entries(ops[..i])), ops[i])
  {
    assert ops[..i + 1][..i] == ops[..i];
    if ops[i].Entry? {
      ReplaySnoc(s, Entries(ops[..i]), ops[i].cmd);
    } else {
      assert Entries(ops[..i]) + [] == Entries(ops[..i]);
    }
  }

  /** On a node that has applied its log from the start, whoever asks for a key that has moved past
      the version asked for finds a value there, so `Subscribe` answers at once. On a key that never
      moved there is none but the default reputation. */
  lemma BehindFindsValue(fsm: SyncMapFSM, log: seq<Command>, prefix: string, id: string)
    requires fsm.View() == Replay(EMPTY, log) && prefix in {TASK_PREFIX, REPUTATION_PREFIX, METADATA_PREFIX}
    ensures fsm.VersionAt(Key(prefix, id)) > 0 ==> fsm.ValueAt(prefix, id).Some?
    ensures fsm.VersionAt(Key(prefix, id)) == 0 ==>
              fsm.ValueAt(prefix, id) == if prefix == REPUTATION_PREFIX then Some(RepPayload(100)) else None
  {
    FiledIffVersioned(log, id);
    assert fsm.VersionAt(Key(prefix, id)) == VersionOf(fsm.View(), Key(prefix, id));
    assert id in fsm.tasks <==> id in fsm.View().tasks;
  }

  // ---- Versions tell whether a task moved ---------------------------------------------------

  /** A task that exists has a version. */
  ghost predicate Versioned(s: State) {
    forall id :: id in s.tasks ==> VersionOf(s, Key(TASK_PREFIX, id)) > 0
  }

  lemma VersionedApply(s: State, cmd: Command)
    requires Versioned(s)
    ensures Versioned(Apply(s, cmd))
  {
    forall id | id in Apply(s, cmd).tasks ensures VersionOf(Apply(s, cmd), Key(TASK_PREFIX, id)) > 0 {
      TaskOfApply(s, cmd, id);
      VersionOfApply(s, cmd, Key(TASK_PREFIX, id));
    }
  }

  /** An entry that leaves the version of a task's key alone leaves the task alone. */
  lemma SameVersionSameTask(s: State, cmd: Command, id: string)
    requires VersionOf(Apply(s, cmd), Key(TASK_PREFIX, id)) == VersionOf(s, Key(TASK_PREFIX, id))
    ensures TaskOf(Apply(s, cmd), id) == TaskOf(s, id)
    ensures !Admits(cmd, id)
  {
    TaskOfApply(s, cmd, id);
    VersionOfApply(s, cmd, Key(TASK_PREFIX, id));
  }

  lemma StepFacts(s: State, cmd: Command, id: string)
    requires Versioned(s)
    ensures var t := Apply(s, cmd); var key := Key(TASK_PREFIX, id);
            && Versioned(t) && VersionOf(s, key) <= VersionOf(t, key)
            && (VersionOf(t, key) == VersionOf(s, key) ==> TaskOf(t, id) == TaskOf(s, id) && !Admits(cmd, id))
  {
    VersionedApply(s, cmd);
    VersionOfApply(s, cmd, Key(TASK_PREFIX, id));
    if VersionOf(Apply(s, cmd), Key(TASK_PREFIX, id)) == VersionOf(s, Key(TASK_PREFIX, id)) {
      SameVersionSameTask(s, cmd, id);
    }
  }

  // ---- Waiting for a task -----------------------------------------------------------------

  class Waiter {
    const fsm: SyncMapFSM
    const id: string
    var version: nat          // the version of the entry received last
    ghost var received: seq<nat>

    constructor (fsm: SyncMapFSM, id: string)
      ensures this.fsm == fsm && this.id == id && version == 0 && received == []
    {
      this.fsm, this.id, this.version, this.received := fsm, id, 0, [];
    }

    ghost predicate DoneNow()
      reads fsm`tasks, fsm.tasks.Values
    {
      id in fsm.tasks && fsm.tasks[id].status.Done?
    }

    ghost function TaskKey(): string { Key(TASK_PREFIX, id) }

    /** The waiter is never ahead, has received rising versions, and if it is up to date the task
        is not done. */
    ghost predicate Valid()
      reads this, fsm, fsm.channels, fsm.tasks.Values
    {
      && fsm.Valid() && !fsm.restored && Versioned(fsm.View())
      && version <= fsm.VersionAt(TaskKey())
      && (received != [] ==> received[|received| - 1] == version)
      && (received == [] ==> version == 0)
      && (forall i, j :: 0 <= i < j < |received| ==> received[i] < received[j])
    }

    /** A channel of this waiter: still registered, or emptied, or holding one entry that is newer
        than anything received and, unless the key has moved on, carries the task as it is. */
    ghost predicate Listening(ch: Channel)
      reads this, fsm, ch
    {
      && ch in fsm.channels && ch.key == TaskKey() && |ch.buffer| <= 1
      && (!ch.closed ==> ch.buffer == [])
      && (ch.buffer != [] ==>
            version < ch.buffer[0].version <= fsm.VersionAt(TaskKey()) && Current(ch.buffer[0]))
    }

    /** The entry carries a pointer to the task: to the one there is, unless the key has moved on. */
    ghost predicate Current(e: Entry)
      reads this, fsm
    {
      e.value.TaskPayload? && e.value.task.id == id &&
      (e.version == fsm.VersionAt(TaskKey()) ==> id in fsm.tasks && e.value == TaskPayload(fsm.tasks[id]))
    }

    /** As long as the version of its key stays, so does the task. */
    twostate predicate Steady()
      reads this, fsm, fsm.tasks.Values
    {
      && old(fsm.VersionAt(TaskKey())) <= fsm.VersionAt(TaskKey())
      && (fsm.VersionAt(TaskKey()) == old(fsm.VersionAt(TaskKey())) ==>
            && DoneNow() == old(DoneNow())
            && (id in fsm.tasks <==> id in old(fsm.tasks))
            && (id in fsm.tasks ==> fsm.tasks[id] == old(fsm.tasks[id])))
    }

    /** The cluster commits one entry while the waiter looks elsewhere. */
    method Commit(cmd: Command, ch: Channel)
      requires fsm.Valid() && ch in fsm.channels
      modifies fsm, fsm.channels, fsm.pool
      ensures fsm.Valid() && fsm.View() == Apply(old(fsm.View()), cmd)
      ensures fsm.News(ch)
      ensures fsm.channels == old(fsm.channels) && fsm.restored == old(fsm.restored)
      ensures old(fsm.pool) <= fsm.pool && fresh(fsm.pool - old(fsm.pool))
      ensures !Admits(cmd, id) ==>
                (id in fsm.tasks <==> id in old(fsm.tasks)) && (id in fsm.tasks ==> fsm.tasks[id] == old(fsm.tasks[id]))
    {
      hide TaskValues, AreValues;
      var failed := fsm.ApplyEntry(cmd);
    }

    lemma DoneShows()
      ensures DoneNow() <==> TaskOf(fsm.View(), id).Some? && TaskOf(fsm.View(), id).value.status.Done?
    {
    }

    method WorldStep(cmd: Command, ch: Channel)
      requires Valid() && Listening(ch)
      modifies fsm, fsm.channels, fsm.pool
      ensures Valid() && Listening(ch) && Steady()
      ensures ch.closed && ch.buffer == [] ==> old(ch.closed && ch.buffer == [])
      ensures fsm.View() == Apply(old(fsm.View()), cmd)
      ensures fsm.channels == old(fsm.channels)
      ensures old(fsm.pool) <= fsm.pool && fresh(fsm.pool - old(fsm.pool))
    {
      hide TaskValues, AreValues;
      StepFacts(fsm.View(), cmd, id);
      DoneShows();
      Commit(cmd, ch);
      DoneShows();
    }

    /** The cluster commits any number of entries. */
    method World(cmds: seq<Command>, ch: Channel)
      requires Valid() && Listening(ch)
      modifies fsm, fsm.channels, fsm.pool
      ensures Valid() && Listening(ch) && Steady()
      ensures ch.closed && ch.buffer == [] ==> old(ch.closed && ch.buffer == [])
      ensures fsm.View() == Replay(old(fsm.View()), cmds)
      ensures fsm.channels == old(fsm.channels)
      ensures old(fsm.pool) <= fsm.pool && fresh(fsm.pool - old(fsm.pool))
    {
      for i := 0 to |cmds|
        invariant Valid() && Listening(ch) && Steady()
        invariant ch.closed && ch.buffer == [] ==> old(ch.closed && ch.buffer == [])
        invariant fsm.View() == Replay(old(fsm.View()), cmds[..i])
        invariant fsm.channels == old(fsm.channels)
        invariant old(fsm.pool) <= fsm.pool && fresh(fsm.pool - old(fsm.pool))
      {
        assert cmds[..i + 1] == cmds[..i] + [cmds[i]];
        ReplaySnoc(old(fsm.View()), cmds[..i], cmds[i]);
        WorldStep(cmds[i], ch);
      }
      assert cmds[..|cmds|] == cmds;
    }

    /** Takes the entry of a channel. */
    method Take(ch: Channel) returns (e: Entry)
      requires Valid() && Listening(ch) && ch.buffer != []
      modifies this, ch`buffer
      ensures Valid() && Listening(ch) && ch.buffer == []
      ensures version == e.version && received == old(received) + [e.version] && old(version) < version
      ensures Current(e) && fsm.View() == old(fsm.View())
    {
      hide TaskValues, AreValues;
      e := ch.Receive();
      version := e.version;
      received := received + [e.version];
    }

    /** Registers for, or gets at once, the next entry. If it has to wait, the task is not done. */
    method Listen() returns (ch: Channel)
      requires Valid() && (version == fsm.VersionAt(TaskKey()) ==> !DoneNow())
      modifies fsm`subscribers, fsm`channels
      ensures Valid() && Listening(ch) && (ch.buffer == [] ==> !ch.closed && !DoneNow())
      ensures fsm.channels == old(fsm.channels) + {ch} && fresh(ch) && fsm.View() == old(fsm.View())
    {
      hide TaskValues, AreValues;
      ch := fsm.Subscribe(TASK_PREFIX, id, version);
    }

    /** Where the waiter stands in a world that began at `start`. */
    ghost predicate In(world: seq<seq<Command>>, i: nat, start: State)
      reads fsm, fsm.tasks.Values
    {
      i <= |world| && fsm.View() == Replay(start, Flatten(world[..i]))
    }

    /** The next batch of the world, if there is one left. */
    method Pass(world: seq<seq<Command>>, i: nat, ghost start: State, ch: Channel) returns (j: nat)
      requires Valid() && Listening(ch) && In(world, i, start)
      modifies fsm, fsm.channels, fsm.pool
      ensures Valid() && Listening(ch) && Steady() && In(world, j, start)
      ensures j == if i < |world| then i + 1 else i
      ensures ch.closed && ch.buffer == [] ==> old(ch.closed && ch.buffer == [])
      ensures fsm.channels == old(fsm.channels)
      ensures old(fsm.pool) <= fsm.pool && fresh(fsm.pool - old(fsm.pool))
    {
      j := i;
      if i < |world| {
        FlattenStep(start, world, i);
        World(world[i], ch);
        j := i + 1;
      }
    }

    /** Blocks on a channel until it delivers or the world ends. */
    method Await(world: seq<seq<Command>>, i: nat, ghost start: State, ch: Channel) returns (j: nat)
      requires Valid() && Listening(ch) && In(world, i, start)
      requires ch.buffer == [] ==> !ch.closed && !DoneNow()
      modifies fsm, fsm.channels, fsm.pool
      ensures Valid() && Listening(ch) && In(world, j, start) && i <= j
      ensures ch.buffer == [] ==> j == |world| && !DoneNow()
      ensures j == i ==> Steady()
      ensures fsm.channels == old(fsm.channels)
      ensures old(fsm.pool) <= fsm.pool && fresh(fsm.pool - old(fsm.pool))
    {
      j := i;
      while ch.buffer == [] && j < |world|
        invariant i <= j && Valid() && Listening(ch) && In(world, j, start)
        invariant ch.buffer == [] ==> !ch.closed && !DoneNow()
        invariant j == i ==> Steady()
        invariant fsm.channels == old(fsm.channels)
        invariant old(fsm.pool) <= fsm.pool && fresh(fsm.pool - old(fsm.pool))
        decreases |world| - j
      {
        j := Pass(world, j, start, ch);
      }
    }

    /** Subscribes and waits for an entry, until the world ends. If both have come, `drop` decides. */
    method Hear(world: seq<seq<Command>>, i: nat, ghost start: State, drop: bool)
      returns (e: Option<Entry>, ch: Channel, j: nat)
      requires Valid() && In(world, i, start)
      requires version == fsm.VersionAt(TaskKey()) ==> !DoneNow()
      modifies this, fsm, fsm.channels, fsm.pool
      ensures Valid() && Listening(ch) && In(world, j, start) && i <= j
      ensures fresh(fsm.channels - old(fsm.channels)) && old(fsm.pool) <= fsm.pool && fresh(fsm.pool - old(fsm.pool))
      ensures e.None? ==> j == |world| && (ch.buffer == [] ==> !DoneNow()) && (ch.buffer != [] ==> drop)
      ensures e.Some? ==> Current(e.value) && version == e.value.version > old(version)
      ensures j == i ==> fsm.VersionAt(TaskKey()) <= old(fsm.VersionAt(TaskKey()))
    {
      hide TaskValues, AreValues, Versioned, fsm.Valid;
      ch := Listen();
      j := Await(world, i, start, ch);
      assert fresh(fsm.channels - old(fsm.channels)) && fresh(fsm.pool - old(fsm.pool));
      if ch.buffer == [] || (drop && j == |world|) {
        e := None;
      } else {
        var received := Take(ch);
        e := Some(received);
      }
    }

    /** A channel of this waiter still holds an entry newer than all it has received. */
    ghost predicate Dropped()
      reads this, fsm, fsm.channels
    {
      exists ch :: ch in fsm.channels && Listening(ch) && ch.buffer != []
    }

    /** Looks at the task of an entry, with the world passing before and after. */
    method Look(world: seq<seq<Command>>, i: nat, ghost start: State, ch: Channel,
                e: Entry) returns (task: Option<Task>, j: nat)
      requires Valid() && Listening(ch) && In(world, i, start) && Current(e) && version == e.version
      modifies fsm, fsm.channels, fsm.pool
      ensures Valid() && In(world, j, start) && i <= j && fsm.channels == old(fsm.channels)
      ensures old(fsm.pool) <= fsm.pool && fresh(fsm.pool - old(fsm.pool))
      ensures task.Some? ==> task.value.id == id && task.value.status.Done?
      ensures task.None? ==> (version == fsm.VersionAt(TaskKey()) ==> !DoneNow())
      ensures j == i ==> fsm.VersionAt(TaskKey()) == old(fsm.VersionAt(TaskKey()))
    {
      hide TaskValues, AreValues;
      j := Pass(world, i, start, ch);
      if e.value.task.status.Done? {
        return Some(e.value.task), j;
      }
      assert version == fsm.VersionAt(TaskKey()) ==> !DoneNow();
      ghost var known := fsm.pool;
      j := Pass(world, j, start, ch);
      assert fsm.pool - old(fsm.pool) == (known - old(fsm.pool)) + (fsm.pool - known);
      task := None;
    }

    /** One turn of the loop: subscribe, wait, look at what came. */
    method Turn(world: seq<seq<Command>>, i: nat, ghost start: State, drop: bool)
      returns (task: Option<Task>, over: bool, j: nat)
      requires Valid() && In(world, i, start)
      requires version == fsm.VersionAt(TaskKey()) ==> !DoneNow()
      modifies this, fsm, fsm.channels, fsm.pool
      ensures Valid() && In(world, j, start) && i <= j
      ensures fresh(fsm.channels - old(fsm.channels)) && old(fsm.pool) <= fsm.pool && fresh(fsm.pool - old(fsm.pool))
      ensures over && task.Some? ==> task.value.id == id && task.value.status.Done?
      ensures over && task.None? ==> j == |world| && (DoneNow() ==> drop && Dropped())
      ensures !over ==> (version == fsm.VersionAt(TaskKey()) ==> !DoneNow())
      ensures !over ==> i < j || (version > old(version) && fsm.VersionAt(TaskKey()) <= old(fsm.VersionAt(TaskKey())))
    {
      var e, ch;
      e, ch, j := Hear(world, i, start, drop);
      if e.None? {
        return None, true, j;
      }
      ghost var known := fsm.pool;
      task, j := Look(world, j, start, ch, e.value);
      assert fsm.pool - old(fsm.pool) == (known - old(fsm.pool)) + (fsm.pool - known);
      over := task.Some?;
    }

    /** Follows the key until the task is seen done. `world` is what the cluster commits meanwhile:
        a batch passes while the waiter waits, after it has received an entry, and before it
        subscribes again; the context ends when the world does. If an entry has been delivered by
        then, `drop` says whether the waiter takes the end of the context instead.
        Versions received keep rising (Valid). No update is lost: a task that comes back is done,
        and if the waiter gives up, then the task is not done by then, or the waiter dropped an
        entry that its channel had delivered. */
    method WaitForTask(world: seq<seq<Command>>, drop: bool) returns (task: Option<Task>, used: nat)
      requires Valid() && version == 0
      modifies this, fsm, fsm.channels, fsm.pool
      ensures Valid() && In(world, used, old(fsm.View()))
      ensures task.Some? ==> task.value.id == id && task.value.status.Done?
      ensures task.None? ==> used == |world| && (DoneNow() ==> drop && Dropped())
    {
      ghost var start := fsm.View();
      assert world[..0] == [];
      used := 0;
      task := None;
      var over := false;
      while !over
        invariant Valid() && In(world, used, start)
        invariant !over ==> (version == fsm.VersionAt(TaskKey()) ==> !DoneNow())
        invariant over && task.Some? ==> task.value.id == id && task.value.status.Done?
        invariant over && task.None? ==> used == |world| && (DoneNow() ==> drop && Dropped())
        invariant fresh(fsm.channels - old(fsm.channels))
        invariant old(fsm.pool) <= fsm.pool && fresh(fsm.pool - old(fsm.pool))
        decreases !over, |world| - used, fsm.VersionAt(TaskKey()) - version
      {
        task, over, used := Turn(world, used, start, drop);
      }
    }
  }

  function Flatten(batches: seq<seq<Command>>): seq<Command> {
    if batches == [] then [] else Flatten(batches[..|batches| - 1]) + batches[|batches| - 1]
  }

  lemma FlattenStep(s: State, world: seq<seq<Command>>, i: nat)
    requires i < |world|
    ensures Replay(s, Flatten(world[..i + 1])) == Replay(Replay(s, Flatten(world[..i])), world[i])
  {
    assert world[..i + 1][..i] == world[..i];
    ReplayConcat(s, Flatten(world[..i]), world[i]);
  }
}
