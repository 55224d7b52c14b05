/** The state machine of one node, changed in place by the log and by subscribers. */
module Fsm {
  import opened Core
  import opened Replica
  import opened Objects

  datatype Event =
    | TaskAdmitted(task: Task)
    | AnswerSubmitted(answer: Answer)
    | TaskUpdated(task: Task)
    | VoteSubmitted(vote: Vote)

  const EVENT_CAPACITY := 100

  /** A snapshot holds copies of three maps, but the tasks are those of the live table. */
  datatype Snapshot = Snapshot(
    reps: map<string, int>, meta: map<string, AgentMetadata>, tasks: map<string, Task>, versions: map<string, nat>)

  ghost predicate AreValues(m: map<string, TaskRecord>, tasks: map<string, Task>)
    reads tasks.Values
  {
    m.Keys == tasks.Keys && forall id :: id in tasks ==> m[id] == tasks[id].Value()
  }

  /** The records that the pointers of a table lead to. */
  ghost function TaskValues(tasks: map<string, Task>): (m: map<string, TaskRecord>)
    reads tasks.Values
    ensures AreValues(m, tasks)
  {
    ValuesExist(tasks);
    var m :| AreValues(m, tasks);
    m
  }

  lemma {:induction false} ValuesExist(tasks: map<string, Task>)
    ensures exists m :: AreValues(m, tasks)
    decreases |tasks|
  {
    if tasks == map[] {
      assert AreValues(map[], tasks);
    } else {
      var id :| id in tasks;
      ValuesExist(tasks - {id});
      var m :| AreValues(m, tasks - {id});
      assert AreValues(m[id := tasks[id].Value()], tasks);
    }
  }

  /** Writing a snapshot out reads the tasks as they are by then. */
  ghost function Persisted(s: Snapshot): SnapshotData
    reads s.tasks.Values
  {
    SnapshotData(s.reps, s.meta, TaskValues(s.tasks), s.versions)
  }

  class SyncMapFSM {
    const nodeId: string
    var reputations: map<string, int>
    var metadata: map<string, AgentMetadata>
    var tasks: map<string, Task>
    var taskAnswers: map<string, seq<Answer>>
    var taskVotes: map<string, map<int, map<string, Vote>>>
    var keyVersions: map<string, nat>
    var subscribers: map<string, seq<Channel>>
    var eventCh: seq<Event>

    ghost var base: State           // the state the log below starts from
    ghost var log: seq<Command>     // the entries applied since
    ghost var restored: bool        // whether a snapshot has replaced the state
    ghost var channels: set<Channel> // every channel ever handed out
    ghost var pool: set<Task>       // every task object ever created

    // ---- What it stands for ---------------------------------------------------------------

    ghost function View(): State
      reads `reputations, `metadata, `tasks, `taskAnswers, `taskVotes, `keyVersions, tasks.Values
    {
      State(reputations, metadata, TaskValues(tasks), taskAnswers, taskVotes, keyVersions)
    }

    /** What every replica with the same log holds. */
    ghost function Committed(): State
      reads `base, `log
    {
      Replay(base, log)
    }

    function VersionAt(key: string): nat
      reads `keyVersions
    {
      if key in keyVersions then keyVersions[key] else 0
    }

    // ---- Invariants -----------------------------------------------------------------------

    ghost predicate TasksKeyed()
      reads `tasks, `pool
    {
      forall id :: id in tasks ==> tasks[id].id == id && tasks[id] in pool
    }

    ghost predicate VotesKeyed()
      reads `taskVotes
    {
      forall t, r, a :: t in taskVotes && r in taskVotes[t] && a in taskVotes[t][r] ==>
        var v := taskVotes[t][r][a]; v.taskId == t && v.round == r && v.agentId == a
    }

    ghost predicate Registered(c: Channel)
      reads `subscribers
    {
      c.key in subscribers && c in subscribers[c.key]
    }

    /** The table lists only known channels, each under its own key and once. */
    ghost predicate TableOk()
      reads `subscribers, `channels
    {
      forall k :: k in subscribers ==>
        && (forall i :: 0 <= i < |subscribers[k]| ==> subscribers[k][i] in channels && subscribers[k][i].key == k)
        && (forall i, j :: 0 <= i < j < |subscribers[k]| ==> subscribers[k][i] != subscribers[k][j])
    }

    /** A channel is open exactly while it is registered. Closed, it has been sent exactly one
        entry, newer than what the subscriber had. Open, it has been sent nothing, and its key has
        not moved since it was made, except that `bumped` is about to be notified. */
    ghost predicate ChannelOk(c: Channel, bumped: Option<string>)
      reads `subscribers, `keyVersions, `restored, c
    {
      && (c.closed <==> !Registered(c))
      && |c.sent| == (if c.closed then 1 else 0)
      && |c.buffer| <= |c.sent|
      && (!restored && !c.closed ==> VersionAt(c.key) == c.since + (if bumped == Some(c.key) then 1 else 0))
      && (c.closed ==> c.sent[0].key == c.key)
      && (!restored && c.closed ==>
            c.since <= c.sent[0].version <= VersionAt(c.key) && (c.asked <= c.since ==> c.asked < c.sent[0].version))
    }

    ghost predicate ChannelsOk(bumped: Option<string>)
      reads `subscribers, `keyVersions, `restored, `channels, channels
    {
      TableOk() && forall c :: c in channels ==> ChannelOk(c, bumped)
    }

    ghost predicate Valid()
      reads `tasks, `pool, `taskVotes, `subscribers, `keyVersions, `restored, `channels, channels
    {
      TasksKeyed() && VotesKeyed() && ChannelsOk(None)
    }

    constructor (nodeId: string)
      ensures Valid() && View() == EMPTY && Committed() == EMPTY && !restored
      ensures base == EMPTY && log == [] && channels == {} && pool == {} && tasks == map[] && eventCh == []
    {
      this.nodeId := nodeId;
      reputations, metadata, tasks := map[], map[], map[];
      taskAnswers, taskVotes, keyVersions, subscribers, eventCh := map[], map[], map[], map[], [];
      base, log, restored, channels, pool := EMPTY, [], false, {}, {};
    }

    // ---- Reading --------------------------------------------------------------------------

    method GetReputation(id: string) returns (rep: int)
      ensures rep == RepOf(View(), id)
    {
      if id in reputations { rep := reputations[id]; } else { rep := 100; }
    }

    method GetTask(id: string) returns (task: Option<Task>)
      ensures task == if id in tasks then Some(tasks[id]) else None
    {
      task := if id in tasks then Some(tasks[id]) else None;
    }

    method GetTaskAnswers(id: string) returns (answers: Option<seq<Answer>>)
      ensures answers == if id in taskAnswers then Some(taskAnswers[id]) else None
    {
      answers := if id in taskAnswers then Some(taskAnswers[id]) else None;
    }

    method GetTaskVotes(id: string, round: int) returns (votes: Option<map<string, Vote>>)
      ensures votes == if id in taskVotes then Some(VotesOf(View(), id, round)) else None
    {
      if id !in taskVotes { return None; }
      votes := if round in taskVotes[id] then Some(taskVotes[id][round]) else Some(map[]);
    }

    /** What the state holds under a key, as a copy for a reputation or metadata and as the live
        pointer for a task. Only a reputation has a value without a record. */
    method GetByKey(prefix: string, id: string) returns (value: Option<Payload>)
      ensures value.Some? <==>
                || prefix == REPUTATION_PREFIX
                || (prefix == TASK_PREFIX && id in View().tasks) || (prefix == METADATA_PREFIX && id in View().meta)
      ensures value.Some? && prefix == REPUTATION_PREFIX ==> value.value == RepPayload(RepOf(View(), id))
      ensures value.Some? && prefix == METADATA_PREFIX ==> value.value == MetaPayload(View().meta[id])
      ensures value.Some? && prefix == TASK_PREFIX ==>
                value.value == TaskPayload(tasks[id]) && tasks[id].Value() == View().tasks[id]
      ensures value == ValueAt(prefix, id)
    {
      if prefix == REPUTATION_PREFIX {
        var rep := GetReputation(id);
        value := Some(RepPayload(rep));
      } else if prefix == TASK_PREFIX {
        value := if id in tasks then Some(TaskPayload(tasks[id])) else None;
      } else if prefix == METADATA_PREFIX {
        value := if id in metadata then Some(MetaPayload(metadata[id])) else None;
      } else {
        value := None;
      }
    }

    function ValueAt(prefix: string, id: string): Option<Payload>
      reads `reputations, `tasks, `metadata
    {
      if prefix == REPUTATION_PREFIX then Some(RepPayload(if id in reputations then reputations[id] else 100))
      else if prefix == TASK_PREFIX && id in tasks then Some(TaskPayload(tasks[id]))
      else if prefix == METADATA_PREFIX && id in metadata then Some(MetaPayload(metadata[id]))
      else None
    }

    // ---- Subscriptions --------------------------------------------------------------------

    /** Files a new channel for the next change of its key. */
    method Register(ch: Channel, key: string)
      requires Valid() && ch !in channels && ch.key == key && ch.since == VersionAt(key)
      requires !ch.closed && ch.sent == [] && ch.buffer == []
      modifies this`subscribers, this`channels
      ensures Valid() && channels == old(channels) + {ch} && Registered(ch)
    {
      var others := if key in subscribers then subscribers[key] else [];
      channels := channels + {ch};
      subscribers := subscribers[key := others + [ch]];
      assert subscribers[key][|others|] == ch;
      forall c | c in old(channels) ensures Registered(c) <==> old(Registered(c)) { }
    }

    /** Answers a subscription at once: one entry on a channel that is closed already. */
    method SendNow(ch: Channel, e: Entry)
      requires Valid() && ch !in channels && ch.key == e.key && ch.since == VersionAt(e.key) == e.version > ch.asked
      requires !ch.closed && ch.sent == [] && ch.buffer == []
      requires !Registered(ch)
      modifies this`channels, ch
      ensures Valid() && channels == old(channels) + {ch}
      ensures ch.closed && ch.buffer == ch.sent == [e]
    {
      var dropped := ch.TrySend(e);
      ch.Close();
      channels := channels + {ch};
    }

    /** A subscriber behind an existing value gets it at once, on a closed channel; otherwise its
        channel waits for the next change. The replicated state is not touched. */
    method Subscribe(prefix: string, id: string, version: nat) returns (ch: Channel)
      requires Valid()
      modifies this`subscribers, this`channels
      ensures Valid()
      ensures fresh(ch) && channels == old(channels) + {ch}
      ensures ch.key == Key(prefix, id) && ch.asked == version && ch.since == VersionAt(ch.key)
      ensures if VersionAt(ch.key) > version && ValueAt(prefix, id).Some?
              then ch.closed && ch.buffer == [Entry(ch.key, ValueAt(prefix, id).value, VersionAt(ch.key))]
                   && ch.sent == ch.buffer && subscribers == old(subscribers)
              else !ch.closed && ch.buffer == [] && Registered(ch)
    {
      hide TaskValues, AreValues;
      var key := Key(prefix, id);
      var current := VersionAt(key);
      ch := new Channel(key, version, current);
      if current > version {
        var value := GetByKey(prefix, id);
        if value.Some? {
          SendNow(ch, Entry(key, value.value, current));
          return;
        }
      }
      Register(ch, key);
    }

    method IncrementVersion(key: string) returns (version: nat)
      requires ChannelsOk(None)
      modifies this`keyVersions
      ensures version == old(VersionAt(key)) + 1
      ensures keyVersions == old(keyVersions)[key := version]
      ensures ChannelsOk(Some(key))
    {
      version := VersionAt(key) + 1;
      keyVersions := keyVersions[key := version];
    }

    /** Sends the entry to every channel registered for the key, closes it and forgets it. No
        channel is full, so nothing is dropped. */
    method NotifySubscribers(key: string, value: Payload, version: nat) returns (dropped: int)
      requires ChannelsOk(Some(key)) && version == VersionAt(key)
      modifies this`subscribers, channels
      ensures ChannelsOk(None)
      ensures subscribers == old(subscribers) - {key}
      ensures forall c :: c in channels && old(Registered(c)) && c.key == key ==>
                c.closed && c.sent == [Entry(key, value, version)] && c.buffer == c.sent
      ensures forall c :: c in channels && !(old(Registered(c)) && c.key == key) ==>
                c.closed == old(c.closed) && c.sent == old(c.sent) && c.buffer == old(c.buffer)
      ensures dropped == 0
    {
      dropped := 0;
      if key !in subscribers {
        return;
      }
      var entry := Entry(key, value, version);
      var list := subscribers[key];
      for i := 0 to |list|
        invariant dropped == 0 && subscribers == old(subscribers)
        invariant forall j :: 0 <= j < i ==> list[j].closed && list[j].sent == [entry] && list[j].buffer == [entry]
        invariant forall j :: i <= j < |list| ==> !list[j].closed && list[j].sent == [] && list[j].buffer == []
        invariant forall c :: c in channels && c !in list ==>
                    c.closed == old(c.closed) && c.sent == old(c.sent) && c.buffer == old(c.buffer)
      {
        var full := list[i].TrySend(entry);
        if full {
          dropped := dropped + 1;
        }
        list[i].Close();
      }
      subscribers := subscribers - {key};
      assert forall c :: c in channels ==> (c in list <==> old(Registered(c)) && c.key == key);
    }

    /** The channel is closed and holds one entry: the value that its key has now, with its version. */
    ghost predicate Informs(c: Channel)
      reads `reputations, `tasks, `metadata, `keyVersions, c
    {
      && c.closed && |c.buffer| == 1 && c.buffer[0].key == c.key && c.buffer[0].version == VersionAt(c.key)
      && forall prefix, id :: prefix in PREFIXES && c.key == Key(prefix, id) ==>
           ValueAt(prefix, id) == Some(c.buffer[0].value)
    }

    /** What an entry of the log does to a channel. An open one is informed exactly when its key moves,
        and then by one version; nothing else happens to any. */
    twostate predicate News(c: Channel)
      reads `reputations, `tasks, `metadata, `keyVersions, c
    {
      if !old(c.closed) && VersionAt(c.key) != old(VersionAt(c.key))
      then VersionAt(c.key) == old(VersionAt(c.key)) + 1 && Informs(c)
      else c.closed == old(c.closed) && c.buffer == old(c.buffer)
    }

    /** The event that an entry is for the engine, if any and unless 100 are waiting: an admission or an
        update with the live pointer, an answer, or the first vote of an agent in a round. */
    twostate predicate Heard(cmd: Command)
      reads `eventCh, `tasks, `taskVotes
    {
      if |old(eventCh)| >= 100 then eventCh == old(eventCh)
      else
        match cmd
        case AdmitTask(t) => t.id in tasks && eventCh == old(eventCh) + [TaskAdmitted(tasks[t.id])]
        case SubmitAnswer(answer) => eventCh == old(eventCh) + [AnswerSubmitted(answer)]
        case UpdateTask(t) =>
          if t.id in old(tasks)
          then t.id in tasks && eventCh == old(eventCh) + [TaskUpdated(tasks[t.id])] else eventCh == old(eventCh)
        case SubmitVote(v) =>
          if old(HasVoted(v.taskId, v.round, v.agentId))
          then eventCh == old(eventCh) else eventCh == old(eventCh) + [VoteSubmitted(v)]
        case _ => eventCh == old(eventCh)
    }

    ghost predicate HasVoted(id: string, round: int, agent: string)
      reads `taskVotes
    {
      id in taskVotes && round in taskVotes[id] && agent in taskVotes[id][round]
    }

    // ---- Applying the log -----------------------------------------------------------------

    /** Hands an event to the engine unless its queue is full. */
    method Emit(e: Event)
      modifies this`eventCh
      ensures eventCh == if |old(eventCh)| < EVENT_CAPACITY then old(eventCh) + [e] else old(eventCh)
      ensures View() == old(View())
    {
      if |eventCh| < EVENT_CAPACITY {
        eventCh := eventCh + [e];
      }
    }

    /** Bumps a key and notifies its subscribers. */
    method Publish(key: string, value: Payload)
      requires ChannelsOk(None)
      modifies this`keyVersions, this`subscribers, channels
      ensures ChannelsOk(None) && View() == Bump(old(View()), key)
      ensures keyVersions == old(keyVersions)[key := old(VersionAt(key)) + 1]
      ensures forall c :: c in channels ==>
                if c.key == key && !old(c.closed) then c.closed && c.buffer == [Entry(key, value, VersionAt(key))]
                else c.closed == old(c.closed) && c.buffer == old(c.buffer)
    {
      hide TaskValues, AreValues;
      var version := IncrementVersion(key);
      var dropped := NotifySubscribers(key, value, version);
      assert TaskValues(tasks) == old(TaskValues(tasks));
    }

    /** The same for the value that is filed under a key. */
    method PublishValue(prefix: string, id: string, value: Payload)
      requires ChannelsOk(None) && prefix in PREFIXES && ValueAt(prefix, id) == Some(value)
      modifies this`keyVersions, this`subscribers, channels
      ensures ChannelsOk(None) && View() == Bump(old(View()), Key(prefix, id))
      ensures forall c :: c in channels ==> News(c)
    {
      hide TaskValues, AreValues, ChannelsOk;
      Publish(Key(prefix, id), value);
      forall q, other | q in PREFIXES && Key(q, other) == Key(prefix, id) ensures q == prefix && other == id {
        KeyMeans(q, other, prefix, id);
      }
    }

    method ApplyReputation(agent: string, rep: int)
      requires Valid()
      modifies this`reputations, this`keyVersions, this`subscribers, channels
      ensures Valid() && View() == Apply(old(View()), UpdateReputation(agent, rep))
      ensures forall c :: c in channels ==> News(c)
    {
      hide TaskValues, AreValues;
      reputations := reputations[agent := rep];
      PublishValue(REPUTATION_PREFIX, agent, RepPayload(rep));
    }

    method ApplyMetadata(meta: AgentMetadata)
      requires Valid()
      modifies this`metadata, this`keyVersions, this`subscribers, channels
      ensures Valid() && View() == Apply(old(View()), UpdateMetadata(meta))
      ensures forall c :: c in channels ==> News(c)
    {
      hide TaskValues, AreValues;
      metadata := metadata[meta.id := meta];
      PublishValue(METADATA_PREFIX, meta.id, MetaPayload(meta));
    }

    /** An event for the engine, then the news for the subscribers of the task. */
    method Announce(e: Event, id: string)
      requires ChannelsOk(None) && id in tasks
      modifies this`eventCh, this`keyVersions, this`subscribers, channels
      ensures ChannelsOk(None) && View() == Bump(old(View()), Key(TASK_PREFIX, id))
      ensures eventCh == if |old(eventCh)| < EVENT_CAPACITY then old(eventCh) + [e] else old(eventCh)
      ensures forall c :: c in channels ==> News(c)
    {
      hide TaskValues, AreValues, ChannelsOk;
      Emit(e);
      PublishValue(TASK_PREFIX, id, TaskPayload(tasks[id]));
    }

    method InsertTask(rec: TaskRecord) returns (task: Task)
      requires Valid()
      modifies this`tasks, this`pool
      ensures Valid() && View() == old(View()).(tasks := old(View()).tasks[rec.id := rec])
      ensures pool == old(pool) + {task} && fresh(task) && tasks == old(tasks)[rec.id := task]
    {
      hide TaskValues, ChannelsOk, VotesKeyed;
      task := new Task(rec);
      tasks := tasks[rec.id := task];
      pool := pool + {task};
      assert TaskValues(tasks) == old(TaskValues(tasks))[rec.id := rec];
    }

    method ApplyAdmit(rec: TaskRecord)
      requires Valid()
      modifies this`tasks, this`pool, this`eventCh, this`keyVersions, this`subscribers, channels
      ensures Valid() && View() == Apply(old(View()), AdmitTask(rec))
      ensures Heard(AdmitTask(rec))
      ensures old(pool) <= pool && fresh(pool - old(pool))
      ensures rec.id in tasks && fresh(tasks[rec.id]) && tasks == old(tasks)[rec.id := tasks[rec.id]]
      ensures forall c :: c in channels ==> News(c)
    {
      hide TaskValues, AreValues, ChannelsOk, VotesKeyed;
      var task := InsertTask(rec);
      ghost var inserted := View();
      Announce(TaskAdmitted(task), rec.id);
      assert View() == Bump(inserted, Key(TASK_PREFIX, rec.id));
    }

    method ApplyAnswer(answer: Answer)
      requires Valid()
      modifies this`taskAnswers, this`eventCh
      ensures Valid() && View() == Apply(old(View()), SubmitAnswer(answer))
      ensures Heard(SubmitAnswer(answer))
    {
      hide TaskValues, AreValues;
      var answers := if answer.taskId in taskAnswers then taskAnswers[answer.taskId] else [];
      taskAnswers := taskAnswers[answer.taskId := answers + [answer]];
      Emit(AnswerSubmitted(answer));
    }

    method OverwriteTask(rec: TaskRecord)
      requires Valid() && rec.id in tasks
      modifies tasks[rec.id]
      ensures Valid()
      ensures forall c :: c in channels ==> c.closed == old(c.closed) && c.buffer == old(c.buffer)
      ensures View() == old(View()).(tasks := old(View()).tasks[rec.id := Updated(old(View()).tasks[rec.id], rec)])
    {
      hide TaskValues;
      tasks[rec.id].Update(rec);
      assert forall id :: id in tasks && id != rec.id ==> tasks[id] != tasks[rec.id];
      assert TaskValues(tasks) == old(TaskValues(tasks))[rec.id := tasks[rec.id].Value()];
    }

    lemma SameKeys()
      ensures View().tasks.Keys == tasks.Keys
    {
    }

    method UpdateExisting(rec: TaskRecord)
      requires Valid() && rec.id in tasks
      modifies this`eventCh, this`keyVersions, this`subscribers, channels, tasks[rec.id]
      ensures Valid() && View() == Apply(old(View()), UpdateTask(rec))
      ensures Heard(UpdateTask(rec))
      ensures forall c :: c in channels ==> News(c)
    {
      hide TaskValues, AreValues, ChannelsOk, VotesKeyed;
      SameKeys();
      OverwriteTask(rec);
      ghost var written := View();
      Announce(TaskUpdated(tasks[rec.id]), rec.id);
      assert View() == Bump(written, Key(TASK_PREFIX, rec.id));
    }

    /** Updates the existing task in place; an unknown task is ignored. */
    method ApplyUpdate(rec: TaskRecord)
      requires Valid()
      modifies this`eventCh, this`keyVersions, this`subscribers, channels
      modifies if rec.id in tasks then {tasks[rec.id]} else {}
      ensures Valid() && View() == Apply(old(View()), UpdateTask(rec))
      ensures Heard(UpdateTask(rec))
      ensures forall c :: c in channels ==> News(c)
    {
      if rec.id in tasks {
        UpdateExisting(rec);
      }
    }

    method ApplyVote(vote: Vote)
      requires Valid()
      modifies this`taskVotes, this`eventCh
      ensures Valid() && View() == Apply(old(View()), SubmitVote(vote))
      ensures Heard(SubmitVote(vote))
    {
      hide ChannelsOk, TasksKeyed, TaskValues;
      var rounds := if vote.taskId in taskVotes then taskVotes[vote.taskId] else map[];
      var votes := if vote.round in rounds then rounds[vote.round] else map[];
      if vote.agentId !in votes {
        taskVotes := taskVotes[vote.taskId := rounds[vote.round := votes[vote.agentId := vote]]];
        Emit(VoteSubmitted(vote));
      }
    }

    ghost method Record(cmd: Command)
      modifies this`log
      ensures log == old(log) + [cmd] && Committed() == Apply(old(Committed()), cmd)
    {
      ReplaySnoc(base, log, cmd);
      log := log + [cmd];
    }

    method Dispatch(cmd: Command) returns (failed: bool)
      requires Valid()
      modifies this`reputations, this`metadata, this`tasks, this`taskAnswers, this`taskVotes, this`keyVersions,
               this`subscribers, this`eventCh, this`pool, channels, pool
      ensures Valid() && View() == Apply(old(View()), cmd)
      ensures Heard(cmd)
      ensures forall c :: c in channels ==> News(c)
      ensures failed <==> cmd.Undecodable?
      ensures old(pool) <= pool && fresh(pool - old(pool))
      ensures !cmd.AdmitTask? ==> tasks == old(tasks)
      ensures cmd.AdmitTask? ==> cmd.task.id in tasks && fresh(tasks[cmd.task.id])
                                 && tasks == old(tasks)[cmd.task.id := tasks[cmd.task.id]]
    {
      hide TaskValues, AreValues, ChannelsOk, VotesKeyed;
      failed := false;
      match cmd {
        case UpdateReputation(agent, rep) => ApplyReputation(agent, rep);
        case AdmitTask(task) => ApplyAdmit(task);
        case SubmitAnswer(answer) => ApplyAnswer(answer);
        case UpdateTask(task) => ApplyUpdate(task);
        case SubmitVote(vote) => ApplyVote(vote);
        case UpdateMetadata(meta) => ApplyMetadata(meta);
        case Unknown =>
        case Undecodable => failed := true;
      }
    }

    /** Applies one log entry. Whatever the node, its subscribers and its event queue, the state
        becomes what the fold over the log says. The engine hears of it unless its queue is full, and
        exactly the subscribers of a key that moves get its value. */
    method ApplyEntry(cmd: Command) returns (failed: bool)
      requires Valid()
      modifies this`reputations, this`metadata, this`tasks, this`taskAnswers, this`taskVotes, this`keyVersions,
               this`subscribers, this`eventCh, this`log, this`pool, channels, pool
      ensures Valid() && View() == Apply(old(View()), cmd)
      ensures Heard(cmd)
      ensures forall c :: c in channels ==> News(c)
      ensures failed <==> cmd.Undecodable?
      ensures old(pool) <= pool && fresh(pool - old(pool))
      ensures log == old(log) + [cmd] && Committed() == Apply(old(Committed()), cmd)
      ensures !cmd.AdmitTask? ==> tasks == old(tasks)
      ensures cmd.AdmitTask? ==> cmd.task.id in tasks && fresh(tasks[cmd.task.id])
                                 && tasks == old(tasks)[cmd.task.id := tasks[cmd.task.id]]
    {
      hide TaskValues, AreValues, ChannelsOk, TasksKeyed, VotesKeyed, News;
      failed := Dispatch(cmd);
      Record(cmd);
    }

    // ---- Snapshots ------------------------------------------------------------------------

    method TakeSnapshot() returns (s: Snapshot)
      ensures Persisted(s) == SnapshotOf(View())
      ensures s.tasks == tasks
    {
      s := Snapshot(reputations, metadata, tasks, keyVersions);
    }

    /** New task objects for the tasks of a snapshot that are not finished. */
    method BuildTable(records: map<string, TaskRecord>) returns (table: map<string, Task>)
      requires forall id :: id in records ==> records[id].id == id
      ensures TaskValues(table) == Active(records)
      ensures forall id :: id in table ==> fresh(table[id]) && table[id].id == id
    {
      table := map[];
      var todo := records.Keys;
      while todo != {}
        invariant todo <= records.Keys
        invariant table.Keys == set id | id in records.Keys - todo && !Finished(records[id].status)
        invariant forall id :: id in table ==>
                    fresh(table[id]) && table[id].id == id && table[id].Value() == records[id]
        decreases todo
      {
        var id :| id in todo;
        todo := todo - {id};
        if !Finished(records[id].status) {
          var task := new Task(records[id]);
          table := table[id := task];
        }
      }
    }

    method InstallVersions(versions: map<string, nat>)
      requires ChannelsOk(None)
      modifies this`keyVersions, this`restored
      ensures ChannelsOk(None) && restored
      ensures View() == old(View()).(versions := versions)
    {
      hide TaskValues, AreValues;
      keyVersions, restored := versions, true;
      forall c | c in channels ensures ChannelOk(c, None) {
        assert old(ChannelOk(c, None)) && (Registered(c) <==> old(Registered(c)));
      }
    }

    method InstallTasks(table: map<string, Task>)
      requires forall id :: id in table ==> table[id].id == id
      modifies this`tasks, this`pool, this`taskAnswers, this`taskVotes
      ensures pool == old(pool) + table.Values
      ensures TasksKeyed() && VotesKeyed() && tasks == table
      ensures View() == old(View()).(tasks := TaskValues(table), answers := map[], votes := map[])
    {
      hide TaskValues;
      tasks, taskAnswers, taskVotes, pool := table, map[], map[], pool + table.Values;
    }

    method InstallRecords(reps: map<string, int>, meta: map<string, AgentMetadata>, ghost state: State)
      modifies this`reputations, this`metadata, this`base, this`log
      ensures View() == old(View()).(reps := reps, meta := meta)
      ensures base == state && log == []
    {
      hide TaskValues, AreValues;
      reputations, metadata, base, log := reps, meta, state, [];
    }

    method RestoreTasks(records: map<string, TaskRecord>)
      requires forall id :: id in records ==> records[id].id == id
      modifies this`tasks, this`pool, this`taskAnswers, this`taskVotes
      ensures TasksKeyed() && VotesKeyed()
      ensures old(pool) <= pool && fresh(pool - old(pool))
      ensures View() == old(View()).(tasks := Active(records), answers := map[], votes := map[])
    {
      var table := BuildTable(records);
      InstallTasks(table);
    }

    /** Replaces the state by that of a snapshot. Subscribers stay registered. */
    method RestoreFrom(d: SnapshotData)
      requires Valid()
      requires Restorable(d)
      modifies this`reputations, this`metadata, this`tasks, this`taskAnswers, this`taskVotes, this`keyVersions,
               this`base, this`log, this`restored, this`pool
      ensures Valid() && restored
      ensures View() == Restore(d) && base == Restore(d) && log == []
      ensures old(pool) <= pool && fresh(pool - old(pool))
    {
      hide ChannelsOk, TaskValues, AreValues, Active;
      RestoreTasks(d.tasks);
      InstallVersions(d.versions);
      InstallRecords(d.reps, d.meta, Restore(d));
    }
  }
}
