/** The replicated state machine as a pure fold over the log. The class `SyncMapFSM` refines it. */
module Replica {
  import opened Core

  datatype State = State(
    reps: map<string, int>,
    meta: map<string, AgentMetadata>,
    tasks: map<string, TaskRecord>,
    answers: map<string, seq<Answer>>,
    votes: map<string, map<int, map<string, Vote>>>,
    versions: map<string, nat>)

  const EMPTY: State := State(map[], map[], map[], map[], map[], map[])

  function VersionOf(s: State, key: string): nat {
    if key in s.versions then s.versions[key] else 0
  }

  /** Reputation as the engine reads it: agents without a record count as 100. */
  function RepOf(s: State, agent: string): int {
    if agent in s.reps then s.reps[agent] else 100
  }

  function TaskOf(s: State, id: string): Option<TaskRecord> {
    if id in s.tasks then Some(s.tasks[id]) else None
  }

  function AnswersOf(s: State, id: string): seq<Answer> {
    if id in s.answers then s.answers[id] else []
  }

  function VotesOf(s: State, id: string, round: int): map<string, Vote> {
    if id in s.votes && round in s.votes[id] then s.votes[id][round] else map[]
  }

  function VoteOf(s: State, id: string, round: int, agent: string): Option<Vote> {
    if agent in VotesOf(s, id, round) then Some(VotesOf(s, id, round)[agent]) else None
  }

  function Bump(s: State, key: string): State {
    s.(versions := s.versions[key := VersionOf(s, key) + 1])
  }

  /** An update overwrites the five progress fields and keeps the identity of the task. */
  function Updated(was: TaskRecord, t: TaskRecord): TaskRecord {
    was.(status := t.status, result := t.result, confidence := t.confidence,
         round := t.round, proposals := t.proposals)
  }

  function RecordVote(s: State, v: Vote): State {
    var rounds := if v.taskId in s.votes then s.votes[v.taskId] else map[];
    var votes := if v.round in rounds then rounds[v.round] else map[];
    if v.agentId in votes then s
    else s.(votes := s.votes[v.taskId := rounds[v.round := votes[v.agentId := v]]])
  }

  function Apply(s: State, cmd: Command): State {
    match cmd
    case UpdateReputation(a, r) => Bump(s.(reps := s.reps[a := r]), Key(REPUTATION_PREFIX, a))
    case AdmitTask(t) => Bump(s.(tasks := s.tasks[t.id := t]), Key(TASK_PREFIX, t.id))
    case SubmitAnswer(a) => s.(answers := s.answers[a.taskId := AnswersOf(s, a.taskId) + [a]])
    case UpdateTask(t) =>
      if t.id in s.tasks
      then Bump(s.(tasks := s.tasks[t.id := Updated(s.tasks[t.id], t)]), Key(TASK_PREFIX, t.id))
      else s
    case SubmitVote(v) => RecordVote(s, v)
    case UpdateMetadata(m) => Bump(s.(meta := s.meta[m.id := m]), Key(METADATA_PREFIX, m.id))
    case Unknown => s
    case Undecodable => s
  }

  function Replay(s: State, log: seq<Command>): State {
    if log == [] then s
    else Apply(Replay(s, log[..|log| - 1]), log[|log| - 1])
  }

  lemma ReplaySnoc(s: State, log: seq<Command>, cmd: Command)
    ensures Replay(s, log + [cmd]) == Apply(Replay(s, log), cmd)
  {
    assert (log + [cmd])[..|log|] == log;
  }

  lemma {:induction false} ReplayConcat(s: State, a: seq<Command>, b: seq<Command>)
    ensures Replay(s, a + b) == Replay(Replay(s, a), b)
  {
    if b == [] {
      assert a + b == a;
    } else {
      var front := b[..|b| - 1];
      assert (a + b)[..|a + b| - 1] == a + front;
      ReplayConcat(s, a, front);
    }
  }

  /** Every record is filed under its own identifiers. */
  ghost predicate WellKeyed(s: State) {
    && (forall id :: id in s.tasks ==> s.tasks[id].id == id)
    && (forall id, r, a :: id in s.votes && r in s.votes[id] && a in s.votes[id][r] ==>
          s.votes[id][r][a].taskId == id && s.votes[id][r][a].round == r && s.votes[id][r][a].agentId == a)
  }

  lemma WellKeyedApply(s: State, cmd: Command)
    requires WellKeyed(s)
    ensures WellKeyed(Apply(s, cmd))
  {
  }

  /** What a snapshot carries. Answers and votes are not part of it. */
  datatype SnapshotData = SnapshotData(
    reps: map<string, int>,
    meta: map<string, AgentMetadata>,
    tasks: map<string, TaskRecord>,
    versions: map<string, nat>)

  function SnapshotOf(s: State): SnapshotData {
    SnapshotData(s.reps, s.meta, s.tasks, s.versions)
  }

  /** The wire form. The writer names the field of key versions differently from the reader, so
      with `namesMatch == false`, which is what the code does, the versions are lost. */
  function Transmit(d: SnapshotData, namesMatch: bool): SnapshotData {
    if namesMatch then d else d.(versions := map[])
  }

  /** The tasks that are not finished. */
  ghost function Active(tasks: map<string, TaskRecord>): (m: map<string, TaskRecord>)
    ensures forall id :: id in m <==> id in tasks && !Finished(tasks[id].status)
    ensures forall id :: id in m ==> m[id] == tasks[id]
  {
    var active := set id | id in tasks && !Finished(tasks[id].status);
    MapOf(active, id requires id in tasks => tasks[id])
  }

  ghost function Restore(d: SnapshotData): State {
    State(d.reps, d.meta, Active(d.tasks), map[], map[], d.versions)
  }

  /** What restoring needs: tasks filed under their own identifiers. */
  ghost predicate Restorable(d: SnapshotData) {
    forall id :: id in d.tasks ==> d.tasks[id].id == id
  }

  /** Every snapshot of a replica can be restored, and leaves the records filed properly. */
  lemma {:induction false} SnapshotsAreRestorable(s: State, log: seq<Command>)
    requires WellKeyed(s)
    ensures WellKeyed(Replay(s, log))
    ensures var d := SnapshotOf(Replay(s, log)); Restorable(d) && WellKeyed(Restore(d))
  {
    if log != [] {
      SnapshotsAreRestorable(s, log[..|log| - 1]);
      WellKeyedApply(Replay(s, log[..|log| - 1]), log[|log| - 1]);
    }
  }
}
