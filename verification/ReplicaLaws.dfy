/** Laws of the replicated state machine over whole logs: what each key version counts, what a
    replica restored from a snapshot still shares with a full one, and when replaying a segment
    a second time changes nothing. */
module ReplicaLaws {
  import opened Core
  import opened Replica

  // ---- Per-task view of a log -------------------------------------------------------------

  ghost predicate Admits(cmd: Command, id: string) {
    cmd.AdmitTask? && cmd.task.id == id
  }

  ghost predicate Updates(cmd: Command, id: string) {
    cmd.UpdateTask? && cmd.task.id == id
  }

  ghost predicate AdmittedIn(log: seq<Command>, id: string) {
    exists i :: 0 <= i < |log| && Admits(log[i], id)
  }

  lemma AdmittedInSnoc(log: seq<Command>, cmd: Command, id: string)
    ensures AdmittedIn(log + [cmd], id) <==> AdmittedIn(log, id) || Admits(cmd, id)
  {
    var all := log + [cmd];
    if AdmittedIn(log, id) {
      var i :| 0 <= i < |log| && Admits(log[i], id);
      assert Admits(all[i], id);
    }
    assert all[|log|] == cmd;
  }

  lemma LastCommand(log: seq<Command>)
    requires log != []
    ensures log == log[..|log| - 1] + [log[|log| - 1]]
  {
  }

  function TaskStep(before: Option<TaskRecord>, cmd: Command, id: string): Option<TaskRecord> {
    match cmd
    case AdmitTask(t) => if t.id == id then Some(t) else before
    case UpdateTask(t) => if t.id == id && before.Some? then Some(Updated(before.value, t)) else before
    case _ => before
  }

  /** What a log makes of one task, whatever happens to the others. */
  function TaskAfter(o: Option<TaskRecord>, log: seq<Command>, id: string): Option<TaskRecord> {
    if log == [] then o
    else TaskStep(TaskAfter(o, log[..|log| - 1], id), log[|log| - 1], id)
  }

  lemma TaskOfApply(s: State, cmd: Command, id: string)
    ensures TaskOf(Apply(s, cmd), id) == TaskStep(TaskOf(s, id), cmd, id)
  {
  }

  lemma {:induction false} TaskAfterReplay(s: State, log: seq<Command>, id: string)
    ensures TaskOf(Replay(s, log), id) == TaskAfter(TaskOf(s, id), log, id)
  {
    if log != [] {
      var front, cmd := log[..|log| - 1], log[|log| - 1];
      TaskAfterReplay(s, front, id);
      TaskOfApply(Replay(s, front), cmd, id);
    }
  }

  /** Once the log admits a task, nothing that happened to it before the log matters. */
  lemma {:induction false} AdmissionForgets(o: Option<TaskRecord>, p: Option<TaskRecord>, log: seq<Command>, id: string)
    requires AdmittedIn(log, id)
    ensures TaskAfter(o, log, id) == TaskAfter(p, log, id)
    ensures TaskAfter(o, log, id).Some?
  {
    var front, cmd := log[..|log| - 1], log[|log| - 1];
    LastCommand(log);
    AdmittedInSnoc(front, cmd, id);
    if !Admits(cmd, id) {
      AdmissionForgets(o, p, front, id);
    }
  }

  /** Without an admission a log either leaves the task alone or ends with one last update. */
  lemma {:induction false} UpdatesOnlyOverwrite(o: Option<TaskRecord>, log: seq<Command>, id: string)
    requires !AdmittedIn(log, id)
    ensures o.None? ==> TaskAfter(o, log, id).None?
    ensures o.Some? ==> TaskAfter(o, log, id).Some?
    ensures TaskAfter(TaskAfter(o, log, id), log, id) == TaskAfter(o, log, id)
  {
    if log != [] {
      var front, cmd := log[..|log| - 1], log[|log| - 1];
      LastCommand(log);
      AdmittedInSnoc(front, cmd, id);
      UpdatesOnlyOverwrite(o, front, id);
      if o.Some? && Updates(cmd, id) {
        var x := TaskAfter(o, front, id).value;
        SameIdentity(o, front, id);
        SameIdentity(TaskAfter(o, log, id), front, id);
      }
    }
  }

  lemma {:induction false} SameIdentity(o: Option<TaskRecord>, log: seq<Command>, id: string)
    requires o.Some? && !AdmittedIn(log, id)
    ensures TaskAfter(o, log, id).Some?
    ensures forall t :: Updated(TaskAfter(o, log, id).value, t) == Updated(o.value, t)
  {
    if log != [] {
      LastCommand(log);
      AdmittedInSnoc(log[..|log| - 1], log[|log| - 1], id);
      SameIdentity(o, log[..|log| - 1], id);
    }
  }

  lemma TaskAfterTwice(o: Option<TaskRecord>, log: seq<Command>, id: string)
    ensures TaskAfter(TaskAfter(o, log, id), log, id) == TaskAfter(o, log, id)
  {
    if AdmittedIn(log, id) {
      AdmissionForgets(TaskAfter(o, log, id), o, log, id);
    } else {
      UpdatesOnlyOverwrite(o, log, id);
    }
  }

  // ---- Votes: the first one stands --------------------------------------------------------

  ghost predicate Casts(cmd: Command, id: string, round: int, agent: string) {
    cmd.SubmitVote? && cmd.vote.taskId == id && cmd.vote.round == round && cmd.vote.agentId == agent
  }

  /** The first vote of an agent in a round, over a whole log. */
  function FirstVote(log: seq<Command>, id: string, round: int, agent: string): Option<Vote> {
    if log == [] then None
    else
      var before := FirstVote(log[..|log| - 1], id, round, agent);
      var cmd := log[|log| - 1];
      if before.None? && cmd.SubmitVote?
         && cmd.vote.taskId == id && cmd.vote.round == round && cmd.vote.agentId == agent
      then Some(cmd.vote)
      else before
  }

  lemma VoteOfApply(s: State, cmd: Command, id: string, round: int, agent: string)
    ensures VoteOf(Apply(s, cmd), id, round, agent) ==
            if VoteOf(s, id, round, agent).None? && Casts(cmd, id, round, agent)
            then Some(cmd.vote) else VoteOf(s, id, round, agent)
  {
  }

  /** The votes held by a replica are the ones it started with and, for everybody else, the first
      vote in the log. */
  lemma {:induction false} VotesAfterReplay(s: State, log: seq<Command>, id: string, round: int, agent: string)
    ensures VoteOf(Replay(s, log), id, round, agent) ==
            if VoteOf(s, id, round, agent).Some? then VoteOf(s, id, round, agent)
            else FirstVote(log, id, round, agent)
  {
    if log != [] {
      VotesAfterReplay(s, log[..|log| - 1], id, round, agent);
      VoteOfApply(Replay(s, log[..|log| - 1]), log[|log| - 1], id, round, agent);
    }
  }

  ghost predicate AllCast(s: State, log: seq<Command>) {
    forall i :: 0 <= i < |log| && log[i].SubmitVote? ==>
      VoteOf(s, log[i].vote.taskId, log[i].vote.round, log[i].vote.agentId).Some?
  }

  lemma VotesOfApply(s: State, cmd: Command)
    ensures cmd.SubmitVote? && VoteOf(s, cmd.vote.taskId, cmd.vote.round, cmd.vote.agentId).Some? ==>
              Apply(s, cmd).votes == s.votes
    ensures !cmd.SubmitVote? ==> Apply(s, cmd).votes == s.votes
  {
  }

  lemma {:induction false} RepeatedVotesChangeNothing(s: State, log: seq<Command>)
    requires AllCast(s, log)
    ensures Replay(s, log).votes == s.votes
  {
    if log != [] {
      var front, cmd := log[..|log| - 1], log[|log| - 1];
      assert AllCast(s, front) by {
        forall i | 0 <= i < |front| && front[i].SubmitVote?
          ensures VoteOf(s, front[i].vote.taskId, front[i].vote.round, front[i].vote.agentId).Some?
        { assert front[i] == log[i]; }
      }
      RepeatedVotesChangeNothing(s, front);
      VotesOfApply(Replay(s, front), cmd);
    }
  }

  lemma {:induction false} EveryVoteIsCast(s: State, log: seq<Command>, i: nat)
    requires i < |log| && log[i].SubmitVote?
    ensures VoteOf(Replay(s, log), log[i].vote.taskId, log[i].vote.round, log[i].vote.agentId).Some?
  {
    var front, cmd, v := log[..|log| - 1], log[|log| - 1], log[i].vote;
    if i < |front| {
      EveryVoteIsCast(s, front, i);
    }
    VoteOfApply(Replay(s, front), cmd, v.taskId, v.round, v.agentId);
  }

  // ---- Reputations, metadata, answers -----------------------------------------------------

  function LastRep(log: seq<Command>, agent: string): Option<int> {
    if log == [] then None
    else if log[|log| - 1].UpdateReputation? && log[|log| - 1].agent == agent then Some(log[|log| - 1].rep)
    else LastRep(log[..|log| - 1], agent)
  }

  function LastMeta(log: seq<Command>, agent: string): Option<AgentMetadata> {
    if log == [] then None
    else if log[|log| - 1].UpdateMetadata? && log[|log| - 1].meta.id == agent then Some(log[|log| - 1].meta)
    else LastMeta(log[..|log| - 1], agent)
  }

  function Lookup<V>(m: map<string, V>, k: string): Option<V> {
    if k in m then Some(m[k]) else None
  }

  lemma SameLookups<V>(m: map<string, V>, n: map<string, V>)
    requires forall k :: Lookup(m, k) == Lookup(n, k)
    ensures m == n
  {
    forall k ensures k in m <==> k in n {
      assert Lookup(m, k) == Lookup(n, k);
    }
    forall k | k in m ensures m[k] == n[k] {
      assert Lookup(m, k) == Lookup(n, k);
    }
  }

  lemma WriteOfApply(s: State, cmd: Command, k: string)
    ensures Lookup(Apply(s, cmd).reps, k) ==
            if cmd.UpdateReputation? && cmd.agent == k then Some(cmd.rep) else Lookup(s.reps, k)
    ensures Lookup(Apply(s, cmd).meta, k) ==
            if cmd.UpdateMetadata? && cmd.meta.id == k then Some(cmd.meta) else Lookup(s.meta, k)
  {
  }

  lemma {:induction false} LastWriteWins(s: State, log: seq<Command>, k: string)
    ensures Lookup(Replay(s, log).reps, k) == if LastRep(log, k).Some? then LastRep(log, k) else Lookup(s.reps, k)
    ensures Lookup(Replay(s, log).meta, k) == if LastMeta(log, k).Some? then LastMeta(log, k) else Lookup(s.meta, k)
  {
    if log != [] {
      var front, cmd := log[..|log| - 1], log[|log| - 1];
      LastWriteWins(s, front, k);
      WriteOfApply(Replay(s, front), cmd, k);
    }
  }

  // ---- Replaying a segment twice ----------------------------------------------------------

  /** Applying any log segment twice in a row leaves the tasks, the votes, the reputations and the
      metadata exactly as applying it once, from every state. */
  lemma ReplayTwice(s: State, log: seq<Command>)
    ensures var once := Replay(s, log); var twice := Replay(once, log);
            && twice.tasks == once.tasks && twice.votes == once.votes
            && twice.reps == once.reps && twice.meta == once.meta
  {
    var once := Replay(s, log);
    var twice := Replay(once, log);
    forall k ensures Lookup(twice.reps, k) == Lookup(once.reps, k) && Lookup(twice.meta, k) == Lookup(once.meta, k) {
      LastWriteWins(s, log, k);
      LastWriteWins(once, log, k);
    }
    SameLookups(twice.reps, once.reps);
    SameLookups(twice.meta, once.meta);
    forall id ensures Lookup(twice.tasks, id) == Lookup(once.tasks, id) {
      TaskAfterReplay(s, log, id);
      TaskAfterReplay(once, log, id);
      TaskAfterTwice(TaskOf(s, id), log, id);
    }
    SameLookups(twice.tasks, once.tasks);
    forall i | 0 <= i < |log| && log[i].SubmitVote?
      ensures VoteOf(once, log[i].vote.taskId, log[i].vote.round, log[i].vote.agentId).Some?
    {
      EveryVoteIsCast(s, log, i);
    }
    RepeatedVotesChangeNothing(once, log);
  }

  /** Answers and versions really are exceptions: one answer to a task with one update shows both. */
  lemma ReplayTwiceExceptions()
    ensures exists s, log :: Replay(Replay(s, log), log).answers != Replay(s, log).answers
                          && Replay(Replay(s, log), log).versions != Replay(s, log).versions
  {
    var log := [SubmitAnswer(Answer("t", "a", "x")), UpdateReputation("a", 5)];
    assert log[..1] == [SubmitAnswer(Answer("t", "a", "x"))];
    var once := Replay(EMPTY, log);
    assert Replay(EMPTY, log[..1]) == Apply(EMPTY, log[0]);
    assert AnswersOf(once, "t") == [Answer("t", "a", "x")];
    var twice := Replay(once, log);
    assert Replay(once, log[..1]) == Apply(once, log[0]);
    assert AnswersOf(twice, "t") == [Answer("t", "a", "x"), Answer("t", "a", "x")];
    assert VersionOf(twice, Key(REPUTATION_PREFIX, "a")) == 2;
    assert VersionOf(once, Key(REPUTATION_PREFIX, "a")) == 1;
  }

  // ---- Versions count effects -------------------------------------------------------------

  /** Entry `i` took effect on `key`; a task update only if its task was there already. */
  ghost predicate TakesEffect(s: State, log: seq<Command>, i: nat, key: string)
    requires i < |log|
  {
    match log[i]
    case UpdateReputation(a, _) => key == Key(REPUTATION_PREFIX, a)
    case AdmitTask(t) => key == Key(TASK_PREFIX, t.id)
    case UpdateTask(t) => key == Key(TASK_PREFIX, t.id) && (t.id in s.tasks || AdmittedIn(log[..i], t.id))
    case UpdateMetadata(m) => key == Key(METADATA_PREFIX, m.id)
    case _ => false
  }

  ghost function Effects(s: State, log: seq<Command>, key: string): set<nat> {
    set i: nat | i < |log| && TakesEffect(s, log, i, key)
  }

  lemma PresentAfter(s: State, log: seq<Command>, id: string)
    ensures id in Replay(s, log).tasks <==> id in s.tasks || AdmittedIn(log, id)
  {
    TaskAfterReplay(s, log, id);
    if AdmittedIn(log, id) {
      AdmissionForgets(TaskOf(s, id), TaskOf(s, id), log, id);
    } else {
      UpdatesOnlyOverwrite(TaskOf(s, id), log, id);
    }
  }

  /** The key whose version a command bumps in state `s`, if any. */
  function Bumped(s: State, cmd: Command): Option<string> {
    match cmd
    case UpdateReputation(a, _) => Some(Key(REPUTATION_PREFIX, a))
    case AdmitTask(t) => Some(Key(TASK_PREFIX, t.id))
    case UpdateTask(t) => if t.id in s.tasks then Some(Key(TASK_PREFIX, t.id)) else None
    case UpdateMetadata(m) => Some(Key(METADATA_PREFIX, m.id))
    case _ => None
  }

  lemma VersionOfApply(s: State, cmd: Command, key: string)
    ensures VersionOf(Apply(s, cmd), key) == VersionOf(s, key) + (if Bumped(s, cmd) == Some(key) then 1 else 0)
  {
  }

  /** For every log, the version of a key has grown by the number of entries that took effect on it. */
  lemma {:induction false} VersionsCountEffects(s: State, log: seq<Command>, key: string)
    ensures VersionOf(Replay(s, log), key) == VersionOf(s, key) + |Effects(s, log, key)|
  {
    if log == [] {
      assert Effects(s, log, key) == {};
    } else {
      var front, n := log[..|log| - 1], |log| - 1;
      VersionsCountEffects(s, front, key);
      forall i: nat | i < n ensures TakesEffect(s, log, i, key) <==> TakesEffect(s, front, i, key) {
        assert front[..i] == log[..i];
      }
      var last: set<nat> := if TakesEffect(s, log, n, key) then {n} else {};
      assert Effects(s, log, key) == Effects(s, front, key) + last;
      assert n !in Effects(s, front, key);
      if log[n].UpdateTask? {
        PresentAfter(s, front, log[n].task.id);
      }
      VersionOfApply(Replay(s, front), log[n], key);
      assert TakesEffect(s, log, n, key) <==> Bumped(Replay(s, front), log[n]) == Some(key);
    }
  }

  // ---- Snapshot and restore ---------------------------------------------------------------

  /** Tasks already finished in the snapshotted state. */
  ghost predicate FinishedAt(s: State, id: string) {
    id in s.tasks && Finished(s.tasks[id].status)
  }

  /** Entry `i` updates a task that had finished at the snapshot and has not been admitted again. */
  ghost predicate Stale(s: State, log: seq<Command>, i: nat)
    requires i < |log|
  {
    log[i].UpdateTask? && FinishedAt(s, log[i].task.id) && !AdmittedIn(log[..i], log[i].task.id)
  }

  ghost function StaleOn(s: State, log: seq<Command>, key: string): set<nat> {
    set i: nat | i < |log| && Stale(s, log, i) && key == Key(TASK_PREFIX, log[i].task.id)
  }

  ghost function Restored(s: State, namesMatch: bool): State {
    Restore(Transmit(SnapshotOf(s), namesMatch))
  }

  /** A restored replica and a full one after the same log. They agree on reputations and metadata;
      on every task that was not finished at the snapshot or was admitted since; finished ones stay
      gone. Votes of the full replica are those in the snapshotted state laid over those of the
      restored one, and answers are the old ones followed by the restored ones. */
  lemma RestoredSimulatesFull(s: State, log: seq<Command>, namesMatch: bool)
    ensures var full := Replay(s, log); var rest := Replay(Restored(s, namesMatch), log);
            && rest.reps == full.reps && rest.meta == full.meta
            && (forall id :: TaskOf(rest, id) ==
                  if FinishedAt(s, id) && !AdmittedIn(log, id) then None else TaskOf(full, id))
            && (forall id, r, a :: VoteOf(full, id, r, a) ==
                  if VoteOf(s, id, r, a).Some? then VoteOf(s, id, r, a) else VoteOf(rest, id, r, a))
            && (forall id, r, a :: VoteOf(rest, id, r, a) == FirstVote(log, id, r, a))
            && (forall id :: AnswersOf(full, id) == AnswersOf(s, id) + AnswersOf(rest, id))
  {
    var r0 := Restored(s, namesMatch);
    var full := Replay(s, log);
    var rest := Replay(r0, log);
    forall k ensures Lookup(rest.reps, k) == Lookup(full.reps, k) && Lookup(rest.meta, k) == Lookup(full.meta, k) {
      LastWriteWins(s, log, k);
      LastWriteWins(r0, log, k);
    }
    SameLookups(rest.reps, full.reps);
    SameLookups(rest.meta, full.meta);
    forall id ensures TaskOf(rest, id) == if FinishedAt(s, id) && !AdmittedIn(log, id) then None else TaskOf(full, id) {
      TaskAfterReplay(s, log, id);
      TaskAfterReplay(r0, log, id);
      if AdmittedIn(log, id) {
        AdmissionForgets(TaskOf(s, id), TaskOf(r0, id), log, id);
      } else {
        UpdatesOnlyOverwrite(TaskOf(r0, id), log, id);
      }
    }
    forall id, r, a
      ensures VoteOf(full, id, r, a)
              == (if VoteOf(s, id, r, a).Some? then VoteOf(s, id, r, a) else VoteOf(rest, id, r, a))
      ensures VoteOf(rest, id, r, a) == FirstVote(log, id, r, a)
    {
      VotesAfterReplay(s, log, id, r, a);
      VotesAfterReplay(r0, log, id, r, a);
    }
    forall id ensures AnswersOf(full, id) == AnswersOf(s, id) + AnswersOf(rest, id) {
      AnswersAppend(s, r0, log, id);
    }
  }

  lemma AnswersOfApply(s: State, cmd: Command, id: string)
    ensures AnswersOf(Apply(s, cmd), id) ==
            AnswersOf(s, id) + if cmd.SubmitAnswer? && cmd.answer.taskId == id then [cmd.answer] else []
  {
  }

  lemma {:induction false} AnswersAppend(s: State, r: State, log: seq<Command>, id: string)
    requires r.answers == map[]
    ensures AnswersOf(Replay(s, log), id) == AnswersOf(s, id) + AnswersOf(Replay(r, log), id)
  {
    if log != [] {
      var front, cmd := log[..|log| - 1], log[|log| - 1];
      AnswersAppend(s, r, front, id);
      AnswersOfApply(Replay(s, front), cmd, id);
      AnswersOfApply(Replay(r, front), cmd, id);
    }
  }

  /** How far the versions of the two replicas drift apart, key by key. */
  lemma VersionDrift(s: State, log: seq<Command>, namesMatch: bool, key: string)
    ensures VersionOf(Replay(s, log), key) ==
            VersionOf(Replay(Restored(s, namesMatch), log), key)
            + |StaleOn(s, log, key)| + (if namesMatch then 0 else VersionOf(s, key))
  {
    hide Replay;
    var r := Restored(s, namesMatch);
    VersionsCountEffects(s, log, key);
    VersionsCountEffects(r, log, key);
    forall i: nat | i < |log|
      ensures TakesEffect(s, log, i, key) <==> TakesEffect(r, log, i, key) || i in StaleOn(s, log, key)
      ensures !(TakesEffect(r, log, i, key) && i in StaleOn(s, log, key))
    {
      if log[i].UpdateTask? {
        assert log[i].task.id in r.tasks <==> log[i].task.id in s.tasks && !FinishedAt(s, log[i].task.id);
      }
    }
    assert Effects(s, log, key) == Effects(r, log, key) + StaleOn(s, log, key);
    assert Effects(r, log, key) !! StaleOn(s, log, key);
  }

  /** With versions carried over, the two replicas report the same version of every key exactly
      when the log holds no update of a task already finished at the snapshot. */
  lemma RestoredVersionsAgreeIff(s: State, log: seq<Command>)
    ensures (forall key :: VersionOf(Replay(s, log), key) == VersionOf(Replay(Restored(s, true), log), key))
            <==> (forall i: nat :: i < |log| ==> !Stale(s, log, i))
  {
    var full, rest := Replay(s, log), Replay(Restored(s, true), log);
    if i: nat :| i < |log| && Stale(s, log, i) {
      var key := Key(TASK_PREFIX, log[i].task.id);
      VersionDrift(s, log, true, key);
      assert i in StaleOn(s, log, key);
      assert VersionOf(full, key) != VersionOf(rest, key);
    } else {
      forall key ensures VersionOf(full, key) == VersionOf(rest, key) {
        VersionDrift(s, log, true, key);
        assert StaleOn(s, log, key) == {};
      }
    }
  }

  /** Taking a snapshot of a restored replica and restoring it again changes nothing. */
  lemma RestoreIsIdempotent(s: State, namesMatch: bool)
    ensures Restored(Restored(s, true), true) == Restored(s, true)
    ensures Restored(Restored(s, namesMatch), false) == Restored(s, false)
  {
    assert Active(Active(s.tasks)) == Active(s.tasks);
  }

  /** Every task of the table is as it was at some moment while `log` was applied. */
  ghost predicate ReadDuring(table: map<string, TaskRecord>, s: State, log: seq<Command>) {
    forall id :: exists n: nat :: n <= |log| && Lookup(table, id) == TaskOf(Replay(s, log[..n]), id)
  }

  /** A task read in the middle of a log that does not admit it catches up when all of it is applied. */
  lemma {:induction false} CatchesUp(o: Option<TaskRecord>, log: seq<Command>, n: nat, id: string)
    requires n <= |log| && !AdmittedIn(log, id)
    ensures TaskAfter(TaskAfter(o, log[..n], id), log, id) == TaskAfter(o, log, id)
  {
    if n == |log| {
      assert log[..n] == log;
      UpdatesOnlyOverwrite(o, log, id);
    } else {
      var front := log[..|log| - 1];
      assert front[..n] == log[..n];
      LastCommand(log);
      AdmittedInSnoc(front, log[|log| - 1], id);
      CatchesUp(o, front, n, id);
    }
  }

  /** The task table is shared with a snapshot, not copied, and may be written out while the log
      goes on, each task at another moment. Applying the whole log on top of it still gives the
      right tasks: all of the later state, except those read as finished and not admitted in it. */
  lemma LateTasksAreHarmless(s: State, log: seq<Command>, table: map<string, TaskRecord>)
    requires ReadDuring(table, s, log)
    ensures var later := Replay(s, log);
            var mixed := Replay(Restore(SnapshotOf(s).(tasks := table)), log);
            && mixed.reps == later.reps && mixed.meta == later.meta
            && (forall id :: TaskOf(mixed, id) ==
                  if id in table && Finished(table[id].status) && !AdmittedIn(log, id) then None else TaskOf(later, id))
  {
    var later := Replay(s, log);
    var r := Restore(SnapshotOf(s).(tasks := table));
    var mixed := Replay(r, log);
    forall k ensures Lookup(mixed.reps, k) == Lookup(later.reps, k) && Lookup(mixed.meta, k) == Lookup(later.meta, k) {
      LastWriteWins(s, log, k);
      LastWriteWins(r, log, k);
    }
    SameLookups(mixed.reps, later.reps);
    SameLookups(mixed.meta, later.meta);
    forall id
      ensures TaskOf(mixed, id) ==
              if id in table && Finished(table[id].status) && !AdmittedIn(log, id) then None else TaskOf(later, id)
    {
      var n: nat :| n <= |log| && Lookup(table, id) == TaskOf(Replay(s, log[..n]), id);
      TaskAfterReplay(s, log, id);
      TaskAfterReplay(s, log[..n], id);
      TaskAfterReplay(r, log, id);
      if AdmittedIn(log, id) {
        AdmissionForgets(TaskOf(s, id), TaskOf(r, id), log, id);
      } else {
        CatchesUp(TaskOf(s, id), log, n, id);
        UpdatesOnlyOverwrite(TaskOf(r, id), log, id);
      }
    }
  }

  /** On a replica that has seen its whole log, a key has a version exactly when something is filed
      under it. So a subscriber that is behind is always answered at once. */
  lemma {:induction false} FiledIffVersioned(log: seq<Command>, id: string)
    ensures var s := Replay(EMPTY, log);
            && (VersionOf(s, Key(TASK_PREFIX, id)) > 0 <==> id in s.tasks)
            && (VersionOf(s, Key(REPUTATION_PREFIX, id)) > 0 <==> id in s.reps)
            && (VersionOf(s, Key(METADATA_PREFIX, id)) > 0 <==> id in s.meta)
  {
    if log != [] {
      var front, cmd := log[..|log| - 1], log[|log| - 1];
      var s := Replay(EMPTY, front);
      FiledIffVersioned(front, id);
      TaskOfApply(s, cmd, id);
      WriteOfApply(s, cmd, id);
      VersionOfApply(s, cmd, Key(TASK_PREFIX, id));
      VersionOfApply(s, cmd, Key(REPUTATION_PREFIX, id));
      VersionOfApply(s, cmd, Key(METADATA_PREFIX, id));
      BumpedKeys(s, cmd, id);
    }
  }

  /** Which command bumps which of the three keys of an identifier. */
  lemma BumpedKeys(s: State, cmd: Command, id: string)
    ensures Bumped(s, cmd) == Some(Key(TASK_PREFIX, id)) <==> Admits(cmd, id) || (Updates(cmd, id) && id in s.tasks)
    ensures Bumped(s, cmd) == Some(Key(REPUTATION_PREFIX, id)) <==> cmd.UpdateReputation? && cmd.agent == id
    ensures Bumped(s, cmd) == Some(Key(METADATA_PREFIX, id)) <==> cmd.UpdateMetadata? && cmd.meta.id == id
  {
    match cmd
    case UpdateReputation(a, _) => SameKeys(a, id);
    case AdmitTask(t) => SameKeys(t.id, id);
    case UpdateTask(t) => SameKeys(t.id, id);
    case UpdateMetadata(m) => SameKeys(m.id, id);
    case _ =>
  }

  lemma SameKeys(a: string, b: string)
    ensures Key(TASK_PREFIX, a) == Key(TASK_PREFIX, b) <==> a == b
    ensures Key(REPUTATION_PREFIX, a) == Key(REPUTATION_PREFIX, b) <==> a == b
    ensures Key(METADATA_PREFIX, a) == Key(METADATA_PREFIX, b) <==> a == b
    ensures Key(TASK_PREFIX, a) != Key(REPUTATION_PREFIX, b) && Key(TASK_PREFIX, a) != Key(METADATA_PREFIX, b)
    ensures Key(REPUTATION_PREFIX, a) != Key(METADATA_PREFIX, b) && Key(REPUTATION_PREFIX, a) != Key(TASK_PREFIX, b)
    ensures Key(METADATA_PREFIX, a) != Key(TASK_PREFIX, b) && Key(METADATA_PREFIX, a) != Key(REPUTATION_PREFIX, b)
  {
    KeysApart(a, b);
    KeysApart(b, a);
    if Key(TASK_PREFIX, a) == Key(TASK_PREFIX, b) { KeyInjective(TASK_PREFIX, a, b); }
    if Key(REPUTATION_PREFIX, a) == Key(REPUTATION_PREFIX, b) { KeyInjective(REPUTATION_PREFIX, a, b); }
    if Key(METADATA_PREFIX, a) == Key(METADATA_PREFIX, b) { KeyInjective(METADATA_PREFIX, a, b); }
  }
}
