/** What a task and the reputations go through over whole runs, lost entries and changes of leader
    included: finished tasks stay finished, reputations move once per task, and each reputation is
    a clamped walk. */
module Lifecycle {
  import opened Core
  import opened Replica
  import opened Voting
  import opened Reputation
  import opened Protocol

  // ---- Finished tasks ---------------------------------------------------------------------

  ghost predicate SameTask(a: TaskRecord, b: TaskRecord) {
    a.id == b.id && a.content == b.content && a.requester == b.requester && a.createdAt == b.createdAt
  }

  /** The replicas know the same tasks, and agree entirely on those that either counts as finished. */
  ghost predicate Agree(p: Twin) {
    && p.live.tasks.Keys == p.committed.tasks.Keys
    && forall id :: id in p.live.tasks ==>
         var a, b := p.live.tasks[id], p.committed.tasks[id];
         SameTask(a, b) && a.id == id && (Finished(a.status) || Finished(b.status) ==> a == b)
  }

  ghost predicate IsFinished(s: State, id: string) {
    id in s.tasks && Finished(s.tasks[id].status)
  }

  /** All tasks are still there, and those that were finished unchanged but for `except`, which may
      have failed. */
  ghost predicate KeepsFinished(s: State, t: State, except: Option<string>) {
    s.tasks.Keys <= t.tasks.Keys && forall id :: IsFinished(s, id) ==>
      id in t.tasks && (t.tasks[id] == s.tasks[id] || (except == Some(id) && t.tasks[id].status.Failed?))
  }

  lemma UpdateAgrees(p: Twin, rec: TaskRecord, ok: bool)
    requires Agree(p)
    ensures Agree(Commit(p, UpdateTask(rec), ok))
  {
  }

  lemma UpdateKeepsFinished(p: Twin, rec: TaskRecord, ok: bool)
    requires IsFinished(p.live, rec.id) ==> rec.status.Failed?
    ensures KeepsFinished(p.live, Commit(p, UpdateTask(rec), ok).live, Some(rec.id))
  {
  }

  lemma EditAgrees(p: Twin, id: string, rec: TaskRecord)
    requires Agree(p) && id in p.live.tasks && !Finished(p.live.tasks[id].status)
    requires SameTask(rec, p.live.tasks[id]) && !Finished(rec.status)
    ensures Agree(Edit(p, id, rec))
    ensures KeepsFinished(p.live, Edit(p, id, rec).live, None)
  {
  }

  /** An edit of an unfinished task followed by its update. */
  lemma EditThenUpdate(p: Twin, id: string, x: TaskRecord, y: TaskRecord, ok: bool)
    requires Agree(p) && id in p.live.tasks && !Finished(p.live.tasks[id].status)
    requires SameTask(x, p.live.tasks[id]) && !Finished(x.status) && y.id == id
    ensures var q := Commit(Edit(p, id, x), UpdateTask(y), ok);
            Agree(q) && KeepsFinished(p.live, q.live, None)
  {
    EditAgrees(p, id, x);
    UpdateAgrees(Edit(p, id, x), y, ok);
  }

  lemma ProposeKeepsFinished(p: Twin, id: string, force: bool, servers: Option<nat>, text: Option<string>, ok: bool)
    requires Agree(p) && id in p.live.tasks
    ensures var q := Propose(p, id, force, servers, text, ok).twin; Agree(q) && KeepsFinished(p.live, q.live, None)
  {
    if text.Some? && p.live.tasks[id].status.Admitted? {
      var next := Proposed(p.live.tasks[id], text.value);
      EditThenUpdate(p, id, next, next, ok);
    }
  }

  lemma PayKeepsTasks(p: Twin, reps: map<string, int>)
    ensures PayReps(p, reps).live.tasks == p.live.tasks && PayReps(p, reps).committed.tasks == p.committed.tasks
  {
  }

  lemma AgreedIds(p: Twin, id: string)
    requires Agree(p) && id in p.live.tasks
    ensures p.live.tasks[id].id == id
  {
  }

  lemma ReviseKeepsFinished(p: Twin, id: string, text: string, ok: bool)
    requires Agree(p) && id in p.live.tasks && !Finished(p.live.tasks[id].status)
    ensures Agree(ReviseTask(p, id, text, ok)) && KeepsFinished(p.live, ReviseTask(p, id, text, ok).live, None)
  {
    hide Agree, Commit, KeepsFinished;
    var rec := p.live.tasks[id];
    var next := Revised(rec, text);
    AgreedIds(p, id);
    assert SameTask(rec.(proposals := next.proposals), rec);
    EditThenUpdate(p, id, rec.(proposals := next.proposals), next, ok);
    EditThenUpdate(p, id, rec, next, ok);
    assert Edit(p, id, rec) == p;
  }

  lemma CloseKeepsFinished(me: string, p: Twin, id: string, done: bool, round: int, result: string, ok: bool,
                           lost: set<string>)
    requires Agree(p) && id in p.live.tasks && !Finished(p.live.tasks[id].status)
    ensures var q := CloseTask(me, p, id, done, round, result, ok, lost);
            Agree(q) && KeepsFinished(p.live, q.live, None) && (ok ==> IsFinished(q.live, id))
  {
    hide WithReps, NewReps, Rewarded, Confidence;
    var rec := p.live.tasks[id];
    var moved, final := rec.(round := round, result := result), FinalRecord(p.live, id, done, round, result);
    EditAgrees(p, id, moved);
    EditThenUpdate(p, id, moved, final, true);
    var q := Commit(Edit(p, id, moved), UpdateTask(final), true);
    assert q.live.tasks[id].status == final.status;
    var votes := VotesOf(p.live, id, rec.round);
    PayKeepsTasks(q, NewReps(p.live, me, done, votes, Rewarded(me, votes, lost)));
  }

  lemma FinalizeKeepsFinished(c: Config, me: string, p: Twin, id: string, servers: Option<nat>, text: Option<string>,
                              ok: bool, lost: set<string>)
    requires Agree(p)
    ensures var r := Finalize(c, me, p, id, servers, text, ok, lost);
            && Agree(r.twin) && KeepsFinished(p.live, r.twin.live, None)
            && (r.settled ==> !IsFinished(p.live, id) && IsFinished(r.twin.live, id))
  {
    if CanFinalize(p.live, id, servers) {
      match DecisionOf(c, p.live, id, servers, text)
      case Pending =>
      case Revise(text) => ReviseKeepsFinished(p, id, text, ok);
      case Conclude(done, round, result) => CloseKeepsFinished(me, p, id, done, round, result, ok, lost);
    }
  }

  lemma TimeoutKeepsFinished(p: Twin, id: string, servers: Option<nat>, text: Option<string>, ok: bool)
    requires Agree(p)
    ensures var q := Timeout(p, id, true, servers, text, ok).twin; Agree(q) && KeepsFinished(p.live, q.live, Some(id))
  {
    hide Agree, Propose, Commit;
    if id in p.live.tasks {
      ProposeKeepsFinished(p, id, true, servers, text, ok);
      UpdateAgrees(p, TimeoutRecord(id), ok);
      UpdateKeepsFinished(p, TimeoutRecord(id), ok);
    }
  }

  lemma DeliverKeepsFinished(c: Config, l: Leader, cmd: Command)
    requires Agree(l.twin) && Legal(c, l, Deliver(cmd))
    ensures var q := Commit(l.twin, cmd, true); Agree(q) && KeepsFinished(l.twin.live, q.live, None)
  {
  }

  function TimedOut(l: Leader, step: Step): Option<string> {
    if step.OnTimeout? && l.timers.queue != [] then Some(l.timers.queue[0]) else None
  }

  /** No step takes a finished task back, and only a timeout of that very task changes it at all:
      it may turn done into failed. */
  lemma FinishedIsKept(c: Config, l: Leader, step: Step)
    requires Agree(l.twin) && Legal(c, l, step)
    ensures Agree(Next(c, l, step).twin)
    ensures KeepsFinished(l.twin.live, Next(c, l, step).twin.live, TimedOut(l, step))
  {
    match step
    case Deliver(cmd) => DeliverKeepsFinished(c, l, cmd);
    case OnAnswer(id, io) =>
      if id in l.twin.live.tasks {
        ProposeKeepsFinished(l.twin, id, false, Servers(c, io), io.llm, io.ok);
      }
    case OnVote(id, io, lost) => FinalizeKeepsFinished(c, l.me, l.twin, id, Servers(c, io), io.llm, io.ok, lost);
    case OnTimeout(io) => TimeoutKeepsFinished(l.twin, l.timers.queue[0], Servers(c, io), io.llm, io.ok);
    case _ =>
  }

  /** The replicas of all nodes agree, pair by pair with the leader's, with the log's among them. */
  ghost predicate AllAgree(k: Cluster) {
    Agree(k.leader.twin) && forall n :: n in k.others ==> Agree(Twin(k.leader.twin.live, k.others[n]))
  }

  lemma AgreeEverywhere(live: State, a: State, b: State)
    requires Agree(Twin(live, a)) && Agree(Twin(live, b))
    ensures Agree(Twin(a, b)) && KeepsFinished(live, a, None)
  {
    assert forall id :: id in a.tasks ==> id in live.tasks && id in b.tasks;
  }

  lemma SelfAgrees(p: Twin)
    requires Agree(p)
    ensures Agree(Twin(p.live, p.live)) && KeepsFinished(p.live, p.live, None)
  {
  }

  lemma MoveAgrees(c: Config, k: Cluster, step: Step)
    requires AllAgree(k) && Enabled(c, k, step)
    ensures AllAgree(Move(c, k, step))
    ensures KeepsFinished(k.leader.twin.live, Move(c, k, step).leader.twin.live, TimedOut(k.leader, step))
  {
    hide Agree, KeepsFinished;
    var l, m := k.leader, Move(c, k, step);
    SelfAgrees(l.twin);
    if step.Handover? {
      var nodes := k.others[l.me := l.twin.live];
      assert l.twin == Twin(l.twin.live, l.twin.committed);
      AgreeEverywhere(l.twin.live, nodes[step.next], l.twin.committed);
      forall n | n in m.others ensures Agree(Twin(m.leader.twin.live, m.others[n])) {
        AgreeEverywhere(l.twin.live, nodes[step.next], nodes[n]);
      }
    } else if LeaderActs(step) {
      FinishedIsKept(c, l, step);
      forall n | n in m.others ensures Agree(Twin(m.leader.twin.live, m.others[n])) {
        FinishedIsKept(c, l.(twin := Twin(l.twin.live, k.others[n])), step);
        LiveAlone(c, l, step, k.others[n]);
      }
    }
  }

  /** In every reachable state all nodes agree on every task that any of them counts as finished. */
  lemma {:induction false} RunAgrees(c: Config, k: Cluster, steps: seq<Step>)
    requires AllAgree(k) && Run(c, k, steps)
    ensures AllAgree(After(c, k, steps))
    decreases |steps|
  {
    if steps != [] {
      MoveAgrees(c, k, steps[0]);
      RunAgrees(c, Move(c, k, steps[0]), steps[1..]);
    }
  }

  lemma NodesAlwaysAgree(c: Config, me: string, steps: seq<Step>)
    requires Run(c, Initial(c, me), steps)
    ensures AllAgree(After(c, Initial(c, me), steps))
  {
    RunAgrees(c, Initial(c, me), steps);
  }

  /** The step commits the outcome of task `id` and then moves reputations. */
  ghost predicate Settles(c: Config, l: Leader, step: Step, id: string) {
    step.OnVote? && step.id == id
    && Finalize(c, l.me, l.twin, id, Servers(c, step.io), step.io.llm, step.io.ok, step.lost).settled
  }

  ghost function Settlements(c: Config, k: Cluster, steps: seq<Step>, id: string): nat
    requires Run(c, k, steps)
    decreases |steps|
  {
    if steps == [] then 0
    else (if Settles(c, k.leader, steps[0], id) then 1 else 0) + Settlements(c, Move(c, k, steps[0]), steps[1..], id)
  }

  /** Over any run a task moves reputations at most once, whoever leads, and never after it has
      finished. */
  lemma {:induction false} FinalizedAtMostOnce(c: Config, k: Cluster, steps: seq<Step>, id: string)
    requires AllAgree(k) && Run(c, k, steps)
    ensures Settlements(c, k, steps, id) <= if IsFinished(k.leader.twin.live, id) then 0 else 1
    decreases |steps|
  {
    if steps != [] {
      var l := k.leader;
      MoveAgrees(c, k, steps[0]);
      if Settles(c, l, steps[0], id) {
        var io := steps[0].io;
        FinalizeKeepsFinished(c, l.me, l.twin, id, Servers(c, io), io.llm, io.ok, steps[0].lost);
      }
      FinalizedAtMostOnce(c, Move(c, k, steps[0]), steps[1..], id);
    }
  }

  // ---- Reputations ------------------------------------------------------------------------

  lemma UpdateKeepsReps(p: Twin, rec: TaskRecord, ok: bool)
    ensures Commit(p, UpdateTask(rec), ok).live.reps == p.live.reps
    ensures Commit(p, UpdateTask(rec), ok).committed.reps == p.committed.reps
  {
  }

  /** What a step does to the records of reputation. */
  ghost function Payment(c: Config, l: Leader, step: Step): map<string, int> {
    if step.OnVote? && Settles(c, l, step, step.id) then
      var s, id := l.twin.live, step.id;
      var votes := VotesOf(s, id, s.tasks[id].round);
      var d := DecisionOf(c, s, id, Servers(c, step.io), step.io.llm);
      NewReps(s, l.me, d.done, votes, Rewarded(l.me, votes, step.lost))
    else map[]
  }

  lemma ProposeKeepsReps(p: Twin, id: string, force: bool, servers: Option<nat>, text: Option<string>, ok: bool)
    requires id in p.live.tasks
    ensures var q := Propose(p, id, force, servers, text, ok).twin;
            q.live.reps == p.live.reps && q.committed.reps == p.committed.reps
  {
    if text.Some? {
      var next := Proposed(p.live.tasks[id], text.value);
      UpdateKeepsReps(Edit(p, id, next), next, ok);
    }
  }

  lemma ReviseKeepsReps(p: Twin, id: string, text: string, ok: bool)
    requires id in p.live.tasks
    ensures ReviseTask(p, id, text, ok).live.reps == p.live.reps
    ensures ReviseTask(p, id, text, ok).committed.reps == p.committed.reps
  {
    var rec, next := p.live.tasks[id], Revised(p.live.tasks[id], text);
    UpdateKeepsReps(if rec.proposals == map[] then p else Edit(p, id, rec.(proposals := next.proposals)), next, ok);
  }

  lemma PayAddsReps(p: Twin, reps: map<string, int>)
    ensures PayReps(p, reps).live.reps == p.live.reps + reps
    ensures PayReps(p, reps).committed.reps == p.committed.reps + reps
  {
  }

  lemma ClosePays(me: string, p: Twin, id: string, done: bool, round: int, result: string, ok: bool, lost: set<string>)
    requires id in p.live.tasks
    ensures var votes := VotesOf(p.live, id, p.live.tasks[id].round);
            var pay := if ok then NewReps(p.live, me, done, votes, Rewarded(me, votes, lost)) else map[];
            var q := CloseTask(me, p, id, done, round, result, ok, lost);
            q.live.reps == p.live.reps + pay && q.committed.reps == p.committed.reps + pay
  {
    var rec := p.live.tasks[id];
    var q := Edit(p, id, rec.(round := round, result := result));
    if ok {
      var final := FinalRecord(p.live, id, done, round, result);
      var votes := VotesOf(p.live, id, rec.round);
      UpdateKeepsReps(q, final, true);
      PayAddsReps(Commit(q, UpdateTask(final), true), NewReps(p.live, me, done, votes, Rewarded(me, votes, lost)));
    } else {
      assert CloseTask(me, p, id, done, round, result, ok, lost) == q;
    }
  }

  lemma FinalizePays(c: Config, l: Leader, id: string, io: Io, lost: set<string>)
    ensures var step := OnVote(id, io, lost); var q := Next(c, l, step).twin;
            && q.live.reps == l.twin.live.reps + Payment(c, l, step)
            && q.committed.reps == l.twin.committed.reps + Payment(c, l, step)
  {
    hide CloseTask, ReviseTask, NewReps, Rewarded;
    var p, servers := l.twin, Servers(c, io);
    if CanFinalize(p.live, id, servers) {
      match DecisionOf(c, p.live, id, servers, io.llm)
      case Pending =>
      case Revise(text) => ReviseKeepsReps(p, id, text, io.ok);
      case Conclude(done, round, result) => ClosePays(l.me, p, id, done, round, result, io.ok, lost);
    }
  }

  lemma TimeoutKeepsReps(p: Twin, id: string, servers: Option<nat>, text: Option<string>, ok: bool)
    ensures var q := Timeout(p, id, true, servers, text, ok).twin;
            q.live.reps == p.live.reps && q.committed.reps == p.committed.reps
  {
    if id in p.live.tasks {
      ProposeKeepsReps(p, id, true, servers, text, ok);
      UpdateKeepsReps(p, TimeoutRecord(id), ok);
    }
  }

  lemma DeliverKeepsReps(p: Twin, cmd: Command)
    requires !cmd.UpdateReputation?
    ensures Commit(p, cmd, true).live.reps == p.live.reps && Commit(p, cmd, true).committed.reps == p.committed.reps
  {
  }

  lemma StepPays(c: Config, l: Leader, step: Step)
    requires Legal(c, l, step) && l.twin.live.reps == l.twin.committed.reps
    ensures var q := Next(c, l, step).twin;
            q.live.reps == l.twin.live.reps + Payment(c, l, step) && q.committed.reps == q.live.reps
  {
    match step
    case Deliver(cmd) => DeliverKeepsReps(l.twin, cmd);
    case OnAnswer(id, io) =>
      if id in l.twin.live.tasks {
        ProposeKeepsReps(l.twin, id, false, Servers(c, io), io.llm, io.ok);
      }
    case OnVote(id, io, lost) => FinalizePays(c, l, id, io, lost);
    case OnTimeout(io) => TimeoutKeepsReps(l.twin, l.timers.queue[0], Servers(c, io), io.llm, io.ok);
    case _ =>
  }

  /** All nodes hold the same records of reputation. */
  ghost predicate SameReps(k: Cluster) {
    && k.leader.twin.live.reps == k.leader.twin.committed.reps
    && forall n :: n in k.others ==> k.others[n].reps == k.leader.twin.live.reps
  }

  ghost function Paid(c: Config, k: Cluster, step: Step): map<string, int>
    requires Enabled(c, k, step)
  {
    if LeaderActs(step) then Payment(c, k.leader, step) else map[]
  }

  lemma MovePays(c: Config, k: Cluster, step: Step)
    requires Enabled(c, k, step) && SameReps(k)
    ensures SameReps(Move(c, k, step))
    ensures Move(c, k, step).leader.twin.live.reps == k.leader.twin.live.reps + Paid(c, k, step)
  {
    var l, m := k.leader, Move(c, k, step);
    if LeaderActs(step) {
      hide Payment;
      StepPays(c, l, step);
      forall n | n in m.others ensures m.others[n].reps == m.leader.twin.live.reps {
        StepPays(c, l.(twin := Twin(l.twin.live, k.others[n])), step);
        LiveAlone(c, l, step, k.others[n]);
      }
    }
  }

  /** The change that a step which pays the agent means for it: 10 for the leader and 1 for a voter, up
      if the task succeeds or the vote was on the side of the outcome, and down if not. */
  ghost function DeltaOf(c: Config, k: Cluster, step: Step, agent: string): int
    requires Enabled(c, k, step) && agent in Paid(c, k, step)
  {
    var s, id := k.leader.twin.live, step.id;
    var done := DecisionOf(c, s, id, Servers(c, step.io), step.io.llm).done;
    var votes := VotesOf(s, id, s.tasks[id].round);
    var up := if agent == k.leader.me then done else agent in votes && votes[agent].accepted == done;
    var size := if agent == k.leader.me then 10 else 1;
    if up then size else -size
  }

  /** Every payment is the clamped sum, and in range. */
  lemma PaidIsClamped(c: Config, k: Cluster, step: Step)
    requires Enabled(c, k, step)
    ensures forall a :: a in Paid(c, k, step) ==>
              && Paid(c, k, step)[a] == Clamp(RepOf(k.leader.twin.live, a) + DeltaOf(c, k, step, a))
              && 0 <= Paid(c, k, step)[a] <= 100 && DeltaOf(c, k, step, a) in {-10, -1, 1, 10}
  {
    hide Rewarded, DecisionOf, Finalize;
  }

  /** The changes one agent receives over a run, in order. */
  ghost function Deltas(c: Config, k: Cluster, steps: seq<Step>, agent: string): seq<int>
    requires Run(c, k, steps)
    decreases |steps|
  {
    if steps == [] then []
    else
      (if agent in Paid(c, k, steps[0]) then [DeltaOf(c, k, steps[0], agent)] else [])
      + Deltas(c, Move(c, k, steps[0]), steps[1..], agent)
  }

  lemma {:induction false} WalkFrom(rep: int, first: int, deltas: seq<int>)
    ensures Walk(rep, [first] + deltas) == Walk(Clamp(rep + first), deltas)
  {
    var all := [first] + deltas;
    if deltas == [] {
      assert all[..|all| - 1] == [];
    } else {
      assert all[..|all| - 1] == [first] + deltas[..|deltas| - 1];
      WalkFrom(rep, first, deltas[..|deltas| - 1]);
    }
  }

  /** Over any run every reputation is the clamped walk along the agent's changes: plus or minus 10
      when it led a finalization, plus or minus 1 when its vote was counted in one. */
  lemma {:induction false} ReputationIsAWalk(c: Config, k: Cluster, steps: seq<Step>, agent: string)
    requires Run(c, k, steps) && SameReps(k)
    ensures RepOf(After(c, k, steps).leader.twin.live, agent)
            == Walk(RepOf(k.leader.twin.live, agent), Deltas(c, k, steps, agent))
    ensures forall d :: d in Deltas(c, k, steps, agent) ==> d in {-10, -1, 1, 10}
    decreases |steps|
  {
    hide Move, Enabled, SameReps, Paid, DeltaOf;
    if steps != [] {
      var m := Move(c, k, steps[0]);
      MovePays(c, k, steps[0]);
      PaidIsClamped(c, k, steps[0]);
      ReputationIsAWalk(c, m, steps[1..], agent);
      var rest := Deltas(c, m, steps[1..], agent);
      if agent in Paid(c, k, steps[0]) {
        WalkFrom(RepOf(k.leader.twin.live, agent), Deltas(c, k, steps, agent)[0], rest);
        assert Deltas(c, k, steps, agent)[1..] == rest;
      } else {
        assert Deltas(c, k, steps, agent) == rest;
      }
    }
  }

  lemma {:induction false} RunKeepsReps(c: Config, k: Cluster, steps: seq<Step>)
    requires Run(c, k, steps) && SameReps(k) && RepsInRange(k.leader.twin.live)
    ensures RepsInRange(After(c, k, steps).leader.twin.live)
    ensures SameReps(After(c, k, steps))
    decreases |steps|
  {
    hide Paid, Move, Enabled, SameReps;
    if steps != [] {
      MovePays(c, k, steps[0]);
      PaidIsClamped(c, k, steps[0]);
      RunKeepsReps(c, Move(c, k, steps[0]), steps[1..]);
    }
  }

  /** One finalization, in any order of the voters: everybody's reputation follows the outcome, and
      all stay in range. So the leader moves by at most 10 and each other counted voter by at most 1. */
  lemma OneFinalization(s: State, me: string, done: bool, votes: map<string, Vote>, lost: set<string>, agent: string)
    requires RepsInRange(s)
    ensures var t := WithReps(s, NewReps(s, me, done, votes, Rewarded(me, votes, lost)));
            && RepsInRange(t) && FollowsOutcome(s, t, me, done, votes, lost, agent)
            && (agent == me ==> -10 <= RepOf(t, agent) - RepOf(s, agent) <= 10)
            && (agent != me && agent in votes ==> -1 <= RepOf(t, agent) - RepOf(s, agent) <= 1)
            && (agent != me && agent !in votes ==> RepOf(t, agent) == RepOf(s, agent))
  {
    hide WithReps, NewReps;
    var t := WithReps(s, NewReps(s, me, done, votes, Rewarded(me, votes, lost)));
    forall a ensures 0 <= RepOf(t, a) <= 100 {
      PaymentsSettle(s, me, done, votes, lost, a);
      assert 0 <= RepOf(s, a) <= 100;
    }
    assert forall a :: a in t.reps ==> RepOf(t, a) == t.reps[a];
    PaymentsSettle(s, me, done, votes, lost, agent);
  }

  /** Committing an outcome moves the reputations as the outcome says, on the leader's side and in the
      log. */
  lemma FinalizationPays(c: Config, me: string, p: Twin, id: string, servers: Option<nat>, revised: Option<string>,
                         lost: set<string>, agent: string)
    requires CanFinalize(p.live, id, servers) && DecisionOf(c, p.live, id, servers, revised).Conclude?
    requires RepsInRange(p.live) && p.committed.reps == p.live.reps
    ensures var q := Finalize(c, me, p, id, servers, revised, true, lost).twin;
            var done := DecisionOf(c, p.live, id, servers, revised).done;
            var votes := VotesOf(p.live, id, p.live.tasks[id].round);
            && FollowsOutcome(p.live, q.live, me, done, votes, lost, agent)
            && FollowsOutcome(p.committed, q.committed, me, done, votes, lost, agent)
  {
    hide CloseTask, DecisionOf, NewReps, Rewarded;
    var d, votes := DecisionOf(c, p.live, id, servers, revised), VotesOf(p.live, id, p.live.tasks[id].round);
    var reps := NewReps(p.live, me, d.done, votes, Rewarded(me, votes, lost));
    ClosePays(me, p, id, d.done, d.round, d.result, true, lost);
    PaymentsSettle(p.live, me, d.done, votes, lost, agent);
    assert WithReps(p.live, reps).reps == p.live.reps + reps;
  }

  /** What committing an outcome records of the task: its status, the round and the text decided on, and
      the confidence of those who voted in the round that was open. */
  lemma OutcomeIsRecorded(c: Config, me: string, p: Twin, id: string, servers: Option<nat>, revised: Option<string>,
                          lost: set<string>)
    requires CanFinalize(p.live, id, servers) && DecisionOf(c, p.live, id, servers, revised).Conclude?
    requires p.live.tasks[id].id == id && id in p.committed.tasks
    ensures var rec, d := p.live.tasks[id], DecisionOf(c, p.live, id, servers, revised);
            var q := Finalize(c, me, p, id, servers, revised, true, lost).twin;
            forall s :: s == q.live || s == q.committed ==>
              && id in s.tasks && s.tasks[id].status == (if d.done then Done else Failed)
              && s.tasks[id].round == d.round && s.tasks[id].result == d.result
              && s.tasks[id].proposals == rec.proposals
              && s.tasks[id].confidence == Confidence(p.live, VotesOf(p.live, id, rec.round), d.done)
  {
    hide DecisionOf, BumpAll, NewReps, Rewarded, Confidence;
  }

  /** What a proposal records: on the leader's side at once, in the log if its entry gets there. */
  lemma ProposalIsRecorded(p: Twin, id: string, force: bool, servers: Option<nat>, text: string, ok: bool)
    requires id in p.live.tasks && id in p.committed.tasks && p.live.tasks[id].id == id
    requires ProposalGate(p.live, id, force, servers).Go?
    ensures var q := Propose(p, id, force, servers, Some(text), ok).twin;
            && (ok ==> IsProposal(q.committed, id, text)) && (!ok ==> q.committed == p.committed)
            && IsProposal(q.live, id, text)
            && SameTask(q.live.tasks[id], p.live.tasks[id])
  {
    var next := Proposed(p.live.tasks[id], text);
    var e := Edit(p, id, next);
    assert e.live.tasks[id] == next && (ok ==> Apply(e.live, UpdateTask(next)).tasks[id] == next);
  }

  ghost predicate IsProposal(s: State, id: string, text: string) {
    id in s.tasks && s.tasks[id].status.Proposal? && s.tasks[id].round == 1
    && s.tasks[id].result == text && s.tasks[id].proposals == map[1 := text]
  }

  /** What a timeout records of a task that it fails: nothing of its rounds is left. */
  lemma TimeoutIsRecorded(p: Twin, id: string, servers: Option<nat>, text: Option<string>)
    requires id in p.live.tasks && id in p.committed.tasks && p.live.tasks[id].id == p.committed.tasks[id].id == id
    requires RemedyFor(p.live, id, true, servers).FailTask?
    ensures var q := Timeout(p, id, true, servers, text, true).twin;
            && IsTimedOut(q.live, id) && SameTask(q.live.tasks[id], p.live.tasks[id])
            && IsTimedOut(q.committed, id) && SameTask(q.committed.tasks[id], p.committed.tasks[id])
  {
  }

  ghost predicate IsTimedOut(s: State, id: string) {
    id in s.tasks && s.tasks[id].status.Failed? && s.tasks[id].result == "Timeout: Phase timeout exceeded"
    && s.tasks[id].round == 0 && s.tasks[id].proposals == map[] && s.tasks[id].confidence == 0.0
  }

  // ---- What lost entries can do -----------------------------------------------------------

  ghost predicate KeepsProposals(was: TaskRecord, now: TaskRecord) {
    forall r :: r in was.proposals ==> r in now.proposals && now.proposals[r] == was.proposals[r]
  }

  lemma ReviseShows(p: Twin, id: string, text: string, ok: bool)
    requires id in p.live.tasks && p.live.tasks[id].id == id
    ensures var rec := p.live.tasks[id]; var q := ReviseTask(p, id, text, ok).live;
            id in q.tasks && q.tasks[id].proposals ==
              if ok || rec.proposals != map[] then rec.proposals[rec.round + 1 := text] else rec.proposals
  {
    var rec := p.live.tasks[id];
    var next := Revised(rec, text);
    var q := if rec.proposals == map[] then p else Edit(p, id, rec.(proposals := next.proposals));
    assert next.id == id && Apply(q.live, UpdateTask(next)).tasks[id].proposals == next.proposals;
  }

  lemma CloseShows(me: string, p: Twin, id: string, done: bool, round: int, result: string, ok: bool, lost: set<string>)
    requires id in p.live.tasks && p.live.tasks[id].id == id
    ensures id in CloseTask(me, p, id, done, round, result, ok, lost).live.tasks
    ensures CloseTask(me, p, id, done, round, result, ok, lost).live.tasks[id].proposals == p.live.tasks[id].proposals
  {
  }

  /** A finalization keeps every recorded proposal of the live task exactly unless the round is
      rejected or split below the limit, a revision comes back, and its text differs from the one
      already recorded for the next round. */
  lemma RewritesIff(c: Config, me: string, p: Twin, id: string, servers: Option<nat>, revised: Option<string>,
                    ok: bool, lost: set<string>)
    requires CanFinalize(p.live, id, servers) && p.live.tasks[id].id == id
    ensures var rec := p.live.tasks[id];
            var q := Finalize(c, me, p, id, servers, revised, ok, lost).twin.live;
            var v := VerdictOf(VotesOf(p.live, id, rec.round), c.target, servers.value);
            id in q.tasks &&
            (!KeepsProposals(rec, q.tasks[id]) <==>
              && (v.Reject? || v.Split?) && rec.round < c.maxRounds && revised.Some?
              && rec.round + 1 in rec.proposals && rec.proposals[rec.round + 1] != revised.value)
  {
    var rec := p.live.tasks[id];
    match DecisionOf(c, p.live, id, servers, revised)
    case Pending =>
    case Revise(text) =>
      ReviseShows(p, id, text, ok);
      var now := ReviseTask(p, id, text, ok).live.tasks[id];
      if rec.round + 1 in rec.proposals {
        assert now.proposals[rec.round + 1] == text;
      }
    case Conclude(done, round, result) =>
      CloseShows(me, p, id, done, round, result, ok, lost);
  }
}
