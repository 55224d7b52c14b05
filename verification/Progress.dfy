/** Runs in which every entry reaches the log: rounds rise one by one, recorded proposals stand,
    the fallback finds the right round, and voting comes to an end. */
module Progress {
  import opened Core
  import opened Replica
  import opened ReplicaLaws
  import opened Voting
  import opened Protocol
  import opened Safety

  /** A round that has been left behind: a quorum rejected it, or everybody voted without success. */
  ghost predicate Closed(c: Config, votes: map<string, Vote>) {
    || Rejects(votes) >= Quorum(|c.members|)
    || (votes.Keys == c.members && Accepts(votes) < Threshold(c.target, |c.members|))
  }

  /** The history of a task under vote: proposals for exactly the rounds so far, all earlier ones closed. */
  ghost predicate HistoryOk(c: Config, rec: TaskRecord, rounds: map<int, map<string, Vote>>) {
    rec.status.Proposal? ==>
      && (forall r :: r in rec.proposals <==> 1 <= r <= rec.round)
      && rec.round <= Cap(c)
      && PastOk(c, rec, rounds)
  }

  /** All rounds that a task under vote has left behind are closed. */
  ghost predicate PastOk(c: Config, rec: TaskRecord, rounds: map<int, map<string, Vote>>) {
    rec.status.Proposal? ==> forall r :: 1 <= r < rec.round ==> r in rounds && Closed(c, rounds[r])
  }

  function RoundsOf(s: State, id: string): map<int, map<string, Vote>> {
    if id in s.votes then s.votes[id] else map[]
  }

  ghost predicate HistoriesOk(c: Config, s: State) {
    forall id :: id in s.tasks ==> HistoryOk(c, s.tasks[id], RoundsOf(s, id))
  }

  ghost predicate SyncOk(c: Config, p: Twin) {
    p.live == p.committed && TwinOk(c, p) && HistoriesOk(c, p.live)
  }

  // ---- In step with the log ---------------------------------------------------------------

  /** An update overwrites whatever a handler had written through the pointer before it. */
  lemma EditIsOverwritten(s: State, id: string, x: TaskRecord, y: TaskRecord)
    requires id in s.tasks && y.id == id && Updated(x, y) == Updated(s.tasks[id], y)
    ensures Apply(s.(tasks := s.tasks[id := x]), UpdateTask(y)) == Apply(s, UpdateTask(y))
  {
    var e := s.(tasks := s.tasks[id := x]);
    assert e.tasks[id := Updated(x, y)] == s.tasks[id := Updated(s.tasks[id], y)];
  }

  lemma ProposeInSync(c: Config, p: Twin, id: string, force: bool, servers: Option<nat>, aggregate: Option<string>)
    requires p.live == p.committed && TwinOk(c, p) && id in p.live.tasks
    ensures var q := Propose(p, id, force, servers, aggregate, true).twin;
            q.live == q.committed
            && (q == p || (aggregate.Some? && p.live.tasks[id].status.Admitted? &&
                           q.live == Apply(p.live, UpdateTask(Proposed(p.live.tasks[id], aggregate.value)))))
  {
    if aggregate.Some? {
      var next := Proposed(p.live.tasks[id], aggregate.value);
      EditIsOverwritten(p.live, id, next, next);
    }
  }

  lemma ReviseInSync(c: Config, p: Twin, id: string, text: string)
    requires p.live == p.committed && TwinOk(c, p) && id in p.live.tasks
    ensures var q := ReviseTask(p, id, text, true);
            q.live == q.committed && q.live == Apply(p.live, UpdateTask(Revised(p.live.tasks[id], text)))
  {
    var next := Revised(p.live.tasks[id], text);
    EditIsOverwritten(p.live, id, p.live.tasks[id].(proposals := next.proposals), next);
  }

  lemma CloseInSync(c: Config, me: string, p: Twin, id: string, done: bool, round: int, result: string,
                    lost: set<string>)
    requires p.live == p.committed && TwinOk(c, p) && id in p.live.tasks
    ensures var q := CloseTask(me, p, id, done, round, result, true, lost);
            q.live == q.committed && q.live.votes == p.live.votes
            && q.live.tasks == p.live.tasks[id := FinalRecord(p.live, id, done, round, result)]
  {
    var rec, final := p.live.tasks[id], FinalRecord(p.live, id, done, round, result);
    EditIsOverwritten(p.live, id, rec.(round := round, result := result), final);
    assert Updated(rec, final) == final;
  }

  // ---- One step ---------------------------------------------------------------------------

  /** All that one step may do to one task. */
  ghost predicate TaskMoves(c: Config, was: TaskRecord, now: TaskRecord) {
    || now == was
    || now.status.Failed?
    || (was.status.Admitted? && now.status.Proposal? && now.round == 1 && now.proposals == map[1 := now.result])
    || (was.status.Proposal? && now.status.Proposal? && was.round < c.maxRounds && now.round == was.round + 1
        && now.proposals == was.proposals[now.round := now.result])
    || (was.status.Proposal? && now.status.Done? && now.proposals == was.proposals)
  }

  ghost predicate Moves(c: Config, was: State, now: State) {
    forall id :: id in was.tasks ==> id in now.tasks && TaskMoves(c, was.tasks[id], now.tasks[id])
  }

  ghost predicate AllExtend(was: State, now: State) {
    forall id, r :: Extends(VotesOf(now, id, r), VotesOf(was, id, r))
  }

  lemma ClosedLater(c: Config, votes: map<string, Vote>, later: map<string, Vote>)
    requires Closed(c, votes) && Extends(later, votes) && later.Keys <= c.members
    ensures Closed(c, later)
  {
    CountsGrow(votes, later);
    if votes.Keys == c.members {
      assert votes == later;
    }
  }

  /** A round is closed whenever it ends in a revision. */
  lemma RevisionCloses(c: Config, votes: map<string, Vote>)
    requires votes.Keys <= c.members
    requires VerdictOf(votes, c.target, |c.members|).Reject? || VerdictOf(votes, c.target, |c.members|).Split?
    ensures Closed(c, votes)
  {
    CountsAddUp(votes);
    VotersBound(votes, c.members);
  }

  lemma HistoryLater(c: Config, rec: TaskRecord, rounds: map<int, map<string, Vote>>, later: map<int, map<string,
                     Vote>>)
    requires HistoryOk(c, rec, rounds) && RoundsOk(c, later)
    requires forall r :: r in rounds ==> r in later && Extends(later[r], rounds[r])
    ensures HistoryOk(c, rec, later)
  {
    if rec.status.Proposal? {
      forall r | 1 <= r < rec.round ensures r in later && Closed(c, later[r]) {
        ClosedLater(c, rounds[r], later[r]);
      }
    }
  }

  lemma RoundsGrow(s: State, cmd: Command, id: string)
    ensures forall r :: r in RoundsOf(s, id) ==>
              r in RoundsOf(Apply(s, cmd), id) && Extends(RoundsOf(Apply(s, cmd), id)[r], RoundsOf(s, id)[r])
  {
  }

  lemma DeliverStep(c: Config, l: Leader, cmd: Command)
    requires SyncOk(c, l.twin) && Legal(c, l, Deliver(cmd))
    ensures SyncOk(c, Next(c, l, Deliver(cmd)).twin)
    ensures Moves(c, l.twin.live, Next(c, l, Deliver(cmd)).twin.live)
  {
    DeliverKeepsOk(c, l, cmd);
    var s := l.twin.live;
    var t := Apply(s, cmd);
    forall id | id in s.tasks ensures id in t.tasks && t.tasks[id] == s.tasks[id] {
      TaskOfApply(s, cmd, id);
      assert TaskOf(t, id) == Some(s.tasks[id]);
    }
    forall id | id in t.tasks ensures HistoryOk(c, t.tasks[id], RoundsOf(t, id)) {
      TaskOfApply(s, cmd, id);
      if id in s.tasks {
        RoundsGrow(s, cmd, id);
        assert RoundsOk(c, RoundsOf(t, id));
        HistoryLater(c, s.tasks[id], RoundsOf(s, id), RoundsOf(t, id));
      }
    }
  }

  lemma UpdateStep(c: Config, s: State, rec: TaskRecord)
    requires HistoriesOk(c, s) && rec.id in s.tasks && Updated(s.tasks[rec.id], rec) == rec
    requires HistoryOk(c, rec, RoundsOf(s, rec.id)) && TaskMoves(c, s.tasks[rec.id], rec)
    ensures var t := Apply(s, UpdateTask(rec)); HistoriesOk(c, t) && Moves(c, s, t)
  {
    var t := Apply(s, UpdateTask(rec));
    assert t.tasks == s.tasks[rec.id := rec] && t.votes == s.votes;
    forall id | id in t.tasks ensures HistoryOk(c, t.tasks[id], RoundsOf(t, id)) {
      assert RoundsOf(t, id) == RoundsOf(s, id);
    }
  }

  lemma ProposeStep(c: Config, p: Twin, id: string, force: bool, servers: Option<nat>, aggregate: Option<string>)
    requires SyncOk(c, p) && id in p.live.tasks
    ensures var q := Propose(p, id, force, servers, aggregate, true).twin; SyncOk(c, q) && Moves(c, p.live, q.live)
  {
    ProposeKeepsOk(c, p, id, force, servers, aggregate, true);
    ProposeInSync(c, p, id, force, servers, aggregate);
    if aggregate.Some? && p.live.tasks[id].status.Admitted? {
      UpdateStep(c, p.live, Proposed(p.live.tasks[id], aggregate.value));
    }
  }

  lemma ReviseStep(c: Config, p: Twin, id: string, text: string)
    requires SyncOk(c, p) && id in p.live.tasks && id in p.live.votes
    requires var rec := p.live.tasks[id]; rec.status.Proposal? && rec.round < c.maxRounds
    requires var v := VerdictOf(VotesOf(p.live, id, p.live.tasks[id].round), c.target,
                                |c.members|); v.Reject? || v.Split?
    ensures var q := ReviseTask(p, id, text, true); SyncOk(c, q) && Moves(c, p.live, q.live)
  {
    var rec := p.live.tasks[id];
    var votes := VotesOf(p.live, id, rec.round);
    assert TaskOk(c, rec, votes) && HistoryOk(c, rec, RoundsOf(p.live, id));
    ReviseKeepsOk(c, p, id, text, true);
    ReviseInSync(c, p, id, text);
    CountsAddUp(votes);
    assert rec.round in p.live.votes[id];
    assert RoundsOk(c, p.live.votes[id]);
    RevisionCloses(c, votes);
    UpdateStep(c, p.live, Revised(rec, text));
  }

  /** Replacing one task by a finished one. */
  lemma FinishStep(c: Config, s: State, t: State, id: string)
    requires HistoriesOk(c, s) && id in s.tasks && id in t.tasks && t.votes == s.votes
    requires t.tasks == s.tasks[id := t.tasks[id]] && Finished(t.tasks[id].status)
    requires TaskMoves(c, s.tasks[id], t.tasks[id])
    ensures HistoriesOk(c, t) && Moves(c, s, t)
  {
    forall i | i in t.tasks ensures HistoryOk(c, t.tasks[i], RoundsOf(t, i)) {
      assert RoundsOf(t, i) == RoundsOf(s, i);
    }
  }

  lemma CloseStep(c: Config, me: string, p: Twin, id: string, done: bool, round: int, result: string, lost: set<string>)
    requires SyncOk(c, p) && id in p.live.tasks && p.live.tasks[id].status.Proposal?
    requires TwinOk(c, CloseTask(me, p, id, done, round, result, true, lost))
    ensures var q := CloseTask(me, p, id, done, round, result, true, lost); SyncOk(c, q) && Moves(c, p.live, q.live)
  {
    hide TwinOk, HistoriesOk, CloseTask, Moves;
    CloseInSync(c, me, p, id, done, round, result, lost);
    FinishStep(c, p.live, CloseTask(me, p, id, done, round, result, true, lost).live, id);
  }

  lemma FinalizeStep(c: Config, me: string, p: Twin, id: string, servers: Option<nat>, revised: Option<string>,
                     lost: set<string>)
    requires SyncOk(c, p) && (servers.Some? ==> servers.value == |c.members|)
    ensures var q := Finalize(c, me, p, id, servers, revised, true, lost).twin; SyncOk(c, q) && Moves(c, p.live, q.live)
  {
    FinalizeKeepsOk(c, me, p, id, servers, revised, true, lost);
    if CanFinalize(p.live, id, servers) {
      var rec := p.live.tasks[id];
      assert TaskOk(c, rec, VotesOf(p.live, id, rec.round));
      DecisionIsSound(c, rec, p.live.votes[id], revised);
      match DecisionOf(c, p.live, id, servers, revised)
      case Pending =>
      case Revise(text) => ReviseStep(c, p, id, text);
      case Conclude(done, round, result) => CloseStep(c, me, p, id, done, round, result, lost);
    }
  }

  lemma TimeoutStep(c: Config, p: Twin, id: string, servers: Option<nat>, aggregate: Option<string>)
    requires SyncOk(c, p)
    ensures var q := Timeout(p, id, true, servers, aggregate, true).twin; SyncOk(c, q) && Moves(c, p.live, q.live)
  {
    hide TwinOk, HistoriesOk, Propose;
    TimeoutKeepsOk(c, p, id, servers, aggregate, true);
    if id in p.live.tasks {
      ProposeStep(c, p, id, true, servers, aggregate);
      TimeoutRecordStep(c, p, id);
    }
  }

  lemma TimeoutRecordStep(c: Config, p: Twin, id: string)
    requires HistoriesOk(c, p.live) && p.live == p.committed && id in p.live.tasks
    ensures var q := Commit(p, UpdateTask(TimeoutRecord(id)), true);
            q.live == q.committed && HistoriesOk(c, q.live) && Moves(c, p.live, q.live)
  {
    hide HistoriesOk, Moves;
    FinishStep(c, p.live, Apply(p.live, UpdateTask(TimeoutRecord(id))), id);
  }

  /** Every step whose entry reaches the log keeps the leader in step with the log and its
      histories in order, and moves each task in one of the listed ways: rounds rise by one and
      stop at the limit. */
  lemma StepInSync(c: Config, l: Leader, step: Step)
    requires SyncOk(c, l.twin) && Legal(c, l, step) && Commits(step)
    ensures SyncOk(c, Next(c, l, step).twin)
    ensures Moves(c, l.twin.live, Next(c, l, step).twin.live)
  {
    hide Propose, Finalize, Timeout;
    match step
    case Deliver(cmd) => DeliverStep(c, l, cmd);
    case OnAnswer(id, io) =>
      if id in l.twin.live.tasks {
        ProposeStep(c, l.twin, id, false, Servers(c, io), io.llm);
      }
    case OnVote(id, io, lost) => FinalizeStep(c, l.me, l.twin, id, Servers(c, io), io.llm, lost);
    case OnTimeout(io) => TimeoutStep(c, l.twin, l.timers.queue[0], Servers(c, io), io.llm);
    case _ =>
  }

  // ---- Whole runs -------------------------------------------------------------------------

  ghost predicate AllCommit(steps: seq<Step>) {
    forall i :: 0 <= i < |steps| ==> Commits(steps[i])
  }

  /** What a later state may have made of a task. */
  ghost predicate Succeeds(was: TaskRecord, now: TaskRecord) {
    || now.status.Failed?
    || (!was.status.Failed?
        && (forall r :: r in was.proposals ==> r in now.proposals && now.proposals[r] == was.proposals[r])
        && (was.status.Proposal? && now.status.Proposal? ==> was.round <= now.round)
        && (was.status.Done? ==> now == was)
        && (now.status.Admitted? ==> was.status.Admitted?))
  }

  lemma MovesSucceed(c: Config, was: TaskRecord, now: TaskRecord, votes: map<string, Vote>, rounds: map<int,
                     map<string, Vote>>)
    requires TaskOk(c, was, votes) && HistoryOk(c, was, rounds) && TaskMoves(c, was, now)
    requires was.status.Failed? ==> now.status.Failed?
    ensures Succeeds(was, now)
  {
  }

  /** All replicas are equal and in order. */
  ghost predicate InStep(c: Config, k: Cluster) {
    SyncOk(c, k.leader.twin) && forall n :: n in k.others ==> k.others[n] == k.leader.twin.committed
  }

  lemma MoveInStep(c: Config, k: Cluster, step: Step)
    requires InStep(c, k) && Enabled(c, k, step) && Commits(step)
    ensures InStep(c, Move(c, k, step))
    ensures Moves(c, k.leader.twin.live, Move(c, k, step).leader.twin.live)
  {
    hide TwinOk, HistoriesOk, TaskMoves;
    var l := k.leader;
    if !LeaderActs(step) {
      SameMoves(c);
    } else {
      StepInSync(c, l, step);
      assert l == l.(twin := Twin(l.twin.live, l.twin.committed));
    }
  }

  lemma SameMoves(c: Config)
    ensures forall was :: TaskMoves(c, was, was)
  {
  }

  /** Over any run in which entries reach the log, a recorded proposal is never rewritten while its
      task has not failed, rounds never fall, and a task that is done stays as it is unless a
      timeout fails it. */
  lemma {:induction false} ProposalsStand(c: Config, k: Cluster, steps: seq<Step>, id: string)
    requires InStep(c, k) && Run(c, k, steps) && AllCommit(steps)
    requires id in k.leader.twin.live.tasks
    ensures id in After(c, k, steps).leader.twin.live.tasks
    ensures Succeeds(k.leader.twin.live.tasks[id], After(c, k, steps).leader.twin.live.tasks[id])
    decreases |steps|
  {
    if steps != [] {
      var s, m := k.leader.twin.live, Move(c, k, steps[0]);
      MoveInStep(c, k, steps[0]);
      assert AllCommit(steps[1..]);
      ProposalsStand(c, m, steps[1..], id);
      var was, now := s.tasks[id], m.leader.twin.live.tasks[id];
      assert TaskMoves(c, was, now);
      assert TaskOk(c, was, VotesOf(s, id, was.round)) && HistoryOk(c, was, RoundsOf(s, id));
      MovesSucceed(c, was, now, VotesOf(s, id, was.round), RoundsOf(s, id));
    }
  }

  /** Every state that such a run reaches from the empty cluster is in order, so what follows holds
      in all of them. */
  lemma ReachableInSync(c: Config, me: string, steps: seq<Step>)
    requires c.members != {} && Run(c, Initial(c, me), steps) && AllCommit(steps)
    ensures InStep(c, After(c, Initial(c, me), steps))
  {
    InitialIsOk(c, me);
    RunInStep(c, Initial(c, me), steps);
  }

  lemma {:induction false} RunInStep(c: Config, k: Cluster, steps: seq<Step>)
    requires InStep(c, k) && Run(c, k, steps) && AllCommit(steps)
    ensures InStep(c, After(c, k, steps))
    decreases |steps|
  {
    if steps != [] {
      MoveInStep(c, k, steps[0]);
      assert AllCommit(steps[1..]);
      RunInStep(c, Move(c, k, steps[0]), steps[1..]);
    }
  }

  // ---- Voting ends ------------------------------------------------------------------------

  /** With all votes of the current round in, finalization never waits, not even on a leader that
      is out of step with the log: it reaches a decision, and once its entry is in the log, the
      task has finished or moved to the next round on both sides. */
  lemma FinalizeNeverWaits(c: Config, me: string, p: Twin, id: string, revised: Option<string>, ok: bool,
                           lost: set<string>)
    requires TwinOk(c, p) && id in p.live.tasks && p.live.tasks[id].status.Proposal?
    requires VotesOf(p.live, id, p.live.tasks[id].round).Keys == c.members
    ensures var rec := p.live.tasks[id];
            var r := Finalize(c, me, p, id, Some(|c.members|), revised, ok, lost);
            && CanFinalize(p.live, id, Some(|c.members|))
            && !DecisionOf(c, p.live, id, Some(|c.members|), revised).Pending?
            && r.failed == !ok
            && (ok ==> Advanced(rec, r.twin.live, id) && Advanced(rec, r.twin.committed, id))
  {
    hide TwinOk;
    var rec, servers := p.live.tasks[id], Some(|c.members|);
    var votes := VotesOf(p.live, id, rec.round);
    FullRoundIsJudged(votes, c.members, c.target);
    OkMembers(c, p, id);
    assert CanFinalize(p.live, id, servers);
    match DecisionOf(c, p.live, id, servers, revised)
    case Pending =>
    case Revise(text) => ReviseAdvances(p, id, text);
    case Conclude(done, round, result) => CloseAdvances(me, p, id, done, round, result, lost);
  }

  ghost predicate Advanced(was: TaskRecord, s: State, id: string) {
    id in s.tasks &&
    (Finished(s.tasks[id].status) || (s.tasks[id].status.Proposal? && s.tasks[id].round == was.round + 1))
  }

  lemma OkMembers(c: Config, p: Twin, id: string)
    requires TwinOk(c, p) && id in p.live.tasks
    ensures |c.members| > 0 && id in p.committed.tasks && p.live.tasks[id].id == id
    ensures VotesOf(p.live, id, p.live.tasks[id].round).Keys == c.members ==> id in p.live.votes
  {
  }

  lemma ReviseAdvances(p: Twin, id: string, text: string)
    requires id in p.live.tasks && id in p.committed.tasks && p.live.tasks[id].id == id
    ensures var q := ReviseTask(p, id, text, true);
            Advanced(p.live.tasks[id], q.live, id) && Advanced(p.live.tasks[id], q.committed, id)
  {
    var rec := p.live.tasks[id];
    UpdateAdvances(p.committed, rec, Revised(rec, text));
    UpdateAdvances(p.live, rec, Revised(rec, text));
    UpdateAdvances(Edit(p, id, rec.(proposals := Revised(rec, text).proposals)).live, rec, Revised(rec, text));
  }

  lemma UpdateAdvances(s: State, was: TaskRecord, now: TaskRecord)
    requires now.id in s.tasks && now.status.Proposal? && now.round == was.round + 1
    ensures Advanced(was, Apply(s, UpdateTask(now)), now.id)
  {
  }

  lemma CloseAdvances(me: string, p: Twin, id: string, done: bool, round: int, result: string, lost: set<string>)
    requires id in p.live.tasks && id in p.committed.tasks && p.live.tasks[id].id == id
    ensures var q := CloseTask(me, p, id, done, round, result, true, lost);
            Advanced(p.live.tasks[id], q.live, id) && Advanced(p.live.tasks[id], q.committed, id)
  {
  }

  /** A vote that counts: the first of its agent in the round now open. */
  ghost predicate FreshVote(l: Leader, step: Step, id: string) {
    && step.Deliver? && step.cmd.SubmitVote? && step.cmd.vote.taskId == id
    && id in l.twin.live.tasks && l.twin.live.tasks[id].status.Proposal?
    && step.cmd.vote.round == l.twin.live.tasks[id].round
    && step.cmd.vote.agentId !in VotesOf(l.twin.live, id, step.cmd.vote.round)
  }

  /** How many votes a task can still absorb. */
  ghost function Budget(c: Config, s: State, id: string): int {
    var n := |c.members|;
    if id !in s.tasks || s.tasks[id].status.Admitted? then Cap(c) * n
    else if s.tasks[id].status.Proposal? then
      (Cap(c) - s.tasks[id].round) * n + (n - |VotesOf(s, id, s.tasks[id].round)|)
    else 0
  }

  lemma Distribute(a: int, n: int)
    ensures (a - 1) * n == a * n - n
  {
  }

  /** The round of a task under vote and the votes in it are within bounds. */
  lemma OpenRound(c: Config, s: State, id: string)
    requires TwinOk(c, Twin(s, s)) && id in s.tasks && s.tasks[id].status.Proposal?
    ensures 1 <= s.tasks[id].round <= Cap(c)
    ensures VotesOf(s, id, s.tasks[id].round).Keys <= c.members
    ensures |VotesOf(s, id, s.tasks[id].round)| <= |c.members|
  {
    var rec := s.tasks[id];
    var votes := VotesOf(s, id, rec.round);
    assert TaskOk(c, rec, votes) && VotesOk(c, s);
    SubsetSize(votes.Keys, c.members);
    assert |votes.Keys| == |votes|;
  }

  lemma BudgetBounds(c: Config, s: State, id: string)
    requires TwinOk(c, Twin(s, s))
    ensures 0 <= Budget(c, s, id) <= Cap(c) * |c.members|
  {
    hide TwinOk;
    if id in s.tasks && s.tasks[id].status.Proposal? {
      var rec, n := s.tasks[id], |c.members|;
      OpenRound(c, s, id);
      Distribute(Cap(c) - rec.round + 1, n);
      MulOrder(Cap(c) - rec.round + 1, Cap(c), n);
      MulOrder(0, Cap(c) - rec.round, n);
    }
  }

  lemma MulOrder(a: int, b: int, n: nat)
    requires a <= b
    ensures a * n <= b * n
  {
  }

  lemma RecordFresh(s: State, v: Vote)
    requires v.agentId !in VotesOf(s, v.taskId, v.round)
    ensures RecordVote(s, v).tasks == s.tasks
    ensures VotesOf(RecordVote(s, v), v.taskId, v.round) == VotesOf(s, v.taskId, v.round)[v.agentId := v]
  {
  }

  lemma FreshVoteCosts(c: Config, l: Leader, v: Vote, id: string)
    requires FreshVote(l, Deliver(SubmitVote(v)), id)
    ensures Budget(c, RecordVote(l.twin.live, v), id) == Budget(c, l.twin.live, id) - 1
  {
    var votes := VotesOf(l.twin.live, id, v.round);
    RecordFresh(l.twin.live, v);
    assert votes[v.agentId := v].Keys == votes.Keys + {v.agentId};
    assert |votes[v.agentId := v]| == |votes| + 1;
  }

  lemma BudgetOfMove(c: Config, s: State, t: State, id: string)
    requires TwinOk(c, Twin(s, s)) && TwinOk(c, Twin(t, t)) && id in s.tasks && Moves(c, s, t)
    requires AllExtend(s, t)
    ensures Budget(c, t, id) <= Budget(c, s, id)
  {
    hide TwinOk;
    BudgetBounds(c, s, id);
    BudgetBounds(c, t, id);
    var was, now := s.tasks[id], t.tasks[id];
    assert TaskMoves(c, was, now);
    if was.status.Proposal? && now.status.Proposal? {
      OpenRound(c, s, id);
      OpenRound(c, t, id);
      if now == was {
        SubsetSize(VotesOf(s, id, was.round).Keys, VotesOf(t, id, was.round).Keys);
      } else {
        Distribute(Cap(c) - was.round, |c.members|);
        assert Cap(c) - now.round == Cap(c) - was.round - 1;
      }
    }
  }

  lemma BudgetFalls(c: Config, l: Leader, step: Step, id: string)
    requires SyncOk(c, l.twin) && Legal(c, l, step) && Commits(step)
    ensures Budget(c, Next(c, l, step).twin.live, id) + (if FreshVote(l, step, id) then 1 else 0)
            <= Budget(c, l.twin.live, id)
  {
    hide TwinOk, HistoriesOk, Moves, AllExtend, Propose, Finalize, Timeout;
    var s, t := l.twin.live, Next(c, l, step).twin.live;
    StepInSync(c, l, step);
    if FreshVote(l, step, id) {
      FreshVoteCosts(c, l, step.cmd.vote, id);
    } else if id in s.tasks {
      VotesNeverShrink(c, l, step);
      BudgetOfMove(c, s, t, id);
    } else {
      BudgetBounds(c, t, id);
    }
  }

  lemma UpdateKeepsVotes(p: Twin, rec: TaskRecord, ok: bool)
    ensures Commit(p, UpdateTask(rec), ok).live.votes == p.live.votes
  {
  }

  lemma ProposeKeepsVotes(p: Twin, id: string, force: bool, servers: Option<nat>, text: Option<string>, ok: bool)
    requires id in p.live.tasks
    ensures Propose(p, id, force, servers, text, ok).twin.live.votes == p.live.votes
  {
    hide Commit;
    if text.Some? {
      var next := Proposed(p.live.tasks[id], text.value);
      UpdateKeepsVotes(Edit(p, id, next), next, ok);
    }
  }

  lemma FinalizeKeepsVotes(c: Config, me: string, p: Twin, id: string, servers: Option<nat>, text: Option<string>,
                           ok: bool, lost: set<string>)
    ensures Finalize(c, me, p, id, servers, text, ok, lost).twin.live.votes == p.live.votes
  {
    hide Commit;
    if CanFinalize(p.live, id, servers) {
      var rec := p.live.tasks[id];
      match DecisionOf(c, p.live, id, servers, text)
      case Pending =>
      case Revise(text) =>
        var next := Revised(rec, text);
        var q := if rec.proposals == map[] then p else Edit(p, id, rec.(proposals := next.proposals));
        UpdateKeepsVotes(q, next, ok);
      case Conclude(done, round, result) =>
        var q := Edit(p, id, rec.(round := round, result := result));
        UpdateKeepsVotes(q, FinalRecord(p.live, id, done, round, result), true);
    }
  }

  /** No step of the leader, whatever is lost, takes a vote back. */
  lemma VotesNeverShrink(c: Config, l: Leader, step: Step)
    requires Legal(c, l, step)
    ensures AllExtend(l.twin.live, Next(c, l, step).twin.live)
  {
    hide Commit, Propose, Finalize, Timeout;
    var s, t := l.twin.live, Next(c, l, step).twin.live;
    match step
    case Deliver(cmd) =>
      CommittedLive(l.twin, cmd);
      forall id, r ensures Extends(VotesOf(t, id, r), VotesOf(s, id, r)) {
        VotesGrow(s, cmd, id, r);
      }
    case OnAnswer(id, io) =>
      if id in s.tasks {
        ProposeKeepsVotes(l.twin, id, false, Servers(c, io), io.llm, io.ok);
      }
    case OnVote(id, io, lost) => FinalizeKeepsVotes(c, l.me, l.twin, id, Servers(c, io), io.llm, io.ok, lost);
    case OnTimeout(io) => TimeoutKeepsVotes(l.twin, l.timers.queue[0], Servers(c, io), io.llm, io.ok);
    case _ =>
  }

  lemma CommittedLive(p: Twin, cmd: Command)
    ensures Commit(p, cmd, true).live == Apply(p.live, cmd)
  {
  }

  lemma TimeoutKeepsVotes(p: Twin, id: string, servers: Option<nat>, text: Option<string>, ok: bool)
    ensures Timeout(p, id, true, servers, text, ok).twin.live.votes == p.live.votes
  {
    hide Commit, Propose;
    if id in p.live.tasks {
      ProposeKeepsVotes(p, id, true, servers, text, ok);
      UpdateKeepsVotes(p, TimeoutRecord(id), ok);
    }
  }
}
