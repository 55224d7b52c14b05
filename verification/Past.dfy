/** The rounds a task has left behind, over every run: on every node they are closed, also where
    entries are lost and earlier leaders return. So the fallback finds the right round. */
module Past {
  import opened Core
  import opened Replica
  import opened ReplicaLaws
  import opened Voting
  import opened Reputation
  import opened Protocol
  import opened Safety
  import opened Progress

  ghost predicate PastsOk(c: Config, s: State) {
    forall id :: id in s.tasks ==> PastOk(c, s.tasks[id], RoundsOf(s, id))
  }

  ghost predicate RoundsExtend(later: map<int, map<string, Vote>>, rounds: map<int, map<string, Vote>>) {
    forall r :: r in rounds ==> r in later && Extends(later[r], rounds[r])
  }

  lemma PastLater(c: Config, rec: TaskRecord, rounds: map<int, map<string, Vote>>, later: map<int, map<string, Vote>>)
    requires PastOk(c, rec, rounds) && RoundsExtend(later, rounds) && RoundsOk(c, later)
    ensures PastOk(c, rec, later)
  {
    hide Closed;
    if rec.status.Proposal? {
      forall q | 1 <= q < rec.round ensures q in later && Closed(c, later[q]) {
        ClosedLater(c, rounds[q], later[q]);
      }
    }
  }

  // ---- Single entries ---------------------------------------------------------------------

  lemma UpdateKeepsPast(c: Config, s: State, rec: TaskRecord)
    requires PastsOk(c, s) && PastOk(c, rec, RoundsOf(s, rec.id))
    ensures PastsOk(c, Apply(s, UpdateTask(rec)))
  {
    hide Closed;
    var t := Apply(s, UpdateTask(rec));
    assert t.votes == s.votes;
    forall i | i in t.tasks ensures PastOk(c, t.tasks[i], RoundsOf(t, i)) {
      assert RoundsOf(t, i) == RoundsOf(s, i);
    }
  }

  lemma EditKeepsPast(c: Config, p: Twin, id: string, rec: TaskRecord)
    requires PastsOk(c, p.live) && id in p.live.tasks && PastOk(c, rec, RoundsOf(p.live, id))
    ensures PastsOk(c, Edit(p, id, rec).live)
  {
    hide Closed, PastOk;
    assert forall i :: RoundsOf(Edit(p, id, rec).live, i) == RoundsOf(p.live, i);
  }

  lemma DeliverKeepsPast(c: Config, s: State, cmd: Command)
    requires PastsOk(c, s) && VotesOk(c, s)
    requires !cmd.UpdateTask? && (cmd.AdmitTask? ==> cmd.task.status.Admitted?)
    requires cmd.SubmitVote? ==> cmd.vote.agentId in c.members && cmd.vote.round >= 1
    ensures PastsOk(c, Apply(s, cmd))
  {
    hide Closed;
    var t := Apply(s, cmd);
    forall i | i in t.tasks ensures PastOk(c, t.tasks[i], RoundsOf(t, i)) {
      TaskOfApply(s, cmd, i);
      if TaskOf(t, i) == TaskOf(s, i) {
        RoundsGrow(s, cmd, i);
        NewVotesOk(c, s, cmd, i);
        PastLater(c, s.tasks[i], RoundsOf(s, i), RoundsOf(t, i));
      }
    }
  }

  lemma NewVotesOk(c: Config, s: State, cmd: Command, id: string)
    requires VotesOk(c, s) && (cmd.SubmitVote? ==> cmd.vote.agentId in c.members && cmd.vote.round >= 1)
    ensures RoundsOk(c, RoundsOf(Apply(s, cmd), id))
  {
    if cmd.SubmitVote? {
      VoteKeepsVotesOk(c, s, cmd.vote);
    } else {
      VotesOfApply(s, cmd);
    }
  }

  // ---- The handlers -----------------------------------------------------------------------

  ghost predicate TwinPast(c: Config, p: Twin) {
    PastsOk(c, p.live) && PastsOk(c, p.committed)
  }

  /** An edit through the pointer, and its entry unless it is lost. */
  lemma WriteKeepsPast(c: Config, p: Twin, id: string, x: TaskRecord, y: TaskRecord, ok: bool)
    requires Coupled(p) && TwinPast(c, p) && id in p.live.tasks && y.id == id
    requires PastOk(c, x, RoundsOf(p.live, id)) && (ok ==> PastOk(c, y, RoundsOf(p.live, id)))
    ensures TwinPast(c, Commit(Edit(p, id, x), UpdateTask(y), ok))
  {
    hide PastOk, PastsOk;
    EditKeepsPast(c, p, id, x);
    if ok {
      assert RoundsOf(Edit(p, id, x).live, id) == RoundsOf(p.live, id) == RoundsOf(p.committed, id);
      UpdateKeepsPast(c, Edit(p, id, x).live, y);
      UpdateKeepsPast(c, p.committed, y);
    }
  }

  lemma ProposeKeepsPast(c: Config, p: Twin, id: string, force: bool, servers: Option<nat>, text: Option<string>,
                         ok: bool)
    requires Coupled(p) && TwinPast(c, p) && id in p.live.tasks && p.live.tasks[id].id == id
    ensures TwinPast(c, Propose(p, id, force, servers, text, ok).twin)
  {
    hide PastsOk, Coupled, Commit;
    if text.Some? {
      var next := Proposed(p.live.tasks[id], text.value);
      WriteKeepsPast(c, p, id, next, next, ok);
    }
  }

  lemma ReviseKeepsPast(c: Config, p: Twin, id: string, text: string, ok: bool)
    requires Coupled(p) && TwinPast(c, p) && id in p.live.tasks && p.live.tasks[id].id == id
    requires var rec := p.live.tasks[id];
             rec.status.Proposal? && rec.round in RoundsOf(p.live, id) && Closed(c, RoundsOf(p.live, id)[rec.round])
    ensures TwinPast(c, ReviseTask(p, id, text, ok))
  {
    hide Closed, Coupled, Commit;
    var rec := p.live.tasks[id];
    var next := Revised(rec, text);
    WriteKeepsPast(c, p, id, rec.(proposals := next.proposals), next, ok);
    WriteKeepsPast(c, p, id, rec, next, ok);
    assert Edit(p, id, rec) == p;
  }

  ghost predicate FallsBack(c: Config, rec: TaskRecord, rounds: map<int, map<string, Vote>>, round: int) {
    && rec.round >= c.maxRounds && rec.round in rounds && Rejects(rounds[rec.round]) >= Quorum(|c.members|)
    && IsBestRound(rounds, rec.round, Quorum(|c.members|), round)
  }

  /** What a decision says about rounds and proposals. */
  lemma Decided(c: Config, rec: TaskRecord, rounds: map<int, map<string, Vote>>, revised: Option<string>)
    requires rec.status.Proposal? && Recorded(c, rec) && RoundsOk(c, rounds) && c.members != {}
    ensures var d := Decide(c, rec, rounds, |c.members|, revised);
            && (d.Revise? ==> rec.round < c.maxRounds && rec.round in rounds && Closed(c, rounds[rec.round]))
            && (d.Conclude? ==>
                  && d.round >= 1 && d.round in rec.proposals && d.result == rec.proposals[d.round]
                  && (d.round == rec.round || FallsBack(c, rec, rounds, d.round)))
  {
    hide Accepts, Rejects;
    var votes := if rec.round in rounds then rounds[rec.round] else map[];
    DecisionIsSound(c, rec, rounds, revised);
    BestRoundIsBest(rounds, rec.round, Quorum(|c.members|));
    CountsAddUp(votes);
    assert |c.members| > 0;
    if rec.round in rounds && Decide(c, rec, rounds, |c.members|, revised).Revise? {
      RevisionCloses(c, votes);
    }
  }

  /** Without votes under round 0 a task that waits for answers is left alone. */
  lemma WaitingIsPending(c: Config, p: Twin, id: string, revised: Option<string>)
    requires TwinOk(c, p) && CanFinalize(p.live, id, Some(|c.members|)) && !p.live.tasks[id].status.Proposal?
    ensures DecisionOf(c, p.live, id, Some(|c.members|), revised).Pending?
  {
    assert TaskOk(c, p.live.tasks[id], VotesOf(p.live, id, p.live.tasks[id].round));
    DecisionIsSound(c, p.live.tasks[id], p.live.votes[id], revised);
  }

  lemma PayKeepsPast(c: Config, p: Twin, reps: map<string, int>)
    requires TwinPast(c, p)
    ensures TwinPast(c, PayReps(p, reps))
  {
    hide PastOk;
    assert forall s, i :: RoundsOf(WithReps(s, reps), i) == RoundsOf(s, i);
  }

  lemma CloseKeepsPast(c: Config, me: string, p: Twin, id: string, done: bool, round: int, result: string, ok: bool,
                       lost: set<string>)
    requires Coupled(p) && TwinPast(c, p) && id in p.live.tasks && p.live.tasks[id].id == id
    requires round <= p.live.tasks[id].round
    ensures TwinPast(c, CloseTask(me, p, id, done, round, result, ok, lost))
  {
    hide Closed, PastsOk, Coupled, PayReps, Commit;
    var rec := p.live.tasks[id];
    var moved, final := rec.(round := round, result := result), FinalRecord(p.live, id, done, round, result);
    assert PastOk(c, rec, RoundsOf(p.live, id)) by { LivePast(c, p, id); }
    WriteKeepsPast(c, p, id, moved, final, ok);
    if ok {
      var votes := VotesOf(p.live, id, rec.round);
      PayKeepsPast(c, Commit(Edit(p, id, moved), UpdateTask(final), true),
                   NewReps(p.live, me, done, votes, Rewarded(me, votes, lost)));
    } else {
      LostEntry(Edit(p, id, moved), UpdateTask(final));
    }
  }

  lemma LivePast(c: Config, p: Twin, id: string)
    requires TwinPast(c, p) && id in p.live.tasks
    ensures PastOk(c, p.live.tasks[id], RoundsOf(p.live, id))
  {
  }

  lemma LostEntry(p: Twin, cmd: Command)
    ensures Commit(p, cmd, false) == p
  {
  }

  /** What the invariant says of one task of the leader. */
  lemma LiveTask(c: Config, p: Twin, id: string)
    requires TwinOk(c, p) && id in p.live.tasks
    ensures Coupled(p) && p.live.tasks[id].id == id && c.members != {} && RoundsOk(c, RoundsOf(p.live, id))
    ensures TaskOk(c, p.live.tasks[id], VotesOf(p.live, id, p.live.tasks[id].round))
  {
  }

  lemma FinalizeKeepsPast(c: Config, me: string, p: Twin, id: string, servers: Option<nat>, text: Option<string>,
                          ok: bool, lost: set<string>)
    requires TwinOk(c, p) && TwinPast(c, p) && (servers.Some? ==> servers.value == |c.members|)
    ensures TwinPast(c, Finalize(c, me, p, id, servers, text, ok, lost).twin)
  {
    hide TwinOk, Coupled, TwinPast, Closed, ReviseTask, CloseTask;
    if CanFinalize(p.live, id, servers) {
      var rec := p.live.tasks[id];
      LiveTask(c, p, id);
      if rec.status.Proposal? {
        Decided(c, rec, RoundsOf(p.live, id), text);
        match DecisionOf(c, p.live, id, servers, text)
        case Pending =>
        case Revise(next) => ReviseKeepsPast(c, p, id, next, ok);
        case Conclude(done, round, result) => CloseKeepsPast(c, me, p, id, done, round, result, ok, lost);
      } else {
        WaitingIsPending(c, p, id, text);
      }
    }
  }

  lemma TimeoutKeepsPast(c: Config, p: Twin, id: string, servers: Option<nat>, text: Option<string>, ok: bool)
    requires TwinOk(c, p) && TwinPast(c, p)
    ensures TwinPast(c, Timeout(p, id, true, servers, text, ok).twin)
  {
    hide TwinOk, Coupled, PastsOk, Propose;
    if id in p.live.tasks {
      LiveTask(c, p, id);
      ProposeKeepsPast(c, p, id, true, servers, text, ok);
      UpdateKeepsPast(c, p.live, TimeoutRecord(id));
      UpdateKeepsPast(c, p.committed, TimeoutRecord(id));
    }
  }

  lemma StepKeepsPast(c: Config, l: Leader, step: Step)
    requires TwinOk(c, l.twin) && TwinPast(c, l.twin) && Legal(c, l, step)
    ensures TwinPast(c, Next(c, l, step).twin)
  {
    hide PastsOk, TasksOk, Propose, Finalize, Timeout;
    match step
    case Deliver(cmd) =>
      DeliverKeepsPast(c, l.twin.live, cmd);
      DeliverKeepsPast(c, l.twin.committed, cmd);
    case OnAnswer(id, io) =>
      if id in l.twin.live.tasks {
        LiveTask(c, l.twin, id);
        ProposeKeepsPast(c, l.twin, id, false, Servers(c, io), io.llm, io.ok);
      }
    case OnVote(id, io, lost) => FinalizeKeepsPast(c, l.me, l.twin, id, Servers(c, io), io.llm, io.ok, lost);
    case OnTimeout(io) => TimeoutKeepsPast(c, l.twin, l.timers.queue[0], Servers(c, io), io.llm, io.ok);
    case _ =>
  }

  // ---- Runs -------------------------------------------------------------------------------

  ghost predicate ClusterPast(c: Config, k: Cluster) {
    TwinPast(c, k.leader.twin) && forall n :: n in k.others ==> PastsOk(c, k.others[n])
  }

  lemma MoveKeepsPast(c: Config, k: Cluster, step: Step)
    requires ClusterOk(c, k) && ClusterPast(c, k) && Enabled(c, k, step)
    ensures ClusterPast(c, Move(c, k, step))
  {
    hide TwinOk, PastsOk, Next;
    if LeaderActs(step) {
      var l, m := k.leader, Move(c, k, step);
      StepKeepsPast(c, l, step);
      forall n | n in m.others ensures PastsOk(c, m.others[n]) {
        StepKeepsPast(c, l.(twin := Twin(l.twin.live, k.others[n])), step);
      }
    }
  }

  lemma {:induction false} RunKeepsPast(c: Config, k: Cluster, steps: seq<Step>)
    requires ClusterOk(c, k) && ClusterPast(c, k) && Run(c, k, steps)
    ensures ClusterPast(c, After(c, k, steps))
    decreases |steps|
  {
    hide ClusterOk, ClusterPast, Enabled, Move;
    if steps != [] {
      MoveKeepsOk(c, k, steps[0]);
      MoveKeepsPast(c, k, steps[0]);
      RunKeepsPast(c, Move(c, k, steps[0]), steps[1..]);
    }
  }

  /** In every reachable state, on every node and in the log, each round that a task under vote has
      left behind was rejected by a quorum, or everybody voted in it without success. */
  lemma PastIsAlwaysClosed(c: Config, me: string, k: Cluster, s: State)
    requires c.members != {} && Reached(c, me, k) && Holds(k, s)
    ensures PastsOk(c, s)
  {
    hide TwinOk, PastOk;
    var steps :| Run(c, Initial(c, me), steps) && After(c, Initial(c, me), steps) == k;
    InitialIsOk(c, me);
    RunKeepsPast(c, Initial(c, me), steps);
  }

  // ---- The fallback -----------------------------------------------------------------------

  /** At the round limit with a quorum of rejects, on any node in any reachable state, the task is
      done exactly when some round has a quorum of accepts. The round chosen has the most accepts,
      the latest on a tie; it is an earlier round, in which everybody voted and the accepts fell
      short of the target; and the task shows the proposal of that round. */
  lemma FallbackIsRight(c: Config, me: string, k: Cluster, s: State, id: string, revised: Option<string>)
    requires c.members != {} && Reached(c, me, k) && Holds(k, s)
    requires CanFinalize(s, id, Some(|c.members|)) && s.tasks[id].round >= c.maxRounds
    requires VerdictOf(VotesOf(s, id, s.tasks[id].round), c.target, |c.members|).Reject?
    ensures var rec := s.tasks[id]; var rounds := s.votes[id]; var q := Quorum(|c.members|);
            var d := DecisionOf(c, s, id, Some(|c.members|), revised);
            && d.Conclude?
            && (d.done <==> !NoneEligible(rounds, rec.round, q))
            && (d.done ==>
                  && IsBestRound(rounds, rec.round, q, d.round) && d.round < rec.round
                  && rounds[d.round].Keys == c.members && Accepts(rounds[d.round]) < Threshold(c.target, |c.members|)
                  && d.round in rec.proposals && d.result == rec.proposals[d.round])
            && (!d.done ==> d.round == rec.round && d.result == rec.result)
  {
    hide Accepts, Rejects, Reached, Holds, TwinOk, PastsOk, Contiguous;
    var rec, rounds, q := s.tasks[id], s.votes[id], Quorum(|c.members|);
    var votes := VotesOf(s, id, rec.round);
    HeldIsOk(c, me, k, s);
    PastIsAlwaysClosed(c, me, k, s);
    LiveTask(c, Twin(s, s), id);
    LivePast(c, Twin(s, s), id);
    BestRoundIsBest(rounds, rec.round, q);
    DecisionIsSound(c, rec, rounds, revised);
    VotersBound(votes, c.members);
    var b := BestRound(rounds, rec.round, q);
    if b != 0 {
      assert Eligible(rounds, b, q);
      assert Closed(c, rounds[b]);
      VotersBound(rounds[b], c.members);
    }
  }
}
