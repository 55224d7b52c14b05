/** Safety of the task protocol over whole runs: with lost entries, changes of leader, votes in any
    order and late votes, every task that is done rests on a quorum. */
module Safety {
  import opened Core
  import opened Replica
  import opened ReplicaLaws
  import opened Voting
  import opened Reputation
  import opened Protocol

  function Cap(c: Config): int {
    Max(1, c.maxRounds)
  }

  /** The recorded proposals are those of the rounds 1 to some last one, within the limit. */
  ghost predicate Contiguous(c: Config, proposals: map<int, string>) {
    forall r :: r in proposals ==> 1 <= r <= Cap(c) && forall q :: 1 <= q <= r ==> q in proposals
  }

  /** The task shows the proposal recorded for its round. */
  ghost predicate Recorded(c: Config, rec: TaskRecord) {
    && Contiguous(c, rec.proposals)
    && rec.round in rec.proposals
    && rec.result == rec.proposals[rec.round]
  }

  ghost predicate TaskOk(c: Config, rec: TaskRecord, votes: map<string, Vote>) {
    match rec.status
    case Admitted => rec.round == 0 && rec.proposals == map[]
    case Proposal => Recorded(c, rec)
    case Done => Recorded(c, rec) && Accepts(votes) >= Quorum(|c.members|)
    case Failed => true
    case _ => false
  }

  ghost predicate TasksOk(c: Config, s: State) {
    forall id :: id in s.tasks ==> s.tasks[id].id == id && TaskOk(c, s.tasks[id], VotesOf(s, id, s.tasks[id].round))
  }

  ghost predicate RoundsOk(c: Config, rounds: map<int, map<string, Vote>>) {
    forall r :: r in rounds ==> r >= 1 && rounds[r].Keys <= c.members
  }

  ghost predicate VotesOk(c: Config, s: State) {
    forall id :: id in s.votes ==> RoundsOk(c, s.votes[id])
  }

  /** The two replicas agree on everything but the progress of tasks. */
  ghost predicate Coupled(p: Twin) {
    && p.live.reps == p.committed.reps && p.live.meta == p.committed.meta
    && p.live.answers == p.committed.answers && p.live.votes == p.committed.votes
    && p.live.versions == p.committed.versions && p.live.tasks.Keys == p.committed.tasks.Keys
  }

  ghost predicate TwinOk(c: Config, p: Twin) {
    && c.members != {}
    && Coupled(p) && VotesOk(c, p.live)
    && TasksOk(c, p.live) && TasksOk(c, p.committed)
  }

  // ---- Single commands --------------------------------------------------------------------

  lemma TaskOkLater(c: Config, rec: TaskRecord, votes: map<string, Vote>, later: map<string, Vote>)
    requires TaskOk(c, rec, votes) && Extends(later, votes)
    ensures TaskOk(c, rec, later)
  {
    CountsGrow(votes, later);
  }

  lemma CommitKeepsCoupled(p: Twin, cmd: Command, ok: bool)
    requires Coupled(p)
    ensures Coupled(Commit(p, cmd, ok))
  {
  }

  /** An entry that does not write tasks keeps every task as good as it was. */
  lemma OtherEntryKeepsTasks(c: Config, s: State, cmd: Command)
    requires TasksOk(c, s) && !cmd.AdmitTask? && !cmd.UpdateTask?
    ensures TasksOk(c, Apply(s, cmd))
  {
    var t := Apply(s, cmd);
    forall id | id in t.tasks
      ensures t.tasks[id].id == id && TaskOk(c, t.tasks[id], VotesOf(t, id, t.tasks[id].round))
    {
      TaskOfApply(s, cmd, id);
      assert TaskOf(s, id) == Some(t.tasks[id]);
      VotesGrow(s, cmd, id, t.tasks[id].round);
      TaskOkLater(c, s.tasks[id], VotesOf(s, id, s.tasks[id].round), VotesOf(t, id, t.tasks[id].round));
    }
  }

  lemma UpdateKeepsTasks(c: Config, s: State, rec: TaskRecord)
    requires TasksOk(c, s) && TaskOk(c, rec, VotesOf(s, rec.id, rec.round))
    ensures TasksOk(c, Apply(s, UpdateTask(rec)))
  {
    if rec.id in s.tasks {
      var t := Apply(s, UpdateTask(rec));
      assert t.votes == s.votes && t.tasks == s.tasks[rec.id := Updated(s.tasks[rec.id], rec)];
    }
  }

  lemma AdmitKeepsTasks(c: Config, s: State, rec: TaskRecord)
    requires TasksOk(c, s) && rec.status.Admitted? && rec.round == 0 && rec.proposals == map[]
    ensures TasksOk(c, Apply(s, AdmitTask(rec)))
  {
    var t := Apply(s, AdmitTask(rec));
    assert t.votes == s.votes && t.tasks == s.tasks[rec.id := rec];
  }

  lemma EditKeepsTasks(c: Config, p: Twin, id: string, rec: TaskRecord)
    requires TwinOk(c, p) && id in p.live.tasks && rec.id == id
    requires TaskOk(c, rec, VotesOf(p.live, id, rec.round))
    ensures TwinOk(c, Edit(p, id, rec))
  {
    var s := Edit(p, id, rec).live;
    assert s.votes == p.live.votes && s.tasks == p.live.tasks[id := rec];
  }

  lemma VoteKeepsVotesOk(c: Config, s: State, v: Vote)
    requires VotesOk(c, s) && v.agentId in c.members && v.round >= 1
    ensures VotesOk(c, RecordVote(s, v))
  {
  }

  lemma CommitUpdateOk(c: Config, p: Twin, rec: TaskRecord, ok: bool)
    requires TwinOk(c, p) && TaskOk(c, rec, VotesOf(p.live, rec.id, rec.round))
    ensures TwinOk(c, Commit(p, UpdateTask(rec), ok))
  {
    CommitKeepsCoupled(p, UpdateTask(rec), ok);
    UpdateKeepsTasks(c, p.live, rec);
    assert VotesOf(p.committed, rec.id, rec.round) == VotesOf(p.live, rec.id, rec.round);
    UpdateKeepsTasks(c, p.committed, rec);
    VotesOfApply(p.live, UpdateTask(rec));
  }

  lemma PayKeepsOk(c: Config, p: Twin, reps: map<string, int>)
    requires TwinOk(c, p)
    ensures TwinOk(c, PayReps(p, reps))
  {
  }

  // ---- Decisions --------------------------------------------------------------------------

  /** A decision to conclude in favour names a round that a quorum accepted and shows its recorded
      proposal. This covers all three ways to succeed. */
  lemma DecisionIsSound(c: Config, rec: TaskRecord, rounds: map<int, map<string, Vote>>, revised: Option<string>)
    requires c.members != {} && RoundsOk(c, rounds)
    requires rec.status.Admitted? || rec.status.Proposal?
    requires forall votes :: TaskOk(c, rec, votes)
    ensures var d := Decide(c, rec, rounds, |c.members|, revised);
            && (rec.status.Admitted? ==> d.Pending?)
            && (d.Conclude? ==>
                  1 <= d.round <= rec.round && d.round in rec.proposals && d.result == rec.proposals[d.round])
            && (d.Conclude? && d.done ==> d.round in rounds && Accepts(rounds[d.round]) >= Quorum(|c.members|))
            && (d.Revise? ==> rec.round < c.maxRounds)
  {
    assert |c.members| > 0;
    var votes := if rec.round in rounds then rounds[rec.round] else map[];
    assert TaskOk(c, rec, votes);
    CountsAddUp(votes);
    if rec.status.Admitted? {
      assert votes == map[] && Side(votes, true) == {} && Side(votes, false) == {};
    } else {
      BestRoundIsBest(rounds, rec.round, Quorum(|c.members|));
      if rec.round !in rounds {
        assert Side(votes, true) == {} && Side(votes, false) == {};
      }
    }
  }

  lemma ReviseKeepsOk(c: Config, p: Twin, id: string, text: string, ok: bool)
    requires TwinOk(c, p) && id in p.live.tasks
    requires p.live.tasks[id].status.Proposal? && p.live.tasks[id].round < c.maxRounds
    ensures TwinOk(c, ReviseTask(p, id, text, ok))
  {
    var rec := p.live.tasks[id];
    var next := Revised(rec, text);
    var shared := rec.(proposals := next.proposals);
    assert TaskOk(c, rec, VotesOf(p.live, id, rec.round));
    assert Recorded(c, next) && Recorded(c, shared);
    EditKeepsTasks(c, p, id, shared);
    var q := if rec.proposals == map[] then p else Edit(p, id, shared);
    CommitUpdateOk(c, q, next, ok);
  }

  lemma CloseKeepsOk(c: Config, me: string, p: Twin, id: string, done: bool, round: int, result: string, ok: bool,
                     lost: set<string>)
    requires TwinOk(c, p) && id in p.live.tasks && p.live.tasks[id].status.Proposal?
    requires var rec := p.live.tasks[id]; round in rec.proposals && result == rec.proposals[round]
    requires done ==> Accepts(VotesOf(p.live, id, round)) >= Quorum(|c.members|)
    ensures TwinOk(c, CloseTask(me, p, id, done, round, result, ok, lost))
  {
    var rec := p.live.tasks[id];
    assert TaskOk(c, rec, VotesOf(p.live, id, rec.round));
    var moved := rec.(round := round, result := result);
    assert Recorded(c, moved);
    EditKeepsTasks(c, p, id, moved);
    if ok {
      var final := FinalRecord(p.live, id, done, round, result);
      assert done ==> Recorded(c, final);
      CommitUpdateOk(c, Edit(p, id, moved), final, true);
      var votes := VotesOf(p.live, id, rec.round);
      PayKeepsOk(c, Commit(Edit(p, id, moved), UpdateTask(final), true),
                 NewReps(p.live, me, done, votes, Rewarded(me, votes, lost)));
    }
  }

  lemma FinalizeKeepsOk(c: Config, me: string, p: Twin, id: string, servers: Option<nat>, revised: Option<string>,
                        ok: bool, lost: set<string>)
    requires TwinOk(c, p) && (servers.Some? ==> servers.value == |c.members|)
    ensures TwinOk(c, Finalize(c, me, p, id, servers, revised, ok, lost).twin)
  {
    if CanFinalize(p.live, id, servers) {
      var rec := p.live.tasks[id];
      assert TaskOk(c, rec, VotesOf(p.live, id, rec.round));
      DecisionIsSound(c, rec, p.live.votes[id], revised);
      match DecisionOf(c, p.live, id, servers, revised)
      case Pending =>
      case Revise(text) => ReviseKeepsOk(c, p, id, text, ok);
      case Conclude(done, round, result) => CloseKeepsOk(c, me, p, id, done, round, result, ok, lost);
    }
  }

  lemma ProposeKeepsOk(c: Config, p: Twin, id: string, force: bool, servers: Option<nat>, aggregate: Option<string>,
                       ok: bool)
    requires TwinOk(c, p) && id in p.live.tasks
    ensures TwinOk(c, Propose(p, id, force, servers, aggregate, ok).twin)
  {
    if aggregate.Some? {
      var next := Proposed(p.live.tasks[id], aggregate.value);
      assert Recorded(c, next);
      EditKeepsTasks(c, p, id, next);
      CommitUpdateOk(c, Edit(p, id, next), next, ok);
    }
  }

  lemma TimeoutKeepsOk(c: Config, p: Twin, id: string, servers: Option<nat>, aggregate: Option<string>, ok: bool)
    requires TwinOk(c, p)
    ensures TwinOk(c, Timeout(p, id, true, servers, aggregate, ok).twin)
  {
    if id in p.live.tasks {
      ProposeKeepsOk(c, p, id, true, servers, aggregate, ok);
      CommitUpdateOk(c, p, TimeoutRecord(id), ok);
    }
  }

  lemma DeliverKeepsOk(c: Config, l: Leader, cmd: Command)
    requires TwinOk(c, l.twin) && Legal(c, l, Deliver(cmd))
    ensures TwinOk(c, Commit(l.twin, cmd, true))
  {
    CommitKeepsCoupled(l.twin, cmd, true);
    match cmd
    case AdmitTask(t) =>
      AdmitKeepsTasks(c, l.twin.live, t);
      AdmitKeepsTasks(c, l.twin.committed, t);
      VotesOfApply(l.twin.live, cmd);
    case SubmitVote(v) =>
      OtherEntryKeepsTasks(c, l.twin.live, cmd);
      OtherEntryKeepsTasks(c, l.twin.committed, cmd);
      VoteKeepsVotesOk(c, l.twin.live, v);
    case _ =>
      OtherEntryKeepsTasks(c, l.twin.live, cmd);
      OtherEntryKeepsTasks(c, l.twin.committed, cmd);
      VotesOfApply(l.twin.live, cmd);
  }

  lemma StepKeepsOk(c: Config, l: Leader, step: Step)
    requires TwinOk(c, l.twin) && Legal(c, l, step)
    ensures TwinOk(c, Next(c, l, step).twin)
  {
    match step
    case Deliver(cmd) => DeliverKeepsOk(c, l, cmd);
    case OnAnswer(id, io) =>
      if id in l.twin.live.tasks {
        ProposeKeepsOk(c, l.twin, id, false, Servers(c, io), io.llm, io.ok);
      }
    case OnVote(id, io, lost) => FinalizeKeepsOk(c, l.me, l.twin, id, Servers(c, io), io.llm, io.ok, lost);
    case OnTimeout(io) => TimeoutKeepsOk(c, l.twin, l.timers.queue[0], Servers(c, io), io.llm, io.ok);
    case _ =>
  }

  /** The invariant of a cluster: every node's replica, with the leader's, is as good as the log. */
  ghost predicate ClusterOk(c: Config, k: Cluster) {
    TwinOk(c, k.leader.twin) && forall n :: n in k.others ==> TwinOk(c, Twin(k.leader.twin.live, k.others[n]))
  }

  /** Any two replicas, that of an earlier leader included, are coupled. */
  lemma OkEverywhere(c: Config, live: State, a: State, b: State)
    requires TwinOk(c, Twin(live, a)) && TwinOk(c, Twin(live, b))
    ensures TwinOk(c, Twin(a, b))
  {
    forall id | id in a.votes ensures RoundsOk(c, a.votes[id]) { }
  }

  lemma MoveKeepsOk(c: Config, k: Cluster, step: Step)
    requires ClusterOk(c, k) && Enabled(c, k, step)
    ensures ClusterOk(c, Move(c, k, step))
  {
    hide TwinOk;
    var l, m := k.leader, Move(c, k, step);
    if step.Handover? {
      var nodes := k.others[l.me := l.twin.live];
      SelfOk(c, l.twin);
      assert l.twin == Twin(l.twin.live, l.twin.committed);
      OkEverywhere(c, l.twin.live, nodes[step.next], l.twin.committed);
      forall n | n in m.others ensures TwinOk(c, Twin(m.leader.twin.live, m.others[n])) {
        OkEverywhere(c, l.twin.live, nodes[step.next], nodes[n]);
      }
    } else if LeaderActs(step) {
      StepKeepsOk(c, l, step);
      forall n | n in m.others ensures TwinOk(c, Twin(m.leader.twin.live, m.others[n])) {
        StepKeepsOk(c, l.(twin := Twin(l.twin.live, k.others[n])), step);
        LiveAlone(c, l, step, k.others[n]);
      }
    }
  }

  lemma SelfOk(c: Config, p: Twin)
    requires TwinOk(c, p)
    ensures TwinOk(c, Twin(p.live, p.live))
  {
  }

  /** Every step of every run keeps the invariant, whatever is lost and whoever leads. */
  lemma {:induction false} RunKeepsOk(c: Config, k: Cluster, steps: seq<Step>)
    requires ClusterOk(c, k) && Run(c, k, steps)
    ensures ClusterOk(c, After(c, k, steps))
    decreases |steps|
  {
    if steps != [] {
      MoveKeepsOk(c, k, steps[0]);
      RunKeepsOk(c, Move(c, k, steps[0]), steps[1..]);
    }
  }

  /** A task that is done shows the proposal recorded for its round, and a quorum accepted that round. */
  ghost predicate DoneIsBacked(c: Config, s: State) {
    forall id :: id in s.tasks && s.tasks[id].status.Done? ==>
      var rec := s.tasks[id];
      && rec.round in rec.proposals && rec.result == rec.proposals[rec.round]
      && 1 <= rec.round <= Cap(c)
      && Accepts(VotesOf(s, id, rec.round)) >= Quorum(|c.members|)
  }

  lemma OkIsBacked(c: Config, p: Twin)
    requires TwinOk(c, p)
    ensures DoneIsBacked(c, p.live) && DoneIsBacked(c, p.committed)
  {
    forall s, id | (s == p.live || s == p.committed) && id in s.tasks
      ensures TaskOk(c, s.tasks[id], VotesOf(s, id, s.tasks[id].round)) { }
  }

  lemma InitialIsOk(c: Config, me: string)
    requires c.members != {}
    ensures ClusterOk(c, Initial(c, me))
  {
  }

  /** In every reachable state, in the log, on the leader and on every other node, those that led
      before included, done means backed by a quorum. */
  lemma DoneIsAlwaysBacked(c: Config, me: string, steps: seq<Step>)
    requires c.members != {} && Run(c, Initial(c, me), steps)
    ensures var k := After(c, Initial(c, me), steps);
            && DoneIsBacked(c, k.leader.twin.live) && DoneIsBacked(c, k.leader.twin.committed)
            && forall n :: n in k.others ==> DoneIsBacked(c, k.others[n])
  {
    hide TwinOk, DoneIsBacked;
    InitialIsOk(c, me);
    RunKeepsOk(c, Initial(c, me), steps);
    var k := After(c, Initial(c, me), steps);
    OkIsBacked(c, k.leader.twin);
    forall n | n in k.others ensures DoneIsBacked(c, k.others[n]) {
      OkIsBacked(c, Twin(k.leader.twin.live, k.others[n]));
    }
  }

  /** Whatever a node holds in a reachable state meets the invariant. */
  lemma HeldIsOk(c: Config, me: string, k: Cluster, s: State)
    requires c.members != {} && Reached(c, me, k) && Holds(k, s)
    ensures TwinOk(c, Twin(s, s))
  {
    hide TwinOk;
    var steps :| Run(c, Initial(c, me), steps) && After(c, Initial(c, me), steps) == k;
    InitialIsOk(c, me);
    RunKeepsOk(c, Initial(c, me), steps);
    var live := k.leader.twin.live;
    SelfOk(c, k.leader.twin);
    OkEverywhere(c, live, k.leader.twin.committed, k.leader.twin.committed);
    forall n | n in k.others ensures TwinOk(c, Twin(k.others[n], k.others[n])) {
      OkEverywhere(c, live, k.others[n], k.others[n]);
    }
  }
}
