/** The event loop of one agent. Its handlers change the node's replica, the log and the timers in
    place, and each is proved to make the step of the protocol model that it stands for. */
module Agent {
  import opened Core
  import opened Replica
  import opened Objects
  import opened Fsm
  import opened Voting
  import opened Reputation
  import P = Protocol

  class Engine {
    const fsm: SyncMapFSM
    const me: string
    const config: P.Config
    var timers: map<string, nat>      // the engine's own table of timers
    var running: map<nat, string>     // every timer that can still fire
    var nextTimer: nat
    var timerCh: seq<string>
    ghost var watched: set<string>

    constructor (fsm: SyncMapFSM, me: string, config: P.Config)
      ensures this.fsm == fsm && this.me == me && this.config == config
      ensures Clock() == P.Timers(map[], map[], 0, []) && watched == {}
    {
      this.fsm, this.me, this.config := fsm, me, config;
      timers, running, nextTimer, timerCh, watched := map[], map[], 0, [], {};
    }

    ghost function Sides(): P.Twin
      reads fsm, fsm.tasks.Values
    {
      P.Twin(fsm.View(), fsm.Committed())
    }

    function Clock(): P.Timers
      reads `timers, `running, `nextTimer, `timerCh
    {
      P.Timers(timers, running, nextTimer, timerCh)
    }

    /** This agent as a state of the protocol model. */
    ghost function System(): P.Leader
      reads this, fsm, fsm.tasks.Values
    {
      P.Leader(me, Sides(), Clock(), watched)
    }

    /** `task` is the pointer that the replica hands out for its identifier. */
    ghost predicate Live(task: Task)
      reads fsm`tasks
    {
      task.id in fsm.tasks && fsm.tasks[task.id] == task
    }

    // ---- Timers ---------------------------------------------------------------------------

    method StopTimer(id: string)
      modifies `timers, `running
      ensures Clock() == P.Stop(old(Clock()), id)
    {
      if id in timers {
        running := running - {timers[id]};
        timers := timers - {id};
      }
    }

    method StartTimer(id: string)
      modifies `timers, `running, `nextTimer
      ensures Clock() == P.Start(old(Clock()), id)
      ensures id in timers && timers[id] in running && running[timers[id]] == id
      ensures id in old(timers) && old(timers)[id] != timers[id] ==> old(timers)[id] !in running
    {
      StopTimer(id);
      running := running[nextTimer := id];
      timers := timers[id := nextTimer];
      nextTimer := nextTimer + 1;
    }

    method RestartTimer(id: string)
      modifies `timers, `running, `nextTimer
      ensures Clock() == P.Start(old(Clock()), id) && Sides() == old(Sides())
    {
      StopTimer(id);
      StartTimer(id);
    }

    /** A timer goes off. */
    method TimerFires(timer: nat)
      requires timer in running
      modifies `timers, `running, `timerCh
      ensures System() == P.Next(config, old(System()), P.OnFire(timer))
    {
      var id := running[timer];
      running := running - {timer};
      timers := timers - {id};
      timerCh := timerCh + [id];
    }

    // ---- The log --------------------------------------------------------------------------

    /** One call of `Raft.Apply`, which succeeds or leaves everything as it is. */
    method RaftApply(cmd: Command, ok: bool) returns (failed: bool)
      requires fsm.Valid()
      modifies fsm, fsm.channels, fsm.pool
      ensures fsm.Valid() && failed == !ok
      ensures Sides() == P.Commit(old(Sides()), cmd, ok)
      ensures !cmd.AdmitTask? ==> fsm.tasks == old(fsm.tasks)
      ensures fsm.channels == old(fsm.channels) && old(fsm.pool) <= fsm.pool && fresh(fsm.pool - old(fsm.pool))
    {
      if ok {
        var rejected := fsm.ApplyEntry(cmd);
      }
      failed := !ok;
    }

    /** Writing to a live task changes the leader's own replica and nothing else. */
    twostate lemma WrittenThrough(task: Task)
      requires old(fsm.Valid()) && old(Live(task)) && task.Value().id == task.id
      requires unchanged(fsm)
      requires forall i :: i in fsm.tasks && i != task.id ==> fsm.tasks[i].Value() == old(fsm.tasks[i].Value())
      ensures Sides() == P.Edit(old(Sides()), task.id, task.Value())
    {
      assert TaskValues(fsm.tasks) == old(TaskValues(fsm.tasks))[task.id := task.Value()];
    }

    method WriteProposal(task: Task, text: string)
      requires fsm.Valid() && Live(task)
      modifies task
      ensures task.Value() == P.Proposed(old(task.Value()), text)
      ensures Sides() == P.Edit(old(Sides()), task.id, task.Value())
    {
      task.status := Proposal;
      task.result := text;
      task.round := 1;
      task.proposals := map[1 := text];
      WrittenThrough(task);
    }

    // ---- Proposal phase -------------------------------------------------------------------

    method GetServerCount(readable: bool) returns (servers: Option<nat>)
      ensures servers == if readable then Some(|config.members|) else None
    {
      servers := if readable then Some(|config.members|) else None;
    }

    method PublishProposal(task: Task, text: string, ok: bool) returns (failed: bool)
      requires fsm.Valid() && Live(task)
      modifies fsm, fsm.channels, fsm.pool
      ensures fsm.Valid() && fsm.tasks == old(fsm.tasks) && failed == !ok
      ensures fsm.channels == old(fsm.channels) && old(fsm.pool) <= fsm.pool && fresh(fsm.pool - old(fsm.pool))
      ensures var next := P.Proposed(old(task.Value()), text);
              Sides() == P.Commit(P.Edit(old(Sides()), task.id, next), UpdateTask(next), ok)
    {
      WriteProposal(task, text);
      failed := RaftApply(UpdateTask(task.Value()), ok);
    }

    method CheckProposal(task: Task, force: bool, readable: bool) returns (gate: P.Gate)
      requires Live(task)
      ensures gate == P.ProposalGate(fsm.View(), task.id, force, P.Servers(config, P.Io(readable, None, true)))
    {
      assert fsm.View().tasks[task.id] == task.Value();
      if task.status != Admitted {
        return P.Refuse;
      }
      var answers := fsm.GetTaskAnswers(task.id);
      if answers.None? {
        return P.Refuse;
      }
      var servers := GetServerCount(readable);
      if servers.None? || servers.value == 0 {
        return P.Refuse;
      }
      var quorum := servers.value / 2 + 1;
      if |answers.value| == servers.value {
        return P.Go;
      } else if |answers.value| >= quorum && force {
        return P.Go;
      } else {
        return P.Hold;
      }
    }

    method RunProposalPhase(task: Task, force: bool, io: P.Io) returns (failed: bool)
      requires fsm.Valid() && Live(task)
      modifies `timers, `running, `nextTimer, fsm, fsm.channels, fsm.pool
      ensures fsm.Valid() && fsm.tasks == old(fsm.tasks)
      ensures fsm.channels == old(fsm.channels) && old(fsm.pool) <= fsm.pool && fresh(fsm.pool - old(fsm.pool))
      ensures var r := P.Propose(old(Sides()), task.id, force, P.Servers(config, io), io.llm, io.ok);
              && failed == r.failed && Sides() == r.twin
              && Clock() == if r.armed then P.Start(old(Clock()), task.id) else old(Clock())
    {
      hide P.Commit, P.Start, P.ProposalGate, fsm.Valid;
      var gate := CheckProposal(task, force, io.readable);
      assert gate == P.ProposalGate(fsm.View(), task.id, force, P.Servers(config, io));
      if gate != P.Go {
        return gate == P.Refuse;
      }
      RestartTimer(task.id);
      if io.llm.None? {
        return true;
      }
      assert fsm.View().tasks[task.id] == task.Value();
      failed := PublishProposal(task, io.llm.value, io.ok);
    }

    // ---- Counting -------------------------------------------------------------------------

    /** `voters` are those of a round, each with its side. */
    ghost predicate AreVoters(voters: map<string, bool>, votes: map<string, Vote>) {
      voters.Keys == votes.Keys && forall a :: a in votes ==> voters[a] == votes[a].accepted
    }

    /** The tally of a round, with the voters and their side, in any order of the votes. */
    method CountVotes(votes: map<string, Vote>) returns (accepted: nat, rejected: nat, voters: map<string, bool>)
      requires forall a :: a in votes ==> votes[a].agentId == a
      ensures accepted == Accepts(votes) && rejected == Rejects(votes)
      ensures AreVoters(voters, votes)
    {
      accepted, rejected, voters := 0, 0, map[];
      var todo := votes.Keys;
      ghost var seen: map<string, Vote> := map[];
      assert Side(seen, true) == {} && Side(seen, false) == {};
      while todo != {}
        invariant todo <= votes.Keys
        invariant seen.Keys == votes.Keys - todo && forall a :: a in seen ==> seen[a] == votes[a]
        invariant accepted == Accepts(seen) && rejected == Rejects(seen)
        invariant AreVoters(voters, seen)
        decreases todo
      {
        var a :| a in todo;
        todo := todo - {a};
        var v := votes[a];
        OneMoreVote(seen, a, v);
        seen := seen[a := v];
        voters := voters[v.agentId := v.accepted];
        if v.accepted {
          accepted := accepted + 1;
        } else {
          rejected := rejected + 1;
        }
      }
      assert seen == votes;
    }

    /** The loop of the fallback over the rounds so far. */
    method FindBestRound(id: string, last: int, quorum: nat) returns (best: int)
      requires id in fsm.taskVotes && fsm.VotesKeyed() && quorum > 0
      ensures best == BestRound(fsm.taskVotes[id], last, quorum)
    {
      best := 0;
      var most := 0;
      var r := 1;
      ghost var rounds := fsm.taskVotes[id];
      while r <= last
        invariant 1 <= r && (last >= 0 ==> r <= last + 1) && (last < 0 ==> r == 1)
        invariant best == BestRound(rounds, r - 1, quorum) && 0 <= best < r
        invariant best == 0 ==> most == 0
        invariant best != 0 ==> best in rounds && most == Accepts(rounds[best]) >= quorum
        decreases last - r
      {
        var votes := fsm.GetTaskVotes(id, r);
        var accepted, rejected, voters := CountVotes(votes.value);
        if r !in rounds {
          assert Side(map[], true) == {};
        }
        if accepted >= quorum && (accepted > most || (accepted == most && r > best)) {
          most := accepted;
          best := r;
        }
        r := r + 1;
      }
      if last < 1 {
        assert BestRound(rounds, last, quorum) == 0;
      }
    }

    /** The confidence score, adding up reputations in any order of the voters. */
    method ComputeConfidence(votes: map<string, Vote>, voters: map<string, bool>, done: bool) returns (score: real)
      requires AreVoters(voters, votes)
      ensures score == Confidence(fsm.View(), votes, done)
    {
      var total, agreeing := 0.0, 0.0;
      ghost var s := fsm.View();
      var todo := voters.Keys;
      while todo != {}
        invariant todo <= voters.Keys
        invariant total == SumReps(s, votes.Keys - todo) as real
        invariant agreeing == SumReps(s, Side(votes, done) - todo) as real
        decreases todo
      {
        var a :| a in todo;
        var rep := fsm.GetReputation(a);
        SumRepsRemove(s, votes.Keys - (todo - {a}), a);
        assert votes.Keys - (todo - {a}) - {a} == votes.Keys - todo;
        total := total + rep as real;
        if voters[a] == done {
          SumRepsRemove(s, Side(votes, done) - (todo - {a}), a);
          assert Side(votes, done) - (todo - {a}) - {a} == Side(votes, done) - todo;
          agreeing := agreeing + rep as real;
        } else {
          assert Side(votes, done) - (todo - {a}) == Side(votes, done) - todo;
        }
        todo := todo - {a};
      }
      assert votes.Keys - {} == votes.Keys && Side(votes, done) - {} == Side(votes, done);
      score := if total > 0.0 then agreeing / total else 0.0;
    }

    // ---- Reputation -----------------------------------------------------------------------

    /** One reputation update. A lost one is logged and forgotten. */
    method ApplyReputationUpdate(agent: string, rep: int, ok: bool)
      requires fsm.Valid()
      modifies fsm, fsm.channels, fsm.pool
      ensures fsm.Valid() && fsm.tasks == old(fsm.tasks)
      ensures fsm.channels == old(fsm.channels) && old(fsm.pool) <= fsm.pool && fresh(fsm.pool - old(fsm.pool))
      ensures Sides() == P.Commit(old(Sides()), UpdateReputation(agent, Clamp(rep)), ok)
    {
      var failed := RaftApply(UpdateReputation(agent, Min(Max(rep, 0), 100)), ok);
    }

    lemma PayStep(p: P.Twin, reps: map<string, int>, agent: string, rep: int)
      requires agent !in reps
      ensures P.Commit(P.PayReps(p, reps), UpdateReputation(agent, rep), true) == P.PayReps(p, reps[agent := rep])
    {
      hide Apply, WithReps;
      WithRepsStep(p.live, reps, agent, rep);
      WithRepsStep(p.committed, reps, agent, rep);
    }

    /** The replicas once the agents in `paid` have had their update. */
    ghost function Paid(p: P.Twin, done: bool, votes: map<string, Vote>, paid: set<string>): P.Twin {
      P.PayReps(p, NewReps(p.live, me, done, votes, paid))
    }

    lemma PayOneMore(p: P.Twin, done: bool, votes: map<string, Vote>, paid: set<string>, agent: string, ok: bool)
      requires agent !in paid
      ensures RepOf(Paid(p, done, votes, paid).live, agent) == RepOf(p.live, agent)
      ensures P.Commit(Paid(p, done, votes, paid),
                       UpdateReputation(agent, Clamp(RepOf(p.live, agent) + Delta(me, done, votes, agent))), ok)
              == Paid(p, done, votes, if ok then paid + {agent} else paid)
    {
      hide Apply, WithReps, NewReps;
      var reps := NewReps(p.live, me, done, votes, paid);
      NewRepsKeys(p.live, me, done, votes, paid);
      WithRepsLeavesOthers(p.live, reps, agent);
      PayStep(p, reps, agent, Clamp(RepOf(p.live, agent) + Delta(me, done, votes, agent)));
      NewRepsAdd(p.live, me, done, votes, paid, agent);
    }

    lemma PayNothing(p: P.Twin, done: bool, votes: map<string, Vote>)
      ensures Paid(p, done, votes, {}) == p
    {
      assert NewReps(p.live, me, done, votes, {}) == map[];
      WithNoReps(p.live);
      WithNoReps(p.committed);
    }

    /** Pays one agent that has not been paid yet. */
    method PayOne(agent: string, done: bool, votes: map<string, Vote>, lost: set<string>,
                  ghost p: P.Twin, ghost paid: set<string>)
      requires fsm.Valid() && agent !in paid
      requires Sides() == Paid(p, done, votes, paid)
      modifies fsm, fsm.channels, fsm.pool
      ensures fsm.Valid() && fsm.tasks == old(fsm.tasks)
      ensures fsm.channels == old(fsm.channels) && old(fsm.pool) <= fsm.pool && fresh(fsm.pool - old(fsm.pool))
      ensures Sides() == Paid(p, done, votes, if agent !in lost then paid + {agent} else paid)
    {
      hide P.Commit, Paid;
      PayOneMore(p, done, votes, paid, agent, agent !in lost);
      var rep := fsm.GetReputation(agent);
      if agent == me {
        rep := if done then rep + 10 else rep - 10;
      } else {
        rep := if agent in votes && votes[agent].accepted == done then rep + 1 else rep - 1;
      }
      ApplyReputationUpdate(agent, rep, agent !in lost);
    }

    /** The leader first, then every other voter, in any order. */
    method UpdateReputations(done: bool, votes: map<string, Vote>, lost: set<string>)
      requires fsm.Valid()
      modifies fsm, fsm.channels, fsm.pool
      ensures fsm.Valid() && fsm.tasks == old(fsm.tasks)
      ensures fsm.channels == old(fsm.channels) && old(fsm.pool) <= fsm.pool && fresh(fsm.pool - old(fsm.pool))
      ensures Sides() == P.PayReps(old(Sides()), NewReps(old(fsm.View()), me, done, votes, Rewarded(me, votes, lost)))
      ensures RepsInRange(old(fsm.View())) ==>
                forall a :: FollowsOutcome(old(fsm.View()), fsm.View(), me, done, votes, lost, a)
    {
      hide P.PayReps, NewReps, FollowsOutcome, Rewarded;
      ghost var p := Sides();
      PayNothing(p, done, votes);
      PayOne(me, done, votes, lost, p, {});
      var todo := votes.Keys;
      ghost var paid := {me} - lost;
      assert paid == if me !in lost then {} + {me} else {};
      while todo != {}
        invariant fsm.Valid() && fsm.tasks == old(fsm.tasks)
        invariant fsm.channels == old(fsm.channels) && old(fsm.pool) <= fsm.pool && fresh(fsm.pool - old(fsm.pool))
        invariant todo <= votes.Keys && paid == ({me} + (votes.Keys - todo)) - lost
        invariant Sides() == Paid(p, done, votes, paid)
        decreases todo
      {
        var a :| a in todo;
        todo := todo - {a};
        if a != me {
          PayOne(a, done, votes, lost, p, paid);
          paid := if a !in lost then paid + {a} else paid;
        }
      }
      assert paid == Rewarded(me, votes, lost) by { WhoIsPaid(votes, lost); }
      Followed(p, done, votes, lost);
    }

    lemma WhoIsPaid(votes: map<string, Vote>, lost: set<string>)
      ensures Rewarded(me, votes, lost) == ({me} + votes.Keys) - lost
    {
    }

    lemma Followed(p: P.Twin, done: bool, votes: map<string, Vote>, lost: set<string>)
      ensures var q := Paid(p, done, votes, Rewarded(me, votes, lost));
              RepsInRange(p.live) ==> forall a :: FollowsOutcome(p.live, q.live, me, done, votes, lost, a)
    {
      hide NewReps, Rewarded, FollowsOutcome, WithReps;
      if RepsInRange(p.live) {
        forall a
          ensures FollowsOutcome(p.live, Paid(p, done, votes, Rewarded(me, votes, lost)).live, me, done, votes, lost, a)
        {
          PaymentsSettle(p.live, me, done, votes, lost, a);
        }
      }
    }

    /** The agent to hand leadership to, if any. Which of several best ones depends on the order in
        which records are visited. */
    method CheckForLeadershipTransfer() returns (target: Option<string>)
      ensures IsTransferTarget(fsm.View(), me, target)
    {
      var mine := fsm.GetReputation(me);
      target := None;
      var most := mine;
      var todo := fsm.reputations.Keys;
      while todo != {}
        invariant todo <= fsm.reputations.Keys
        invariant forall a :: a in fsm.reputations.Keys - todo ==> fsm.reputations[a] <= most
        invariant target.None? ==> most == mine
        invariant target.Some? ==> target.value in fsm.reputations && fsm.reputations[target.value] == most > mine
        decreases todo
      {
        var a :| a in todo;
        todo := todo - {a};
        if fsm.reputations[a] > most {
          most := fsm.reputations[a];
          target := Some(a);
        }
      }
    }

    // ---- Finalization ---------------------------------------------------------------------

    method WriteFallback(task: Task, round: int, result: string)
      requires fsm.Valid() && Live(task)
      modifies task
      ensures task.Value() == old(task.Value()).(round := round, result := result)
      ensures Sides() == P.Edit(old(Sides()), task.id, task.Value())
    {
      task.round := round;
      task.result := result;
      WrittenThrough(task);
    }

    method WriteProposals(task: Task, proposals: map<int, string>)
      requires fsm.Valid() && Live(task)
      modifies task
      ensures task.Value() == old(task.Value()).(proposals := proposals)
      ensures Sides() == P.Edit(old(Sides()), task.id, task.Value())
    {
      task.proposals := proposals;
      WrittenThrough(task);
    }

    lemma LiveValue(task: Task)
      requires Live(task)
      ensures fsm.View().tasks[task.id] == task.Value()
      ensures P.Edit(Sides(), task.id, task.Value()) == Sides()
    {
      assert fsm.View().tasks[task.id := task.Value()] == fsm.View().tasks;
    }

    /** Publishes the next round. The new text also lands in the map of proposals of the live task
        if it has one. */
    method PublishRevision(task: Task, text: string, ok: bool) returns (failed: bool)
      requires fsm.Valid() && Live(task)
      modifies fsm, fsm.channels, fsm.pool
      ensures fsm.Valid() && fsm.tasks == old(fsm.tasks) && failed == !ok
      ensures fsm.channels == old(fsm.channels) && old(fsm.pool) <= fsm.pool && fresh(fsm.pool - old(fsm.pool))
      ensures Sides() == P.ReviseTask(old(Sides()), task.id, text, ok)
    {
      hide P.Commit;
      LiveValue(task);
      var updated := P.Revised(task.Value(), text);
      if task.proposals != map[] {
        WriteProposals(task, updated.proposals);
      }
      failed := RaftApply(UpdateTask(updated), ok);
    }

    /** Draws the decision from the votes of the round. The fallback moves the live task at once. */
    method Deliberate(task: Task, votes: map<string, Vote>, servers: nat,
                      revised: Option<string>)
      returns (d: P.Decision, voters: map<string, bool>)
      requires fsm.Valid() && Live(task) && task.id in fsm.taskVotes
      requires votes == VotesOf(fsm.View(), task.id, task.round)
      modifies task
      ensures d == P.Decide(config, old(task.Value()), fsm.taskVotes[task.id], servers, revised)
      ensures if d.Conclude?
              then Sides() == P.Edit(old(Sides()), task.id, old(task.Value()).(round := d.round, result := d.result))
              else Sides() == old(Sides())
      ensures AreVoters(voters, votes)
    {
      hide TaskValues, AreValues, Accepts, Rejects, BestRound, AreVoters, fsm.TasksKeyed, fsm.ChannelsOk, P.Edit;
      var rec := task.Value();
      var accepted, rejected;
      accepted, rejected, voters := CountVotes(votes);
      LiveValue(task);
      var quorum := servers / 2 + 1;
      var target := if config.target < quorum then quorum else config.target;
      if accepted >= target {
        d := P.Conclude(true, rec.round, rec.result);
      } else if rejected >= quorum {
        if rec.round < config.maxRounds {
          d := if revised.Some? then P.Revise(revised.value) else P.Conclude(false, rec.round, rec.result);
        } else {
          var best := FindBestRound(task.id, rec.round, quorum);
          if best != 0 {
            d := P.Conclude(true, best, if best in rec.proposals then rec.proposals[best] else "");
            WriteFallback(task, best, d.result);
          } else {
            d := P.Conclude(false, rec.round, rec.result);
          }
        }
      } else if accepted + rejected >= servers {
        if rec.round < config.maxRounds {
          d := if revised.Some? then P.Revise(revised.value) else P.Conclude(false, rec.round, rec.result);
        } else {
          d := P.Conclude(accepted > rejected, rec.round, rec.result);
        }
      } else {
        d := P.Pending;
      }
    }

    lemma LostCommit(p: P.Twin, cmd: Command)
      ensures P.Commit(p, cmd, false) == p
    {
    }

    lemma CommitKeepsReps(p: P.Twin, rec: TaskRecord)
      ensures P.Commit(p, UpdateTask(rec), true).live.reps == p.live.reps
    {
      UpdateTaskKeepsReps(p.live, rec);
    }

    /** Commits the outcome with its confidence, and only then moves the reputations and looks for a
        better leader. */
    method Conclude(task: Task, ghost before: P.Twin, round: int, votes: map<string, Vote>,
                    voters: map<string, bool>, done: bool, ok: bool, lost: set<string>)
      returns (failed: bool, transfer: Option<string>)
      requires fsm.Valid() && Live(task) && task.id in before.live.tasks && before.live.tasks[task.id].id == task.id
      requires before.live.tasks[task.id].round == round && votes == VotesOf(before.live, task.id, round)
      requires AreVoters(voters, votes)
      requires task.Value() == before.live.tasks[task.id].(round := task.round, result := task.result)
      requires Sides() == P.Edit(before, task.id, task.Value())
      modifies fsm, fsm.channels, fsm.pool
      ensures fsm.Valid() && fsm.tasks == old(fsm.tasks) && failed == !ok
      ensures fsm.channels == old(fsm.channels) && old(fsm.pool) <= fsm.pool && fresh(fsm.pool - old(fsm.pool))
      ensures Sides() == P.CloseTask(me, before, task.id, done, old(task.round), old(task.result), ok, lost)
      ensures if ok then IsTransferTarget(fsm.View(), me, transfer) else transfer == None
    {
      hide TaskValues, AreValues, AreVoters, Apply, WithReps, NewReps, Confidence;
      hide fsm.Valid, P.Commit, P.PayReps, Rewarded, VotesOf, Replay;
      transfer := None;
      ghost var edited := Sides();
      ConfidenceDependsOnReps(fsm.View(), before.live, votes, done);
      var score := ComputeConfidence(votes, voters, done);
      var final := P.Concluded(task.Value(), done, task.round, task.result, score);
      assert final == P.FinalRecord(before.live, task.id, done, task.round, task.result);
      failed := RaftApply(UpdateTask(final), ok);
      if failed {
        LostCommit(edited, UpdateTask(final));
        return;
      }
      assert Sides() == P.Commit(edited, UpdateTask(final), true);
      CommitKeepsReps(edited, final);
      NewRepsDependsOnReps(before.live, fsm.View(), me, done, votes, Rewarded(me, votes, lost));
      UpdateReputations(done, votes, lost);
      transfer := CheckForLeadershipTransfer();
    }

    /** Whether there is anything to decide: the guards before the count. */
    method CheckFinalization(task: Task, readable: bool) returns (votes: Option<map<string, Vote>>, servers: nat)
      requires Live(task)
      ensures votes.Some? <==> P.CanFinalize(fsm.View(), task.id, P.Servers(config, P.Io(readable, None, true)))
      ensures votes.Some? ==> votes.value == VotesOf(fsm.View(), task.id, task.round) && servers == |config.members|
    {
      LiveValue(task);
      votes, servers := None, 0;
      var current := fsm.GetTask(task.id);
      if current.None? || current.value.status == Done || current.value.status == Failed {
        return;
      }
      var found := fsm.GetTaskVotes(task.id, task.round);
      if found.None? {
        return;
      }
      var count := GetServerCount(readable);
      if count.None? || count.value == 0 {
        return;
      }
      votes, servers := found, count.value;
    }

    /** Runs after every vote. It makes exactly the finalization of the protocol model. */
    method RunFinalizeTask(task: Task, io: P.Io, lost: set<string>) returns (failed: bool, transfer: Option<string>)
      requires fsm.Valid() && Live(task)
      modifies fsm, fsm.channels, fsm.pool
      ensures fsm.Valid() && fsm.tasks == old(fsm.tasks)
      ensures fsm.channels == old(fsm.channels) && old(fsm.pool) <= fsm.pool && fresh(fsm.pool - old(fsm.pool))
      ensures var r := P.Finalize(config, me, old(Sides()), task.id, P.Servers(config, io), io.llm, io.ok, lost);
              && failed == r.failed && Sides() == r.twin
              && (if r.settled then IsTransferTarget(fsm.View(), me, transfer) else transfer == None)
    {
      hide P.CloseTask, P.ReviseTask, P.Decide, IsTransferTarget;
      transfer := None;
      LiveValue(task);
      ghost var before := Sides();
      var round := task.round;
      var votes, servers := CheckFinalization(task, io.readable);
      if votes.None? {
        return true, None;
      }
      var d, voters := Deliberate(task, votes.value, servers, io.llm);
      match d {
        case Pending => failed := false;
        case Revise(text) => failed := PublishRevision(task, text, io.ok);
        case Conclude(done, _, _) =>
          LiveValue(task);
          failed, transfer := Conclude(task, before, round, votes.value, voters, done, io.ok, lost);
      }
    }

    // ---- Timeouts -------------------------------------------------------------------------

    method TakeTimeout() returns (id: string)
      requires timerCh != []
      modifies `timers, `timerCh
      ensures id == old(timerCh)[0] && Sides() == old(Sides())
      ensures Clock() == P.TakeTimeout(old(Clock()))
    {
      id := timerCh[0];
      timerCh := timerCh[1..];
      timers := timers - {id};
    }

    method ChooseRemedy(id: string, leader: bool, readable: bool) returns (remedy: P.Remedy)
      ensures remedy == P.RemedyFor(fsm.View(), id, leader, P.Servers(config, P.Io(readable, None, true)))
    {
      var task := fsm.GetTask(id);
      if task.None? {
        return P.Ignore;
      }
      assert fsm.View().tasks[id] == task.value.Value();
      if task.value.status == Admitted && leader {
        var answers := fsm.GetTaskAnswers(id);
        var servers := GetServerCount(readable);
        if servers.None? {
          return P.Ignore;
        }
        var quorum := servers.value / 2 + 1;
        if answers.Some? && |answers.value| >= quorum {
          return P.ForceProposal;
        }
      }
      remedy := P.FailTask;
    }

    /** The event loop takes a timeout from its channel. */
    method HandleTaskTimeout(leader: bool, io: P.Io)
      requires fsm.Valid() && timerCh != []
      modifies `timers, `running, `nextTimer, `timerCh, fsm, fsm.channels, fsm.pool
      ensures fsm.Valid() && fsm.tasks == old(fsm.tasks)
      ensures var r := P.Timeout(old(Sides()), old(timerCh)[0], leader, P.Servers(config, io), io.llm, io.ok);
              var t := P.TakeTimeout(old(Clock()));
              Sides() == r.twin && Clock() == if r.armed then P.Start(t, old(timerCh)[0]) else t
      ensures leader ==> System() == P.Next(config, old(System()), P.OnTimeout(io))
      ensures !leader && !io.ok ==> Sides() == old(Sides()) && Clock() == P.Ticked(old(Clock()), P.TakesTimeout)
    {
      hide TaskValues, AreValues, P.Propose, P.Commit, P.TakeTimeout, P.Start, P.RemedyFor, fsm.Valid;
      var id := TakeTimeout();
      var remedy := ChooseRemedy(id, leader, io.readable);
      assert remedy == P.RemedyFor(old(fsm.View()), id, leader, P.Servers(config, io));
      match remedy {
        case Ignore =>
        case ForceProposal =>
          Proposable(id, leader, io);
          var failed := RunProposalPhase(fsm.tasks[id], true, io);
        case FailTask =>
          if !io.ok { LostCommit(Sides(), UpdateTask(P.TimeoutRecord(id))); }
          var failed := RaftApply(UpdateTask(P.TimeoutRecord(id)), io.ok);
      }
    }

    lemma Proposable(id: string, leader: bool, io: P.Io)
      requires fsm.Valid() && P.RemedyFor(fsm.View(), id, leader, P.Servers(config, io)).ForceProposal?
      ensures leader && id in fsm.tasks && fsm.tasks[id].id == id
    {
    }

    // ---- Events ---------------------------------------------------------------------------

    /** The pointer of a finished task is the one that the replica hands out. */
    ghost predicate Fits(e: Event)
      reads fsm, fsm.tasks.Values, if e.TaskUpdated? then {e.task} else {}
    {
      e.TaskUpdated? && Finished(e.task.status) ==>
        Live(e.task) && fsm.View().tasks[e.task.id] == e.task.Value()
    }

    method OnAdmitted(task: Task, leader: bool)
      modifies `timers, `running, `nextTimer, `watched
      ensures Sides() == old(Sides())
      ensures Clock() == if leader then P.Start(old(Clock()), task.id) else old(Clock())
      ensures watched == if leader && task.id in fsm.tasks then old(watched) + {task.id} else old(watched)
    {
      if leader {
        StartTimer(task.id);
        watched := if task.id in fsm.tasks then watched + {task.id} else watched;
      }
    }

    method OnAnswer(id: string, io: P.Io) returns (failed: bool)
      requires fsm.Valid()
      modifies `timers, `running, `nextTimer, fsm, fsm.channels, fsm.pool
      ensures fsm.Valid()
      ensures System() == P.Next(config, old(System()), P.OnAnswer(id, io))
      ensures failed <==> id !in old(fsm.tasks) ||
                          P.Propose(old(Sides()), id, false, P.Servers(config, io), io.llm, io.ok).failed
    {
      hide P.Propose, P.Start;
      var task := fsm.GetTask(id);
      if task.None? {
        return true;
      }
      KeyedPointer(id);
      failed := RunProposalPhase(task.value, false, io);
    }

    lemma KeyedPointer(id: string)
      requires fsm.Valid() && id in fsm.tasks
      ensures Live(fsm.tasks[id]) && fsm.tasks[id].id == id
    {
    }

    /** An error here is logged but never reaches the caller. */
    method OnVote(id: string, io: P.Io, lost: set<string>) returns (transfer: Option<string>)
      requires fsm.Valid()
      modifies fsm, fsm.channels, fsm.pool
      ensures fsm.Valid()
      ensures System() == P.Next(config, old(System()), P.OnVote(id, io, lost))
      ensures transfer.Some? ==> IsTransferTarget(fsm.View(), me, transfer)
    {
      hide P.CloseTask, P.ReviseTask, P.Decide, IsTransferTarget;
      transfer := None;
      var task := fsm.GetTask(id);
      if task.Some? {
        KeyedPointer(id);
        var failed;
        failed, transfer := RunFinalizeTask(task.value, io, lost);
      }
    }

    /** One event of the replica. On the leader it makes the step of the protocol model; elsewhere
        it changes nothing but the timer of a task that has finished. The leader gives up its
        leadership exactly when an answer arrives for a task that is unknown, no longer waiting for
        answers, or cannot be moved on. Only a finished task whose pointer has been replaced by a
        restore is no step of the model: it stops the timer of whatever has its identifier now. */
    method HandleRaftEvent(e: Event, leader: bool, io: P.Io, lost: set<string>)
      returns (drop: bool, transfer: Option<string>)
      requires fsm.Valid()
      modifies `timers, `running, `nextTimer, `watched, fsm, fsm.channels, fsm.pool
      ensures fsm.Valid()
      ensures leader && e.TaskAdmitted? ==> System() == P.Next(config, old(System()), P.OnAdmitted(e.task.id))
      ensures leader && e.AnswerSubmitted? ==>
                System() == P.Next(config, old(System()), P.OnAnswer(e.answer.taskId, io))
      ensures leader && e.VoteSubmitted? ==>
                System() == P.Next(config, old(System()), P.OnVote(e.vote.taskId, io, lost))
      ensures leader && e.TaskUpdated? && old(Fits(e) && Finished(e.task.status)) ==>
                System() == P.Next(config, old(System()), P.OnFinished(e.task.id))
      ensures e.TaskUpdated? ==> Sides() == old(Sides()) && watched == old(watched)
      ensures e.TaskUpdated? ==>
                Clock() == if old(Finished(e.task.status)) then P.Stop(old(Clock()), e.task.id) else old(Clock())
      ensures !leader && !e.TaskUpdated? ==> System() == old(System())
      ensures drop <==> (leader && e.AnswerSubmitted? &&
                         (e.answer.taskId !in old(fsm.tasks) ||
                          P.Propose(old(Sides()), e.answer.taskId, false, P.Servers(config, io), io.llm, io.ok).failed))
      ensures transfer.Some? ==> leader && e.VoteSubmitted? && IsTransferTarget(fsm.View(), me, transfer)
    {
      hide TaskValues, AreValues, P.Propose, P.Finalize, P.Start, P.Stop, IsTransferTarget;
      drop, transfer := false, None;
      fsm.SameKeys();
      match e {
        case TaskAdmitted(task) =>
          OnAdmitted(task, leader);
        case AnswerSubmitted(answer) =>
          if leader {
            drop := OnAnswer(answer.taskId, io);
          }
        case TaskUpdated(task) =>
          if task.status == Done || task.status == Failed {
            StopTimer(task.id);
          }
        case VoteSubmitted(vote) =>
          if leader {
            transfer := OnVote(vote.taskId, io, lost);
          }
      }
    }
  }
}
