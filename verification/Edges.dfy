/** Where the code falls short of its documentation, or needs what it does not check: each case
    with its exact condition and, where one is claimed to fail, an example. */
module Edges {
  import opened Core
  import opened Replica
  import opened ReplicaLaws
  import opened Voting
  import opened Reputation
  import opened Protocol
  import opened Safety

  // ---- The documented fallback ------------------------------------------------------------

  /** What the documentation promises at the round limit: the round with the most accepts above the
      quorum, or failure. */
  function DocumentedFallback(rec: TaskRecord, rounds: map<int, map<string, Vote>>, servers: nat): Decision {
    var best := BestRound(rounds, rec.round, Quorum(servers));
    if best == 0 then Conclude(false, rec.round, rec.result)
    else Conclude(true, best, ProposalAt(rec.proposals, best))
  }

  /** When the last round ends with all votes in and no consensus, the code looks at that round
      alone. On any node in any reachable state it does what is documented exactly when no round had a
      quorum of accepts or the last one is the best. */
  lemma SplitMatchesDocumentationIff(c: Config, me: string, k: Cluster, s: State, id: string, revised: Option<string>)
    requires c.members != {} && Reached(c, me, k) && Holds(k, s) && CanFinalize(s, id, Some(|c.members|))
    requires s.tasks[id].round >= c.maxRounds
    requires VerdictOf(VotesOf(s, id, s.tasks[id].round), c.target, |c.members|).Split?
    ensures var rec := s.tasks[id]; var best := BestRound(s.votes[id], rec.round, Quorum(|c.members|));
            DecisionOf(c, s, id, Some(|c.members|), revised) == DocumentedFallback(rec, s.votes[id], |c.members|)
            <==> (best == 0 || best == rec.round)
  {
    var rec, rounds, q := s.tasks[id], s.votes[id], Quorum(|c.members|);
    var votes := VotesOf(s, id, rec.round);
    HeldIsOk(c, me, k, s);
    assert TaskOk(c, rec, votes);
    BestRoundIsBest(rounds, rec.round, q);
    DecisionIsSound(c, rec, rounds, revised);
    VotersBound(votes, c.members);
    CountsAddUp(votes);
    assert |c.members| > 0;
    assert rec.round in rounds;
    if Accepts(votes) > Rejects(votes) {
      assert Eligible(rounds, rec.round, q);
    }
  }

  // ---- The configured target --------------------------------------------------------------

  /** A target beyond the number of agents is never met: no round of theirs is ever accepted
      outright. Otherwise a unanimous round is. */
  lemma TargetReachableIff(c: Config)
    requires c.members != {}
    ensures (exists votes: map<string, Vote> ::
               votes.Keys <= c.members && VerdictOf(votes, c.target, |c.members|).Accept?)
            <==> c.target <= |c.members|
  {
    assert |c.members| > 0;
    var all := Ballot(1, c.members, {});
    BallotSides(1, c.members, {});
    if c.target <= |c.members| {
      assert all.Keys <= c.members && VerdictOf(all, c.target, |c.members|).Accept?;
    }
    forall votes: map<string, Vote> | votes.Keys <= c.members ensures Accepts(votes) <= |c.members| {
      VotersBound(votes, c.members);
    }
  }

  lemma {:induction false} SubsetOfSize(s: set<string>, k: nat) returns (t: set<string>)
    requires k <= |s|
    ensures t <= s && |t| == k
    decreases |s|
  {
    if |s| == k {
      t := s;
    } else {
      var x :| x in s;
      t := SubsetOfSize(s - {x}, k);
    }
  }

  /** The documentation says that a quorum of accepts completes a task. It does in every round
      exactly when the configured target is no more than a quorum. */
  lemma QuorumSufficesIff(c: Config)
    requires c.members != {}
    ensures (forall votes: map<string, Vote> ::
               votes.Keys <= c.members && Accepts(votes) >= Quorum(|c.members|) ==>
                 VerdictOf(votes, c.target, |c.members|).Accept?)
            <==> c.target <= Quorum(|c.members|)
  {
    assert |c.members| > 0;
    var quorum := SubsetOfSize(c.members, Quorum(|c.members|));
    var votes := Ballot(1, quorum, {});
    BallotSides(1, quorum, {});
    assert votes.Keys <= c.members && Accepts(votes) == Quorum(|c.members|);
  }

  // ---- Late answers -----------------------------------------------------------------------

  /** The proposal phase reports an error, on which the leader gives up its leadership, exactly when
      the task is not waiting for answers or has none, when the configuration cannot be used, or
      when a proposal was due and could not be made or committed. So any answer that comes after
      the proposal costs the leader its place. */
  lemma ProposalFailsIff(p: Twin, id: string, force: bool, servers: Option<nat>, aggregate: Option<string>, ok: bool)
    requires id in p.live.tasks
    ensures var rec := p.live.tasks[id]; var count := |AnswersOf(p.live, id)|;
            Propose(p, id, force, servers, aggregate, ok).failed <==>
              || !rec.status.Admitted? || id !in p.live.answers || servers.None? || servers.value == 0
              || ((count == servers.value || (count >= Quorum(servers.value) && force)) && (aggregate.None? || !ok))
  {
    match ProposalGate(p.live, id, force, servers)
    case Refuse =>
    case Hold =>
    case Go =>
  }

  // ---- Votes nobody asked for -------------------------------------------------------------

  /** Finalization does not ask whether the task is under vote. A task that is still waiting for
      answers is done, without any recorded proposal, exactly when the votes filed under round 0
      reach the target, or when no rounds are allowed and those of everybody favour it; and it
      goes on waiting exactly when neither threshold is reached and votes are missing. */
  lemma WaitingTaskIsDoneIff(c: Config, me: string, s: State, id: string, revised: Option<string>, lost: set<string>)
    requires CanFinalize(s, id, Some(|c.members|)) && s.tasks[id].status.Admitted?
    requires s.tasks[id].id == id && s.tasks[id].round == 0 && s.tasks[id].proposals == map[]
    ensures var was, votes, n := s.tasks[id], VotesOf(s, id, 0), |c.members|;
            var t := Finalize(c, me, Twin(s, s), id, Some(n), revised, true, lost).twin.committed;
            && id in t.tasks
            && (t.tasks[id].status.Done? <==>
                  || Accepts(votes) >= Threshold(c.target, n)
                  || (c.maxRounds <= 0 && n <= |votes|
                      && Rejects(votes) < Quorum(n) && Rejects(votes) < Accepts(votes)))
            && (t.tasks[id].status.Done? ==> t.tasks[id].proposals == map[] && t.tasks[id].result == was.result)
            && (t.tasks[id].status.Admitted? <==>
                  Accepts(votes) < Threshold(c.target, n) && Rejects(votes) < Quorum(n) && |votes| < n)
  {
    hide Accepts, Rejects, CloseTask, ReviseTask;
    var servers := Some(|c.members|);
    CountsAddUp(VotesOf(s, id, 0));
    match DecisionOf(c, s, id, servers, revised)
    case Pending =>
    case Revise(text) => Republishes(Twin(s, s), id, text);
    case Conclude(done, round, result) => Closes(me, Twin(s, s), id, done, round, result, lost);
  }

  lemma Republishes(p: Twin, id: string, text: string)
    requires id in p.live.tasks && id in p.committed.tasks && p.live.tasks[id].id == id
    ensures var s := ReviseTask(p, id, text, true).committed; id in s.tasks && s.tasks[id].status.Proposal?
  {
  }

  lemma Closes(me: string, p: Twin, id: string, done: bool, round: int, result: string, lost: set<string>)
    requires id in p.live.tasks && id in p.committed.tasks
    requires p.live.tasks[id].id == id
    ensures var q := CloseTask(me, p, id, done, round, result, true, lost);
            forall s :: s == q.live || s == q.committed ==>
              && id in s.tasks && s.tasks[id].status == (if done then Done else Failed)
              && s.tasks[id].proposals == p.live.tasks[id].proposals
              && s.tasks[id].round == round && s.tasks[id].result == result
    ensures CloseTask(me, p, id, done, round, result, true, lost).committed.votes == p.committed.votes
  {
    hide BumpAll, NewReps, Rewarded, Confidence;
  }

  /** One member, one vote under round 0: the task is done without a proposal. */
  lemma RoundZeroVoteCompletes()
    ensures var s := Replay(EMPTY, [AdmitTask(FRESH), SubmitVote(VoteOn(0, "a", true))]);
            var t := Finalize(Config({"a"}, 1, 1), "a", Twin(s, s), "t", Some(1), None, true, {}).twin.committed;
            "t" in t.tasks && t.tasks["t"].status.Done? && t.tasks["t"].proposals == map[]
  {
    var admit, vote := AdmitTask(FRESH), VoteOn(0, "a", true);
    assert [admit] + [SubmitVote(vote)] == [admit, SubmitVote(vote)] && [] + [admit] == [admit];
    ReplaySnoc(EMPTY, [admit], SubmitVote(vote));
    ReplaySnoc(EMPTY, [], admit);
    var s := Replay(EMPTY, [admit, SubmitVote(vote)]);
    assert s == RecordVote(Apply(EMPTY, admit), vote);
    assert VotesOf(s, "t", 0) == map["a" := vote];
    assert Side(map["a" := vote], true) == {"a"} && Side(map["a" := vote], false) == {};
    var c := Config({"a"}, 1, 1);
    assert |c.members| == 1;
    WaitingTaskIsDoneIff(c, "a", s, "t", None, {});
  }

  // ---- Votes outside the membership -------------------------------------------------------

  /** Votes of `yes` and `no`, all in one round. */
  ghost function Ballot(round: int, yes: set<string>, no: set<string>): (votes: map<string, Vote>)
    ensures votes.Keys == yes + no && forall a :: a in yes + no ==> votes[a] == VoteOn(round, a, a in yes)
  {
    MapOf(yes + no, a => VoteOn(round, a, a in yes))
  }

  function VoteOn(round: int, agent: string, accepted: bool): Vote {
    Vote("t", agent, accepted, "", "", round)
  }

  lemma BallotSides(round: int, yes: set<string>, no: set<string>)
    requires yes !! no
    ensures Side(Ballot(round, yes, no), true) == yes && Side(Ballot(round, yes, no), false) == no
    ensures Accepts(Ballot(round, yes, no)) == |yes| && Rejects(Ballot(round, yes, no)) == |no|
  {
    hide Ballot;
    assert Side(Ballot(round, yes, no), true) == yes;
    assert Side(Ballot(round, yes, no), false) == no;
  }

  /** With at most as many voters as servers a verdict stands, as among members. */
  lemma FewVotersAgree(votes: map<string, Vote>, later: map<string, Vote>, voters: set<string>, n: nat, target: int)
    requires |voters| <= n && Extends(later, votes) && later.Keys <= voters
    requires VerdictOf(votes, target, n) != Wait
    ensures VerdictOf(later, target, n) == VerdictOf(votes, target, n)
  {
    CountsGrow(votes, later);
    CountsAddUp(votes);
    VotersBound(votes, voters);
    VotersBound(later, voters);
    if VerdictOf(votes, target, n).Split? {
      assert |votes.Keys| == |votes|;
      SubsetSize(votes.Keys, voters);
      assert votes == later;
    }
  }

  lemma BallotExtends(round: int, yes: set<string>, no: set<string>, early: set<string>, against: set<string>)
    requires yes !! no && early <= yes && against <= no
    ensures Extends(Ballot(round, yes, no), Ballot(round, early, against))
    ensures Ballot(round, yes, no).Keys == yes + no
  {
    hide Ballot;
  }

  /** One voter more than servers: a round of theirs whose verdict a later vote turns. */
  lemma ManyVotersDisagree(voters: set<string>, n: nat, target: int)
    returns (votes: map<string, Vote>, later: map<string, Vote>)
    requires n >= 1 && |voters| > n
    ensures Extends(later, votes) && later.Keys <= voters
    ensures VerdictOf(votes, target, n) != Wait && VerdictOf(later, target, n) != VerdictOf(votes, target, n)
  {
    hide Ballot, Accepts, Rejects, Extends, VerdictOf;
    var some := SubsetOfSize(voters, n + 1);
    var no := SubsetOfSize(some, Quorum(n));
    var yes := some - no;
    assert |yes| == |some| - |no| by { assert some == yes + no; }
    BallotSides(1, yes, no);
    later := Ballot(1, yes, no);
    var early, against := yes, no;
    if |yes| >= Threshold(target, n) {
      early := {};
    } else {
      var last :| last in no;
      against := no - {last};
    }
    assert |early| + |against| >= n || |against| == Quorum(n);
    BallotSides(1, early, against);
    BallotExtends(1, yes, no, early, against);
    votes := Ballot(1, early, against);
    VerdictFromCounts(votes, target, n);
    VerdictFromCounts(later, target, n);
  }

  lemma VerdictFromCounts(votes: map<string, Vote>, target: int, n: nat)
    ensures VerdictOf(votes, target, n) == Judge(Accepts(votes), Rejects(votes), target, n)
  {
  }

  /** `Apply` files votes of strangers too. Among `voters`, whoever they are, every verdict stands
      under later votes exactly when there are no more of them than servers. */
  lemma VerdictsStandIff(voters: set<string>, n: nat, target: int)
    requires n >= 1
    ensures (forall votes, later :: Extends(later, votes) && later.Keys <= voters && VerdictOf(votes, target, n) != Wait
               ==> VerdictOf(later, target, n) == VerdictOf(votes, target, n))
            <==> |voters| <= n
  {
    if |voters| <= n {
      forall votes, later | Extends(later, votes) && later.Keys <= voters && VerdictOf(votes, target, n) != Wait
        ensures VerdictOf(later, target, n) == VerdictOf(votes, target, n)
      {
        FewVotersAgree(votes, later, voters, n, target);
      }
    } else {
      var votes, later := ManyVotersDisagree(voters, n, target);
    }
  }

  /** The smallest case: a stranger's accept turns the rejection of the only member. */
  lemma StrangersBreakStability()
    ensures exists votes: map<string, Vote>, later: map<string, Vote> ::
              && Extends(later, votes)
              && VerdictOf(votes, 1, 1).Reject? && VerdictOf(later, 1, 1).Accept?
  {
    BallotSides(1, {}, {"a"});
    BallotSides(1, {"b"}, {"a"});
    assert Extends(Ballot(1, {"b"}, {"a"}), Ballot(1, {}, {"a"}));
  }

  // ---- A restored leader ------------------------------------------------------------------

  /** The votes of a round after `log`, on a replica that started from `s`. */
  ghost function FullVotes(s: State, log: seq<Command>, id: string, round: int): map<string, Vote> {
    VotesOf(Replay(s, log), id, round)
  }

  /** The same on a replica that was restored from a snapshot of `s`. */
  ghost function LateVotes(s: State, log: seq<Command>, names: bool, id: string, round: int): map<string, Vote> {
    VotesOf(Replay(Restored(s, names), log), id, round)
  }

  /** A restored replica has lost the votes filed before the snapshot, and so takes a second vote of an
      agent. Its accepts are those of a full replica exactly as far as their voters are new: the full
      one counts the accepts from before, and of the late ones those of agents that had not voted. */
  lemma RestoredVotes(s: State, log: seq<Command>, names: bool, id: string, round: int)
    ensures var before, late := VotesOf(s, id, round), LateVotes(s, log, names, id, round);
            var full := FullVotes(s, log, id, round);
            && Accepts(full) == Accepts(before) + |Side(late, true) - before.Keys|
            && (full == late <==> forall a :: a in before ==> a in late && late[a] == before[a])
  {
    hide Accepts, VotesOf, FullVotes, LateVotes;
    var before, late, full := VotesOf(s, id, round), LateVotes(s, log, names, id, round), FullVotes(s, log, id, round);
    forall a ensures a in full <==> a in before || a in late
             ensures a in full ==> full[a] == if a in before then before[a] else late[a]
    {
      OneVote(s, log, names, id, round, a);
    }
    assert full.Keys == before.Keys + late.Keys;
    OverlayCounts(full, before, late);
    OverlaySameIff(full, before, late);
  }

  lemma OneVote(s: State, log: seq<Command>, names: bool, id: string, round: int, a: string)
    ensures Lookup(FullVotes(s, log, id, round), a)
            == if a in VotesOf(s, id, round) then Lookup(VotesOf(s, id, round), a)
               else Lookup(LateVotes(s, log, names, id, round), a)
  {
    hide Replay, VotesOf;
    RestoredSimulatesFull(s, log, names);
    var full, late := Replay(s, log), Replay(Restored(s, names), log);
    assert VoteOf(full, id, round, a)
        == if VoteOf(s, id, round, a).Some? then VoteOf(s, id, round, a) else VoteOf(late, id, round, a);
  }

  lemma OverlaySameIff(full: map<string, Vote>, before: map<string, Vote>, late: map<string, Vote>)
    requires full.Keys == before.Keys + late.Keys
    requires forall a :: a in full ==> full[a] == if a in before then before[a] else late[a]
    ensures full == late <==> forall a :: a in before ==> a in late && late[a] == before[a]
  {
    if forall a :: a in before ==> a in late && late[a] == before[a] {
      assert full.Keys == late.Keys;
    }
  }

  lemma OverlayCounts(full: map<string, Vote>, before: map<string, Vote>, late: map<string, Vote>)
    requires full.Keys == before.Keys + late.Keys
    requires forall a :: a in full ==> full[a] == if a in before then before[a] else late[a]
    ensures Accepts(full) == Accepts(before) + |Side(late, true) - before.Keys|
  {
    assert Side(full, true) == Side(before, true) + (Side(late, true) - before.Keys);
  }

  /** A leader that was restored from a snapshot finds a quorum for a round. On the full replicas the
      task is then done, and backed by a quorum exactly when the accepts filed before the snapshot and
      those of agents that had not voted by then are one. */
  lemma RestoredLeaderIsBackedIff(c: Config, me: string, s: State, log: seq<Command>, names: bool, id: string,
                                  revised: Option<string>, lost: set<string>)
    requires var live := Replay(Restored(s, names), log);
             && CanFinalize(live, id, Some(|c.members|)) && live.tasks[id].id == id
             && DecisionOf(c, live, id, Some(|c.members|), revised).Conclude?
             && DecisionOf(c, live, id, Some(|c.members|), revised).done
    requires id in Replay(s, log).tasks
    ensures var live, full := Replay(Restored(s, names), log), Replay(s, log);
            var d := DecisionOf(c, live, id, Some(|c.members|), revised);
            var t := Finalize(c, me, Twin(live, full), id, Some(|c.members|), revised, true, lost).twin.committed;
            && id in t.tasks && t.tasks[id].status.Done? && t.tasks[id].round == d.round
            && (Accepts(VotesOf(t, id, d.round)) >= Quorum(|c.members|) <==>
                  Accepts(VotesOf(s, id, d.round))
                  + |Side(LateVotes(s, log, names, id, d.round), true) - VotesOf(s, id, d.round).Keys|
                  >= Quorum(|c.members|))
  {
    hide CloseTask, DecisionOf, Replay, Accepts;
    var live, full := Replay(Restored(s, names), log), Replay(s, log);
    var d := DecisionOf(c, live, id, Some(|c.members|), revised);
    Closes(me, Twin(live, full), id, true, d.round, d.result, lost);
    RestoredVotes(s, log, names, id, d.round);
  }

  const FRESH: TaskRecord := TaskRecord("t", "q", "u", 0, Admitted, "", 0.0, 0, map[])
}
