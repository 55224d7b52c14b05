/** Counting the votes of one round and the verdict drawn from them. */
module Voting {
  import opened Core
  import opened Replica
  import opened ReplicaLaws

  datatype Verdict = Accept | Reject | Split | Wait

  function Quorum(servers: nat): nat {
    servers / 2 + 1
  }

  /** The number of accepts needed for success: the configured target, but never less than a quorum. */
  function Threshold(target: int, servers: nat): nat {
    if target < Quorum(servers) then Quorum(servers) else target
  }

  function Judge(accepted: nat, rejected: nat, target: int, servers: nat): Verdict {
    if accepted >= Threshold(target, servers) then Accept
    else if rejected >= Quorum(servers) then Reject
    else if accepted + rejected >= servers then Split
    else Wait
  }

  function Side(votes: map<string, Vote>, accepted: bool): set<string> {
    set a | a in votes && votes[a].accepted == accepted
  }

  function Accepts(votes: map<string, Vote>): nat {
    |Side(votes, true)|
  }

  function Rejects(votes: map<string, Vote>): nat {
    |Side(votes, false)|
  }

  function VerdictOf(votes: map<string, Vote>, target: int, servers: nat): Verdict {
    Judge(Accepts(votes), Rejects(votes), target, servers)
  }

  lemma QuorumIsTheLeastMajority(n: nat)
    ensures 2 * Quorum(n) > n && 2 * (Quorum(n) - 1) <= n
  {
  }

  /** What the verdicts mean in numbers. */
  lemma VerdictMeaning(votes: map<string, Vote>, target: int, servers: nat)
    ensures var v := VerdictOf(votes, target, servers);
            var accepted := Accepts(votes) >= target && 2 * Accepts(votes) > servers;
            && (v.Accept? <==> accepted)
            && (v.Reject? <==> !accepted && 2 * Rejects(votes) > servers)
            && (v.Split? <==> !accepted && 2 * Rejects(votes) <= servers && |votes| >= servers)
            && (v.Wait? <==> !accepted && 2 * Rejects(votes) <= servers && |votes| < servers)
  {
    hide Accepts, Rejects;
    CountsAddUp(votes);
  }

  // ---- Cardinalities ----------------------------------------------------------------------

  lemma {:induction false} SubsetSize<T>(a: set<T>, b: set<T>)
    requires a <= b
    ensures |a| <= |b|
    ensures |a| == |b| ==> a == b
  {
    assert b == a + (b - a);
    assert |b| == |a| + |b - a|;
  }

  lemma CountsAddUp(votes: map<string, Vote>)
    ensures Accepts(votes) + Rejects(votes) == |votes|
  {
    assert Side(votes, true) + Side(votes, false) == votes.Keys;
    assert Side(votes, true) !! Side(votes, false);
  }

  lemma OneMoreVote(votes: map<string, Vote>, agent: string, v: Vote)
    requires agent !in votes
    ensures Accepts(votes[agent := v]) == Accepts(votes) + (if v.accepted then 1 else 0)
    ensures Rejects(votes[agent := v]) == Rejects(votes) + (if v.accepted then 0 else 1)
  {
    assert Side(votes[agent := v], v.accepted) == Side(votes, v.accepted) + {agent};
    assert Side(votes[agent := v], !v.accepted) == Side(votes, !v.accepted);
  }

  /** `later` holds every vote of `votes`, unchanged, and perhaps more. */
  ghost predicate Extends(later: map<string, Vote>, votes: map<string, Vote>) {
    forall a :: a in votes ==> a in later && later[a] == votes[a]
  }

  lemma CountsGrow(votes: map<string, Vote>, later: map<string, Vote>)
    requires Extends(later, votes)
    ensures Accepts(votes) <= Accepts(later) && Rejects(votes) <= Rejects(later)
    ensures |votes| <= |later|
  {
    SubsetSize(Side(votes, true), Side(later, true));
    SubsetSize(Side(votes, false), Side(later, false));
    SubsetSize(votes.Keys, later.Keys);
  }

  lemma VotersBound(votes: map<string, Vote>, members: set<string>)
    requires votes.Keys <= members
    ensures Accepts(votes) + Rejects(votes) <= |members|
    ensures |votes| >= |members| ==> votes.Keys == members
  {
    CountsAddUp(votes);
    SubsetSize(votes.Keys, members);
  }

  // ---- Stability --------------------------------------------------------------------------

  /** Both thresholds can never be met in one round, so the order of the tests is irrelevant. */
  lemma ThresholdsExclusive(votes: map<string, Vote>, members: set<string>, target: int)
    requires votes.Keys <= members
    ensures !(Accepts(votes) >= Threshold(target, |members|) && Rejects(votes) >= Quorum(|members|))
  {
    VotersBound(votes, members);
  }

  /** A verdict once reached is never undone by later votes of the members. */
  lemma VerdictStands(votes: map<string, Vote>, later: map<string, Vote>, members: set<string>, target: int)
    requires Extends(later, votes) && later.Keys <= members
    requires VerdictOf(votes, target, |members|) != Wait
    ensures VerdictOf(later, target, |members|) == VerdictOf(votes, target, |members|)
  {
    CountsGrow(votes, later);
    CountsAddUp(votes);
    VotersBound(votes, members);
    VotersBound(later, members);
    if VerdictOf(votes, target, |members|).Split? {
      assert votes == later;
    }
  }

  /** A round in which a quorum rejected can never collect a quorum of accepts, not even late. */
  lemma RejectedNeverEligible(votes: map<string, Vote>, later: map<string, Vote>, members: set<string>)
    requires Extends(later, votes) && later.Keys <= members
    requires Rejects(votes) >= Quorum(|members|)
    ensures Accepts(later) < Quorum(|members|)
  {
    CountsGrow(votes, later);
    VotersBound(later, members);
  }

  // ---- Arrival order ----------------------------------------------------------------------

  /** The votes a log casts in one round of one task. */
  ghost function Ballots(log: seq<Command>, id: string, round: int): set<Vote> {
    set i | 0 <= i < |log| && log[i].SubmitVote? && log[i].vote.taskId == id && log[i].vote.round == round
      :: log[i].vote
  }

  ghost predicate OnePerAgent(ballots: set<Vote>) {
    forall v, w :: v in ballots && w in ballots && v.agentId == w.agentId ==> v == w
  }

  lemma {:induction false} FirstVoteIsABallot(log: seq<Command>, id: string, round: int, agent: string)
    ensures FirstVote(log, id, round, agent).Some? ==>
              FirstVote(log, id, round, agent).value in Ballots(log, id, round)
              && FirstVote(log, id, round, agent).value.agentId == agent
    ensures FirstVote(log, id, round, agent).None? ==>
              forall v :: v in Ballots(log, id, round) ==> v.agentId != agent
  {
    if log != [] {
      var front, n := log[..|log| - 1], |log| - 1;
      FirstVoteIsABallot(front, id, round, agent);
      forall v | v in Ballots(front, id, round) ensures v in Ballots(log, id, round) {
        var i :| 0 <= i < |front| && front[i].SubmitVote? && front[i].vote == v;
        assert log[i].vote == v;
      }
      forall v | v in Ballots(log, id, round)
        ensures v in Ballots(front, id, round) || (log[n].SubmitVote? && v == log[n].vote)
      {
        var i :| 0 <= i < |log| && log[i].SubmitVote? && log[i].vote == v;
        if i < n { assert front[i].vote == v; }
      }
    }
  }

  /** What a replica holds for a round depends on the ballots alone, not on their order nor on
      the commands between them. */
  lemma VotesAreTheBallots(s: State, log1: seq<Command>, log2: seq<Command>, id: string, round: int)
    requires VotesOf(s, id, round) == map[]
    requires Ballots(log1, id, round) == Ballots(log2, id, round)
    requires OnePerAgent(Ballots(log1, id, round))
    ensures VotesOf(Replay(s, log1), id, round) == VotesOf(Replay(s, log2), id, round)
  {
    var v1, v2 := VotesOf(Replay(s, log1), id, round), VotesOf(Replay(s, log2), id, round);
    forall a ensures Lookup(v1, a) == Lookup(v2, a) {
      VotesAfterReplay(s, log1, id, round, a);
      VotesAfterReplay(s, log2, id, round, a);
      FirstVoteIsABallot(log1, id, round, a);
      FirstVoteIsABallot(log2, id, round, a);
    }
    SameLookups(v1, v2);
  }

  lemma {:induction false} PrefixVotes(s: State, log: seq<Command>, k: nat, id: string, round: int)
    requires k <= |log|
    ensures Extends(VotesOf(Replay(s, log), id, round), VotesOf(Replay(s, log[..k]), id, round))
  {
    if k < |log| {
      var front := log[..|log| - 1];
      PrefixVotes(s, front, k, id, round);
      assert front[..k] == log[..k];
      VotesGrow(Replay(s, front), log[|log| - 1], id, round);
    } else {
      assert log[..k] == log;
    }
  }

  lemma VotesGrow(s: State, cmd: Command, id: string, round: int)
    ensures Extends(VotesOf(Apply(s, cmd), id, round), VotesOf(s, id, round))
  {
    forall a ensures a in VotesOf(s, id, round) ==>
                     Lookup(VotesOf(Apply(s, cmd), id, round), a) == Lookup(VotesOf(s, id, round), a)
    {
      VoteOfApply(s, cmd, id, round, a);
    }
  }

  lemma FullRoundIsJudged(votes: map<string, Vote>, members: set<string>, target: int)
    requires votes.Keys == members
    ensures VerdictOf(votes, target, |members|) != Wait
  {
    CountsAddUp(votes);
    assert |votes.Keys| == |votes|;
  }

  /** Voting is confluent. Two logs cast the same ballots, at most one per agent and one from each
      member, in any order and with anything in between. Wherever in either log the round is
      looked at, a verdict other than `Wait` is the same verdict, and at the end there is one. */
  lemma VotingIsConfluent(s: State, log1: seq<Command>, log2: seq<Command>, i: nat, j: nat,
                          id: string, round: int, members: set<string>, target: int)
    requires VotesOf(s, id, round) == map[]
    requires Ballots(log1, id, round) == Ballots(log2, id, round)
    requires OnePerAgent(Ballots(log1, id, round))
    requires (set v | v in Ballots(log1, id, round) :: v.agentId) == members
    requires i <= |log1| && j <= |log2|
    ensures var n := |members|;
            var early := VerdictOf(VotesOf(Replay(s, log1[..i]), id, round), target, n);
            var other := VerdictOf(VotesOf(Replay(s, log2[..j]), id, round), target, n);
            && VerdictOf(VotesOf(Replay(s, log1), id, round), target, n) != Wait
            && (early != Wait && other != Wait ==> early == other)
  {
    hide Replay, Extends, VotesOf, VerdictOf;
    var all := VotesOf(Replay(s, log1), id, round);
    VotesAreTheBallots(s, log1, log2, id, round);
    assert all.Keys == members by {
      forall a ensures a in all <==> a in members {
        VotesAfterReplay(s, log1, id, round, a);
        FirstVoteIsABallot(log1, id, round, a);
      }
    }
    FullRoundIsJudged(all, members, target);
    PrefixVotes(s, log1, i, id, round);
    PrefixVotes(s, log2, j, id, round);
    var early := VotesOf(Replay(s, log1[..i]), id, round);
    var other := VotesOf(Replay(s, log2[..j]), id, round);
    assert Extends(all, early) && Extends(all, other);
    if VerdictOf(early, target, |members|) != Wait {
      VerdictStands(early, all, members, target);
    }
    if VerdictOf(other, target, |members|) != Wait {
      VerdictStands(other, all, members, target);
    }
  }

  // ---- The fallback round -----------------------------------------------------------------

  ghost predicate Eligible(rounds: map<int, map<string, Vote>>, r: int, quorum: nat) {
    r in rounds && Accepts(rounds[r]) >= quorum
  }

  /** `r` is the round the fallback promises: a quorum accepted it, no round up to `last` has more
      accepts, and every later one has fewer. */
  ghost predicate IsBestRound(rounds: map<int, map<string, Vote>>, last: int, quorum: nat, r: int) {
    && 1 <= r <= last && Eligible(rounds, r, quorum)
    && forall q :: 1 <= q <= last && Eligible(rounds, q, quorum) ==>
         Accepts(rounds[q]) <= Accepts(rounds[r]) && (q > r ==> Accepts(rounds[q]) < Accepts(rounds[r]))
  }

  ghost predicate NoneEligible(rounds: map<int, map<string, Vote>>, last: int, quorum: nat) {
    forall q :: 1 <= q <= last ==> !Eligible(rounds, q, quorum)
  }

  /** The best round up to `last`, or 0. */
  function BestRound(rounds: map<int, map<string, Vote>>, last: int, quorum: nat): int
    decreases if last < 0 then 0 else last
  {
    if last < 1 then 0
    else
      var best := BestRound(rounds, last - 1, quorum);
      if last in rounds && Accepts(rounds[last]) >= quorum
         && (best !in rounds || best < 1 || Accepts(rounds[last]) >= Accepts(rounds[best]))
      then last else best
  }

  lemma {:induction false} BestRoundIsBest(rounds: map<int, map<string, Vote>>, last: int, quorum: nat)
    ensures var b := BestRound(rounds, last, quorum);
            if b == 0 then NoneEligible(rounds, last, quorum) else IsBestRound(rounds, last, quorum, b)
    decreases if last < 0 then 0 else last
  {
    if last >= 1 {
      BestRoundIsBest(rounds, last - 1, quorum);
    }
  }

  lemma BestRoundIsUnique(rounds: map<int, map<string, Vote>>, last: int, quorum: nat, r: int, q: int)
    requires IsBestRound(rounds, last, quorum, r) && IsBestRound(rounds, last, quorum, q)
    ensures r == q
  {
    assert Eligible(rounds, q, quorum) && Eligible(rounds, r, quorum);
  }
}
