/** Voting comes to an end over every run: with lost entries, configurations that cannot be read and
    changes of leader, a task takes in only so many votes that count. */
module Bounds {
  import opened Core
  import opened Replica
  import opened Voting
  import opened Protocol
  import opened Safety
  import opened Progress

  ghost function FreshVotes(c: Config, k: Cluster, steps: seq<Step>, id: string): nat
    requires Run(c, k, steps)
    decreases |steps|
  {
    if steps == [] then 0
    else (if FreshVote(k.leader, steps[0], id) then 1 else 0) + FreshVotes(c, Move(c, k, steps[0]), steps[1..], id)
  }

  /** The votes filed for a task in the rounds 1 to `last`. */
  function Filed(s: State, id: string, last: int): nat
    decreases if last < 0 then 0 else last
  {
    if last < 1 then 0 else Filed(s, id, last - 1) + |VotesOf(s, id, last)|
  }

  lemma {:induction false} FiledIsBounded(c: Config, s: State, id: string, last: nat)
    requires VotesOk(c, s)
    ensures Filed(s, id, last) <= last * |c.members|
  {
    if last >= 1 {
      var votes := VotesOf(s, id, last);
      FiledIsBounded(c, s, id, last - 1);
      assert RoundsOk(c, RoundsOf(s, id));
      SubsetSize(votes.Keys, c.members);
      assert |votes.Keys| == |votes|;
      Distribute(last, |c.members|);
    }
  }

  lemma {:induction false} FiledGrows(s: State, t: State, id: string, last: nat)
    requires AllExtend(s, t)
    ensures Filed(s, id, last) <= Filed(t, id, last)
  {
    if last >= 1 {
      var before, after := VotesOf(s, id, last), VotesOf(t, id, last);
      FiledGrows(s, t, id, last - 1);
      assert Extends(after, before);
      SubsetSize(before.Keys, after.Keys);
      assert |before.Keys| == |before| && |after.Keys| == |after|;
    }
  }

  lemma OtherRounds(s: State, v: Vote, r: int)
    requires v.agentId !in VotesOf(s, v.taskId, v.round)
    ensures r != v.round ==> VotesOf(RecordVote(s, v), v.taskId, r) == VotesOf(s, v.taskId, r)
  {
  }

  /** A new vote in one of the rounds is one more. */
  lemma {:induction false} FiledFresh(s: State, v: Vote, last: nat)
    requires v.agentId !in VotesOf(s, v.taskId, v.round)
    ensures Filed(RecordVote(s, v), v.taskId, last)
            == Filed(s, v.taskId, last) + (if 1 <= v.round <= last then 1 else 0)
  {
    hide RecordVote, VotesOf;
    if last >= 1 {
      FiledFresh(s, v, last - 1);
      RecordFresh(s, v);
      OtherRounds(s, v, last);
      var votes := VotesOf(s, v.taskId, last);
      if last == v.round {
        assert votes[v.agentId := v].Keys == votes.Keys + {v.agentId};
        assert |votes[v.agentId := v]| == |votes| + 1;
      }
    }
  }

  /** A step files the vote that counts, if it is one, and takes none back. */
  lemma FreshVoteIsFiled(c: Config, k: Cluster, step: Step, id: string)
    requires ClusterOk(c, k) && Enabled(c, k, step)
    ensures Filed(k.leader.twin.live, id, Cap(c)) + (if FreshVote(k.leader, step, id) then 1 else 0)
            <= Filed(Move(c, k, step).leader.twin.live, id, Cap(c))
  {
    hide TwinOk, Next, Filed, Recorded, Contiguous;
    var s := k.leader.twin.live;
    if step.Handover? {
      SameVotes(c, k, step);
      FiledGrows(s, Move(c, k, step).leader.twin.live, id, Cap(c));
    } else if step.Aside? {
    } else if FreshVote(k.leader, step, id) {
      Delivered(c, k.leader, step.cmd);
      OpenRoundOf(c, k.leader.twin, id);
      FiledFresh(s, step.cmd.vote, Cap(c));
    } else {
      VotesNeverShrink(c, k.leader, step);
      FiledGrows(s, Next(c, k.leader, step).twin.live, id, Cap(c));
    }
  }

  lemma Delivered(c: Config, l: Leader, cmd: Command)
    requires Legal(c, l, Deliver(cmd))
    ensures Next(c, l, Deliver(cmd)).twin.live == Apply(l.twin.live, cmd)
  {
  }

  lemma OpenRoundOf(c: Config, p: Twin, id: string)
    requires TwinOk(c, p) && id in p.live.tasks && p.live.tasks[id].status.Proposal?
    ensures 1 <= p.live.tasks[id].round <= Cap(c)
  {
    SelfOk(c, p);
    OpenRound(c, p.live, id);
  }

  lemma SameVotes(c: Config, k: Cluster, step: Step)
    requires ClusterOk(c, k) && Enabled(c, k, step) && step.Handover?
    ensures AllExtend(k.leader.twin.live, Move(c, k, step).leader.twin.live)
  {
    if step.next != k.leader.me {
      assert Coupled(Twin(k.leader.twin.live, k.others[step.next]));
    }
  }

  lemma VotesOkOf(c: Config, p: Twin)
    requires TwinOk(c, p)
    ensures VotesOk(c, p.live)
  {
  }

  /** Voting ends: over any run, the votes that count and those already filed for a task are at most
      max(1, MaxRounds) for each member. */
  lemma {:induction false} VotingIsBounded(c: Config, k: Cluster, steps: seq<Step>, id: string)
    requires ClusterOk(c, k) && Run(c, k, steps)
    ensures FreshVotes(c, k, steps, id) + Filed(k.leader.twin.live, id, Cap(c)) <= Cap(c) * |c.members|
    decreases |steps|
  {
    hide TwinOk, Move, Enabled, Filed;
    if steps == [] {
      VotesOkOf(c, k.leader.twin);
      FiledIsBounded(c, k.leader.twin.live, id, Cap(c));
    } else {
      MoveKeepsOk(c, k, steps[0]);
      FreshVoteIsFiled(c, k, steps[0], id);
      VotingIsBounded(c, Move(c, k, steps[0]), steps[1..], id);
    }
  }

  /** From the empty cluster: never more than max(1, MaxRounds) times n. */
  lemma VotingEnds(c: Config, me: string, steps: seq<Step>, id: string)
    requires c.members != {} && Run(c, Initial(c, me), steps)
    ensures FreshVotes(c, Initial(c, me), steps, id) <= Cap(c) * |c.members|
  {
    InitialIsOk(c, me);
    VotingIsBounded(c, Initial(c, me), steps, id);
  }
}
