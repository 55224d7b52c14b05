/** Runs from the empty cluster that reach the cases in which the code falls short. */
module Examples {
  import opened Core
  import opened Replica
  import opened ReplicaLaws
  import opened Voting
  import opened Protocol
  import opened Progress
  import opened Lifecycle
  import opened Deadlines
  import opened Edges

  // ---- Building runs ----------------------------------------------------------------------

  lemma ReachMore(c: Config, me: string, k: Cluster, step: Step)
    requires Reached(c, me, k) && Enabled(c, k, step)
    ensures Reached(c, me, Move(c, k, step))
  {
    var steps :| Run(c, Initial(c, me), steps) && After(c, Initial(c, me), steps) == k;
    assert After(c, k, [step]) == Move(c, k, step);
    RunConcat(c, Initial(c, me), steps, [step]);
  }

  /** What the leader's replica knows of the only task "t": its record, its votes and the number of
      its answers. */
  ghost predicate Shows(l: Leader, rec: TaskRecord, rounds: map<int, map<string, Vote>>, answers: nat) {
    && l.twin.live.tasks == map["t" := rec] && rec.id == "t"
    && RoundsOf(l.twin.live, "t") == rounds
    && |AnswersOf(l.twin.live, "t")| == answers
  }

  /** A reached cluster whose leader shows this, with a timer for the task. */
  ghost predicate Stands(c: Config, me: string, k: Cluster, rec: TaskRecord, rounds: map<int, map<string, Vote>>) {
    Reached(c, me, k) && Shows(k.leader, rec, rounds, |c.members|) && Covered(k.leader.timers, "t")
  }

  lemma Standing(c: Config, me: string, k: Cluster, rec: TaskRecord, rounds: map<int, map<string, Vote>>)
    requires Stands(c, me, k, rec, rounds)
    ensures var s := k.leader.twin.live;
            && Reached(c, me, k) && Covered(k.leader.timers, "t") && TaskOf(s, "t") == Some(rec)
            && (rounds != map[] ==> "t" in s.votes && s.votes["t"] == rounds)
  {
  }

  function At(round: int, proposals: map<int, string>): TaskRecord
    requires round in proposals
  {
    FRESH.(status := Proposal, result := proposals[round], round := round, proposals := proposals)
  }

  lemma {:induction false} Answered(c: Config, me: string, n: nat) returns (k: Cluster)
    ensures Reached(c, me, k) && Shows(k.leader, FRESH, map[], n)
  {
    if n == 0 {
      k := Initial(c, me);
      assert Run(c, k, []) && After(c, k, []) == k;
      ReachMore(c, me, k, Deliver(AdmitTask(FRESH)));
      k := Move(c, k, Deliver(AdmitTask(FRESH)));
    } else {
      k := Answered(c, me, n - 1);
      var step := Deliver(SubmitAnswer(Answer("t", "a", "x")));
      ReachMore(c, me, k, step);
      k := Move(c, k, step);
    }
  }

  /** Every cluster reaches a first proposal. */
  lemma Opened(c: Config, me: string) returns (k: Cluster)
    requires c.members != {}
    ensures Stands(c, me, k, At(1, map[1 := "p1"]), map[])
  {
    k := Answered(c, me, |c.members|);
    assert |c.members| > 0;
    var step := OnAnswer("t", Io(true, Some("p1"), true));
    ReachMore(c, me, k, step);
    ProposalShows(c, k.leader);
    k := Move(c, k, step);
  }

  lemma ProposalShows(c: Config, l: Leader)
    requires Shows(l, FRESH, map[], |c.members|) && |c.members| > 0
    ensures var m := Next(c, l, OnAnswer("t", Io(true, Some("p1"), true)));
            Shows(m, At(1, map[1 := "p1"]), map[], |c.members|) && Covered(m.timers, "t")
  {
    var p, next := l.twin, Proposed(FRESH, "p1");
    assert ProposalGate(p.live, "t", false, Some(|c.members|)) == Go;
    assert Apply(Edit(p, "t", next).live, UpdateTask(next)).tasks == map["t" := next];
    assert next == At(1, map[1 := "p1"]);
    var t := Start(l.timers, "t");
    assert t.running[Stop(l.timers, "t").next] == "t";
  }

  /** Files one vote. */
  lemma VoteShows(c: Config, l: Leader, rec: TaskRecord, rounds: map<int, map<string, Vote>>, answers: nat, v: Vote)
    requires Shows(l, rec, rounds, answers) && v.taskId == "t" && v.agentId in c.members && v.round >= 1
    requires v.round in rounds ==> v.agentId !in rounds[v.round]
    ensures Legal(c, l, Deliver(SubmitVote(v)))
    ensures var votes := if v.round in rounds then rounds[v.round] else map[];
            var m := Next(c, l, Deliver(SubmitVote(v)));
            Shows(m, rec, rounds[v.round := votes[v.agentId := v]], answers) && m.timers == l.timers
  {
  }

  /** The votes of a round come in. */
  lemma {:induction false} VotesIn(c: Config, me: string, k: Cluster, rec: TaskRecord, rounds: map<int, map<string,
                                   Vote>>,
                                   round: int, yes: set<string>, no: set<string>)
    returns (m: Cluster)
    requires Stands(c, me, k, rec, rounds) && round >= 1 && round !in rounds
    requires yes !! no && yes + no != {} && yes + no <= c.members
    ensures Stands(c, me, m, rec, rounds[round := Ballot(round, yes, no)])
    decreases |yes + no|
  {
    hide Stands;
    var a :| a in yes + no;
    var front, v := Ballot(round, yes - {a}, no - {a}), VoteOn(round, a, a in yes);
    BallotMore(round, yes, no, a);
    if front == map[] {
      m := VoteIn(c, me, k, rec, rounds, v);
    } else {
      m := VotesIn(c, me, k, rec, rounds, round, yes - {a}, no - {a});
      m := VoteIn(c, me, m, rec, rounds[round := front], v);
      assert rounds[round := front][round := front[a := v]] == rounds[round := front[a := v]];
    }
  }

  lemma BallotMore(round: int, yes: set<string>, no: set<string>, a: string)
    requires yes !! no && a in yes + no
    ensures var front := Ballot(round, yes - {a}, no - {a});
            && front[a := VoteOn(round, a, a in yes)] == Ballot(round, yes, no)
            && a !in front && (front == map[] <==> (yes - {a}) + (no - {a}) == {})
    ensures |(yes - {a}) + (no - {a})| < |yes + no|
  {
    assert yes + no == (yes - {a}) + (no - {a}) + {a};
    assert Ballot(round, yes - {a}, no - {a}).Keys == (yes - {a}) + (no - {a});
  }

  lemma VoteIn(c: Config, me: string, k: Cluster, rec: TaskRecord, rounds: map<int, map<string, Vote>>, v: Vote)
    returns (m: Cluster)
    requires Stands(c, me, k, rec, rounds) && v.taskId == "t" && v.agentId in c.members && v.round >= 1
    requires v.round in rounds ==> v.agentId !in rounds[v.round]
    ensures var votes := if v.round in rounds then rounds[v.round] else map[];
            Stands(c, me, m, rec, rounds[v.round := votes[v.agentId := v]])
  {
    hide Reached, Shows, Covered, Next;
    var step := Deliver(SubmitVote(v));
    VoteShows(c, k.leader, rec, rounds, |c.members|, v);
    ReachMore(c, me, k, step);
    m := Move(c, k, step);
  }

  function Finalizing(text: Option<string>, ok: bool): Step {
    OnVote("t", Io(true, text, ok), {})
  }

  /** A revision is published. */
  lemma Revises(c: Config, me: string, k: Cluster, rec: TaskRecord, rounds: map<int, map<string, Vote>>, text: string)
    returns (m: Cluster)
    requires Stands(c, me, k, rec, rounds) && rec.status.Proposal? && rec.proposals != map[] && rec.round < c.maxRounds
    requires rec.round in rounds && |c.members| > 0
    requires var v := VerdictOf(rounds[rec.round], c.target, |c.members|); v.Split? || v.Reject?
    ensures m == Move(c, k, Finalizing(Some(text), true))
    ensures Stands(c, me, m, Revised(rec, text), rounds)
  {
    var l, next := k.leader, Revised(rec, text);
    assert DecisionOf(c, l.twin.live, "t", Some(|c.members|), Some(text)) == Revise(text);
    ReachMore(c, me, k, Finalizing(Some(text), true));
    RevisionShows(l.twin, rec, text);
    m := Move(c, k, Finalizing(Some(text), true));
  }

  lemma RevisionShows(p: Twin, rec: TaskRecord, text: string)
    requires p.live.tasks == map["t" := rec] && rec.id == "t" && rec.proposals != map[]
    ensures var q := ReviseTask(p, "t", text, true).live;
            q.tasks == map["t" := Revised(rec, text)] && q.votes == p.live.votes && q.answers == p.live.answers
  {
    var next := Revised(rec, text);
    var e := Edit(p, "t", rec.(proposals := next.proposals));
    assert e.live.tasks == map["t" := rec.(proposals := next.proposals)];
    assert Commit(e, UpdateTask(next), true).live.tasks == map["t" := next];
  }

  // ---- The round that is forgotten --------------------------------------------------------

  const TWO: Config := Config({"a", "b"}, 3, 2)
  const BOTH: set<string> := {"a", "b"}

  lemma TwoMembers()
    ensures |TWO.members| == 2
    ensures VerdictOf(Ballot(1, BOTH, {}), 3, 2).Split? && VerdictOf(Ballot(2, {"a"}, {"b"}), 3, 2).Split?
    ensures Accepts(Ballot(1, BOTH, {})) == 2 && Accepts(Ballot(2, {"a"}, {"b"})) == 1
  {
    BallotSides(1, BOTH, {});
    BallotSides(2, {"a"}, {"b"});
  }

  /** Two agents, at most two rounds, target three. Both accept the first proposal, which falls
      short of the target; over the second they are split. Now the task fails, although the
      documented fallback exists. */
  lemma SplitDropsTheBestRound()
    ensures exists k: Cluster :: Reached(TWO, "a", k) &&
              var s := k.leader.twin.live;
              && CanFinalize(s, "t", Some(2))
              && DecisionOf(TWO, s, "t", Some(2), None) == Conclude(false, 2, "p2")
              && DocumentedFallback(s.tasks["t"], s.votes["t"], 2) == Conclude(true, 1, "p1")
  {
    hide Stands, Reached, Covered, VerdictOf, Accepts, DecisionOf, DocumentedFallback;
    TwoMembers();
    var one, two := map[1 := "p1"], map[1 := "p1", 2 := "p2"];
    var r1 := map[1 := Ballot(1, BOTH, {})];
    var r2 := r1[2 := Ballot(2, {"a"}, {"b"})];
    var k := Opened(TWO, "a");
    k := VotesIn(TWO, "a", k, At(1, one), map[], 1, BOTH, {});
    assert map[][1 := Ballot(1, BOTH, {})] == r1;
    k := Revises(TWO, "a", k, At(1, one), r1, "p2");
    assert Revised(At(1, one), "p2") == At(2, two);
    k := VotesIn(TWO, "a", k, At(2, two), r1, 2, {"a"}, {"b"});
    Standing(TWO, "a", k, At(2, two), r2);
    Forgotten(k.leader.twin.live, At(2, two), r2);
  }

  lemma Forgotten(s: State, rec: TaskRecord, r2: map<int, map<string, Vote>>)
    requires rec.status.Proposal? && rec.round == 2 && rec.result == "p2"
    requires 1 in rec.proposals && rec.proposals[1] == "p1"
    requires r2.Keys == {1, 2} && r2[1] == Ballot(1, BOTH, {}) && r2[2] == Ballot(2, {"a"}, {"b"})
    requires TaskOf(s, "t") == Some(rec) && "t" in s.votes && s.votes["t"] == r2
    ensures CanFinalize(s, "t", Some(2)) && DecisionOf(TWO, s, "t", Some(2), None) == Conclude(false, 2, "p2")
    ensures DocumentedFallback(s.tasks["t"], s.votes["t"], 2) == Conclude(true, 1, "p1")
  {
    hide Accepts, Rejects;
    TwoMembers();
    BallotSides(2, {"a"}, {"b"});
    assert BestRound(r2, 0, 2) == 0;
    assert BestRound(r2, 1, 2) == 1;
    assert BestRound(r2, 2, 2) == 1;
  }

  // ---- A lost fallback --------------------------------------------------------------------

  const ONE: Config := Config({"a"}, 3, 2)
  ghost const R1: map<int, map<string, Vote>> := map[1 := Ballot(1, {"a"}, {})]
  ghost const R2: map<int, map<string, Vote>> := R1[2 := Ballot(2, {}, {"a"})]

  lemma OneMember()
    ensures |ONE.members| == 1
    ensures VerdictOf(R1[1], 3, 1).Split? && VerdictOf(R2[1], 3, 1).Split? && VerdictOf(R2[2], 3, 1).Reject?
    ensures BestRound(R2, 2, 1) == 1
  {
    BallotSides(1, {"a"}, {});
    BallotSides(2, {}, {"a"});
    assert BestRound(R2, 0, 1) == 0;
    assert BestRound(R2, 1, 1) == 1;
  }

  /** The entry of the fallback to round 1 is lost, and the live task stays there. */
  lemma LosesFallback(k: Cluster, two: map<int, string>) returns (m: Cluster)
    requires 1 in two && 2 in two && Stands(ONE, "a", k, At(2, two), R2)
    ensures Stands(ONE, "a", m, At(1, two), R2)
  {
    hide Reached, Covered, Accepts, Rejects;
    OneMember();
    var step := Finalizing(None, false);
    assert DecisionOf(ONE, k.leader.twin.live, "t", Some(1), None) == Conclude(true, 1, two[1]);
    LostShows(k.leader, two);
    ReachMore(ONE, "a", k, step);
    m := Move(ONE, k, step);
  }

  lemma LostShows(l: Leader, two: map<int, string>)
    requires 1 in two && 2 in two && Shows(l, At(2, two), R2, 1)
    requires CanFinalize(l.twin.live, "t", Some(1)) && |ONE.members| == 1
    requires DecisionOf(ONE, l.twin.live, "t", Some(1), None) == Conclude(true, 1, two[1])
    ensures var m := Next(ONE, l, Finalizing(None, false)); Shows(m, At(1, two), R2, 1) && m.timers == l.timers
  {
    hide Accepts, Rejects, DecisionOf;
    var m := Next(ONE, l, Finalizing(None, false));
    assert m.twin.live.tasks == l.twin.live.tasks["t" := At(1, two)] == map["t" := At(1, two)];
  }

  /** One agent, at most two rounds, target three. The first proposal is accepted but short of the
      target, the second is rejected, and the fallback to the first is lost. The next finalization
      rewrites the proposal of round 2, on which a vote is already filed. */
  lemma LostFallbackIsReachable()
    ensures exists k: Cluster ::
              && Stands(ONE, "a", k, At(1, map[1 := "p1", 2 := "p2"]), R2)
              && Stands(ONE, "a", Move(ONE, k, Finalizing(Some("p3"), true)), At(2, map[1 := "p1", 2 := "p3"]), R2)
  {
    hide Stands, VerdictOf;
    OneMember();
    var one, two := map[1 := "p1"], map[1 := "p1", 2 := "p2"];
    var k := Opened(ONE, "a");
    k := VotesIn(ONE, "a", k, At(1, one), map[], 1, {"a"}, {});
    assert map[][1 := Ballot(1, {"a"}, {})] == R1;
    k := Revises(ONE, "a", k, At(1, one), R1, "p2");
    assert Revised(At(1, one), "p2") == At(2, two);
    k := VotesIn(ONE, "a", k, At(2, two), R1, 2, {}, {"a"});
    k := LosesFallback(k, two);
    var m := Revises(ONE, "a", k, At(1, two), R2, "p3");
    assert Revised(At(1, two), "p3") == At(2, map[1 := "p1", 2 := "p3"]);
  }

  // ---- Done, then failed ------------------------------------------------------------------

  /** In every cluster whose target is within its size, a run makes a task done and another step or
      two fail it, without a new admission. */
  lemma DoneCanFail(c: Config, me: string)
    requires c.members != {} && c.target <= |c.members|
    ensures exists k: Cluster, steps ::
              && Reached(c, me, k) && IsDone(k.leader.twin.live, "t")
              && Run(c, k, steps) && NoRestart(steps, "t") && TaskFailed(After(c, k, steps).leader.twin.live, "t")
  {
    assert |c.members| > 0;
    hide Stands, Reached, Covered, Agree;
    var one := map[1 := "p1"];
    var k := Opened(c, me);
    k := VotesIn(c, me, k, At(1, one), map[], 1, c.members, {});
    BallotSides(1, c.members, {});
    assert map[][1 := Ballot(1, c.members, {})][1] == Ballot(1, c.members, {});
    k := Accepted(c, me, k, map[][1 := Ballot(1, c.members, {})]);
    ReachedAgrees(c, me, k);
    var steps := CoveredFails(c, k, "t");
  }

  /** The first proposal reaches the target. */
  lemma Accepted(c: Config, me: string, k: Cluster, rounds: map<int, map<string, Vote>>) returns (m: Cluster)
    requires Stands(c, me, k, At(1, map[1 := "p1"]), rounds) && |c.members| > 0
    requires 1 in rounds && VerdictOf(rounds[1], c.target, |c.members|).Accept?
    ensures Reached(c, me, m) && IsDone(m.leader.twin.live, "t") && Covered(m.leader.timers, "t")
  {
    hide Stands, Reached, Covered, CloseTask;
    var step := Finalizing(None, true);
    Standing(c, me, k, At(1, map[1 := "p1"]), rounds);
    assert DecisionOf(c, k.leader.twin.live, "t", Some(|c.members|), None) == Conclude(true, 1, "p1");
    ReachedAgrees(c, me, k);
    ReachMore(c, me, k, step);
    Closes(k.leader.me, k.leader.twin, "t", true, 1, "p1", {});
    m := Move(c, k, step);
  }

  lemma ReachedAgrees(c: Config, me: string, k: Cluster)
    requires Reached(c, me, k)
    ensures AllAgree(k)
  {
    var steps :| Run(c, Initial(c, me), steps) && After(c, Initial(c, me), steps) == k;
    NodesAlwaysAgree(c, me, steps);
  }

  // ---- A restored leader ------------------------------------------------------------------

  const PAIR: Config := Config({"a", "b"}, 2, 2)
  const AGAIN: seq<Command> := [SubmitVote(VoteOn(1, "a", true)), SubmitVote(VoteOn(1, "b", true))]

  /** Two agents. One has rejected the proposal when the other is restored from a snapshot. Both then
      vote in favour, the first one for the second time. The restored one, if it leads, completes the
      task, while the full replica holds one accept and no quorum. */
  lemma RestoredLeaderCanErr()
    ensures exists k: Cluster :: Reached(PAIR, "a", k) &&
              var s := k.leader.twin.live;
              var live := Replay(Restored(s, false), AGAIN);
              && TaskOf(s, "t") == Some(At(1, map[1 := "p1"])) && VotesOf(s, "t", 1) == Ballot(1, {}, {"a"})
              && CanFinalize(live, "t", Some(2))
              && DecisionOf(PAIR, live, "t", Some(2), None) == Conclude(true, 1, "p1")
              && Accepts(FullVotes(s, AGAIN, "t", 1)) < Quorum(2)
  {
    hide Stands, Reached, Covered;
    assert PAIR.members == {"a", "b"} && |PAIR.members| == 2;
    var one := map[1 := "p1"];
    var k := Opened(PAIR, "a");
    k := VotesIn(PAIR, "a", k, At(1, one), map[], 1, {}, {"a"});
    Standing(PAIR, "a", k, At(1, one), map[][1 := Ballot(1, {}, {"a"})]);
    VotesAgain(k.leader.twin.live);
  }

  lemma VotesAgain(s: State)
    requires TaskOf(s, "t") == Some(At(1, map[1 := "p1"])) && VotesOf(s, "t", 1) == Ballot(1, {}, {"a"})
    ensures var live := Replay(Restored(s, false), AGAIN);
            && CanFinalize(live, "t", Some(2))
            && DecisionOf(PAIR, live, "t", Some(2), None) == Conclude(true, 1, "p1")
            && Accepts(FullVotes(s, AGAIN, "t", 1)) < Quorum(2)
  {
    hide Accepts, Rejects, Decide, Replay;
    var r := Restored(s, false);
    var live := Replay(r, AGAIN);
    AfterAgain(r);
    assert TaskOf(r, "t") == TaskOf(s, "t");
    Unanimous(live);
    RestoredVotes(s, AGAIN, false, "t", 1);
    assert LateVotes(s, AGAIN, false, "t", 1) == Ballot(1, {"a", "b"}, {});
    OneNewAccept();
  }

  lemma OneNewAccept()
    ensures Accepts(Ballot(1, {}, {"a"})) == 0
    ensures |Side(Ballot(1, {"a", "b"}, {}), true) - Ballot(1, {}, {"a"}).Keys| == 1
  {
    BallotSides(1, {}, {"a"});
    BallotSides(1, {"a", "b"}, {});
    assert Side(Ballot(1, {"a", "b"}, {}), true) - Ballot(1, {}, {"a"}).Keys == {"b"};
  }

  lemma Unanimous(live: State)
    requires TaskOf(live, "t") == Some(At(1, map[1 := "p1"]))
    requires "t" in live.votes && live.votes["t"] == map[1 := Ballot(1, {"a", "b"}, {})]
    ensures CanFinalize(live, "t", Some(2)) && DecisionOf(PAIR, live, "t", Some(2), None) == Conclude(true, 1, "p1")
  {
    BallotSides(1, {"a", "b"}, {});
  }

  lemma AfterAgain(r: State)
    requires r.votes == map[]
    ensures var s := Replay(r, AGAIN);
            s.tasks == r.tasks && "t" in s.votes && s.votes["t"] == map[1 := Ballot(1, {"a", "b"}, {})]
  {
    hide Apply;
    assert AGAIN == [AGAIN[0]] + [AGAIN[1]] && [AGAIN[0]] == [] + [AGAIN[0]];
    ReplaySnoc(r, [AGAIN[0]], AGAIN[1]);
    ReplaySnoc(r, [], AGAIN[0]);
    BothAccept(r);
    VoteApplies(r, AGAIN[0].vote);
    VoteApplies(RecordVote(r, AGAIN[0].vote), AGAIN[1].vote);
  }

  lemma VoteApplies(s: State, v: Vote)
    ensures Apply(s, SubmitVote(v)) == RecordVote(s, v)
  {
  }

  lemma BothAccept(r: State)
    requires r.votes == map[]
    ensures var s := RecordVote(RecordVote(r, VoteOn(1, "a", true)), VoteOn(1, "b", true));
            s.tasks == r.tasks && "t" in s.votes && s.votes["t"] == map[1 := Ballot(1, {"a", "b"}, {})]
  {
    var s := RecordVote(RecordVote(r, VoteOn(1, "a", true)), VoteOn(1, "b", true));
    assert s.votes["t"][1] == Ballot(1, {"a", "b"}, {});
  }
}
