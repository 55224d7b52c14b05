/** Reputation arithmetic: the clamped walk, the confidence score, and the choice of the agent
    that leadership is handed to. */
module Reputation {
  import opened Core
  import opened Replica
  import opened Voting

  function Clamp(rep: int): int {
    Min(Max(rep, 0), 100)
  }

  ghost predicate RepsInRange(s: State) {
    forall a :: a in s.reps ==> 0 <= s.reps[a] <= 100
  }

  // ---- A walk over many finalizations -----------------------------------------------------

  function Walk(rep: int, deltas: seq<int>): int {
    if deltas == [] then rep
    else Clamp(Walk(rep, deltas[..|deltas| - 1]) + deltas[|deltas| - 1])
  }

  /** Two agents that receive the same changes keep their order, never move further apart, and
      stay in range. */
  lemma {:induction false} WalkKeepsOrder(low: int, high: int, deltas: seq<int>)
    requires 0 <= low <= high <= 100
    ensures 0 <= Walk(low, deltas) <= Walk(high, deltas) <= 100
    ensures Walk(high, deltas) - Walk(low, deltas) <= high - low
  {
    if deltas != [] {
      WalkKeepsOrder(low, high, deltas[..|deltas| - 1]);
    }
  }

  // ---- One finalization -------------------------------------------------------------------

  /** The leader gains or loses 10, every other counted voter 1. */
  function Delta(me: string, done: bool, votes: map<string, Vote>, agent: string): int {
    if agent == me then (if done then 10 else -10)
    else if agent in votes && votes[agent].accepted == done then 1
    else -1
  }

  /** The agents whose reputation a finalization rewrites: the leader and the voters, without those
      whose update was lost on the way to the log. */
  function Rewarded(me: string, votes: map<string, Vote>, lost: set<string>): set<string> {
    ({me} + votes.Keys) - lost
  }

  ghost function NewReps(s: State, me: string, done: bool, votes: map<string, Vote>, agents: set<string>)
    : map<string, int>
  {
    MapOf(agents, a => Clamp(RepOf(s, a) + Delta(me, done, votes, a)))
  }

  function RepKeys(agents: set<string>): set<string> {
    set a | a in agents :: Key(REPUTATION_PREFIX, a)
  }

  lemma RepKeysAdd(agents: set<string>, agent: string)
    requires agent !in agents
    ensures RepKeys(agents + {agent}) == RepKeys(agents) + {Key(REPUTATION_PREFIX, agent)}
    ensures Key(REPUTATION_PREFIX, agent) !in RepKeys(agents)
  {
    if Key(REPUTATION_PREFIX, agent) in RepKeys(agents) {
      var a :| a in agents && Key(REPUTATION_PREFIX, a) == Key(REPUTATION_PREFIX, agent);
      KeyInjective(REPUTATION_PREFIX, a, agent);
    }
  }

  ghost function BumpAll(s: State, keys: set<string>): map<string, nat> {
    s.versions + MapOf(keys, k => VersionOf(s, k) + 1)
  }

  /** State `s` after one reputation update for each agent in `reps`, in any order. */
  ghost function WithReps(s: State, reps: map<string, int>): State {
    s.(reps := s.reps + reps, versions := BumpAll(s, RepKeys(reps.Keys)))
  }

  lemma BumpAllStep(s: State, keys: set<string>, key: string)
    requires key !in keys
    ensures BumpAll(s, keys + {key}) == BumpAll(s, keys)[key := VersionOf(s, key) + 1]
    ensures forall reps :: VersionOf(s.(reps := reps, versions := BumpAll(s, keys)), key) == VersionOf(s, key)
  {
  }

  lemma OverlayStep(m: map<string, int>, n: map<string, int>, k: string, v: int)
    ensures m + n[k := v] == (m + n)[k := v]
  {
  }

  /** One more update, for an agent that has had none, is one more `UpdateReputation` entry. */
  lemma WithRepsStep(s: State, reps: map<string, int>, agent: string, rep: int)
    requires agent !in reps
    ensures WithReps(s, reps[agent := rep]) == Apply(WithReps(s, reps), UpdateReputation(agent, rep))
  {
    hide BumpAll, RepKeys;
    var key, keys := Key(REPUTATION_PREFIX, agent), RepKeys(reps.Keys);
    RepKeysAdd(reps.Keys, agent);
    assert reps[agent := rep].Keys == reps.Keys + {agent};
    OverlayStep(s.reps, reps, agent, rep);
    BumpAllStep(s, keys, key);
    var w := WithReps(s, reps);
    assert Apply(w, UpdateReputation(agent, rep)) == Bump(w.(reps := w.reps[agent := rep]), key);
  }

  lemma WithRepsLeavesOthers(s: State, reps: map<string, int>, agent: string)
    requires agent !in reps
    ensures RepOf(WithReps(s, reps), agent) == RepOf(s, agent)
  {
  }

  lemma NewRepsKeys(s: State, me: string, done: bool, votes: map<string, Vote>, agents: set<string>)
    ensures NewReps(s, me, done, votes, agents).Keys == agents
  {
  }

  lemma NewRepsAdd(s: State, me: string, done: bool, votes: map<string, Vote>, agents: set<string>, agent: string)
    ensures NewReps(s, me, done, votes, agents + {agent}) ==
            NewReps(s, me, done, votes, agents)[agent := Clamp(RepOf(s, agent) + Delta(me, done, votes, agent))]
  {
  }

  lemma WithNoReps(s: State)
    ensures WithReps(s, map[]) == s
  {
    assert s.reps + map[] == s.reps;
    assert s.versions + map[] == s.versions;
  }

  /** What an outcome makes of the reputation of `a`: success raises the leader by 10 and failure lowers
      it; a voter gains 1 if it sided with the outcome and loses 1 if not; all within 0 to 100. Whose
      update was lost, and who neither led nor voted, keeps its record. */
  ghost predicate FollowsOutcome(before: State, after: State, me: string, done: bool, votes: map<string, Vote>,
                                 lost: set<string>, a: string)
  {
    var was, now := RepOf(before, a), RepOf(after, a);
    if a in lost || (a != me && a !in votes) then now == was && (a in after.reps <==> a in before.reps)
    else if a == me then now == if done then Min(100, was + 10) else Max(0, was - 10)
    else now == if votes[a].accepted == done then Min(100, was + 1) else Max(0, was - 1)
  }

  lemma PaymentsSettle(s: State, me: string, done: bool, votes: map<string, Vote>, lost: set<string>, a: string)
    requires RepsInRange(s)
    ensures var t := WithReps(s, NewReps(s, me, done, votes, Rewarded(me, votes, lost)));
            FollowsOutcome(s, t, me, done, votes, lost, a)
  {
    hide BumpAll, RepKeys;
    assert 0 <= RepOf(s, a) <= 100;
  }

  // ---- Confidence -------------------------------------------------------------------------

  /** The reputation of a set of agents, added up in any order. */
  ghost function SumReps(s: State, agents: set<string>): int {
    if agents == {} then 0
    else
      var a :| a in agents;
      RepOf(s, a) + SumReps(s, agents - {a})
  }

  lemma {:induction false} SumRepsRemove(s: State, agents: set<string>, a: string)
    requires a in agents
    ensures SumReps(s, agents) == RepOf(s, a) + SumReps(s, agents - {a})
    decreases |agents|
  {
    var b :| b in agents && SumReps(s, agents) == RepOf(s, b) + SumReps(s, agents - {b});
    if a != b {
      SumRepsRemove(s, agents - {b}, a);
      SumRepsRemove(s, agents - {a}, b);
      assert agents - {a} - {b} == agents - {b} - {a};
    }
  }

  lemma {:induction false} SumRepsUnion(s: State, a: set<string>, b: set<string>)
    requires a !! b
    ensures SumReps(s, a + b) == SumReps(s, a) + SumReps(s, b)
    decreases |a|
  {
    if a == {} {
      assert a + b == b;
    } else {
      var x :| x in a;
      SumRepsRemove(s, a, x);
      SumRepsRemove(s, a + b, x);
      assert a + b - {x} == (a - {x}) + b;
      SumRepsUnion(s, a - {x}, b);
    }
  }

  lemma {:induction false} SumRepsNonNegative(s: State, agents: set<string>)
    requires RepsInRange(s)
    ensures SumReps(s, agents) >= 0
    decreases |agents|
  {
    if agents != {} {
      var a :| a in agents;
      SumRepsRemove(s, agents, a);
      SumRepsNonNegative(s, agents - {a});
    }
  }

  /** The share of the voters' reputation that agreed with the outcome, as an exact ratio. */
  ghost function Confidence(s: State, votes: map<string, Vote>, done: bool): real {
    var total := SumReps(s, votes.Keys);
    if total > 0 then SumReps(s, Side(votes, done)) as real / total as real else 0.0
  }

  lemma FractionBounds(part: real, total: real)
    requires 0.0 <= part <= total && total > 0.0
    ensures 0.0 <= part / total <= 1.0
  {
  }

  lemma FractionsAddUp(a: real, b: real, total: real)
    requires a + b == total && total > 0.0
    ensures a / total + b / total == 1.0
  {
    assert a / total + b / total == (a + b) / total;
  }

  /** The score is a true fraction, and the scores of the two outcomes are complementary. */
  lemma ConfidenceIsAFraction(s: State, votes: map<string, Vote>)
    requires RepsInRange(s)
    ensures forall done :: 0.0 <= Confidence(s, votes, done) <= 1.0
    ensures SumReps(s, votes.Keys) > 0 ==> Confidence(s, votes, true) + Confidence(s, votes, false) == 1.0
  {
    var total, yes, no := SumReps(s, votes.Keys), SumReps(s, Side(votes, true)), SumReps(s, Side(votes, false));
    assert Side(votes, true) + Side(votes, false) == votes.Keys;
    SumRepsUnion(s, Side(votes, true), Side(votes, false));
    SumRepsNonNegative(s, Side(votes, true));
    SumRepsNonNegative(s, Side(votes, false));
    if total > 0 {
      FractionBounds(yes as real, total as real);
      FractionBounds(no as real, total as real);
      FractionsAddUp(yes as real, no as real, total as real);
      assert Confidence(s, votes, true) == yes as real / total as real;
      assert Confidence(s, votes, false) == no as real / total as real;
      forall done ensures 0.0 <= Confidence(s, votes, done) <= 1.0 {
        if done { } else { }
      }
    }
  }

  lemma SumRepsEmpty(s: State)
    ensures SumReps(s, {}) == 0
  {
  }

  /** If all voters are on one side and have any reputation, the score is 1 for the outcome on that side
      and 0 for the other. */
  lemma UnanimousConfidence(s: State, votes: map<string, Vote>, done: bool)
    requires SumReps(s, votes.Keys) > 0 && forall a :: a in votes ==> votes[a].accepted == done
    ensures Confidence(s, votes, done) == 1.0 && Confidence(s, votes, !done) == 0.0
  {
    assert Side(votes, done) == votes.Keys && Side(votes, !done) == {};
    SumRepsEmpty(s);
    Whole(SumReps(s, votes.Keys) as real);
  }

  lemma Whole(t: real)
    requires t > 0.0
    ensures t / t == 1.0 && 0.0 / t == 0.0
  {
    Divide(t, 1.0, t);
    Divide(0.0, 0.0, t);
  }

  lemma FractionGrows(a: real, t: real, r: real)
    requires 0.0 <= a <= t && t > 0.0 && r >= 0.0
    ensures a / (t + r) <= a / t <= (a + r) / (t + r)
  {
    FractionBounds(a, t);
    Quotient(a, t);
    Share(a / t, a, t, r);
    Divide(a, a / t, t + r);
    Divide(a + r, a / t, t + r);
  }

  lemma Quotient(a: real, t: real)
    requires t > 0.0
    ensures a / t * t == a
  {
  }

  lemma Share(x: real, a: real, t: real, r: real)
    requires 0.0 <= x <= 1.0 && r >= 0.0 && x * t == a
    ensures a <= x * (t + r) <= a + r
  {
    Part(x, r);
    assert x * (t + r) == x * t + x * r;
  }

  lemma Part(x: real, r: real)
    requires 0.0 <= x <= 1.0 && r >= 0.0
    ensures 0.0 <= x * r <= r
  {
  }

  lemma Divide(a: real, x: real, t: real)
    requires t > 0.0
    ensures a <= x * t ==> a / t <= x
    ensures x * t <= a ==> x <= a / t
  {
    Quotient(a, t);
    Order(a / t, x, t);
    Order(x, a / t, t);
  }

  lemma Order(x: real, y: real, t: real)
    requires t > 0.0
    ensures x < y ==> x * t < y * t
  {
  }

  /** One more voter on the side of the outcome never lowers the score, one on the other side never
      raises it. */
  lemma ConfidenceFollowsTheVoters(s: State, votes: map<string, Vote>, done: bool, agent: string, v: Vote)
    requires RepsInRange(s) && agent !in votes
    ensures v.accepted == done ==> Confidence(s, votes, done) <= Confidence(s, votes[agent := v], done)
    ensures v.accepted != done ==> Confidence(s, votes[agent := v], done) <= Confidence(s, votes, done)
  {
    var more := votes[agent := v];
    ConfidenceIsAFraction(s, votes);
    ConfidenceIsAFraction(s, more);
    assert more.Keys - {agent} == votes.Keys;
    SumRepsRemove(s, more.Keys, agent);
    var r := RepOf(s, agent);
    assert r >= 0;
    if v.accepted == done {
      assert Side(more, done) - {agent} == Side(votes, done);
      SumRepsRemove(s, Side(more, done), agent);
    } else {
      assert Side(more, done) == Side(votes, done);
    }
    var total, agreeing := SumReps(s, votes.Keys), SumReps(s, Side(votes, done));
    if total > 0 {
      PartOfWhole(s, votes, done);
      FractionGrows(agreeing as real, total as real, r as real);
    } else {
      SumRepsNonNegative(s, votes.Keys);
      PartOfWhole(s, votes, done);
      assert Confidence(s, votes, done) == 0.0 && agreeing == 0;
    }
  }

  lemma PartOfWhole(s: State, votes: map<string, Vote>, done: bool)
    requires RepsInRange(s)
    ensures 0 <= SumReps(s, Side(votes, done)) <= SumReps(s, votes.Keys)
  {
    assert Side(votes, done) + Side(votes, !done) == votes.Keys;
    SumRepsUnion(s, Side(votes, done), Side(votes, !done));
    SumRepsNonNegative(s, Side(votes, done));
    SumRepsNonNegative(s, Side(votes, !done));
  }

  lemma {:induction false} SumRepsSame(s: State, t: State, agents: set<string>)
    requires s.reps == t.reps
    ensures SumReps(s, agents) == SumReps(t, agents)
    decreases |agents|
  {
    if agents != {} {
      var a :| a in agents;
      SumRepsRemove(s, agents, a);
      SumRepsRemove(t, agents, a);
      SumRepsSame(s, t, agents - {a});
    }
  }

  lemma ConfidenceDependsOnReps(s: State, t: State, votes: map<string, Vote>, done: bool)
    requires s.reps == t.reps
    ensures Confidence(s, votes, done) == Confidence(t, votes, done)
  {
    SumRepsSame(s, t, votes.Keys);
    SumRepsSame(s, t, Side(votes, done));
  }

  lemma UpdateTaskKeepsReps(s: State, rec: TaskRecord)
    ensures Apply(s, UpdateTask(rec)).reps == s.reps
  {
  }

  lemma NewRepsDependsOnReps(s: State, t: State, me: string, done: bool, votes: map<string, Vote>, agents: set<string>)
    requires s.reps == t.reps
    ensures NewReps(s, me, done, votes, agents) == NewReps(t, me, done, votes, agents)
  {
  }

  // ---- Leadership transfer ----------------------------------------------------------------

  /** What the check after a finalization may hand leadership to: nobody if no record beats the
      leader, otherwise an agent with a maximal record. */
  ghost predicate IsTransferTarget(s: State, me: string, target: Option<string>) {
    match target
    case None => forall a :: a in s.reps ==> s.reps[a] <= RepOf(s, me)
    case Some(t) => t in s.reps && s.reps[t] > RepOf(s, me) && forall a :: a in s.reps ==> s.reps[a] <= s.reps[t]
  }

  /** Repeating the check at the target, with the same reputations, transfers nowhere. */
  lemma TransferSettles(s: State, me: string, target: string, next: Option<string>)
    requires IsTransferTarget(s, me, Some(target))
    requires IsTransferTarget(s, target, next)
    ensures target != me && next == None
  {
    assert RepOf(s, target) == s.reps[target];
  }
}
