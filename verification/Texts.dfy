/** What the votes were about. A vote names a round, not a text, and after a lost fallback a round
    may be put to the vote again with another text. Still the result of a task that is done is the
    one text that was ever put to the vote for its round, on every node and over every run. */
module Texts {
  import opened Core
  import opened Replica
  import opened ReplicaLaws
  import opened Voting
  import opened Reputation
  import opened Protocol
  import opened Safety
  import opened Progress
  import opened Past

  // ---- What is put to the vote ------------------------------------------------------------

  datatype Text = Text(task: string, round: int, text: string)

  ghost function Opening(s: State, id: string, force: bool, servers: Option<nat>, io: Io): set<Text>
    requires id in s.tasks
  {
    if ProposalGate(s, id, force, servers).Go? && io.llm.Some? && io.ok then {Text(id, 1, io.llm.value)} else {}
  }

  ghost function Revising(c: Config, s: State, id: string, io: Io): set<Text> {
    if CanFinalize(s, id, Servers(c, io)) && io.ok && DecisionOf(c, s, id, Servers(c, io), io.llm).Revise?
    then {Text(id, s.tasks[id].round + 1, DecisionOf(c, s, id, Servers(c, io), io.llm).text)} else {}
  }

  /** The text that the entry of a step puts to the vote, if it does. */
  ghost function Published(c: Config, l: Leader, step: Step): set<Text>
    requires Legal(c, l, step)
  {
    var s := l.twin.live;
    match step
    case OnAnswer(id, io) => if id in s.tasks then Opening(s, id, false, Servers(c, io), io) else {}
    case OnVote(id, io, _) => Revising(c, s, id, io)
    case OnTimeout(io) =>
      var id := l.timers.queue[0];
      if RemedyFor(s, id, true, Servers(c, io)).ForceProposal? then Opening(s, id, true, Servers(c, io), io) else {}
    case _ => {}
  }

  /** What has been put to the vote after one more step. */
  ghost function Shown(c: Config, k: Cluster, step: Step, shown: set<Text>): set<Text>
    requires Enabled(c, k, step)
  {
    if LeaderActs(step) then shown + Published(c, k.leader, step) else shown
  }

  ghost function ShownAfter(c: Config, k: Cluster, steps: seq<Step>, shown: set<Text>): set<Text>
    requires Run(c, k, steps)
    decreases |steps|
  {
    if steps == [] then shown else ShownAfter(c, Move(c, k, steps[0]), steps[1..], Shown(c, k, steps[0], shown))
  }

  /** Votes are on rounds for which a text has been put to the vote. */
  ghost predicate Informed(step: Step, shown: set<Text>) {
    step.Deliver? && step.cmd.SubmitVote? ==> IsShown(shown, step.cmd.vote.taskId, step.cmd.vote.round)
  }

  ghost predicate IsShown(shown: set<Text>, id: string, round: int) {
    exists x :: x in shown && x.task == id && x.round == round
  }

  ghost predicate AllInformed(c: Config, k: Cluster, steps: seq<Step>, shown: set<Text>)
    requires Run(c, k, steps)
    decreases |steps|
  {
    steps == [] ||
    (Informed(steps[0], shown) && AllInformed(c, Move(c, k, steps[0]), steps[1..], Shown(c, k, steps[0], shown)))
  }

  // ---- Dead rounds ------------------------------------------------------------------------

  /** A round in which nothing can be won any more: it is closed, rejected if it is the last one, and
      an earlier round has more accepts if it has a quorum of them. */
  ghost predicate Dead(c: Config, rounds: map<int, map<string, Vote>>, q: int) {
    && q in rounds && Closed(c, rounds[q])
    && (q >= c.maxRounds ==> Rejects(rounds[q]) >= Quorum(|c.members|))
    && (Accepts(rounds[q]) >= Quorum(|c.members|) ==> Beaten(rounds, q))
  }

  ghost predicate Beaten(rounds: map<int, map<string, Vote>>, q: int)
    requires q in rounds
  {
    exists b :: 1 <= b < q && b in rounds && Accepts(rounds[b]) > Accepts(rounds[q])
  }

  lemma DeadLater(c: Config, rounds: map<int, map<string, Vote>>, later: map<int, map<string, Vote>>, q: int)
    requires Dead(c, rounds, q) && RoundsExtend(later, rounds) && RoundsOk(c, later)
    ensures Dead(c, later, q)
  {
    hide Accepts, Rejects;
    ClosedLater(c, rounds[q], later[q]);
    CountsGrow(rounds[q], later[q]);
    VotersBound(later[q], c.members);
    if Accepts(later[q]) >= Quorum(|c.members|) {
      assert rounds[q] == later[q];
      var b :| 1 <= b < q && b in rounds && Accepts(rounds[b]) > Accepts(rounds[q]);
      CountsGrow(rounds[b], later[b]);
    }
  }

  /** No way to succeed leads to a dead round. */
  lemma DeadIsNeverDone(c: Config, rec: TaskRecord, rounds: map<int, map<string, Vote>>, revised: Option<string>)
    requires RoundsOk(c, rounds)
    ensures var d := Decide(c, rec, rounds, |c.members|, revised);
            d.Conclude? && d.done && d.round >= 1 ==> !Dead(c, rounds, d.round)
  {
    hide Accepts, Rejects;
    var d, n := Decide(c, rec, rounds, |c.members|, revised), |c.members|;
    BestRoundIsBest(rounds, rec.round, Quorum(n));
    if d.Conclude? && d.done && d.round in rounds {
      VotersBound(rounds[d.round], c.members);
      BestIsUnbeaten(rounds, rec.round, Quorum(n), d.round);
    }
  }

  lemma BestIsUnbeaten(rounds: map<int, map<string, Vote>>, last: int, quorum: nat, q: int)
    requires q in rounds
    ensures IsBestRound(rounds, last, quorum, q) ==> !Beaten(rounds, q)
  {
    forall b | 1 <= b < q && b in rounds && Accepts(rounds[b]) > Accepts(rounds[q])
      ensures !IsBestRound(rounds, last, quorum, q)
    {
      assert Eligible(rounds, q, quorum) ==> Eligible(rounds, b, quorum);
    }
  }

  // ---- The invariant ----------------------------------------------------------------------

  /** Every text put to the vote is the one recorded for its round, up to the round of the task, or
      its round is dead. */
  ghost predicate TextOk(c: Config, rec: TaskRecord, rounds: map<int, map<string, Vote>>, shown: set<Text>) {
    match rec.status
    case Admitted => forall x :: x in shown ==> x.task != rec.id
    case Proposal =>
      forall x :: x in shown && x.task == rec.id ==>
        Dead(c, rounds, x.round) || (x.round <= rec.round && RecordedAs(rec, x))
    case Done => forall x :: x in shown && x.task == rec.id && x.round == rec.round ==> x.text == rec.result
    case _ => true
  }

  ghost predicate RecordedAs(rec: TaskRecord, x: Text) {
    x.round in rec.proposals && rec.proposals[x.round] == x.text
  }

  ghost predicate TextsOk(c: Config, s: State, shown: set<Text>) {
    && (forall id :: id in s.tasks ==> TextOk(c, s.tasks[id], RoundsOf(s, id), shown))
    && (forall x :: x in shown ==> x.task in s.tasks)
    && (forall id, q, a :: id in s.votes && q in s.votes[id] && a in s.votes[id][q] ==> IsShown(shown, id, q))
  }

  lemma TextLater(c: Config, rec: TaskRecord, rounds: map<int, map<string, Vote>>, later: map<int, map<string, Vote>>,
                  shown: set<Text>)
    requires TextOk(c, rec, rounds, shown) && RoundsExtend(later, rounds) && RoundsOk(c, later)
    ensures TextOk(c, rec, later, shown)
  {
    hide Dead, Closed;
    if rec.status.Proposal? {
      forall x | x in shown && x.task == rec.id
        ensures Dead(c, later, x.round) || (x.round <= rec.round && RecordedAs(rec, x))
      {
        if Dead(c, rounds, x.round) { DeadLater(c, rounds, later, x.round); }
      }
    }
  }

  /** Texts about one task leave the others alone. */
  lemma TextOfOthers(c: Config, rec: TaskRecord, rounds: map<int, map<string, Vote>>, shown: set<Text>, more: set<Text>)
    requires TextOk(c, rec, rounds, shown) && forall x :: x in more ==> x.task != rec.id
    ensures TextOk(c, rec, rounds, shown + more)
  {
  }

  // ---- Single entries ---------------------------------------------------------------------

  lemma UpdateKeepsTexts(c: Config, s: State, rec: TaskRecord, shown: set<Text>, more: set<Text>)
    requires TextsOk(c, s, shown) && TasksOk(c, s) && rec.id in s.tasks
    requires forall x :: x in more ==> x.task == rec.id
    requires TextOk(c, rec, RoundsOf(s, rec.id), shown + more)
    ensures TextsOk(c, Apply(s, UpdateTask(rec)), shown + more)
  {
    hide Dead, Closed, TaskOk;
    var t := Apply(s, UpdateTask(rec));
    assert t.votes == s.votes && t.tasks == s.tasks[rec.id := Updated(s.tasks[rec.id], rec)];
    forall i | i in t.tasks ensures TextOk(c, t.tasks[i], RoundsOf(t, i), shown + more) {
      assert RoundsOf(t, i) == RoundsOf(s, i);
      if i != rec.id {
        TextOfOthers(c, s.tasks[i], RoundsOf(s, i), shown, more);
      } else {
        SameProgress(c, s.tasks[i], rec, RoundsOf(s, i), shown + more);
      }
    }
    MoreShown(s, shown, more);
  }

  lemma SameProgress(c: Config, was: TaskRecord, rec: TaskRecord, rounds: map<int, map<string, Vote>>, shown: set<Text>)
    requires was.id == rec.id && TextOk(c, rec, rounds, shown)
    ensures TextOk(c, Updated(was, rec), rounds, shown)
  {
    hide Dead, Closed;
    assert forall x :: RecordedAs(rec, x) == RecordedAs(Updated(was, rec), x);
  }

  lemma MoreShown(s: State, shown: set<Text>, more: set<Text>)
    ensures forall id, q :: IsShown(shown, id, q) ==> IsShown(shown + more, id, q)
  {
    forall id, q | IsShown(shown, id, q) ensures IsShown(shown + more, id, q) {
      var x :| x in shown && x.task == id && x.round == q;
      assert x in shown + more;
    }
  }

  lemma EditKeepsTexts(c: Config, p: Twin, id: string, rec: TaskRecord, shown: set<Text>)
    requires TextsOk(c, p.live, shown) && id in p.live.tasks && TextOk(c, rec, RoundsOf(p.live, id), shown)
    ensures TextsOk(c, Edit(p, id, rec).live, shown)
  {
    hide Dead, Closed, TextOk;
    var t := Edit(p, id, rec).live;
    assert t.votes == p.live.votes && t.tasks == p.live.tasks[id := rec];
    assert forall i :: RoundsOf(t, i) == RoundsOf(p.live, i);
  }

  lemma DeliverKeepsTexts(c: Config, s: State, cmd: Command, shown: set<Text>)
    requires TextsOk(c, s, shown) && VotesOk(c, s) && TasksOk(c, s) && Informed(Deliver(cmd), shown)
    requires !cmd.UpdateTask? && (cmd.AdmitTask? ==> cmd.task.id !in s.tasks && cmd.task.status.Admitted?)
    requires cmd.SubmitVote? ==> cmd.vote.agentId in c.members && cmd.vote.round >= 1
    ensures TextsOk(c, Apply(s, cmd), shown)
  {
    hide Dead, Closed, TaskOk;
    var t := Apply(s, cmd);
    forall i | i in t.tasks ensures TextOk(c, t.tasks[i], RoundsOf(t, i), shown) {
      TaskOfApply(s, cmd, i);
      if i in s.tasks {
        RoundsGrow(s, cmd, i);
        NewVotesOk(c, s, cmd, i);
        assert TaskOf(t, i) == TaskOf(s, i);
        TextLater(c, s.tasks[i], RoundsOf(s, i), RoundsOf(t, i), shown);
      }
    }
    forall id, q, a | id in t.votes && q in t.votes[id] && a in t.votes[id][q] ensures IsShown(shown, id, q) {
      VoteOfApply(s, cmd, id, q, a);
      assert VoteOf(t, id, q, a).Some?;
    }
  }

  // ---- The handlers -----------------------------------------------------------------------

  ghost predicate TwinTexts(c: Config, p: Twin, shown: set<Text>) {
    TextsOk(c, p.live, shown) && TextsOk(c, p.committed, shown)
  }

  lemma CommitKeepsTexts(c: Config, p: Twin, rec: TaskRecord, shown: set<Text>, more: set<Text>)
    requires TwinOk(c, p) && TwinTexts(c, p, shown) && rec.id in p.live.tasks
    requires forall x :: x in more ==> x.task == rec.id
    requires TextOk(c, rec, RoundsOf(p.live, rec.id), shown + more)
    ensures TwinTexts(c, Commit(p, UpdateTask(rec), true), shown + more)
  {
    hide Dead, Closed, TaskOk, TextOk, TextsOk;
    UpdateKeepsTexts(c, p.live, rec, shown, more);
    assert RoundsOf(p.committed, rec.id) == RoundsOf(p.live, rec.id);
    UpdateKeepsTexts(c, p.committed, rec, shown, more);
  }

  /** An edit through the pointer, and its entry unless it is lost. */
  lemma WriteKeepsTexts(c: Config, p: Twin, id: string, x: TaskRecord, y: TaskRecord, ok: bool, shown: set<Text>,
                        more: set<Text>)
    requires TwinOk(c, p) && TwinTexts(c, p, shown) && id in p.live.tasks && x.id == id && y.id == id
    requires TaskOk(c, x, VotesOf(p.live, id, x.round)) && TextOk(c, x, RoundsOf(p.live, id), shown)
    requires ok ==> (forall t :: t in more ==> t.task == id) && TextOk(c, y, RoundsOf(p.live, id), shown + more)
    ensures TwinTexts(c, Commit(Edit(p, id, x), UpdateTask(y), ok), if ok then shown + more else shown)
  {
    hide Dead, Closed, TaskOk, TextOk, TextsOk, TwinOk;
    EditKeepsTexts(c, p, id, x, shown);
    EditKeepsTasks(c, p, id, x);
    if ok {
      assert RoundsOf(Edit(p, id, x).live, id) == RoundsOf(p.live, id);
      CommitKeepsTexts(c, Edit(p, id, x), y, shown, more);
    }
  }

  lemma ProposeKeepsTexts(c: Config, p: Twin, id: string, force: bool, servers: Option<nat>, io: Io, shown: set<Text>)
    requires TwinOk(c, p) && TwinTexts(c, p, shown) && id in p.live.tasks
    ensures TwinTexts(c, Propose(p, id, force, servers, io.llm, io.ok).twin,
                      shown + Opening(p.live, id, force, servers, io))
  {
    hide TextsOk, TextOk, TwinOk;
    assert shown + {} == shown;
    if ProposalGate(p.live, id, force, servers).Go? && io.llm.Some? {
      var rec, rounds := p.live.tasks[id], RoundsOf(p.live, id);
      var next := Proposed(rec, io.llm.value);
      LiveText(c, p, id, shown);
      ProposedTextOk(c, rec, rounds, io.llm.value, shown);
      assert Recorded(c, next);
      WriteKeepsTexts(c, p, id, next, next, io.ok, shown, {Text(id, 1, io.llm.value)});
    }
  }

  /** Nothing has been shown of a task that waits for answers. */
  lemma ProposedTextOk(c: Config, rec: TaskRecord, rounds: map<int, map<string, Vote>>, text: string, shown: set<Text>)
    requires rec.status.Admitted? && TextOk(c, rec, rounds, shown)
    ensures TextOk(c, Proposed(rec, text), rounds, shown)
    ensures TextOk(c, Proposed(rec, text), rounds, shown + {Text(rec.id, 1, text)})
  {
  }

  lemma LiveText(c: Config, p: Twin, id: string, shown: set<Text>)
    requires TwinOk(c, p) && TwinTexts(c, p, shown) && id in p.live.tasks
    ensures p.live.tasks[id].id == id && TextOk(c, p.live.tasks[id], RoundsOf(p.live, id), shown)
    ensures TaskOk(c, p.live.tasks[id], VotesOf(p.live, id, p.live.tasks[id].round))
    ensures RoundsOk(c, RoundsOf(p.live, id))
    ensures |c.members| > 0
  {
  }

  /** The next round: whatever was shown for it before is dead. */
  lemma RevisedTextOk(c: Config, rec: TaskRecord, rounds: map<int, map<string, Vote>>, text: string, shown: set<Text>)
    requires rec.status.Proposal? && TextOk(c, rec, rounds, shown)
    requires rec.round in rounds && Closed(c, rounds[rec.round])
    ensures TextOk(c, Revised(rec, text), rounds, shown + {Text(rec.id, rec.round + 1, text)})
    ensures TextOk(c, rec.(proposals := Revised(rec, text).proposals), rounds, shown)
  {
    hide Dead, Closed;
  }

  lemma ReviseKeepsTexts(c: Config, p: Twin, id: string, text: string, ok: bool, shown: set<Text>)
    requires TwinOk(c, p) && TwinTexts(c, p, shown) && id in p.live.tasks && p.live.tasks[id].status.Proposal?
    requires var rec := p.live.tasks[id];
             rec.round < c.maxRounds && rec.round in RoundsOf(p.live, id) && Closed(c, RoundsOf(p.live, id)[rec.round])
    ensures TwinTexts(c, ReviseTask(p, id, text, ok),
                      shown + if ok then {Text(id, p.live.tasks[id].round + 1, text)} else {})
  {
    hide Dead, Closed, TextsOk, TextOk, TwinOk;
    var rec := p.live.tasks[id];
    var next := Revised(rec, text);
    LiveText(c, p, id, shown);
    RevisedTextOk(c, rec, RoundsOf(p.live, id), text, shown);
    assert shown + {} == shown;
    assert rec.proposals != map[] by { assert rec.round in rec.proposals; }
    assert Recorded(c, rec.(proposals := next.proposals));
    WriteKeepsTexts(c, p, id, rec.(proposals := next.proposals), next, ok, shown, {Text(id, rec.round + 1, text)});
  }

  /** Going back to the best round: every later round that has been shown is dead. */
  lemma FallbackTextOk(c: Config, rec: TaskRecord, rounds: map<int, map<string, Vote>>, shown: set<Text>, round: int,
                       result: string)
    requires rec.status.Proposal? && Recorded(c, rec) && RoundsOk(c, rounds)
    requires TextOk(c, rec, rounds, shown) && PastOk(c, rec, rounds)
    requires round == rec.round || FallsBack(c, rec, rounds, round)
    requires round in rec.proposals && result == rec.proposals[round]
    ensures TextOk(c, rec.(round := round, result := result), rounds, shown)
  {
    hide Closed, Accepts, Rejects;
    if round != rec.round {
      forall x | x in shown && x.task == rec.id && x.round > round ensures Dead(c, rounds, x.round) {
        if x.round <= rec.round {
          LeftBehind(c, rec, rounds, round, x.round);
        }
      }
    }
  }

  lemma LeftBehind(c: Config, rec: TaskRecord, rounds: map<int, map<string, Vote>>, round: int, q: int)
    requires FallsBack(c, rec, rounds, round) && RoundsOk(c, rounds)
    requires Contiguous(c, rec.proposals) && rec.round in rec.proposals
    requires round < q <= rec.round
    requires rec.status.Proposal? && PastOk(c, rec, rounds)
    ensures Dead(c, rounds, q)
  {
    hide Accepts, Rejects;
    VotersBound(rounds[rec.round], c.members);
    if Accepts(rounds[q]) >= Quorum(|c.members|) {
      assert Eligible(rounds, q, Quorum(|c.members|)) && Eligible(rounds, round, Quorum(|c.members|));
    }
  }

  lemma PayKeepsTexts(c: Config, p: Twin, reps: map<string, int>, shown: set<Text>)
    requires TwinTexts(c, p, shown)
    ensures TwinTexts(c, PayReps(p, reps), shown)
  {
    hide TextOk;
    assert forall s, i :: RoundsOf(WithReps(s, reps), i) == RoundsOf(s, i);
  }

  lemma CloseKeepsTexts(c: Config, me: string, p: Twin, id: string, revised: Option<string>, ok: bool,
                        lost: set<string>,
                        shown: set<Text>)
    requires TwinOk(c, p) && TwinTexts(c, p, shown) && PastsOk(c, p.live) && CanFinalize(p.live, id, Some(|c.members|))
    requires DecisionOf(c, p.live, id, Some(|c.members|), revised).Conclude? && p.live.tasks[id].status.Proposal?
    ensures var d := DecisionOf(c, p.live, id, Some(|c.members|), revised);
            TwinTexts(c, CloseTask(me, p, id, d.done, d.round, d.result, ok, lost), shown)
  {
    hide Dead, Closed, TextsOk, TwinOk, PayReps;
    var rec, rounds, d := p.live.tasks[id], RoundsOf(p.live, id), DecisionOf(c, p.live, id, Some(|c.members|), revised);
    LiveText(c, p, id, shown);
    assert PastOk(c, rec, rounds);
    Decided(c, rec, rounds, revised);
    DeadIsNeverDone(c, rec, rounds, revised);
    FallbackTextOk(c, rec, rounds, shown, d.round, d.result);
    var moved, final := rec.(round := d.round, result := d.result), FinalRecord(p.live, id, d.done, d.round, d.result);
    assert shown + {} == shown;
    WriteKeepsTexts(c, p, id, moved, final, ok, shown, {});
    if ok {
      var votes := VotesOf(p.live, id, rec.round);
      PayKeepsTexts(c, Commit(Edit(p, id, moved), UpdateTask(final), true),
                    NewReps(p.live, me, d.done, votes, Rewarded(me, votes, lost)), shown);
    }
  }

  lemma FinalizeKeepsTexts(c: Config, me: string, p: Twin, id: string, io: Io, lost: set<string>, shown: set<Text>)
    requires TwinOk(c, p) && TwinTexts(c, p, shown) && PastsOk(c, p.live)
    ensures TwinTexts(c, Finalize(c, me, p, id, Servers(c, io), io.llm, io.ok, lost).twin,
                      shown + Revising(c, p.live, id, io))
  {
    hide TwinOk, TextsOk, TextOk, PastsOk, Closed, ReviseTask, CloseTask;
    var servers := Servers(c, io);
    assert shown + {} == shown;
    if CanFinalize(p.live, id, servers) {
      var rec, rounds := p.live.tasks[id], RoundsOf(p.live, id);
      LiveText(c, p, id, shown);
      if rec.status.Proposal? {
        Decided(c, rec, rounds, io.llm);
        match DecisionOf(c, p.live, id, servers, io.llm)
        case Pending =>
        case Revise(text) => ReviseKeepsTexts(c, p, id, text, io.ok, shown);
        case Conclude(_, _, _) => CloseKeepsTexts(c, me, p, id, io.llm, io.ok, lost, shown);
      } else {
        WaitingIsPending(c, p, id, io.llm);
      }
    }
  }

  lemma TimeoutKeepsTexts(c: Config, p: Twin, id: string, io: Io, shown: set<Text>)
    requires TwinOk(c, p) && TwinTexts(c, p, shown)
    ensures TwinTexts(c, Timeout(p, id, true, Servers(c, io), io.llm, io.ok).twin,
              shown + if RemedyFor(p.live, id, true, Servers(c, io)).ForceProposal?
                      then Opening(p.live, id, true, Servers(c, io), io) else {})
  {
    hide TwinOk, TextsOk, Propose, Opening;
    assert shown + {} == shown;
    match RemedyFor(p.live, id, true, Servers(c, io))
    case Ignore =>
    case ForceProposal => ProposeKeepsTexts(c, p, id, true, Servers(c, io), io, shown);
    case FailTask =>
      if io.ok {
        CommitKeepsTexts(c, p, TimeoutRecord(id), shown, {});
      }
  }

  lemma StepKeepsTexts(c: Config, l: Leader, step: Step, shown: set<Text>)
    requires TwinOk(c, l.twin) && TwinTexts(c, l.twin, shown) && PastsOk(c, l.twin.live)
    requires Legal(c, l, step) && Informed(step, shown)
    ensures TwinTexts(c, Next(c, l, step).twin, shown + Published(c, l, step))
  {
    hide TextsOk, PastsOk, Propose, Finalize, Timeout, Opening, Revising, TasksOk;
    assert shown + {} == shown;
    match step
    case Deliver(cmd) =>
      DeliverKeepsTexts(c, l.twin.live, cmd, shown);
      DeliverKeepsTexts(c, l.twin.committed, cmd, shown);
    case OnAnswer(id, io) =>
      if id in l.twin.live.tasks {
        ProposeKeepsTexts(c, l.twin, id, false, Servers(c, io), io, shown);
      }
    case OnVote(id, io, lost) => FinalizeKeepsTexts(c, l.me, l.twin, id, io, lost, shown);
    case OnTimeout(io) => TimeoutKeepsTexts(c, l.twin, l.timers.queue[0], io, shown);
    case _ =>
  }

  // ---- Runs -------------------------------------------------------------------------------

  ghost predicate ClusterTexts(c: Config, k: Cluster, shown: set<Text>) {
    TwinTexts(c, k.leader.twin, shown) && forall n :: n in k.others ==> TextsOk(c, k.others[n], shown)
  }

  lemma MoveKeepsTexts(c: Config, k: Cluster, step: Step, shown: set<Text>)
    requires ClusterOk(c, k) && ClusterPast(c, k) && ClusterTexts(c, k, shown)
    requires Enabled(c, k, step) && Informed(step, shown)
    ensures ClusterTexts(c, Move(c, k, step), Shown(c, k, step, shown))
  {
    hide TwinOk, TextsOk, PastsOk, Next, Published;
    if LeaderActs(step) {
      var l, m := k.leader, Move(c, k, step);
      StepKeepsTexts(c, l, step, shown);
      forall n | n in m.others ensures TextsOk(c, m.others[n], Shown(c, k, step, shown)) {
        var other := l.(twin := Twin(l.twin.live, k.others[n]));
        StepKeepsTexts(c, other, step, shown);
        SamePublished(c, l, step, k.others[n]);
      }
    }
  }

  lemma SamePublished(c: Config, l: Leader, step: Step, s: State)
    requires Legal(c, l, step)
    ensures Published(c, l.(twin := Twin(l.twin.live, s)), step) == Published(c, l, step)
  {
  }

  lemma {:induction false} RunKeepsTexts(c: Config, k: Cluster, steps: seq<Step>, shown: set<Text>)
    requires ClusterOk(c, k) && ClusterPast(c, k) && ClusterTexts(c, k, shown)
    requires Run(c, k, steps) && AllInformed(c, k, steps, shown)
    ensures ClusterTexts(c, After(c, k, steps), ShownAfter(c, k, steps, shown))
    decreases |steps|
  {
    hide ClusterOk, ClusterPast, ClusterTexts, Enabled, Move;
    if steps != [] {
      MoveKeepsOk(c, k, steps[0]);
      MoveKeepsPast(c, k, steps[0]);
      MoveKeepsTexts(c, k, steps[0], shown);
      RunKeepsTexts(c, Move(c, k, steps[0]), steps[1..], Shown(c, k, steps[0], shown));
    }
  }

  /** The result of each done task is the one text ever put to the vote for its round. */
  ghost predicate DoneIsTheText(s: State, shown: set<Text>) {
    forall id :: id in s.tasks && s.tasks[id].status.Done? ==>
      forall text :: Text(id, s.tasks[id].round, text) in shown <==> text == s.tasks[id].result
  }

  lemma TextsAreResults(c: Config, p: Twin, shown: set<Text>)
    requires TwinOk(c, p) && TextsOk(c, p.committed, shown)
    ensures DoneIsTheText(p.committed, shown)
  {
    hide Dead, Closed;
    var s := p.committed;
    forall id | id in s.tasks && s.tasks[id].status.Done?
      ensures forall text :: Text(id, s.tasks[id].round, text) in shown <==> text == s.tasks[id].result
    {
      var rec := s.tasks[id];
      assert TaskOk(c, rec, VotesOf(s, id, rec.round)) && TextOk(c, rec, RoundsOf(s, id), shown);
      var votes := VotesOf(s, id, rec.round);
      assert Side(votes, true) != {};
      var a :| a in Side(votes, true);
      assert IsShown(shown, id, rec.round);
      var x :| x in shown && x.task == id && x.round == rec.round;
      assert x == Text(id, rec.round, rec.result);
    }
  }

  /** In every reachable state, on every node, with lost entries and changes of leader: the text that
      was put to the vote for the round of a done task is its result, and no other text ever was.
      With `DoneIsBacked`: a quorum accepted this very text. */
  lemma DoneIsTheTextVotedOn(c: Config, me: string, steps: seq<Step>)
    requires c.members != {} && Run(c, Initial(c, me), steps) && AllInformed(c, Initial(c, me), steps, {})
    ensures var k, shown := After(c, Initial(c, me), steps), ShownAfter(c, Initial(c, me), steps, {});
            && DoneIsTheText(k.leader.twin.live, shown) && DoneIsTheText(k.leader.twin.committed, shown)
            && forall n :: n in k.others ==> DoneIsTheText(k.others[n], shown)
  {
    hide TwinOk, TextsOk, DoneIsTheText;
    var k, shown := After(c, Initial(c, me), steps), ShownAfter(c, Initial(c, me), steps, {});
    InitialIsOk(c, me);
    assert TextsOk(c, EMPTY, {}) by { EmptyTexts(c); }
    RunKeepsOk(c, Initial(c, me), steps);
    RunKeepsTexts(c, Initial(c, me), steps, {});
    TextsAreResults(c, k.leader.twin, shown);
    SelfOk(c, k.leader.twin);
    TextsAreResults(c, Twin(k.leader.twin.live, k.leader.twin.live), shown);
    forall n | n in k.others ensures DoneIsTheText(k.others[n], shown) {
      TextsAreResults(c, Twin(k.leader.twin.live, k.others[n]), shown);
    }
  }

  lemma EmptyTexts(c: Config)
    ensures TextsOk(c, EMPTY, {})
  {
  }
}
