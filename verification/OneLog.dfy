/** One log: what a step makes of a replica other than the leader's is the application of a list of
    entries, the same for every node. */
module OneLog {
  import opened Core
  import opened Replica
  import opened Reputation
  import opened Protocol

  lemma {:induction false} PaymentsAreEntries(reps: map<string, int>) returns (entries: seq<Command>)
    ensures forall s :: WithReps(s, reps) == Replay(s, entries)
    decreases |reps|
  {
    if reps == map[] {
      entries := [];
      forall s ensures WithReps(s, reps) == Replay(s, entries) { WithNoReps(s); }
    } else {
      var a :| a in reps;
      var rest, last := reps - {a}, UpdateReputation(a, reps[a]);
      assert reps == rest[a := reps[a]];
      var front := PaymentsAreEntries(rest);
      entries := front + [last];
      forall s ensures WithReps(s, reps) == Replay(s, entries) {
        WithRepsStep(s, rest, a, reps[a]);
        ReplaySnoc(s, front, last);
      }
    }
  }

  function Entry(cmd: Command, ok: bool): seq<Command> {
    if ok then [cmd] else []
  }

  lemma CommitIsEntry(cmd: Command, ok: bool)
    ensures forall live, s :: Commit(Twin(live, s), cmd, ok).committed == Replay(s, Entry(cmd, ok))
  {
    assert [cmd][..0] == [];
  }

  lemma CloseIsEntries(me: string, live: State, id: string, done: bool, round: int, result: string, ok: bool,
                       lost: set<string>)
    returns (entries: seq<Command>)
    requires id in live.tasks
    ensures forall s :: CloseTask(me, Twin(live, s), id, done, round, result, ok, lost).committed == Replay(s, entries)
  {
    if !ok {
      return [];
    }
    var votes := VotesOf(live, id, live.tasks[id].round);
    var reps := NewReps(live, me, done, votes, Rewarded(me, votes, lost));
    var final := UpdateTask(FinalRecord(live, id, done, round, result));
    var paid := PaymentsAreEntries(reps);
    entries := [final] + paid;
    forall s ensures CloseTask(me, Twin(live, s), id, done, round, result, ok, lost).committed == Replay(s, entries) {
      CommitIsEntry(final, true);
      ReplayConcat(s, [final], paid);
      assert Commit(Edit(Twin(live, s), id, live.tasks[id].(round := round, result := result)), final, true).committed
          == Replay(s, [final]);
    }
  }

  lemma ProposeIsEntries(live: State, id: string, force: bool, servers: Option<nat>, text: Option<string>, ok: bool)
    returns (entries: seq<Command>)
    requires id in live.tasks
    ensures forall s :: Propose(Twin(live, s), id, force, servers, text, ok).twin.committed == Replay(s, entries)
  {
    entries := [];
    if text.Some? && ProposalGate(live, id, force, servers).Go? {
      var next := Proposed(live.tasks[id], text.value);
      entries := Entry(UpdateTask(next), ok);
      forall s ensures Propose(Twin(live, s), id, force, servers, text, ok).twin.committed == Replay(s, entries) {
        CommitIsEntry(UpdateTask(next), ok);
        assert Propose(Twin(live, s), id, force, servers, text, ok).twin
            == Commit(Twin(Edit(Twin(live, s), id, next).live, s), UpdateTask(next), ok);
      }
    }
  }

  lemma ReviseIsEntries(live: State, id: string, text: string, ok: bool) returns (entries: seq<Command>)
    requires id in live.tasks
    ensures forall s :: ReviseTask(Twin(live, s), id, text, ok).committed == Replay(s, entries)
  {
    var rec, next := live.tasks[id], Revised(live.tasks[id], text);
    entries := Entry(UpdateTask(next), ok);
    forall s ensures ReviseTask(Twin(live, s), id, text, ok).committed == Replay(s, entries) {
      CommitIsEntry(UpdateTask(next), ok);
      var p := Twin(live, s);
      var q := if rec.proposals == map[] then p else Edit(p, id, rec.(proposals := next.proposals));
      assert q == Twin(q.live, s);
    }
  }

  lemma FinalizeIsEntries(c: Config, me: string, live: State, id: string, servers: Option<nat>, text: Option<string>,
                          ok: bool, lost: set<string>)
    returns (entries: seq<Command>)
    ensures forall s :: Finalize(c, me, Twin(live, s), id, servers, text, ok, lost).twin.committed == Replay(s, entries)
  {
    hide CloseTask, ReviseTask;
    entries := [];
    if CanFinalize(live, id, servers) {
      match DecisionOf(c, live, id, servers, text)
      case Pending =>
      case Revise(next) => entries := ReviseIsEntries(live, id, next, ok);
      case Conclude(done, round, result) => entries := CloseIsEntries(me, live, id, done, round, result, ok, lost);
    }
  }

  lemma TimeoutIsEntries(live: State, id: string, servers: Option<nat>, text: Option<string>, ok: bool)
    returns (entries: seq<Command>)
    ensures forall s :: Timeout(Twin(live, s), id, true, servers, text, ok).twin.committed == Replay(s, entries)
  {
    hide Propose, Commit;
    match RemedyFor(live, id, true, servers)
    case Ignore => entries := [];
    case ForceProposal => entries := ProposeIsEntries(live, id, true, servers, text, ok);
    case FailTask =>
      entries := Entry(UpdateTask(TimeoutRecord(id)), ok);
      CommitIsEntry(UpdateTask(TimeoutRecord(id)), ok);
  }

  /** Every step of the leader appends a list of entries to the log, and the replica of every other
      node applies just these. They depend on what the leader sees and on nothing else. */
  lemma StepAppends(c: Config, l: Leader, step: Step) returns (entries: seq<Command>)
    requires Legal(c, l, step)
    ensures forall s :: Follow(c, l, step, s) == Replay(s, entries)
  {
    hide Propose, Finalize, Timeout, Commit;
    var live := l.twin.live;
    entries := [];
    match step
    case Deliver(cmd) =>
      entries := Entry(cmd, true);
      CommitIsEntry(cmd, true);
    case OnAnswer(id, io) =>
      if id in live.tasks {
        entries := ProposeIsEntries(live, id, false, Servers(c, io), io.llm, io.ok);
      }
    case OnVote(id, io, lost) => entries := FinalizeIsEntries(c, l.me, live, id, Servers(c, io), io.llm, io.ok, lost);
    case OnTimeout(io) => entries := TimeoutIsEntries(live, l.timers.queue[0], Servers(c, io), io.llm, io.ok);
    case _ =>
  }

  ghost predicate NeverLeads(steps: seq<Step>, n: string) {
    forall i :: 0 <= i < |steps| ==> !(steps[i].Handover? && steps[i].next == n)
  }

  lemma MoveAppends(c: Config, k: Cluster, step: Step) returns (entries: seq<Command>)
    requires Enabled(c, k, step)
    ensures Move(c, k, step).leader.twin.committed == Replay(k.leader.twin.committed, entries)
    ensures forall n :: n in k.others && n != k.leader.me && !(step.Handover? && step.next == n) ==>
              && n in Move(c, k, step).others && n != Move(c, k, step).leader.me
              && Move(c, k, step).others[n] == Replay(k.others[n], entries)
  {
    hide Next;
    entries := [];
    if LeaderActs(step) {
      entries := StepAppends(c, k.leader, step);
      SameTwin(c, k.leader, step);
      KeepsLeading(c, k.leader, step);
    }
  }

  lemma NeverLeadsTail(steps: seq<Step>, n: string)
    requires steps != [] && NeverLeads(steps, n)
    ensures NeverLeads(steps[1..], n) && !(steps[0].Handover? && steps[0].next == n)
  {
    forall i | 0 <= i < |steps[1..]| ensures !(steps[1..][i].Handover? && steps[1..][i].next == n) {
      assert steps[1..][i] == steps[i + 1];
    }
  }

  /** Over any run the log grows by a list of entries, and every node that does not lead in it
      applies exactly these. */
  lemma {:induction false} RunAppends(c: Config, k: Cluster, steps: seq<Step>) returns (entries: seq<Command>)
    requires Run(c, k, steps)
    ensures After(c, k, steps).leader.twin.committed == Replay(k.leader.twin.committed, entries)
    ensures forall n :: n in k.others && NeverLeads(steps, n) && n != k.leader.me ==>
              n in After(c, k, steps).others && After(c, k, steps).others[n] == Replay(k.others[n], entries)
    decreases |steps|
  {
    hide Move, Enabled, NeverLeads;
    entries := [];
    if steps != [] {
      var m := Move(c, k, steps[0]);
      var first := MoveAppends(c, k, steps[0]);
      var rest := RunAppends(c, m, steps[1..]);
      entries := first + rest;
      ReplayConcat(k.leader.twin.committed, first, rest);
      forall n | n in k.others && NeverLeads(steps, n) && n != k.leader.me
        ensures n in After(c, k, steps).others && After(c, k, steps).others[n] == Replay(k.others[n], entries)
      {
        NeverLeadsTail(steps, n);
        ReplayConcat(k.others[n], first, rest);
      }
    }
  }

  lemma SameTwin(c: Config, l: Leader, step: Step)
    requires Legal(c, l, step)
    ensures Follow(c, l, step, l.twin.committed) == Next(c, l, step).twin.committed
  {
    assert l.(twin := Twin(l.twin.live, l.twin.committed)) == l;
  }

  /** From the empty cluster: the log side is the fold over the log, and so is every node that has
      never led. */
  lemma CommittedIsTheLog(c: Config, me: string, steps: seq<Step>) returns (log: seq<Command>)
    requires Run(c, Initial(c, me), steps)
    ensures var k := After(c, Initial(c, me), steps);
            && k.leader.twin.committed == Replay(EMPTY, log)
            && forall n :: n in c.members && n != me && NeverLeads(steps, n) ==>
                 n in k.others && k.others[n] == Replay(EMPTY, log)
  {
    log := RunAppends(c, Initial(c, me), steps);
  }
}
