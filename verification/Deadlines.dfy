/** Timers: on a stable leader every unfinished task whose admission was handled has a running
    timer or a queued timeout. */
module Deadlines {
  import opened Core
  import opened Replica
  import opened Voting
  import opened Protocol
  import opened Lifecycle

  ghost predicate Covered(t: Timers, id: string) {
    id in t.queue || exists k :: k in t.running && t.running[k] == id
  }

  ghost predicate AllCovered(l: Leader) {
    && TimersOk(l.timers)
    && l.watched <= l.twin.live.tasks.Keys
    && forall id :: id in l.watched ==> IsFinished(l.twin.live, id) || Covered(l.timers, id)
  }

  lemma StopLeavesOthers(t: Timers, id: string)
    requires TimersOk(t)
    ensures TimersOk(Stop(t, id)) && id !in Stop(t, id).table
    ensures forall other :: other != id && Covered(t, other) ==> Covered(Stop(t, id), other)
  {
    forall other | other != id && Covered(t, other) ensures Covered(Stop(t, id), other) {
      if other !in t.queue {
        var k :| k in t.running && t.running[k] == other;
        assert k in Stop(t, id).running;
      }
    }
  }

  lemma StartCovers(t: Timers, id: string)
    requires TimersOk(t)
    ensures TimersOk(Start(t, id)) && Covered(Start(t, id), id)
    ensures forall other :: Covered(t, other) ==> Covered(Start(t, id), other)
  {
    var u := Stop(t, id);
    StopLeavesOthers(t, id);
    var v := Start(t, id);
    assert v.running[u.next] == id;
    forall other | other != id && Covered(t, other) ensures Covered(v, other) {
      if other !in u.queue {
        var k :| k in u.running && u.running[k] == other;
        assert k in v.running && v.running[k] == other;
      }
    }
  }

  lemma FireCovers(t: Timers, timer: nat)
    requires TimersOk(t) && timer in t.running
    ensures TimersOk(Fire(t, timer))
    ensures forall id :: Covered(t, id) ==> Covered(Fire(t, timer), id)
  {
    var u := Fire(t, timer);
    forall id | Covered(t, id) ensures Covered(u, id) {
      if id in t.queue {
        var i :| 0 <= i < |t.queue| && t.queue[i] == id;
        assert u.queue[i] == id;
      } else {
        var k :| k in t.running && t.running[k] == id;
        if k == timer { assert u.queue[|t.queue|] == id; } else { assert k in u.running; }
      }
    }
  }

  lemma TakeLeavesOthers(t: Timers)
    requires TimersOk(t) && t.queue != []
    ensures TimersOk(TakeTimeout(t))
    ensures forall id :: id != t.queue[0] && Covered(t, id) ==> Covered(TakeTimeout(t), id)
  {
    var u := TakeTimeout(t);
    forall id | id != t.queue[0] && Covered(t, id) ensures Covered(u, id) {
      if id in t.queue {
        var i :| 0 <= i < |t.queue| && t.queue[i] == id;
        assert u.queue[i - 1] == id;
      }
    }
  }

  // ---- What the timer operations do -------------------------------------------------------

  /** The engine's table leads to every running timer of the task. */
  ghost predicate Tracked(t: Timers, id: string) {
    forall k :: k in t.running && t.running[k] == id ==> id in t.table && t.table[id] == k
  }

  /** Starting a timer stops the one in the table, adds exactly one, files it in the table and leaves the
      timers of all other tasks alone. If the table led to every running timer of the task, exactly the
      new one runs afterwards. */
  lemma StartReplaces(t: Timers, id: string)
    requires TimersOk(t)
    ensures var u := Start(t, id);
            && (id in t.table ==> t.table[id] !in u.running)
            && id in u.table && u.table[id] !in t.running && u.running.Keys - t.running.Keys == {u.table[id]}
            && u.table[id] in u.running && u.running[u.table[id]] == id
            && (forall k :: k in t.running && t.running[k] != id ==> k in u.running && u.running[k] == t.running[k])
            && (forall other :: other != id ==>
                  (other in u.table <==> other in t.table) && (other in t.table ==> u.table[other] == t.table[other]))
            && u.queue == t.queue
            && (Tracked(t, id) ==> forall k :: k in u.running && u.running[k] == id <==> k == u.table[id])
  {
  }

  /** Stopping removes the timer in the table, if there is one, and nothing else. */
  lemma StopRemoves(t: Timers, id: string)
    requires TimersOk(t)
    ensures var u := Stop(t, id);
            && id !in u.table && u.queue == t.queue && u.running.Keys <= t.running.Keys
            && (forall k :: k in t.running ==> (k in u.running <==> !(id in t.table && t.table[id] == k)))
            && (forall k :: k in u.running ==> u.running[k] == t.running[k])
            && (forall other :: other in t.table && other != id ==>
                  other in u.table && u.table[other] == t.table[other])
  {
  }

  /** A timer goes off once, and its task is queued last; a timeout is taken from the front. Both make
      the engine forget the timer of that task, whichever it is, and of no other. */
  lemma FiresOnceInOrder(t: Timers, timer: nat)
    requires timer in t.running
    ensures var u := Fire(t, timer);
            && timer !in u.running && |u.queue| == |t.queue| + 1 && u.queue[|t.queue|] == t.running[timer]
            && (forall k :: k in t.running && k != timer ==> k in u.running && u.running[k] == t.running[k])
            && t.running[timer] !in u.table
            && (forall id :: id in t.table && id != t.running[timer] ==> id in u.table && u.table[id] == t.table[id])
            && (t.queue != [] ==> t.queue[0] !in TakeTimeout(u).table)
            && (forall id :: id in u.table && id != u.queue[0] ==>
                  id in TakeTimeout(u).table && TakeTimeout(u).table[id] == u.table[id])
            && (t.queue != [] ==> u.queue[0] == t.queue[0] && TakeTimeout(u).running == u.running
                                  && [t.queue[0]] + TakeTimeout(u).queue == u.queue)
  {
  }

  /** Taking a timeout makes the engine forget the timer of that task. If one has been started since the
      timeout was queued, it runs on where no stop finds it. */
  lemma TakeKeepsTrackIff(t: Timers, id: string)
    requires t.queue != []
    ensures Tracked(TakeTimeout(t), id) <==>
            if id == t.queue[0] then forall k :: k in t.running ==> t.running[k] != id else Tracked(t, id)
  {
  }

  // ---- Coverage ---------------------------------------------------------------------------

  /** Handling a timeout settles an unfinished task or arms its timer again exactly when the
      configuration could be read if it was needed, and the failure entry reached the log if that
      was needed. The forced proposal counts even if the language model fails. */
  lemma TimeoutCoversIff(p: Twin, id: string, servers: Option<nat>, aggregate: Option<string>, ok: bool)
    requires id in p.live.tasks && !Finished(p.live.tasks[id].status)
    requires servers.Some? ==> servers.value > 0
    ensures var r := Timeout(p, id, true, servers, aggregate, ok);
            (r.armed || IsFinished(r.twin.live, id)) <==>
            if p.live.tasks[id].status.Admitted?
            then servers.Some? && (|AnswersOf(p.live, id)| >= Quorum(servers.value) || ok)
            else ok
  {
  }

  lemma StepKeepsCover(c: Config, l: Leader, step: Step)
    requires c.members != {} && Agree(l.twin) && AllCovered(l)
    requires Legal(c, l, step) && Commits(step) && Reads(step)
    ensures Agree(Next(c, l, step).twin) && AllCovered(Next(c, l, step))
  {
    var m := Next(c, l, step);
    FinishedIsKept(c, l, step);
    match step
    case OnAdmitted(id) => StartCovers(l.timers, id);
    case OnAnswer(id, io) => StartCovers(l.timers, id);
    case OnFinished(id) => StopLeavesOthers(l.timers, id);
    case OnFire(timer) => FireCovers(l.timers, timer);
    case OnTimeout(io) =>
      var id := l.timers.queue[0];
      TakeLeavesOthers(l.timers);
      StartCovers(TakeTimeout(l.timers), id);
      if id in l.twin.live.tasks && !IsFinished(l.twin.live, id) {
        assert |c.members| > 0;
        TimeoutCoversIff(l.twin, id, Servers(c, io), io.llm, io.ok);
      }
    case _ =>
  }

  /** Every node has timers, and they are in order. */
  ghost predicate ClocksOk(k: Cluster) {
    && TimersOk(k.leader.timers) && k.clocks.Keys == k.others.Keys && k.leader.me !in k.clocks
    && forall n :: n in k.clocks ==> TimersOk(k.clocks[n])
  }

  lemma StepKeepsTimers(c: Config, l: Leader, step: Step)
    requires Legal(c, l, step) && TimersOk(l.timers)
    ensures TimersOk(Next(c, l, step).timers)
  {
    hide TimersOk, Propose, Timeout;
    match step
    case OnAdmitted(id) => StartCovers(l.timers, id);
    case OnAnswer(id, io) => StartCovers(l.timers, id);
    case OnFinished(id) => StopLeavesOthers(l.timers, id);
    case OnFire(timer) => FireCovers(l.timers, timer);
    case OnTimeout(io) =>
      TakeLeavesOthers(l.timers);
      StartCovers(TakeTimeout(l.timers), l.timers.queue[0]);
    case _ =>
  }

  /** What a node does aside keeps its timers in order and arms none. */
  lemma TickKeepsTimers(s: State, t: Timers, tick: Tick)
    requires TickOk(s, t, tick) && TimersOk(t)
    ensures TimersOk(Ticked(t, tick))
    ensures forall id :: Covered(Ticked(t, tick), id) ==> Covered(t, id)
  {
    match tick
    case Fires(timer) => FireCovers(t, timer);
    case TakesTimeout => TakeLeavesOthers(t);
    case Completes(id) => StopLeavesOthers(t, id);
  }

  lemma MoveKeepsClocks(c: Config, k: Cluster, step: Step)
    requires ClocksOk(k) && Enabled(c, k, step)
    ensures ClocksOk(Move(c, k, step))
  {
    hide TimersOk, Next, TickOk;
    if step.Aside? {
      TickKeepsTimers(k.others[step.node], k.clocks[step.node], step.tick);
    } else if LeaderActs(step) {
      StepKeepsTimers(c, k.leader, step);
      KeepsLeading(c, k.leader, step);
    }
  }

  lemma MoveKeepsCover(c: Config, k: Cluster, step: Step)
    requires c.members != {} && AllAgree(k) && ClocksOk(k) && AllCovered(k.leader)
    requires Enabled(c, k, step) && Commits(step) && Reads(step)
    ensures AllAgree(Move(c, k, step)) && ClocksOk(Move(c, k, step)) && AllCovered(Move(c, k, step).leader)
  {
    hide Agree, Next, TimersOk;
    MoveAgrees(c, k, step);
    MoveKeepsClocks(c, k, step);
    if LeaderActs(step) {
      StepKeepsCover(c, k.leader, step);
    }
  }

  /** Over any run in which configuration reads and entries succeed, deadlines stay covered from
      the moment the admission of a task is handled by the leader of the time. */
  lemma {:induction false} DeadlinesAreCovered(c: Config, k: Cluster, steps: seq<Step>)
    requires c.members != {} && AllAgree(k) && ClocksOk(k) && AllCovered(k.leader) && Run(c, k, steps)
    requires forall i :: 0 <= i < |steps| ==> Commits(steps[i]) && Reads(steps[i])
    ensures AllCovered(After(c, k, steps).leader)
    decreases |steps|
  {
    hide AllAgree, ClocksOk, AllCovered, Move, Enabled;
    if steps != [] {
      MoveKeepsCover(c, k, steps[0]);
      DeadlinesAreCovered(c, Move(c, k, steps[0]), steps[1..]);
    }
  }

  /** From the empty cluster on, whoever leads first. */
  lemma DeadlinesFromTheStart(c: Config, me: string, steps: seq<Step>)
    requires c.members != {} && Run(c, Initial(c, me), steps)
    requires forall i :: 0 <= i < |steps| ==> Commits(steps[i]) && Reads(steps[i])
    ensures AllCovered(After(c, Initial(c, me), steps).leader)
  {
    hide AllAgree, ClocksOk, AllCovered, Initial, Run, After, Commits, Reads;
    InitialIsCovered(c, me);
    DeadlinesAreCovered(c, Initial(c, me), steps);
  }

  lemma InitialIsCovered(c: Config, me: string)
    ensures AllAgree(Initial(c, me)) && ClocksOk(Initial(c, me)) && AllCovered(Initial(c, me).leader)
  {
  }

  // ---- Silence after completion -----------------------------------------------------------

  /** Stopping the timer of a task silences it exactly when no timeout of it is queued and the
      engine's table leads to every timer it still has running. */
  lemma StopSilencesIff(t: Timers, id: string)
    ensures !Covered(Stop(t, id), id) <==>
            id !in t.queue && forall k :: k in t.running && t.running[k] == id ==> id in t.table && t.table[id] == k
  {
    var u := Stop(t, id);
    forall k | k in t.running && t.running[k] == id && !(id in t.table && t.table[id] == k) ensures Covered(u, id) {
      assert k in u.running && u.running[k] == id;
    }
  }

  ghost predicate NoRestart(steps: seq<Step>, id: string) {
    forall i :: 0 <= i < |steps| ==> steps[i] != OnAdmitted(id)
  }

  lemma StaysSilent(c: Config, l: Leader, step: Step, id: string)
    requires Agree(l.twin) && TimersOk(l.timers) && IsFinished(l.twin.live, id) && !Covered(l.timers, id)
    requires Legal(c, l, step) && step != OnAdmitted(id)
    ensures var m := Next(c, l, step);
            && Agree(m.twin) && TimersOk(m.timers) && !Covered(m.timers, id)
            && IsFinished(m.twin.live, id) && m.twin.live.tasks[id] == l.twin.live.tasks[id]
  {
    FinishedIsKept(c, l, step);
    match step
    case OnAdmitted(other) => StartCovers(l.timers, other);
    case OnAnswer(other, io) =>
      StartCovers(l.timers, other);
      if other in l.twin.live.tasks && other != id {
        StartLeavesSilent(l.timers, other, id);
      }
    case OnFinished(other) => StopLeavesOthers(l.timers, other);
    case OnFire(timer) => FireCovers(l.timers, timer);
    case OnTimeout(io) =>
      var other := l.timers.queue[0];
      TakeLeavesOthers(l.timers);
      StartCovers(TakeTimeout(l.timers), other);
      StartLeavesSilent(TakeTimeout(l.timers), other, id);
    case _ =>
  }

  lemma StartLeavesSilent(t: Timers, other: string, id: string)
    requires other != id && !Covered(t, id)
    ensures !Covered(Start(t, other), id)
  {
  }

  /** No node has a running timer or a queued timeout of the task. */
  ghost predicate Quiet(k: Cluster, id: string) {
    !Covered(k.leader.timers, id) && forall n :: n in k.clocks ==> !Covered(k.clocks[n], id)
  }

  lemma MoveStaysQuiet(c: Config, k: Cluster, step: Step, id: string)
    requires AllAgree(k) && ClocksOk(k) && IsFinished(k.leader.twin.live, id) && Quiet(k, id)
    requires Enabled(c, k, step) && step != OnAdmitted(id)
    ensures var m := Move(c, k, step);
            && AllAgree(m) && ClocksOk(m) && Quiet(m, id)
            && TaskOf(m.leader.twin.live, id) == TaskOf(k.leader.twin.live, id)
  {
    hide Next, TimersOk, Covered, Agree, KeepsFinished, TickOk;
    MoveAgrees(c, k, step);
    MoveKeepsClocks(c, k, step);
    if step.Aside? {
      TickKeepsTimers(k.others[step.node], k.clocks[step.node], step.tick);
    } else if step.Handover? {
      NodesShow(k, id);
      assert Holds(k, Move(c, k, step).leader.twin.live);
    } else {
      StaysSilent(c, k.leader, step, id);
    }
  }

  /** A finished task of which no node has a running timer or a queued timeout stays exactly as it
      is, on every node and over every run, whoever leads, as long as its admission is not handled
      again. */
  lemma {:induction false} QuietIsFinal(c: Config, k: Cluster, steps: seq<Step>, id: string)
    requires AllAgree(k) && ClocksOk(k) && IsFinished(k.leader.twin.live, id) && Quiet(k, id)
    requires Run(c, k, steps) && NoRestart(steps, id)
    ensures StaysPut(c, k, steps, id)
    decreases |steps|
  {
    hide AllAgree, ClocksOk, Quiet, Move, Enabled;
    if steps == [] {
      NodesShow(k, id);
    } else {
      MoveStaysQuiet(c, k, steps[0], id);
      NoRestartTail(steps, id);
      QuietIsFinal(c, Move(c, k, steps[0]), steps[1..], id);
    }
  }

  /** After the run every node shows the task as the leader does now. */
  ghost predicate StaysPut(c: Config, k: Cluster, steps: seq<Step>, id: string)
    requires Run(c, k, steps)
  {
    forall s :: Holds(After(c, k, steps), s) ==> TaskOf(s, id) == TaskOf(k.leader.twin.live, id)
  }

  lemma NodesShow(k: Cluster, id: string)
    requires AllAgree(k) && IsFinished(k.leader.twin.live, id)
    ensures forall s :: Holds(k, s) ==> TaskOf(s, id) == TaskOf(k.leader.twin.live, id)
  {
  }

  lemma NoRestartTail(steps: seq<Step>, id: string)
    requires steps != [] && NoRestart(steps, id)
    ensures NoRestart(steps[1..], id)
  {
    forall i | 0 <= i < |steps| - 1 ensures steps[1..][i] != OnAdmitted(id) {
      assert steps[1..][i] == steps[i + 1];
    }
  }

  ghost predicate IsDone(s: State, id: string) {
    id in s.tasks && s.tasks[id].status.Done?
  }

  const BLIND: Io := Io(false, None, true)

  /** Taking a timeout, with a configuration that cannot be read, fails that task if it is done and
      leaves any other finished task alone. */
  lemma BlindTimeout(c: Config, l: Leader, id: string)
    requires Agree(l.twin) && IsDone(l.twin.live, id) && l.timers.queue != []
    ensures var m := Next(c, l, OnTimeout(BLIND));
            && Agree(m.twin) && m.timers == TakeTimeout(l.timers)
            && if l.timers.queue[0] == id then TaskFailed(m.twin.live, id) else IsDone(m.twin.live, id)
  {
    FinishedIsKept(c, l, OnTimeout(BLIND));
  }

  ghost predicate TaskFailed(s: State, id: string) {
    id in s.tasks && s.tasks[id].status.Failed?
  }

  /** The run that fails a done task whose timeout is queued: the loop works through its queue. */
  lemma {:induction false} QueuedTimeoutFails(c: Config, k: Cluster, id: string) returns (steps: seq<Step>)
    requires Agree(k.leader.twin) && IsDone(k.leader.twin.live, id) && id in k.leader.timers.queue
    ensures Run(c, k, steps) && NoRestart(steps, id) && TaskFailed(After(c, k, steps).leader.twin.live, id)
    decreases |k.leader.timers.queue|
  {
    var first := OnTimeout(BLIND);
    var m := Move(c, k, first);
    BlindTimeout(c, k.leader, id);
    steps := [];
    if k.leader.timers.queue[0] != id {
      steps := QueuedTimeoutFails(c, m, id);
    }
    assert ([first] + steps)[1..] == steps;
    steps := [first] + steps;
  }

  lemma CoveredFails(c: Config, k: Cluster, id: string) returns (steps: seq<Step>)
    requires Agree(k.leader.twin) && IsDone(k.leader.twin.live, id) && Covered(k.leader.timers, id)
    ensures Run(c, k, steps) && NoRestart(steps, id) && TaskFailed(After(c, k, steps).leader.twin.live, id)
  {
    var t := k.leader.timers;
    if id in t.queue {
      steps := QueuedTimeoutFails(c, k, id);
    } else {
      var timer :| timer in t.running && t.running[timer] == id;
      assert Fire(t, timer).queue[|t.queue|] == id;
      steps := QueuedTimeoutFails(c, Move(c, k, OnFire(timer)), id);
      assert ([OnFire(timer)] + steps)[1..] == steps;
      steps := [OnFire(timer)] + steps;
    }
  }

  /** If the timer or the timeout is another node's, it leads first. */
  lemma NoisyFails(c: Config, k: Cluster, id: string) returns (steps: seq<Step>)
    requires AllAgree(k) && ClocksOk(k) && IsDone(k.leader.twin.live, id) && !Quiet(k, id)
    ensures Run(c, k, steps) && NoRestart(steps, id) && TaskFailed(After(c, k, steps).leader.twin.live, id)
  {
    hide Covered, TimersOk, Agree, KeepsFinished;
    if Covered(k.leader.timers, id) {
      steps := CoveredFails(c, k, id);
    } else {
      var n :| n in k.clocks && Covered(k.clocks[n], id);
      var first := Handover(n);
      var m := Move(c, k, first);
      MoveAgrees(c, k, first);
      NodesShow(k, id);
      assert Holds(k, m.leader.twin.live);
      steps := CoveredFails(c, m, id);
      assert ([first] + steps)[1..] == steps;
      steps := [first] + steps;
    }
  }

  /** A done task stays as it is, on every node and over every run that does not handle its admission
      again, exactly when no node has a running timer or a queued timeout of it. Otherwise a run
      fails it. */
  lemma DoneStaysIff(c: Config, k: Cluster, id: string)
    requires AllAgree(k) && ClocksOk(k) && IsDone(k.leader.twin.live, id)
    ensures (forall steps :: Run(c, k, steps) && NoRestart(steps, id) ==> StaysPut(c, k, steps, id)) <==> Quiet(k, id)
  {
    hide AllAgree, ClocksOk, Quiet;
    if Quiet(k, id) {
      forall steps | Run(c, k, steps) && NoRestart(steps, id) ensures StaysPut(c, k, steps, id) {
        QuietIsFinal(c, k, steps, id);
      }
    } else {
      var steps := NoisyFails(c, k, id);
      assert Holds(After(c, k, steps), After(c, k, steps).leader.twin.live);
    }
  }
}
