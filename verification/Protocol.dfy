/** The leader's task protocol as state transformations. The methods of class `Engine` refine the
    handler functions; `Next` interleaves them with everything the rest of the cluster may do. */
module Protocol {
  import opened Core
  import opened Replica
  import opened Voting
  import opened Reputation

  datatype Config = Config(members: set<string>, target: int, maxRounds: int)

  /** The leader's own replica beside the replica every follower has. They differ only while a
      handler has written through a live task pointer and the entry did not reach the log. */
  datatype Twin = Twin(live: State, committed: State)

  /** One call of `Raft.Apply`: the entry reaches the log and both replicas, or nothing happens. */
  function Commit(p: Twin, cmd: Command, ok: bool): Twin {
    if ok then Twin(Apply(p.live, cmd), Apply(p.committed, cmd)) else p
  }

  /** A handler writes to the task its pointer leads to. */
  function Edit(p: Twin, id: string, rec: TaskRecord): Twin {
    p.(live := p.live.(tasks := p.live.tasks[id := rec]))
  }

  // ---- Proposal phase ---------------------------------------------------------------------

  function Proposed(rec: TaskRecord, text: string): TaskRecord {
    rec.(status := Proposal, result := text, round := 1, proposals := map[1 := text])
  }

  datatype ProposeResult = ProposeResult(twin: Twin, failed: bool, armed: bool)

  /** Whether a proposal is due: not for this task now, not yet, or at once. Answers are counted,
      not the agents behind them. */
  datatype Gate = Refuse | Hold | Go

  function ProposalGate(s: State, id: string, force: bool, servers: Option<nat>): Gate
    requires id in s.tasks
  {
    if !s.tasks[id].status.Admitted? || id !in s.answers || servers.None? || servers.value == 0 then Refuse
    else
      var count := |s.answers[id]|;
      if count == servers.value || (count >= Quorum(servers.value) && force) then Go else Hold
  }

  function Propose(p: Twin, id: string, force: bool, servers: Option<nat>, aggregate: Option<string>,
                   ok: bool): ProposeResult
    requires id in p.live.tasks
  {
    match ProposalGate(p.live, id, force, servers)
    case Refuse => ProposeResult(p, true, false)
    case Hold => ProposeResult(p, false, false)
    case Go =>
      if aggregate.None? then ProposeResult(p, true, true)
      else
        var next := Proposed(p.live.tasks[id], aggregate.value);
        ProposeResult(Commit(Edit(p, id, next), UpdateTask(next), ok), !ok, true)
  }

  // ---- Finalization -----------------------------------------------------------------------

  function ProposalAt(proposals: map<int, string>, r: int): string {
    if r in proposals then proposals[r] else ""
  }

  datatype Decision =
    | Pending
    | Revise(text: string)
    | Conclude(done: bool, round: int, result: string)

  function ReviseOrFail(rec: TaskRecord, revised: Option<string>): Decision {
    if revised.Some? then Revise(revised.value) else Conclude(false, rec.round, rec.result)
  }

  function Decide(c: Config, rec: TaskRecord, rounds: map<int, map<string, Vote>>, servers: nat,
                  revised: Option<string>): Decision
  {
    var votes := if rec.round in rounds then rounds[rec.round] else map[];
    match VerdictOf(votes, c.target, servers)
    case Accept => Conclude(true, rec.round, rec.result)
    case Wait => Pending
    case Reject =>
      if rec.round < c.maxRounds then ReviseOrFail(rec, revised)
      else
        var best := BestRound(rounds, rec.round, Quorum(servers));
        if best != 0 then Conclude(true, best, ProposalAt(rec.proposals, best))
        else Conclude(false, rec.round, rec.result)
    case Split =>
      if rec.round < c.maxRounds then ReviseOrFail(rec, revised)
      else Conclude(Accepts(votes) > Rejects(votes), rec.round, rec.result)
  }

  function Revised(rec: TaskRecord, text: string): TaskRecord {
    rec.(round := rec.round + 1, result := text, status := Proposal,
         proposals := rec.proposals[rec.round + 1 := text])
  }

  function Concluded(rec: TaskRecord, done: bool, round: int, result: string, confidence: real): TaskRecord {
    rec.(round := round, result := result, status := if done then Done else Failed, confidence := confidence)
  }

  datatype FinalizeResult = FinalizeResult(twin: Twin, failed: bool, settled: bool)

  ghost predicate CanFinalize(s: State, id: string, servers: Option<nat>) {
    id in s.tasks && !Finished(s.tasks[id].status) && id in s.votes && servers.Some? && servers.value != 0
  }

  ghost function DecisionOf(c: Config, s: State, id: string, servers: Option<nat>, revised: Option<string>): Decision
    requires CanFinalize(s, id, servers)
  {
    Decide(c, s.tasks[id], s.votes[id], servers.value, revised)
  }

  /** Publishing a revision. The map of proposals, once there is one, belongs to the live task too. */
  function ReviseTask(p: Twin, id: string, text: string, ok: bool): Twin
    requires id in p.live.tasks
  {
    var rec := p.live.tasks[id];
    var next := Revised(rec, text);
    var q := if rec.proposals == map[] then p else Edit(p, id, rec.(proposals := next.proposals));
    Commit(q, UpdateTask(next), ok)
  }

  ghost function PayReps(p: Twin, reps: map<string, int>): Twin {
    Twin(WithReps(p.live, reps), WithReps(p.committed, reps))
  }

  ghost function FinalRecord(s: State, id: string, done: bool, round: int, result: string): TaskRecord
    requires id in s.tasks
  {
    var rec := s.tasks[id];
    Concluded(rec, done, round, result, Confidence(s, VotesOf(s, id, rec.round), done))
  }

  /** Closing a task: the outcome is committed, then the reputations move. */
  ghost function CloseTask(me: string, p: Twin, id: string, done: bool, round: int, result: string, ok: bool,
                           lost: set<string>): Twin
    requires id in p.live.tasks
  {
    var rec := p.live.tasks[id];
    var votes := VotesOf(p.live, id, rec.round);
    var q := Edit(p, id, rec.(round := round, result := result));
    if !ok then q
    else PayReps(Commit(q, UpdateTask(FinalRecord(p.live, id, done, round, result)), true),
                 NewReps(p.live, me, done, votes, Rewarded(me, votes, lost)))
  }

  ghost function Finalize(c: Config, me: string, p: Twin, id: string, servers: Option<nat>, revised: Option<string>,
                          ok: bool, lost: set<string>): FinalizeResult
  {
    if !CanFinalize(p.live, id, servers) then FinalizeResult(p, true, false)
    else
      match DecisionOf(c, p.live, id, servers, revised)
      case Pending => FinalizeResult(p, false, false)
      case Revise(text) => FinalizeResult(ReviseTask(p, id, text, ok), !ok, false)
      case Conclude(done, round, result) =>
        FinalizeResult(CloseTask(me, p, id, done, round, result, ok, lost), !ok, ok)
  }

  // ---- Timeouts ---------------------------------------------------------------------------

  const TIMEOUT_RESULT := "Timeout: Phase timeout exceeded"

  function TimeoutRecord(id: string): TaskRecord {
    TaskRecord(id, "", "", 0, Failed, TIMEOUT_RESULT, 0.0, 0, map[])
  }

  datatype TimeoutResult = TimeoutResult(twin: Twin, armed: bool)

  datatype Remedy = Ignore | ForceProposal | FailTask

  function RemedyFor(s: State, id: string, leader: bool, servers: Option<nat>): Remedy {
    if id !in s.tasks then Ignore
    else if !(s.tasks[id].status.Admitted? && leader) then FailTask
    else if servers.None? then Ignore
    else if |AnswersOf(s, id)| >= Quorum(servers.value) then ForceProposal
    else FailTask
  }

  function Timeout(p: Twin, id: string, leader: bool, servers: Option<nat>, aggregate: Option<string>,
                   ok: bool): TimeoutResult {
    match RemedyFor(p.live, id, leader, servers)
    case Ignore => TimeoutResult(p, false)
    case ForceProposal =>
      var r := Propose(p, id, true, servers, aggregate, ok);
      TimeoutResult(r.twin, r.armed)
    case FailTask => TimeoutResult(Commit(p, UpdateTask(TimeoutRecord(id)), ok), false)
  }

  // ---- Timers -----------------------------------------------------------------------------

  /** `table` is the engine's map from tasks to timers. `running` holds every timer that can still
      fire, in the table or not; `queue` the fired ones that wait for the event loop. */
  datatype Timers = Timers(table: map<string, nat>, running: map<nat, string>, next: nat, queue: seq<string>)

  function Stop(t: Timers, id: string): Timers {
    if id in t.table then t.(running := t.running - {t.table[id]}, table := t.table - {id}) else t
  }

  function Start(t: Timers, id: string): Timers {
    var u := Stop(t, id);
    u.(running := u.running[u.next := id], table := u.table[id := u.next], next := u.next + 1)
  }

  function Fire(t: Timers, timer: nat): Timers
    requires timer in t.running
  {
    var id := t.running[timer];
    t.(running := t.running - {timer}, table := t.table - {id}, queue := t.queue + [id])
  }

  /** The event loop takes the oldest timeout and forgets the timer of that task, running or not. */
  function TakeTimeout(t: Timers): Timers
    requires t.queue != []
  {
    t.(table := t.table - {t.queue[0]}, queue := t.queue[1..])
  }

  /** Timer numbers are never reused, and the table leads to timers of the right task. */
  ghost predicate TimersOk(t: Timers) {
    && (forall k :: k in t.running ==> k < t.next)
    && (forall id :: id in t.table ==>
          t.table[id] < t.next && (t.table[id] in t.running ==> t.running[t.table[id]] == id))
  }

  // ---- Steps of the leader ----------------------------------------------------------------

  /** `watched` are the tasks whose admission this leader has handled. */
  datatype Leader = Leader(me: string, twin: Twin, timers: Timers, watched: set<string>)

  /** What the outside world does during one handler: whether the configuration can be read, what
      the language model answers, and whether the entry reaches the log. */
  datatype Io = Io(readable: bool, llm: Option<string>, ok: bool)

  datatype Step =
    | Deliver(cmd: Command)
    | OnAdmitted(id: string)
    | OnAnswer(id: string, io: Io)
    | OnVote(id: string, io: Io, lost: set<string>)
    | OnFinished(id: string)
    | OnFire(timer: nat)
    | OnTimeout(io: Io)
    | Handover(next: string)
    | Aside(node: string, tick: Tick)

  /** What the engine of a node that does not lead does: its timers go off, it takes a timeout, whose
      entry is refused because the node does not lead, and it handles the end of a task. */
  datatype Tick = Fires(timer: nat) | TakesTimeout | Completes(id: string)

  function Servers(c: Config, io: Io): Option<nat> {
    if io.readable then Some(|c.members|) else None
  }

  /** What the model assumes of the environment: task identifiers are fresh and tasks are admitted
      as the service builds them; voters are members and vote on a proposal, so in a round of at
      least 1; tasks and reputations are updated by the engine only. */
  ghost predicate Legal(c: Config, l: Leader, step: Step) {
    match step
    case Deliver(cmd) =>
      (match cmd
       case AdmitTask(t) => t.id !in l.twin.live.tasks && t.status.Admitted? && t.round == 0 && t.proposals == map[]
       case SubmitVote(v) => v.agentId in c.members && v.round >= 1
       case UpdateTask(_) => false
       case UpdateReputation(_, _) => false
       case _ => true)
    case OnFinished(id) => id in l.twin.live.tasks && Finished(l.twin.live.tasks[id].status)
    case OnFire(timer) => timer in l.timers.running
    case OnTimeout(_) => l.timers.queue != []
    case Handover(_) => false
    case Aside(_, _) => false
    case _ => true
  }

  ghost function Next(c: Config, l: Leader, step: Step): Leader
    requires Legal(c, l, step)
  {
    match step
    case Deliver(cmd) => l.(twin := Commit(l.twin, cmd, true))
    case OnAdmitted(id) =>
      l.(timers := Start(l.timers, id), watched := if id in l.twin.live.tasks then l.watched + {id} else l.watched)
    case OnAnswer(id, io) =>
      if id !in l.twin.live.tasks then l
      else
        var r := Propose(l.twin, id, false, Servers(c, io), io.llm, io.ok);
        l.(twin := r.twin, timers := if r.armed then Start(l.timers, id) else l.timers)
    case OnVote(id, io, lost) => l.(twin := Finalize(c, l.me, l.twin, id, Servers(c, io), io.llm, io.ok, lost).twin)
    case OnFinished(id) => l.(timers := Stop(l.timers, id))
    case OnFire(timer) => l.(timers := Fire(l.timers, timer))
    case OnTimeout(io) =>
      var id := l.timers.queue[0];
      var r := Timeout(l.twin, id, true, Servers(c, io), io.llm, io.ok);
      var t := TakeTimeout(l.timers);
      l.(twin := r.twin, timers := if r.armed then Start(t, id) else t)
  }

  lemma KeepsLeading(c: Config, l: Leader, step: Step)
    requires Legal(c, l, step)
    ensures Next(c, l, step).me == l.me
  {
  }

  // ---- Runs of a cluster ------------------------------------------------------------------

  /** The leader, and the replica and the timers of every other node. A node that led before still
      shows what it once wrote through its task pointers, and its timers still run. */
  datatype Cluster = Cluster(leader: Leader, others: map<string, State>, clocks: map<string, Timers>)

  /** What the step makes of another replica `s`: it applies the entries that reach the log. */
  ghost function Follow(c: Config, l: Leader, step: Step, s: State): State
    requires Legal(c, l, step)
  {
    Next(c, l.(twin := Twin(l.twin.live, s)), step).twin.committed
  }

  /** What a step does on the leader's side does not depend on the other side. */
  lemma LiveAlone(c: Config, l: Leader, step: Step, s: State)
    requires Legal(c, l, step)
    ensures var m := Next(c, l.(twin := Twin(l.twin.live, s)), step);
            m.twin == Twin(Next(c, l, step).twin.live, Follow(c, l, step, s))
  {
  }

  ghost function Followers(c: Config, l: Leader, step: Step, others: map<string, State>): (m: map<string, State>)
    requires Legal(c, l, step)
    ensures m.Keys == others.Keys && forall n :: n in others ==> m[n] == Follow(c, l, step, others[n])
  {
    MapOf(others.Keys, n requires n in others => Follow(c, l, step, others[n]))
  }

  /** Steps made by the node that leads. */
  predicate LeaderActs(step: Step) {
    !step.Handover? && !step.Aside?
  }

  ghost predicate TickOk(s: State, t: Timers, tick: Tick) {
    match tick
    case Fires(timer) => timer in t.running
    case TakesTimeout => t.queue != []
    case Completes(id) => id in s.tasks && Finished(s.tasks[id].status)
  }

  function Ticked(t: Timers, tick: Tick): Timers
    requires tick.Fires? ==> tick.timer in t.running
    requires tick.TakesTimeout? ==> t.queue != []
  {
    match tick
    case Fires(timer) => Fire(t, timer)
    case TakesTimeout => TakeTimeout(t)
    case Completes(id) => Stop(t, id)
  }

  /** Any node may lead next, the same one included. */
  ghost predicate Enabled(c: Config, k: Cluster, step: Step) {
    match step
    case Handover(next) => next == k.leader.me || (next in k.others && next in k.clocks)
    case Aside(n, tick) => n in k.others && n in k.clocks && TickOk(k.others[n], k.clocks[n], tick)
    case _ => Legal(c, k.leader, step)
  }

  /** The next leader starts from its own replica and its own timers. */
  ghost function Move(c: Config, k: Cluster, step: Step): Cluster
    requires Enabled(c, k, step)
  {
    if step.Handover? then
      var nodes, clocks := k.others[k.leader.me := k.leader.twin.live], k.clocks[k.leader.me := k.leader.timers];
      Cluster(Leader(step.next, Twin(nodes[step.next], k.leader.twin.committed), clocks[step.next], {}),
              nodes - {step.next}, clocks - {step.next})
    else if step.Aside? then
      k.(clocks := k.clocks[step.node := Ticked(k.clocks[step.node], step.tick)])
    else
      Cluster(Next(c, k.leader, step), Followers(c, k.leader, step, k.others), k.clocks)
  }

  /** A run: every step is possible where it is taken. */
  ghost predicate Run(c: Config, k: Cluster, steps: seq<Step>)
    decreases |steps|
  {
    steps == [] || (Enabled(c, k, steps[0]) && Run(c, Move(c, k, steps[0]), steps[1..]))
  }

  ghost function After(c: Config, k: Cluster, steps: seq<Step>): Cluster
    requires Run(c, k, steps)
    decreases |steps|
  {
    if steps == [] then k else After(c, Move(c, k, steps[0]), steps[1..])
  }

  const NO_TIMERS: Timers := Timers(map[], map[], 0, [])

  /** The empty cluster with `me` in the lead. */
  ghost function Initial(c: Config, me: string): (k: Cluster)
    ensures forall n :: n in k.others ==> k.others[n] == EMPTY
    ensures forall n :: n in k.clocks ==> k.clocks[n] == NO_TIMERS
    ensures k.others.Keys == k.clocks.Keys == c.members - {me}
  {
    var others := c.members - {me};
    Cluster(Leader(me, Twin(EMPTY, EMPTY), NO_TIMERS, {}), MapOf(others, n => EMPTY), MapOf(others, n => NO_TIMERS))
  }

  ghost predicate Reached(c: Config, me: string, k: Cluster) {
    exists steps :: Run(c, Initial(c, me), steps) && After(c, Initial(c, me), steps) == k
  }

  /** `s` is what some node holds, or what the log says. */
  ghost predicate Holds(k: Cluster, s: State) {
    s == k.leader.twin.live || s == k.leader.twin.committed || exists n :: n in k.others && k.others[n] == s
  }

  lemma {:induction false} RunConcat(c: Config, k: Cluster, a: seq<Step>, b: seq<Step>)
    requires Run(c, k, a) && Run(c, After(c, k, a), b)
    ensures Run(c, k, a + b) && After(c, k, a + b) == After(c, After(c, k, a), b)
    decreases |a|
  {
    hide Move, Enabled;
    if a == [] {
      assert a + b == b;
    } else {
      RunConcat(c, Move(c, k, a[0]), a[1..], b);
      assert (a + b)[1..] == a[1..] + b;
    }
  }

  /** Steps in which the entry, if any, reaches the log. */
  predicate Commits(step: Step) {
    match step
    case OnAnswer(_, io) => io.ok
    case OnVote(_, io, _) => io.ok
    case OnTimeout(io) => io.ok
    case _ => true
  }

  predicate Reads(step: Step) {
    match step
    case OnAnswer(_, io) => io.readable
    case OnVote(_, io, _) => io.readable
    case OnTimeout(io) => io.readable
    case _ => true
  }
}
