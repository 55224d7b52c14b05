# Verification of the Gravity AI task protocol

Gravity AI lets a cluster of agents agree on the answer to a task. A replicated log feeds a state
machine on every node; the leader moves each task through answers, a proposal, rounds of votes and
revisions, and an outcome; reputations move with every outcome and decide who leads. This project
models those parts in Dafny and proves what they keep over every log, every interleaving and every
run, including runs in which log entries are lost and the leader changes.

## How it is organised

| file | what it holds |
|---|---|
| `Core.dfy` | tasks, answers, votes, log commands and the keys of the state machine |
| `Replica.dfy` | the state machine as a fold over the log; snapshots and restoring |
| `ReplicaLaws.dfy` | laws of whole logs: versions, votes, replay, restored against full replicas |
| `Voting.dfy` | counts, thresholds, verdicts, confluence, the fallback round |
| `Reputation.dfy` | the clamped walk, one finalization, confidence, the choice of a new leader |
| `Protocol.dfy` | the leader's handlers as state transformations, timers, clusters and runs |
| `OneLog.dfy` | what a step does to all other nodes: they apply the same entries |
| `Safety.dfy` | done means backed by a quorum, in every reachable state and on every node |
| `Texts.dfy` | the result of a done task is the one text put to the vote for its round |
| `Progress.dfy` | runs in which entries reach the log: histories and the budget of votes |
| `Past.dfy` | the rounds left behind and the fallback, over every run |
| `Bounds.dfy` | voting ends over every run |
| `Lifecycle.dfy` | finished tasks, at most one finalization, reputation over whole runs |
| `Deadlines.dfy` | timers cover every unfinished task; when a finished task is final |
| `Edges.dfy` | where code and documentation part, with exact conditions |
| `Examples.dfy` | runs from the empty cluster that reach those cases |
| `Objects.dfy`, `SyncMapFSM.dfy` | the node's state machine as a class changed in place |
| `Waiting.dfy` | any interleaving at a node, and the client that waits for a task |
| `Engine.dfy` | the event loop as a class; each handler makes the protocol step it stands for |
| `Transport.dfy` | the reputation filter on vote requests, and elections under it |
| `History.dfy` | the history and the feedback that validators are shown |

There are two layers. The classes follow the Go methods: they update tasks through pointers, edit
maps, send on channels, stop and start timers. Each method is proved to do what a function of the
second layer says (`View() == Apply(old(View()), cmd)` for the state machine, `System() ==
P.Next(config, old(System()), step)` for the engine). The lemmas are about the second layer, over
whole logs and runs, and so speak about the methods.

The leader's own replica may run ahead of the log, because handlers write through live task
pointers before `Raft.Apply` answers. A `Twin` therefore holds both sides: what the leader sees and
what the log says. An entry either reaches the log and both sides, or is lost and leaves only what
was written through the pointer. A `Cluster` adds the replicas and the timers of all other nodes. They
apply the entries, and each keeps what its own node wrote while it led; their timers run on, and a
timeout that they take is refused. Whoever leads next starts from its own replica, stale writes
included, and from its own timers. A handler that still runs on a node that has lost its leadership is
a run in which that node leads once more and its entry is lost.

## What is assumed

- The members are a fixed, non-empty set; the server count is their number. Reading the
  configuration may fail at any step.
- Voters are members, and vote in a round of at least 1, as the agents do (`Legal` in
  `Protocol.dfy`). `Apply` checks neither. `Edges.VerdictsStandIff` and `Edges.WaitingTaskIsDoneIff`
  say what happens otherwise.
- For `Texts.DoneIsTheTextVotedOn` only: a vote is on a round for which the log has put a text to
  the vote, as agents vote when a committed proposal reaches them.
- Task identifiers are fresh, and tasks are admitted as the service builds them. Tasks and
  reputations are updated by the engine only.
- `Raft.Apply` is one step: the entry is appended and applied, or nothing happens. There is one
  ordered log.
- The language model is arbitrary: it may return any text or fail.
- A timer may fire at any moment. Events reach the engine in any order, late, repeated or never:
  every handler step may be taken in any state.
- Integers are unbounded, so versions (64 bits in the code) do not wrap. The confidence score is
  an exact ratio instead of a floating-point number.
- A missing map of proposals and an empty one are the same value; they have the same meaning
  wherever the code reads them after decoding.
- While `waitForTask` waits, entries may be applied at every point of its loop; when an entry has
  been delivered and the context has ended as well, either may be taken.

## Where the code and its documentation disagree

The model follows the code. Each point is a lemma with its exact condition.

- The snapshot is written with the field `KeyVersions` (`internal/raft/fsm/fsm.go:56`) and read as
  `key_versions` (`internal/raft/fsm/fsm.go:83`), so the key versions are lost. `Transmit` has
  both behaviours; `ReplicaLaws.VersionDrift` gives the difference for either.
- At the round limit the documentation promises the round with the most accepts
  (`README.md:79-81`). When the last round ends with all votes in and no consensus, the code looks
  at that round alone: `Edges.SplitMatchesDocumentationIff`, `Examples.SplitDropsTheBestRound`.
- The documentation says that a quorum of accepts completes a task (`README.md:74`). The code asks
  for `TargetConsensus` if that is more: `Edges.QuorumSufficesIff`. A target beyond the number of
  agents is never met: `Edges.TargetReachableIff`.
- `Apply` files the vote of anybody. Verdicts stand exactly while there are no more voters than
  servers: `Edges.VerdictsStandIff`. A vote filed under round 0 can complete a task that has no
  proposal: `Edges.WaitingTaskIsDoneIff`, `Edges.RoundZeroVoteCompletes`.
- An answer that arrives after the proposal makes the leader give up its leadership:
  `Edges.ProposalFailsIff`, `Agent.Engine.HandleRaftEvent`. An error after a vote does not, because
  the inner `err` shadows the one that the deferred check reads
  (`internal/engine/engine.go:142-147`). Answers are counted, not the agents behind them.
- If the entry of a fallback is lost, the live task stays on the earlier round, and a later
  finalization may rewrite a proposal that has been voted on: `Lifecycle.RewritesIff`,
  `Examples.LostFallbackIsReachable`. Still no task is done with a rewritten text that the quorum did
  not vote on: `Safety.DoneIsAlwaysBacked`, `Texts.DoneIsTheTextVotedOn`.
- The timeout handler has no guard for finished tasks, so a done task fails if a timeout of it is
  queued or a timer still runs, and only then: `Deadlines.DoneStaysIff`, `Examples.DoneCanFail`. When
  stopping the timer on completion rules that out: `Deadlines.StopSilencesIff`. It does not if a timer
  was started between a timeout and its handling, which forgets that timer:
  `Deadlines.TakeKeepsTrackIff`.
- The documentation says that an agent rejects candidates of lower reputation, and that reputations
  start at 100 (`README.md:43`, `README.md:49-51`). No code records the 100. The election filter looks
  the candidate up by its address and takes a missing record for 0, where the engine takes it for
  100: `Transport.FilterMatchesDocumentationIff`, `Transport.FilterMissesTheDefault`,
  `Transport.ForeignAddressIff`. No other file creates the filter.
- A snapshot holds no votes (`internal/raft/fsm/syncMapFSM.go:374`). A restored node that leads counts
  second votes: `Edges.RestoredLeaderIsBackedIff`, `Examples.RestoredLeaderCanErr`.
- After a lost fallback the validator of round 1 is shown a history without rounds:
  `History.LostFallbackShowsEmptyHistory`.
- `waitForTask` returns a task only when it is done; for a failed one it waits until the context
  ends (`internal/http/handlers.go:113`).
- A test speaks of a second vote overwriting the first
  (`internal/raft/fsm/syncMapFSM_test.go:125`). The first vote stands:
  `ReplicaLaws.VotesAfterReplay`.

## Model

| member | source | states |
|---|---|---|
| Safety.DoneIsAlwaysBacked | internal/engine/engine.go:414-724 | In every state reachable from the empty cluster, in the log, on the leader and on every other node, with lost entries and with earlier leaders that lead again from their own stale writes: a done task shows the proposal recorded for its round, the round is within the limit, and a quorum of the members accepted that round |
| Texts.DoneIsTheTextVotedOn | internal/engine/engine.go:505-568 | In all these states, if votes are on rounds put to the vote: the result of a done task was put to the vote for its round, and no other text ever was, so a quorum accepted this very text, although lost fallbacks let other rounds be rewritten |
| Texts.DeadIsNeverDone | internal/engine/engine.go:536-631 | A round that was closed, was rejected if it is the last, and is beaten by an earlier one if a quorum accepted it, is never the round of a success |
| Texts.LeftBehind | internal/engine/engine.go:531-568 | Every round after the one that a fallback goes back to is of that kind |
| Safety.DecisionIsSound | internal/engine/engine.go:469-637 | All three ways to succeed (target met, fallback, more accepts than rejects with all votes in) name a round that a quorum accepted and the proposal recorded for it; a revision stays below the limit |
| Safety.RunKeepsOk | internal/engine/engine.go:98-150 | Every step of every run, changes of leader included, keeps the invariant on every node: proposals are those of rounds 1 to some last one, results are recorded proposals, any two nodes and the log differ in the progress of tasks only |
| OneLog.StepAppends | internal/engine/engine.go:320-326 | Every step of the leader appends a list of entries, and the replica of every other node becomes the fold of its own state over just these |
| OneLog.CommittedIsTheLog | internal/raft/fsm/syncMapFSM.go:234-355 | After any run the log side is the fold over the log, and so is every node that never led |
| OneLog.PaymentsAreEntries | internal/engine/engine.go:687-717 | The payments of a finalization are a list of reputation entries |
| Progress.StepInSync | internal/engine/engine.go:482-528 | When its entry reaches the log, a step leaves the leader equal to the log and moves each task in one of five ways; rounds rise by one and stop at the limit |
| Progress.ReachableInSync | internal/engine/engine.go:505-512 | Every state that a run without lost entries reaches from the empty cluster has all nodes equal to the log and, for each task under vote, proposals for exactly the rounds 1 to the current one, all earlier rounds closed |
| Progress.ProposalsStand | internal/engine/engine.go:505-512 | Over such runs a recorded proposal is never rewritten unless its task fails, rounds never fall, and a done task stays as it is or fails |
| Past.FallbackIsRight | internal/engine/engine.go:531-573 | With a quorum of rejects at the limit, on any node in any reachable state: the task is done exactly when some round has a quorum of accepts; the round chosen has the most accepts, the latest on a tie; it is an earlier round in which everybody voted short of the target, and its proposal is the result |
| Past.PastIsAlwaysClosed | internal/engine/engine.go:477-528 | In every reachable state, on every node and in the log, with lost entries and changes of leader: each round that a task under vote has left behind was rejected by a quorum, or everybody voted in it short of the target |
| Progress.FinalizeNeverWaits | internal/engine/engine.go:574-636 | With all votes of the round in and the configuration readable, finalization always reaches a decision, also on a leader out of step with the log; it reports an error exactly if its entry is lost, and once the entry is in the log, the task has finished or opened the next round on both sides |
| Progress.BudgetFalls | internal/engine/engine.go:482-528 | For steps whose entry reaches the log, on a leader in step with it: the number of votes a task can still absorb never rises and falls with every vote that counts |
| Bounds.VotingIsBounded | internal/engine/engine.go:482-528 | Over any run, with lost entries, unreadable configurations and changes of leader: the votes that count and those filed before are together at most max(1, MaxRounds) times n |
| Bounds.VotingEnds | internal/engine/engine.go:482-528 | From the empty cluster a task takes in at most max(1, MaxRounds) times n votes that count |
| Progress.VotesNeverShrink | internal/raft/fsm/syncMapFSM.go:322-334 | No step, whatever is lost, takes back or changes a vote |
| Voting.ThresholdsExclusive | internal/engine/engine.go:469-479 | No round of members meets both thresholds, so the order of the branches is irrelevant |
| Voting.VerdictMeaning | internal/engine/engine.go:444-479 | The verdicts in numbers: accepted exactly when the accepts reach the target and are more than half; rejected if not and more than half reject; split if neither and as many votes as servers; else waiting |
| Voting.QuorumIsTheLeastMajority | internal/engine/engine.go:445 | A quorum is the least number that is more than half |
| Voting.VerdictStands | internal/engine/engine.go:469-479 | A verdict other than waiting is never undone by later votes of members |
| Voting.RejectedNeverEligible | internal/engine/engine.go:554 | A round rejected by a quorum never collects a quorum of accepts, not even from late votes |
| Voting.VotesAreTheBallots | internal/raft/fsm/syncMapFSM.go:316-340 | What a replica holds for a round depends on the ballots cast, not on their order or on the commands between them |
| Voting.VotingIsConfluent | internal/engine/engine.go:444-479 | Two logs with the same ballots, one from each member, in any order and with anything in between: looked at anywhere, they never give two different verdicts, and in the end they give one |
| Voting.BestRoundIsBest | internal/engine/engine.go:536-561 | The loop finds a round exactly when one is eligible; no eligible round has more accepts and every later one has fewer |
| Voting.BestRoundIsUnique | internal/engine/engine.go:554-560 | That round is determined |
| ReplicaLaws.TaskAfterReplay | internal/raft/fsm/syncMapFSM.go:254-315 | What becomes of a task depends on its own commands in the log and on nothing else |
| ReplicaLaws.AdmissionForgets | internal/raft/fsm/syncMapFSM.go:254-259 | Once a log admits a task, what happened to it before the log is irrelevant |
| ReplicaLaws.UpdatesOnlyOverwrite | internal/raft/fsm/syncMapFSM.go:292-303 | Without an admission a log neither creates nor removes the task, and a second time changes nothing |
| ReplicaLaws.VotesAfterReplay | internal/raft/fsm/syncMapFSM.go:332-334 | After any log each agent's vote in a round is the one held before, or else the first one in the log |
| ReplicaLaws.LastWriteWins | internal/raft/fsm/syncMapFSM.go:243-253 | Reputations and metadata are those of the last entry about the agent |
| ReplicaLaws.ReplayTwice | internal/raft/fsm/syncMapFSM.go:234-355 | Applying any log segment twice in a row gives the same tasks, votes, reputations and metadata as applying it once, from every state |
| ReplicaLaws.ReplayTwiceExceptions | internal/raft/fsm/syncMapFSM.go:281-283 | Answers and versions are exceptions: logs exist that change them the second time |
| ReplicaLaws.VersionsCountEffects | internal/raft/fsm/syncMapFSM.go:221-231 | For every log the version of a key grows by the number of entries that took effect on it; an update counts only if its task was there |
| ReplicaLaws.RestoredSimulatesFull | internal/raft/fsm/syncMapFSM.go:358-431 | A restored and a full replica, given any same log, agree on reputations, metadata and all tasks but those finished at the snapshot and not admitted again; the restored one holds exactly the votes and answers of the log |
| ReplicaLaws.VersionDrift | internal/raft/fsm/fsm.go:52-84 | By how much the versions of the two differ, key by key, with and without the mismatch of field names |
| ReplicaLaws.RestoredVersionsAgreeIff | internal/raft/fsm/syncMapFSM.go:424-428 | With versions carried over they agree on every key exactly when the log updates no task already finished at the snapshot |
| ReplicaLaws.RestoreIsIdempotent | internal/raft/fsm/syncMapFSM.go:412-428 | Taking a snapshot of a restored replica and restoring it changes nothing |
| ReplicaLaws.LateTasksAreHarmless | internal/raft/fsm/syncMapFSM.go:372 | The task table is shared with a snapshot; written out while the log goes on, each task at any moment of its own, it still gives the right reputations, metadata and tasks when the whole log is applied on top, but for tasks read as finished and not admitted in it |
| ReplicaLaws.FiledIffVersioned | internal/raft/fsm/syncMapFSM.go:221-231 | After every log from the start, a key has a version exactly when something is filed under it |
| Replica.SnapshotsAreRestorable | internal/raft/fsm/syncMapFSM.go:254-340 | Every snapshot of a replica can be restored: tasks and votes stay filed under their own identifiers over every log, and after restoring |
| Fsm.SyncMapFSM.ApplyEntry | internal/raft/fsm/syncMapFSM.go:234-355 | The class makes the step of the fold, whatever its node, subscribers and event queue; it fails exactly on what cannot be decoded. With room in the queue the engine is handed exactly one event: an admission or an update with the live pointer, an answer, or the first vote of an agent in a round, and nothing for anything else. An open channel is informed exactly when its key moves, with the value that the key has then and its new version, and no other channel is touched |
| Fsm.SyncMapFSM.Subscribe | internal/raft/fsm/syncMapFSM.go:122-159 | Behind an existing value: one entry at once on a closed channel, table unchanged; otherwise the channel waits, registered; the replicated state is not touched |
| Fsm.SyncMapFSM.IncrementVersion | internal/raft/fsm/syncMapFSM.go:221-231 | The key moves by one and exactly its registered channels fall due |
| Fsm.SyncMapFSM.NotifySubscribers | internal/raft/fsm/syncMapFSM.go:161-188 | Every channel registered for the key receives exactly this entry and is closed, no other is touched, none was full; every channel is open exactly while registered |
| Fsm.SyncMapFSM.OverwriteTask | internal/raft/fsm/syncMapFSM.go:298-303 | An update through the pointer changes one task of the table and keeps its identity |
| Fsm.SyncMapFSM.ApplyVote | internal/raft/fsm/syncMapFSM.go:316-340 | Files the vote as the fold does, the first one of an agent in a round only |
| Fsm.SyncMapFSM.GetTaskVotes | internal/raft/fsm/syncMapFSM.go:41-54 | An unknown task is an error, an unknown round of a known task is empty |
| Fsm.SyncMapFSM.GetReputation | internal/raft/fsm/syncMapFSM.go:56-62 | The record, or 100 |
| Waiting.BehindFindsValue | internal/raft/fsm/syncMapFSM.go:141-219 | On a node that applied its log from the start, whoever asks for a key that has moved finds its value, so a subscriber that is behind is always answered at once; a key that never moved has none but the default reputation |
| Fsm.SyncMapFSM.TakeSnapshot | internal/raft/fsm/syncMapFSM.go:358-389 | What is written out is the snapshot of the state, over the very task table of the replica |
| Fsm.SyncMapFSM.RestoreFrom | internal/raft/fsm/syncMapFSM.go:392-431 | The state becomes that of the snapshot without finished tasks, answers and votes; subscription channels stay sound |
| Waiting.Drive | internal/raft/fsm/syncMapFSM.go:122-188 | Replicas are deterministic: under any interleaving of entries, subscriptions and event consumption the state is the fold over the entries alone |
| Waiting.Waiter.WaitForTask | internal/http/handlers.go:101-118 | Versions received keep rising; a task that comes back is this task and done; if the waiter gives up, the task is not done, or the waiter preferred the end of its context to an entry that had been delivered, so no update was lost |
| Waiting.Waiter.Listen | internal/state/state.go:134-142 | Resubscribing with the version received last either gets an entry at once or leaves a registered channel, and then the task is not done |
| Waiting.Waiter.World | internal/raft/fsm/syncMapFSM.go:161-188 | While entries are applied, the waiter's channel stays registered or comes to hold one newer entry; while the version of the key stays, so does the task |
| Waiting.StepFacts | internal/raft/fsm/syncMapFSM.go:298-315 | Versions never fall, and an entry that leaves the version of a task's key alone leaves the task alone |
| Lifecycle.FinishedIsKept | internal/engine/engine.go:205-226 | No step takes a finished task back, and only a timeout of that task may change it, to failed; `Deadlines.DoneStaysIff` says when one does |
| Lifecycle.NodesAlwaysAgree | internal/engine/engine.go:313-317 | In every reachable state all nodes, earlier leaders included, know the same tasks and agree on every task that any of them counts as finished |
| Lifecycle.FinalizedAtMostOnce | internal/engine/engine.go:422-425 | Over any run a task moves reputations at most once, whoever leads, and never after it has finished |
| Lifecycle.ReputationIsAWalk | internal/engine/engine.go:687-717 | Over any run every reputation is the clamped walk along the agent's changes: 10 for the leader and 1 for a voter, up if the task succeeds or the vote was on the side of the outcome, down if not |
| Lifecycle.RunKeepsReps | internal/engine/engine.go:726-729 | Over any run all recorded reputations stay in 0 to 100, and all nodes agree on them |
| Lifecycle.OneFinalization | internal/engine/engine.go:689-717 | After one finalization everybody's reputation follows the outcome: Min(100, old + 10) or Max(0, old - 10) for the leader, Min(100, old + 1) for voters on the side of the outcome and Max(0, old - 1) for the others; nobody else and nobody whose update was lost moves; the range is kept |
| Lifecycle.FinalizationPays | internal/engine/engine.go:677-717 | The same of the states after the finalization step, on the leader's side and in the log |
| Lifecycle.OutcomeIsRecorded | internal/engine/engine.go:664-685 | What an outcome records on both sides: status, round, result and the confidence of those who voted in the round that was open; the proposals are kept |
| Lifecycle.ProposalIsRecorded | internal/engine/engine.go:313-329 | What a proposal records: round 1 with its text, on the leader's side at once, in the log only if its entry gets there |
| Lifecycle.TimeoutIsRecorded | internal/engine/engine.go:205-226 | What a timeout records of a task that it fails: the reason as its result, round 0, no proposals, no confidence |
| Lifecycle.RewritesIff | internal/engine/engine.go:505-512 | A finalization rewrites a recorded proposal of the live task exactly when the round is rejected or split below the limit, a revision comes back, and its text differs from the one already recorded for the next round |
| Reputation.WalkKeepsOrder | internal/engine/engine.go:726-729 | Two agents with the same changes keep their order, never move further apart and stay in range |
| Reputation.ConfidenceIsAFraction | internal/engine/engine.go:639-662 | The score lies in 0 to 1, and the scores of the two outcomes add up to 1 when the voters have any reputation |
| Reputation.UnanimousConfidence | internal/engine/engine.go:644-662 | If all voters are on the side of the outcome and have any reputation, the score is 1, and 0 for the other outcome |
| Reputation.ConfidenceFollowsTheVoters | internal/engine/engine.go:644-662 | One more voter on the side of the outcome never lowers the score, and one on the other side never raises it |
| Reputation.SumRepsUnion | internal/engine/engine.go:644-652 | The sum of reputations adds up in any order and over any split of the voters |
| Reputation.WithRepsStep | internal/engine/engine.go:700-717 | Paying a set of agents is paying them one entry at a time, in any order |
| Reputation.TransferSettles | internal/engine/engine.go:743-769 | A target is never the leader itself, and the check repeated at the target transfers nowhere |
| Deadlines.DeadlinesAreCovered | internal/engine/engine.go:152-226 | Over any run in which configuration reads and entries succeed, from the handling of its admission on, every unfinished task has a running timer or a queued timeout |
| Deadlines.DeadlinesFromTheStart | internal/engine/engine.go:772-789 | This holds in every such run from the empty cluster |
| Deadlines.TimeoutCoversIff | internal/engine/engine.go:164-227 | A timeout settles an unfinished task or arms its timer again exactly when the read and the entry it needs succeed; the forced proposal counts even if aggregation fails |
| Deadlines.StartReplaces | internal/engine/engine.go:772-781 | Starting a timer stops the old one of the task, adds exactly one, files it and leaves all other tasks alone; if the table led to every running timer of the task, exactly the new one runs |
| Deadlines.StopRemoves | internal/engine/engine.go:783-789 | Stopping removes the filed timer and nothing else |
| Deadlines.FiresOnceInOrder | internal/engine/engine.go:775-778 | A timer goes off once and its task is queued last; timeouts are taken from the front; both make the engine forget the filed timer of that task only |
| Deadlines.TakeKeepsTrackIff | internal/engine/engine.go:164-166 | Taking a timeout leaves a running timer that no stop finds exactly when one has been started for the task since |
| Deadlines.StopSilencesIff | internal/engine/engine.go:783-789 | Stopping silences a task exactly when no timeout of it is queued and the table leads to every running timer of it |
| Deadlines.DoneStaysIff | internal/engine/engine.go:164-232 | A done task stays exactly as it is, on every node and over every run that does not handle its admission again, changes of leader included, exactly when no node has a running timer or a queued timeout of it; otherwise a run fails it |
| Deadlines.QuietIsFinal | internal/engine/engine.go:229-232 | The same stability for every finished task of which no node has a timer or a queued timeout |
| Examples.DoneCanFail | internal/engine/engine.go:205-226 | In every cluster whose target is within its size, a run from the empty cluster makes a task done and then fails it |
| Agent.Engine.RunFinalizeTask | internal/engine/engine.go:414-724 | The method makes exactly the finalization of the protocol, errors, lost entries and lost payments included; leadership is offered only after an outcome was committed |
| Agent.Engine.Deliberate | internal/engine/engine.go:444-637 | The decision is the one drawn from the verdict; the live task moves at once in the fallback and not otherwise |
| Agent.Engine.Conclude | internal/engine/engine.go:639-720 | The outcome with its confidence reaches the log first, then the payments; if it is lost, nobody is paid |
| Agent.Engine.PublishRevision | internal/engine/engine.go:505-528 | The next round is published; its text lands in the live task's map even if the entry is lost |
| Agent.Engine.CountVotes | internal/engine/engine.go:447-460 | The tallies are the sizes of the two sides, for any order of the votes |
| Agent.Engine.FindBestRound | internal/engine/engine.go:536-561 | The loop finds the best round |
| Agent.Engine.ComputeConfidence | internal/engine/engine.go:639-662 | The loop computes the share of the voters' reputation that sided with the outcome, for any order of the voters |
| Agent.Engine.UpdateReputations | internal/engine/engine.go:687-717 | Each voter and the leader is paid once, for any order of the voters; afterwards every reputation follows the outcome as in `Lifecycle.OneFinalization` |
| Agent.Engine.CheckForLeadershipTransfer | internal/engine/engine.go:743-769 | The target has a maximal record strictly above the leader, or no record is above it |
| Agent.Engine.RunProposalPhase | internal/engine/engine.go:256-331 | The method makes exactly the proposal step: what it refuses, when it waits, that it replaces the timer before aggregation (`Deadlines.StartReplaces`), what stays written if the entry is lost (`Lifecycle.ProposalIsRecorded`) |
| Agent.Engine.HandleTaskTimeout | internal/engine/engine.go:164-227 | The method makes exactly the timeout step, on a leader and elsewhere |
| Agent.Engine.HandleRaftEvent | internal/engine/engine.go:98-150 | On the leader an admission, an answer, a vote and the end of a task each make their own protocol step; elsewhere only the timer of a finished task may change; leadership is dropped exactly when the proposal step after an answer fails; an event whose pointer was replaced by a restore still only touches the timer |
| Agent.Engine.StartTimer | internal/engine/engine.go:772-781 | The old timer of the task no longer runs, and a new one runs and is filed |
| Agent.Engine.WrittenThrough | internal/engine/engine.go:313-317 | A write through a task pointer changes that task on the leader's side and nothing in the log |
| Edges.SplitMatchesDocumentationIff | internal/engine/engine.go:623-631 | With all votes in and no consensus at the limit, on any node in any reachable state, the code does what is documented exactly when no round is eligible or the last one is the best |
| Examples.SplitDropsTheBestRound | internal/engine/engine.go:623-631 | A run from the empty cluster to a state in which it does not: the task fails although an earlier round has a quorum of accepts |
| Edges.TargetReachableIff | internal/engine/engine.go:469-476 | Some round of the members can be accepted outright exactly when the target is at most their number |
| Edges.QuorumSufficesIff | internal/engine/engine.go:469-476 | A quorum of accepts always completes the task exactly when the target is at most a quorum |
| Edges.ProposalFailsIff | internal/engine/engine.go:256-331 | When the proposal phase reports the error on which the leader steps down |
| Edges.WaitingTaskIsDoneIff | internal/engine/engine.go:422-476 | A task that still waits for answers becomes done without any recorded proposal exactly when the votes under round 0 reach the target, or everybody voted, in favour, and no rounds are allowed; it stays exactly when no threshold is met and votes are missing |
| Edges.RoundZeroVoteCompletes | internal/raft/fsm/syncMapFSM.go:322-334 | A log of two entries, an admission and a vote under round 0, after which finalization completes the task without a proposal |
| Edges.VerdictsStandIff | internal/raft/fsm/syncMapFSM.go:332-334 | Among any voters, every verdict stands under later votes exactly when there are no more voters than servers |
| Edges.StrangersBreakStability | internal/raft/fsm/syncMapFSM.go:322-334 | The smallest case: the accept of a stranger turns the rejection of the only member |
| Edges.RestoredVotes | internal/raft/fsm/syncMapFSM.go:420-422 | A restored replica takes second votes: what a full one accepts is what it had accepted before the snapshot plus the late accepts of agents that had not voted; the two hold the same votes exactly when every earlier vote was cast again |
| Edges.RestoredLeaderIsBackedIff | internal/raft/fsm/syncMapFSM.go:420-422 | If a leader restored from a snapshot completes a task, a quorum of the full replicas' votes backs it exactly when the accepts from before and those of new voters are a quorum |
| Examples.RestoredLeaderCanErr | internal/raft/fsm/syncMapFSM.go:420-422 | A reachable state and two late votes for which they are not |
| Examples.LostFallbackIsReachable | internal/engine/engine.go:567-568 | A run from the empty cluster in which a lost fallback leads to a rewritten proposal of a voted round |
| Transport.Run | internal/raft/transport.go:34-63 | Each request is denied or passed on by the records at its time, in the order of arrival |
| Transport.EveryRequestIsHandledOnce | internal/raft/transport.go:34-63 | Denied and passed requests together are the requests that arrived |
| Transport.SortedByTheFilter | internal/raft/transport.go:38-60 | A request is denied exactly if it arrived at a time when it was blocked, and passed on exactly if at one when it was not |
| Transport.OrderIsKept | internal/raft/transport.go:37-61 | Both the denied and the passed requests stand in the order of arrival: they are those at rising positions, exactly the ones that the filter put on that side |
| Transport.ElectedIsAsGoodAsTheMajority | internal/raft/transport.go:40-58 | With one shared view, where a majority stands at some level, an elected candidate does so by the record under its address, or by its own record, and then no other agent at that level granted it |
| Transport.ElectableIff | internal/raft/transport.go:40-58 | A candidate, whose own vote passes no filter, can be elected exactly when it and those that stand no higher than what is filed under its address are a majority |
| Transport.ForeignAddressIff | internal/raft/transport.go:43-48 | A candidate whose address has no record can be elected exactly when, with itself, a majority has no positive record |
| Transport.OwnVoteDecides | internal/raft/transport.go:43-50 | Records for which a candidate that counts as 0 is elected by its own vote although a majority stands at 90 |
| Transport.FilterMatchesDocumentationIff | internal/raft/transport.go:43-50 | For every voter, candidate and address, with records in range or missing: exactly when the filter rejects just the candidates of lower reputation, with the default of 100 that the engine uses |
| Transport.FilterByIdentifierIff | internal/raft/transport.go:43-50 | If addresses are identifiers: exactly when a voter with a positive record meets a candidate with a record, or a voter without one a candidate that counts as 100 |
| Transport.FilterMissesTheDefault | internal/raft/transport.go:43-50 | Records for which a candidate of higher reputation is denied, and one of lower reputation passed on |
| History.FormatHistory | internal/llm/client.go:20-48 | The text is empty without a second proposal; otherwise it says, for every past round in ascending order, its number, its proposal and each piece of its feedback with its position |
| History.HistorySaysAll | internal/llm/client.go:36-46 | Every text that is the history of a context says all this |
| History.HistoryTellsProposals | internal/llm/client.go:37 | Contexts that differ in the proposal of a past round, with proposals of the same lengths and the same feedback, give different texts |
| History.DecimalReadsBack | internal/llm/client.go:37 | A round's number can be read back from its decimal form |
| History.HistoryInFull | internal/llm/client.go:25-47 | One history with a proposal and a piece of feedback, character by character |
| History.HistoryIsUnique | internal/llm/client.go:29-36 | There is one such text, so the order in which the map is visited is irrelevant |
| History.ValidatorsSeeTheHistory | internal/engine/engine.go:335-340 | On any node in any reachable state, the validator of round k is told of exactly the rounds 1 to k-1: the text says, in order, the number, the recorded proposal and the feedback of each; it is empty exactly when there is no second proposal, and then k is 1 |
| History.FirstRoundHasNoHistory | internal/llm/client.go:21-23 | On a replica in step with the log the text is empty exactly when k is 1 |
| History.LostFallbackShowsEmptyHistory | internal/engine/engine.go:567-568 | After a lost fallback, which a run reaches, the validator of round 1 gets a header and a footer without rounds |
| History.GatherFeedback | internal/engine/engine.go:342-356 | Every objection of each earlier round once and nothing else; a round without objections has no entry |
| History.FeedbackIsWhatRejectersSay | internal/engine/engine.go:346-353 | The feedback of a round holds exactly the rebuttals of its rejecting votes, and where one is empty, the reasoning |

## Left out

- The language model clients and prompts: their answers are arbitrary. The lists of rebuttals passed to `Revise` and the answers passed to `Aggregate` are arguments of such calls.
- Generation and submission of answers and votes by the agents: they arrive as entries of the log.
- gRPC, HTTP routing, command line, configuration, logging, task completion streams (`TasksManager`) and the registration of metadata.
- Raft elections, log matching and storage; JSON encoding and `Persist` as input and output.
- An entry whose fate is unknown to the leader (appended although `Raft.Apply` reported a timeout): an entry counts as lost or as applied at once.
- Races in memory on the maps and pointers that getters hand out: each handler and each `Apply` is one step.
- Durations. A timer fires or does not.
- Restoring is no step of a run: runs begin with replicas that hold the whole log. What a restored replica lacks is stated by `ReplicaLaws.RestoredSimulatesFull`, and what it may decide as leader, for one finalization, by `Edges.RestoredLeaderIsBackedIff`.
- Followers that lag: a follower counts as having applied an entry when the leader has. What it shows in between is a shorter log.
- The map of proposals is a value in `Objects.Task`. That a revision reaches the live task through the shared map is modelled where it happens (`Agent.Engine.PublishRevision`); copies of a task handed to the voting goroutine are not.
- Waiting.Waiter.WaitForTask: does not cover a restore during the wait, after which versions may fall.
- Deadlines.DeadlinesAreCovered: covers tasks whose admission the present leader has handled. After a handover the tasks in flight have no timer until then, as in the code.
- Progress.ProposalsStand: for runs in which no entry is lost. What a lost entry can do is stated by `Lifecycle.RewritesIff`, and what it cannot do by `Texts.DoneIsTheTextVotedOn`.
- Progress.BudgetFalls: for committed steps only, since a lost fallback raises the measure. The bound itself holds over every run (`Bounds.VotingIsBounded`).
