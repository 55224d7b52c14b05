/** The records exchanged by the agents and the commands written to the replicated log. */
module Core {

  datatype Option<+T> = None | Some(value: T)

  datatype Status = Admitted | Brainstorm | Proposal | Voting | Done | Failed

  predicate Finished(status: Status) {
    status.Done? || status.Failed?
  }

  /** A task as a value: what a command carries and what a task pointer currently shows.
      A missing map of proposals and an empty one have the same encoding, so both are `map[]`. */
  datatype TaskRecord = TaskRecord(
    id: string, content: string, requester: string, createdAt: int,
    status: Status, result: string, confidence: real, round: int, proposals: map<int, string>)

  datatype Answer = Answer(taskId: string, agentId: string, content: string)

  datatype Vote = Vote(
    taskId: string, agentId: string, accepted: bool, reasoning: string, rebuttal: string, round: int)

  datatype AgentMetadata = AgentMetadata(id: string, provider: string, model: string)

  /** A log entry after decoding. `Undecodable` stands for an entry, or a payload, that the
      decoder rejects; `Unknown` for a command type that the state machine does not handle. */
  datatype Command =
    | UpdateReputation(agent: string, rep: int)
    | AdmitTask(task: TaskRecord)
    | SubmitAnswer(answer: Answer)
    | UpdateTask(task: TaskRecord)
    | SubmitVote(vote: Vote)
    | UpdateMetadata(meta: AgentMetadata)
    | Unknown
    | Undecodable

  const TASK_PREFIX := "task"
  const REPUTATION_PREFIX := "reputation"
  const METADATA_PREFIX := "metadata"

  function Key(prefix: string, id: string): string {
    prefix + ":" + id
  }

  lemma KeyInjective(prefix: string, a: string, b: string)
    requires Key(prefix, a) == Key(prefix, b)
    ensures a == b
  {
    assert Key(prefix, a)[|prefix| + 1..] == a;
    assert Key(prefix, b)[|prefix| + 1..] == b;
  }

  const PREFIXES: set<string> := {TASK_PREFIX, REPUTATION_PREFIX, METADATA_PREFIX}

  /** A key tells its family and its identifier. */
  lemma KeyMeans(p: string, a: string, q: string, b: string)
    requires p in PREFIXES && q in PREFIXES && Key(p, a) == Key(q, b)
    ensures p == q && a == b
  {
    KeysApart(a, b);
    KeysApart(b, a);
    assert p == q;
    KeyInjective(p, a, b);
  }

  /** The three key families never meet: their first letters differ. */
  lemma KeysApart(a: string, b: string)
    ensures Key(TASK_PREFIX, a) != Key(REPUTATION_PREFIX, b)
    ensures Key(TASK_PREFIX, a) != Key(METADATA_PREFIX, b)
    ensures Key(REPUTATION_PREFIX, a) != Key(METADATA_PREFIX, b)
  {
    assert Key(TASK_PREFIX, a)[0] == 't' && Key(TASK_PREFIX, b)[0] == 't';
    assert Key(REPUTATION_PREFIX, a)[0] == 'r' && Key(REPUTATION_PREFIX, b)[0] == 'r';
    assert Key(METADATA_PREFIX, b)[0] == 'm';
  }

  /** `m` has these keys, with the values that `f` gives them. */
  ghost predicate Tabulates<V(!new)>(m: map<string, V>, keys: set<string>, f: string --> V)
    requires forall k :: k in keys ==> f.requires(k)
  {
    m.Keys == keys && forall k :: k in keys ==> m[k] == f(k)
  }

  /** The map with these keys and values, filled in any order. */
  ghost function MapOf<V(!new)>(keys: set<string>, f: string --> V): (m: map<string, V>)
    requires forall k :: k in keys ==> f.requires(k)
    ensures m.Keys == keys && forall k :: k in keys ==> m[k] == f(k)
  {
    MapExists(keys, f);
    var m :| Tabulates(m, keys, f);
    m
  }

  lemma {:induction false} MapExists<V(!new)>(keys: set<string>, f: string --> V)
    requires forall k :: k in keys ==> f.requires(k)
    ensures exists m :: Tabulates(m, keys, f)
  {
    if keys == {} {
      assert Tabulates(map[], keys, f);
    } else {
      var k :| k in keys;
      MapExists(keys - {k}, f);
      var m :| Tabulates(m, keys - {k}, f);
      assert Tabulates(m[k := f(k)], keys, f);
    }
  }

  function Min(a: int, b: int): int {
    if a < b then a else b
  }

  function Max(a: int, b: int): int {
    if a < b then b else a
  }
}
