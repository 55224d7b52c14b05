/** Tasks as the objects that pointers lead to, and one-shot subscription channels. */
module Objects {
  import opened Core
  import opened Replica

  /** What a task pointer leads to. The identity never changes; the progress is updated in place. */
  class Task {
    const id: string
    const content: string
    const requester: string
    const createdAt: int
    var status: Status
    var result: string
    var confidence: real
    var round: int
    var proposals: map<int, string>

    constructor (rec: TaskRecord)
      ensures Value() == rec
    {
      id, content, requester, createdAt := rec.id, rec.content, rec.requester, rec.createdAt;
      status, result, confidence, round, proposals := rec.status, rec.result, rec.confidence, rec.round, rec.proposals;
    }

    function Value(): (rec: TaskRecord)
      reads this
      ensures rec.id == id
    {
      TaskRecord(id, content, requester, createdAt, status, result, confidence, round, proposals)
    }

    method Update(t: TaskRecord)
      modifies this
      ensures Value() == Updated(old(Value()), t)
    {
      status, result, confidence, round, proposals := t.status, t.result, t.confidence, t.round, t.proposals;
    }
  }

  datatype Payload = RepPayload(rep: int) | TaskPayload(task: Task) | MetaPayload(meta: AgentMetadata)

  datatype Entry = Entry(key: string, value: Payload, version: nat)

  const CHANNEL_CAPACITY := 1

  /** A buffered channel made for one notification. Sending to a closed channel, or closing it
      twice, would stop the program; the preconditions rule both out. */
  class Channel {
    ghost const key: string    // what the subscription is about
    ghost const asked: nat     // the version the subscriber had
    ghost const since: nat     // the version of the key when the channel was made
    ghost var sent: seq<Entry> // everything ever sent
    var buffer: seq<Entry>
    var closed: bool

    constructor (ghost key: string, ghost asked: nat, ghost since: nat)
      ensures this.key == key && this.asked == asked && this.since == since
      ensures sent == [] && buffer == [] && !closed
    {
      this.key, this.asked, this.since := key, asked, since;
      sent, buffer, closed := [], [], false;
    }

    method TrySend(e: Entry) returns (dropped: bool)
      requires !closed
      modifies this
      ensures !closed
      ensures dropped <==> |old(buffer)| >= CHANNEL_CAPACITY
      ensures if dropped then buffer == old(buffer) && sent == old(sent)
              else buffer == old(buffer) + [e] && sent == old(sent) + [e]
    {
      dropped := |buffer| >= CHANNEL_CAPACITY;
      if !dropped {
        buffer := buffer + [e];
        sent := sent + [e];
      }
    }

    method Close()
      requires !closed
      modifies this`closed
      ensures closed
    {
      closed := true;
    }

    method Receive() returns (e: Entry)
      requires buffer != []
      modifies this`buffer
      ensures [e] + buffer == old(buffer)
    {
      e := buffer[0];
      buffer := buffer[1..];
    }
  }
}
