/** The append-only event log as a value: event.go. */
module Events {

  datatype Option<+T> = None | Some(value: T)
  datatype Result<+T, +E> = Success(value: T) | Failure(error: E)

  /** Token counts a provider reports with an assistant message or an agent result. */
  datatype Usage = Usage(input: nat, output: nat, total: nat)

  /** The string-valued arguments of a tool call. */
  type Arguments = map<string, string>

  /** The type of an event together with the payload fields the program reads. */
  datatype Body =
    | UserMessage(text: string)
    | AssistantMessage(text: string, stopReason: string, usage: Usage)
    | ToolUse(id: string, name: string, arguments: Arguments)
    | ToolResult(id: string, output: string, error: string)
    | Compact(covers: seq<int>, summary: string)
    | Revert(revokes: int)
    | Summary(text: string)
    | Annotation(text: string)
    | ProviderError(attempt: int, terminal: bool)
    | RuntimeError(reason: string, terminal: bool)
    | ApprovalRequested(id: string)
    | ApprovalResolved(id: string, approved: bool)
    | AgentSpawn(spawnID: string, childID: string)
    | AgentStatus(spawnID: string, status: string)
    | AgentResult(spawnID: string, status: string, usage: Usage)

  datatype Event = Event(seqNo: int, body: Body)

  /** Every event carries its own position: what loading enforces and appending keeps. */
  ghost predicate Dense(log: seq<Event>) {
    forall i :: 0 <= i < |log| ==> log[i].seqNo == i
  }

  /** The events an append of `bodies` at watermark `next` creates. */
  function Stamp(next: nat, bodies: seq<Body>): (events: seq<Event>) {
    seq(|bodies|, i requires 0 <= i < |bodies| => Event(next + i, bodies[i]))
  }

  function Extend(log: seq<Event>, bodies: seq<Body>): (r: seq<Event>)
    ensures |r| == |log| + |bodies|
    ensures log <= r
  {
    log + Stamp(|log|, bodies)
  }

  lemma {:induction false} ExtendTwice(log: seq<Event>, first: seq<Body>, second: seq<Body>)
    ensures Extend(Extend(log, first), second) == Extend(log, first + second)
  {}

  lemma {:induction false} ExtendOneByOne(log: seq<Event>, mid: seq<Event>, after: seq<Event>, first: Body,
                                          second: Body)
    requires mid == Extend(log, [first]) && after == Extend(mid, [second])
    ensures after == Extend(log, [first, second])
  {
    ExtendTwice(log, [first], [second]);
    assert [first] + [second] == [first, second];
  }

  predicate IsToolEvent(b: Body) { b.ToolUse? || b.ToolResult? }

  /** The four kinds a compaction strategy counts as messages. */
  predicate IsMessage(b: Body) { b.UserMessage? || b.AssistantMessage? || IsToolEvent(b) }
}
