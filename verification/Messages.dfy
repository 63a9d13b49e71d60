/** Conversation messages, as far as the history algorithms look at them
    (crates/kernel/src/types/mod.rs). Content blocks, call arguments and names are
    opaque strings; message ids, timestamps and token usage are not part of this model. */
module Messages {
  datatype Option<+T> = None | Some(value: T)

  datatype Role = System | User | Assistant | Tool | Internal

  datatype ToolCall = ToolCall(id: string, name: string, arguments: string)

  datatype Message = Message(
    role: Role,
    content: seq<string>,
    toolCalls: Option<seq<ToolCall>>,
    toolCallId: Option<string>,
    metadata: map<string, string>)

  const TOOL_CANCELLED_META_KEY: string := "tool_cancelled"
  const TURN_INTERNAL_META_KEY: string := "turn_internal"

  /** The placeholder result synthesized for a call that never got one. */
  function CancelledResult(id: string): Message {
    Message(Tool, ["Error: Tool execution cancelled"], None, Some(id), map[TOOL_CANCELLED_META_KEY := "true"])
  }

  /** Messages that end the run of results following an assistant batch. */
  predicate Breaker(m: Message) {
    m.role != Internal && m.role != Tool
  }

  /** The calls an assistant message opens; no other message opens any. */
  function Calls(m: Message): seq<ToolCall> {
    if m.role == Assistant && m.toolCalls.Some? then m.toolCalls.value else []
  }

  predicate ResultFor(m: Message, id: string) {
    m.role == Tool && m.toolCallId == Some(id)
  }

  function CallIds(calls: seq<ToolCall>): set<string> {
    set p | 0 <= p < |calls| :: calls[p].id
  }

  predicate DistinctIds(calls: seq<ToolCall>) {
    forall p, q :: 0 <= p < q < |calls| ==> calls[p].id != calls[q].id
  }
}
