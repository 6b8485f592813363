/** Chat messages, as far as the adapter's decisions depend on them. */
module Chat {
  import opened Wrappers

  datatype Role = System | Developer | User | Assistant | Tool | OtherRole(name: string) | NoRole

  /** Message content: plain text, or parts that are only ever copied or rendered as text. */
  datatype Content = Text(text: string) | Parts(raw: string, rendered: string) | NoContent

  function AsText(c: Content): string {
    match c
    case Text(text) => text
    case Parts(_, rendered) => rendered
    case NoContent => ""
  }

  datatype ToolCall = ToolCall(id: Option<string>, name: string, arguments: string)

  datatype Message = Message(
    role: Role,
    content: Content,
    toolCalls: seq<ToolCall>,
    toolCallId: Option<string>,
    reasoning: string)

  function PlainMessage(role: Role, content: Content): Message {
    Message(role, content, [], None, "")
  }

  function ToolMessage(callId: string, output: string): Message {
    Message(Tool, Text(output), [], Some(callId), "")
  }

  predicate IsCallId(id: Option<string>) {
    id.Some? && id.value != ""
  }

  /** The usable ids of some calls, in order. */
  function CallIds(calls: seq<ToolCall>): seq<string> {
    if calls == [] then []
    else (if IsCallId(calls[0].id) then [calls[0].id.value] else []) + CallIds(calls[1..])
  }

  function AssistantIds(m: Message): seq<string> {
    if m.role == Assistant then CallIds(m.toolCalls) else []
  }

  /** All call ids of the assistant messages, in order. */
  function AllCallIds(messages: seq<Message>): seq<string> {
    if messages == [] then [] else AssistantIds(messages[0]) + AllCallIds(messages[1..])
  }

  predicate NoToolMessage(messages: seq<Message>) {
    forall m :: m in messages ==> m.role != Tool
  }
}
