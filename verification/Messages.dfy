/** Chat messages, tool calls and content blocks as the providers and the agent exchange them. */
module Messages {
  datatype ToolCall = ToolCall(id: string, name: string, arguments: string)

  datatype ToolResult = ToolResult(callId: string, content: string)

  datatype Role = System | User | Assistant | Tool | OtherRole(name: string)

  /** A provider's content block; fields that do not belong to its kind are empty. */
  datatype ContentBlock = ContentBlock(
    kind: string, text: string, name: string, id: string, input: string,
    thinking: string, data: string, signature: string)

  datatype Message = Message(
    role: Role, content: string, toolCalls: seq<ToolCall>, toolCallId: string, blocks: seq<ContentBlock>)

  function PlainMessage(role: Role, content: string): Message { Message(role, content, [], "", []) }

  function ToolMessage(callId: string, content: string): Message { Message(Tool, content, [], callId, []) }

  function CallIds(calls: seq<ToolCall>): seq<string> {
    seq(|calls|, i requires 0 <= i < |calls| => calls[i].id)
  }
}
