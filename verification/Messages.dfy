/** Conversation messages, as every component of the daemon passes them on. */
module Messages {

  import opened Options

  datatype Role = System | User | Assistant | Tool

  /** `arguments` is the JSON text of the call's arguments. */
  datatype ToolCall = ToolCall(id: string, name: string, arguments: string)

  datatype ToolResult = ToolResult(callId: string, name: string, output: string, isError: bool)

  datatype Message = Message(role: Role, content: string, toolCalls: seq<ToolCall>, toolResult: Option<ToolResult>,
                             agentName: string, tokens: int)
}
