/**
 * The chat-completion message shapes the tool-calling loop exchanges with
 * the model backend: role-tagged messages, the tool calls an assistant
 * turn may carry, and one backend response (its finish reason and message).
 */
module Messages {
  import opened Wrappers

  /** One function call the model asks for: its id, the tool's name and the JSON text of its arguments. */
  datatype ToolCall = ToolCall(id: string, name: string, arguments: string)

  /** An assistant message: text content (possibly absent) and the tool calls it requests, if any. */
  datatype AssistantTurn = AssistantTurn(content: Option<string>, toolCalls: Option<seq<ToolCall>>)

  datatype Message =
    | System(content: string)
    | User(content: string)
    | Assistant(turn: AssistantTurn)
    | Tool(content: string, toolCallId: string)

  /** The first choice of one completion: why the model stopped, and what it said. */
  datatype Response = Response(finishReason: string, message: AssistantTurn)

  /** The finish reason with which the model asks for tool calls. */
  const ToolCallsReason: string := "tool_calls"

  /** Python's `history or []`: a missing list is the empty list. */
  function OrEmpty<T>(xs: Option<seq<T>>): seq<T> {
    match xs
    case None => []
    case Some(s) => s
  }
}
