/**
 * The message shapes exchanged with the language model and its tools
 * (langchain's HumanMessage, AIMessage with tool calls, ToolMessage).
 * The model itself and the tools are outside this model.
 */
module Messages {
  import opened Wrappers

  /** Arguments of a tool call, by parameter name, as text. */
  type ToolArgs = map<string, string>

  /** A tool-call request: a dictionary whose "name", "args" and "id" entries may be missing. */
  datatype ToolCall = ToolCall(name: Option<string>, args: Option<ToolArgs>, id: Option<string>)

  /** What the model returns: its text and the tool calls it asks for. */
  datatype ModelReply = ModelReply(content: string, toolCalls: seq<ToolCall>)

  /** The answer to one tool call, tagged with that call's id. */
  datatype ToolMessage = ToolMessage(content: string, toolCallId: string)

  datatype Message =
    | Human(text: string)
    | Ai(reply: ModelReply)
    | ToolResult(result: ToolMessage)
}
