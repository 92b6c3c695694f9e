/**
 * The values the agent passes around: tool arguments and results, tools,
 * tool calls and the typed chat messages of the conversation.
 */
module Messages {

  /** A JSON-like value passed to or returned by a tool. */
  datatype Value =
    | Int(i: int)
    | Str(s: string)
    | Null
    | Float  // a floating-point result; its digits are not modelled

  /** The keyword arguments of a tool call. */
  type Args = map<string, Value>

  /** What invoking a tool does: return a value or raise an exception. */
  datatype Invocation = Returned(value: Value) | Raised(error: string)

  /** A registered tool: its name, its description and the callable behind it. */
  datatype Tool = Tool(name: string, description: string, run: Args -> Invocation)

  /** A tool call requested by the model, correlated to its answer by `id`. */
  datatype ToolCall = ToolCall(name: string, args: Args, id: string)

  /** The chat messages that make up the conversation log. */
  datatype Message =
    | SystemMessage(content: string)
    | HumanMessage(content: string)
    | AIMessage(content: string, toolCalls: seq<ToolCall>)
    | ToolMessage(content: string, name: string, toolCallId: string)

  /** What the chat model answers: text and zero or more tool calls. */
  datatype Reply = Reply(content: string, toolCalls: seq<ToolCall>)
}
