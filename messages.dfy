/** The conversation history of the agent: the request, the reasoner's replies
    with their tool calls, and the tool results correlated to them by call id. */
module Messages {
  import opened Values

  /** One tool call of a reasoner reply: the tool's name, its arguments and
      the id its result must echo. */
  datatype ToolCall = ToolCall(name: string, args: map<string, Value>, id: string)

  datatype Message =
    | Human(content: string)
    | Ai(content: string, toolCalls: seq<ToolCall>)
    | ToolResult(content: string, toolCallId: string)

  /** The `analysis_result` entry of the agent state: absent from the state
      dictionary, or present with a value. */
  datatype AnalysisSlot = Absent | Present(value: Value)

  /** The last message of a non-empty history. */
  function Last(history: seq<Message>): (m: Message)
    requires history != []
    ensures history == history[..|history| - 1] + [m]
  {
    history[|history| - 1]
  }

  /** The history ends with a reasoner reply that calls at least one tool:
      the only state from which the graph enters the tools node. */
  predicate AwaitsTools(history: seq<Message>) {
    history != [] && Last(history).Ai? && Last(history).toolCalls != []
  }
}
