/** The shapes that flow through the controller: chat messages with their tool
    calls, the per-turn state record, the runnable configuration and the
    stored transcript entries. */
module Schema {
  import opened Common

  /** A JSON argument value as the language model writes it in a tool call. */
  datatype Value = Str(s: string) | Int(i: int) | Null | Other

  /** One pending tool invocation proposed by the model: name, arguments, correlation id. */
  datatype ToolCall = ToolCall(name: string, args: map<string, Value>, id: string)

  /** The `status` of a tool observation. */
  datatype ToolStatus = Success | Error

  /** The three kinds of chat message the controller handles. */
  datatype Message =
    | HumanMessage(content: string)
    | AiMessage(content: string, toolCalls: seq<ToolCall>)
    | ToolMessage(content: string, toolCallId: string, status: ToolStatus)

  /** The last element of a non-empty message list: `messages[-1]`. */
  function Last(messages: seq<Message>): Message
    requires |messages| > 0
  {
    messages[|messages| - 1]
  }

  /** The turn state: one per invocation of the decision loop. The `messages`
      field accumulates (the graph's message reducer appends); every other
      field is overwritten by a node that returns it. */
  datatype State = State(
    userId: int,
    query: string,
    messages: seq<Message>,
    coreMemories: seq<string>,
    recallMemories: seq<string>,
    answer: string)

  /** A runnable configuration: the optional `configurable` dictionary. */
  datatype RunnableConfig = RunnableConfig(configurable: Option<map<string, int>>)

  /** `config.get("configurable", {})`. */
  function ConfigurableOf(config: RunnableConfig): map<string, int>
  {
    config.configurable.GetOr(map[])
  }

  /** One entry of a stored transcript: a dictionary whose keys may be missing. */
  datatype HistoryEntry = HistoryEntry(role: Option<string>, content: Option<string>, timestamp: Option<string>)

  /** The entry the controller writes: all three keys present. */
  function NewEntry(role: string, content: string, now: string): HistoryEntry
  {
    HistoryEntry(Some(role), Some(content), Some(now))
  }
}
