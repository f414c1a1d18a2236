/**
 * The two message formats: the client's structured messages (text, tool_use
 * and tool_result blocks) and the backend's flat chat messages with a
 * separate `tool` role and `tool_calls`.
 */
module Messages {
  import opened Wrappers
  import opened Json

  datatype Role = User | Assistant | Tool

  /** A tool_result's content: a string is forwarded as is, anything else is re-encoded. */
  datatype ResultContent = ResultText(text: string) | ResultValue(value: Json)

  datatype Block =
    | TextBlock(text: string)
    | ToolUseBlock(id: string, name: string, input: Json)
    | ToolResultBlock(toolUseId: string, content: ResultContent)
      /** Any other block type (an image, say): every filter of the translator skips it. */
    | OtherBlock(kind: string)

  datatype Content = StringContent(text: string) | BlockContent(blocks: seq<Block>)

  datatype ClientMessage = ClientMessage(role: Role, content: Content)

  datatype ToolDefinition = ToolDefinition(name: string, description: string, inputSchema: Json)

  /** The client request; the sampling values are opaque numbers. */
  datatype ClientRequest = ClientRequest(
    model: string,
    messages: seq<ClientMessage>,
    maxTokens: Option<int>,
    temperature: Option<real>,
    stream: Option<bool>,
    tools: Option<seq<ToolDefinition>>)

  /** One entry of a backend message's `tool_calls` (its `type` is always "function"). */
  datatype BackendToolCall = BackendToolCall(id: string, name: string, arguments: string)

  datatype BackendMessage = BackendMessage(
    role: Role,
    content: string,
    toolCallId: Option<string>,
    toolCalls: Option<seq<BackendToolCall>>)

  /** One backend tool descriptor (its `type` is always "function"). */
  datatype BackendTool = BackendTool(name: string, description: string, parameters: Json)

  datatype BackendRequest = BackendRequest(
    model: string,
    messages: seq<BackendMessage>,
    maxTokens: Option<int>,
    temperature: Option<real>,
    topP: real,
    topK: Option<int>,
    frequencyPenalty: real,
    presencePenalty: real,
    stream: bool,
    tools: Option<seq<BackendTool>>)

  /** Server-side configuration: the backend model and the optional sampling overrides. */
  datatype Overrides = Overrides(
    model: string,
    topP: Option<real>,
    topK: Option<int>,
    frequencyPenalty: Option<real>,
    presencePenalty: Option<real>,
    temperature: Option<real>,
    maxTokens: Option<int>)
}
