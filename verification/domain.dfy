/** The persisted entities, reduced to the fields the dispatch path reads.
    Identifiers, tenant ids, names, descriptions, the execution policy of a
    tool server and the configuration's system message are never read by the
    dispatch path and are left out. Enumerated filter keys are represented
    by their string value, which is what a request carries. */
module Domain {
  import opened Base

  /** The provider types the router knows; the enumeration is closed. */
  datatype ProviderType = Ollama

  datatype Provider = Provider(
    providerType: ProviderType,
    llmUrl: string,
    modelName: string,
    apiKey: Option<string>)

  /** The embedded routing filter: a key and an optional value pattern in
      which `*` stands for any run of characters. */
  datatype Filter = Filter(key: Option<string>, value: Option<string>)

  datatype McpServer = McpServer(url: string, apiKey: Option<string>)

  /** A configuration binds a provider, an optional filter and the tool
      servers (a Java `Set`, here in its iteration order; `None` is a null
      set). */
  datatype Configuration = Configuration(
    provider: Provider,
    filter: Option<Filter>,
    mcpServers: Option<seq<McpServer>>)

  /** The filter pattern of a configuration, when it has one. */
  function Pattern(c: Configuration): Option<string> {
    if c.filter.Some? then c.filter.value.value else None
  }
}

/** The external API's transfer objects, as far as the dispatch path reads
    or writes them. */
module Api {
  import opened Base

  datatype MessageType = User | Assistant | System

  /** One message of the caller-supplied history or the new message. The
      creation timestamp is not modelled. */
  datatype ChatMessageDto = ChatMessageDto(messageType: MessageType, message: string)

  /** The reply message: its text may be null when the model's last message
      carried only tool requests. */
  datatype ResponseDto = ResponseDto(messageType: MessageType, message: Option<string>)

  datatype RequestFilter = RequestFilter(key: Option<string>, value: Option<string>)

  datatype RequestContext = RequestContext(filter: Option<RequestFilter>)

  datatype Conversation = Conversation(history: Option<seq<ChatMessageDto>>)

  datatype ChatRequestDto = ChatRequestDto(
    requestContext: Option<RequestContext>,
    conversation: Option<Conversation>,
    chatMessage: ChatMessageDto)
}

/** The chat-library types the orchestrator exchanges with the model and the
    tool servers, reduced to what the dispatch path reads. */
module Messages {
  import opened Base

  /** A tool's declarative call specification; only its name matters here. */
  datatype ToolSpec = ToolSpec(name: string, parameters: string)

  /** One tool invocation the model asked for. */
  datatype ToolRequest = ToolRequest(id: string, name: string, arguments: string)

  /** The model's message: text (null when it only requests tools) and a
      possibly null list of tool requests. */
  datatype AiMessage = AiMessage(text: Option<string>, toolExecutionRequests: Option<seq<ToolRequest>>)

  datatype ChatMessage =
    | UserMessage(text: string)
    | AiChatMessage(ai: AiMessage)
    | SystemMessage(text: string)
    | ToolResultMessage(request: ToolRequest, text: string)

  /** A model response; its AI message may be null. */
  datatype ChatResponse = ChatResponse(aiMessage: Option<AiMessage>)

  /** A request to the model: the messages and, when attached, the tool
      specifications. */
  datatype ModelRequest = ModelRequest(messages: seq<ChatMessage>, toolSpecifications: Option<seq<ToolSpec>>)
}
