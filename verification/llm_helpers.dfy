/** The helpers every provider orchestrator shares: whether a model response
    asks for tools, running one batch of tool requests against the registry,
    the two retried calls with their fallbacks, and the mappings between the
    external API's messages and the chat library's. */
module LlmHelpers {
  import opened Base
  import opened Api
  import opened Messages
  import opened McpTools
  import opened ToolRegistry
  import opened FaultTolerance

  /** The tool requests a response carries; none when the AI message or its
      request list is null. */
  function PendingRequests(response: ChatResponse): seq<ToolRequest> {
    if response.aiMessage.Some? && response.aiMessage.value.toolExecutionRequests.Some? then
      response.aiMessage.value.toolExecutionRequests.value
    else []
  }

  /** `hasToolExecutionRequests`: the AI message is present and its request
      list is non-null and non-empty. */
  function HasToolExecutionRequests(response: ChatResponse): (b: bool)
    ensures b <==> PendingRequests(response) != []
    ensures b ==> response.aiMessage.Some? && response.aiMessage.value.toolExecutionRequests.Some?
  {
    match response.aiMessage
    case None => false
    case Some(ai) => ai.toolExecutionRequests.Some? && ai.toolExecutionRequests.value != []
  }

  function NotFoundText(name: string): string {
    "Error: Tool '" + name + "' not found"
  }

  function FailedText(name: string): string {
    "Error: Tool execution failed for '" + name + "'"
  }

  /** One retried tool execution: the client calls it made, in order, and the
      text it returned. */
  datatype ToolRun = ToolRun(calls: seq<ClientCall>, text: string)

  /** `executeToolRequestWithRetry` with `toolExecutionFallback`: attempt
      `k` sends the unchanged request to the tool's own client; the first
      attempt that returns gives the text, and when every attempt raises the
      text is the failure message naming the requested tool. */
  function ExecuteToolRequestWithRetry(t: McpTool, request: ToolRequest, server: ToolServer, maxRetries: nat): (r: ToolRun)
    ensures 1 <= |r.calls| <= maxRetries + 1
    ensures forall k :: 0 <= k < |r.calls| ==> r.calls[k] == ClientCall(t.mcpClient, request, k)
    ensures forall k :: 0 <= k < |r.calls| - 1 ==> server(t.mcpClient, request, k).Raised?
    ensures server(t.mcpClient, request, |r.calls| - 1).Ok? ==> r.text == server(t.mcpClient, request, |r.calls| - 1).value
    ensures server(t.mcpClient, request, |r.calls| - 1).Raised? ==>
      |r.calls| == maxRetries + 1 && r.text == FailedText(request.name)
  {
    var call := k => Execute(t, request, server, k).outcome;
    assert forall k :: call(k) == server(t.mcpClient, request, k);
    var run := WithRetry(call, maxRetries, FailedText(request.name));
    ToolRun(seq(run.attempts, k requires 0 <= k => Execute(t, request, server, k).call), run.value)
  }

  /** What a batch of tool requests produced: the messages to append and the
      client calls made, in order. */
  datatype Batch = Batch(messages: seq<ChatMessage>, calls: seq<ClientCall>)

  /** The client a call for `request` reaches, when its tool is registered. */
  ghost predicate CallServes(reg: McpToolRegistry, request: ToolRequest, c: ClientCall) {
    && c.request == request
    && FindByName(reg, request.name).Some?
    && c.client == FindByName(reg, request.name).value.mcpClient
  }

  /** The loop of `executeToolRequests`: each request in order, looked up
      by name; an unknown name gives the not-found text without a call, a
      registered tool is executed with retry. */
  function RunRequests(requests: seq<ToolRequest>, reg: McpToolRegistry, server: ToolServer, maxRetries: nat): (b: Batch)
    ensures |b.messages| == |requests|
    decreases |requests|
  {
    if requests == [] then Batch([], [])
    else
      var b := RunRequests(requests[..|requests| - 1], reg, server, maxRetries);
      var request := requests[|requests| - 1];
      match FindByName(reg, request.name)
      case None => Batch(b.messages + [ToolResultMessage(request, NotFoundText(request.name))], b.calls)
      case Some(t) =>
        var run := ExecuteToolRequestWithRetry(t, request, server, maxRetries);
        Batch(b.messages + [ToolResultMessage(request, run.text)], b.calls + run.calls)
  }

  /** A batch makes at most `maxRetries + 1` calls per request. */
  lemma {:induction false} RunRequestsCallBound(requests: seq<ToolRequest>, reg: McpToolRegistry, server: ToolServer, maxRetries: nat)
    ensures |RunRequests(requests, reg, server, maxRetries).calls| <= |requests| * (maxRetries + 1)
    decreases |requests|
  {
    if requests != [] {
      var init := requests[..|requests| - 1];
      RunRequestsCallBound(init, reg, server, maxRetries);
      var before := |RunRequests(init, reg, server, maxRetries).calls|;
      var after := |RunRequests(requests, reg, server, maxRetries).calls|;
      assert after <= before + (maxRetries + 1);
      BudgetStep(before, after, |init|, maxRetries + 1);
    }
  }

  lemma BudgetStep(before: nat, after: nat, n: nat, m: nat)
    requires before <= n * m && after <= before + m
    ensures after <= (n + 1) * m
  {
  }

  /** The result message for one request. */
  function ResultMessage(request: ToolRequest, reg: McpToolRegistry, server: ToolServer, maxRetries: nat): ChatMessage {
    match FindByName(reg, request.name)
    case None => ToolResultMessage(request, NotFoundText(request.name))
    case Some(t) => ToolResultMessage(request, ExecuteToolRequestWithRetry(t, request, server, maxRetries).text)
  }

  lemma RunRequestsSnoc(requests: seq<ToolRequest>, reg: McpToolRegistry, server: ToolServer, maxRetries: nat)
    requires requests != []
    ensures RunRequests(requests, reg, server, maxRetries).messages ==
      RunRequests(requests[..|requests| - 1], reg, server, maxRetries).messages + [ResultMessage(requests[|requests| - 1], reg, server, maxRetries)]
  {
  }

  lemma {:induction false} RunRequestsMessages(requests: seq<ToolRequest>, reg: McpToolRegistry, server: ToolServer, maxRetries: nat)
    ensures forall i :: 0 <= i < |requests| ==>
      RunRequests(requests, reg, server, maxRetries).messages[i] == ResultMessage(requests[i], reg, server, maxRetries)
    decreases |requests|
  {
    if requests != [] {
      var init := requests[..|requests| - 1];
      RunRequestsMessages(init, reg, server, maxRetries);
      RunRequestsSnoc(requests, reg, server, maxRetries);
      var ms := RunRequests(requests, reg, server, maxRetries).messages;
      var mi := RunRequests(init, reg, server, maxRetries).messages;
      forall i | 0 <= i < |requests|
        ensures ms[i] == ResultMessage(requests[i], reg, server, maxRetries)
      {
        if i < |init| {
          assert ms[i] == mi[i] && init[i] == requests[i];
        }
      }
    }
  }

  /** One result message per request, in request order, each bound to its
      request: the not-found text for an unknown name, otherwise the text of
      the retried execution of the tool registered under that name. */
  lemma RunRequestsResults(requests: seq<ToolRequest>, reg: McpToolRegistry, server: ToolServer, maxRetries: nat)
    ensures var b := RunRequests(requests, reg, server, maxRetries);
      forall i :: 0 <= i < |requests| ==>
        && b.messages[i].ToolResultMessage?
        && b.messages[i].request == requests[i]
        && (FindByName(reg, requests[i].name).None? ==> b.messages[i].text == NotFoundText(requests[i].name))
        && (FindByName(reg, requests[i].name).Some? ==>
             b.messages[i].text == ExecuteToolRequestWithRetry(FindByName(reg, requests[i].name).value, requests[i], server, maxRetries).text)
  {
    RunRequestsMessages(requests, reg, server, maxRetries);
  }

  /** Every call of a batch goes, with one of the batch's requests, to the
      client of the tool registered under that request's name; so no call is
      made for an unknown name. */
  lemma {:induction false} RunRequestsCallsServeRequests(requests: seq<ToolRequest>, reg: McpToolRegistry, server: ToolServer, maxRetries: nat)
    ensures forall c :: c in RunRequests(requests, reg, server, maxRetries).calls ==>
      exists i :: 0 <= i < |requests| && CallServes(reg, requests[i], c)
    decreases |requests|
  {
    if requests != [] {
      var init := requests[..|requests| - 1];
      var request := requests[|requests| - 1];
      var b := RunRequests(init, reg, server, maxRetries);
      RunRequestsCallsServeRequests(init, reg, server, maxRetries);
      forall c | c in RunRequests(requests, reg, server, maxRetries).calls
        ensures exists i :: 0 <= i < |requests| && CallServes(reg, requests[i], c)
      {
        if c in b.calls {
          var i :| 0 <= i < |init| && CallServes(reg, init[i], c);
          assert requests[i] == init[i];
        } else {
          assert CallServes(reg, requests[|requests| - 1], c);
        }
      }
    }
  }

  /** Every request naming a registered tool is attempted at least once. */
  lemma {:induction false} RunRequestsAttemptsRegistered(requests: seq<ToolRequest>, reg: McpToolRegistry, server: ToolServer, maxRetries: nat)
    ensures forall i :: 0 <= i < |requests| && FindByName(reg, requests[i].name).Some? ==>
      ClientCall(FindByName(reg, requests[i].name).value.mcpClient, requests[i], 0) in RunRequests(requests, reg, server, maxRetries).calls
    decreases |requests|
  {
    if requests != [] {
      var init := requests[..|requests| - 1];
      RunRequestsAttemptsRegistered(init, reg, server, maxRetries);
      assert forall i :: 0 <= i < |init| ==> init[i] == requests[i];
      var request := requests[|requests| - 1];
      if FindByName(reg, request.name).Some? {
        var run := ExecuteToolRequestWithRetry(FindByName(reg, request.name).value, request, server, maxRetries);
        assert run.calls[0] in run.calls;
      }
    }
  }

  /** `executeToolRequests`: the AI message itself, then exactly one result
      message per request in request order. */
  function ExecuteToolRequests(ai: AiMessage, reg: McpToolRegistry, server: ToolServer, maxRetries: nat): (b: Batch)
    requires ai.toolExecutionRequests.Some?
    ensures var requests := ai.toolExecutionRequests.value;
      && |b.messages| == 1 + |requests|
      && b.messages[0] == AiChatMessage(ai)
      && b.messages[1..] == RunRequests(requests, reg, server, maxRetries).messages
      && b.calls == RunRequests(requests, reg, server, maxRetries).calls
  {
    var run := RunRequests(ai.toolExecutionRequests.value, reg, server, maxRetries);
    Batch([AiChatMessage(ai)] + run.messages, run.calls)
  }

  /** One retried model call: how many attempts it made and the response,
      none when every attempt raised. */
  datatype ModelRun = ModelRun(attempts: nat, response: Option<ChatResponse>)

  /** `modelChatRequestWithRetries` with `modelChatFallback`: the response of
      the first attempt that returns, or none (the fallback's null) when all
      `maxRetries + 1` attempts raise; it never raises. */
  function ModelChatRequestWithRetries(llm: (ModelRequest, nat) -> Try<ChatResponse>, request: ModelRequest, maxRetries: nat): (r: ModelRun)
    ensures 1 <= r.attempts <= maxRetries + 1
    ensures forall k :: 0 <= k < r.attempts - 1 ==> llm(request, k).Raised?
    ensures r.response.None? <==> forall k :: 0 <= k <= maxRetries ==> llm(request, k).Raised?
    ensures r.response.Some? ==> llm(request, r.attempts - 1) == Ok(r.response.value)
  {
    var call := k => match llm(request, k) case Ok(v) => Ok(Some(v)) case Raised => Raised;
    assert forall k :: call(k).Raised? <==> llm(request, k).Raised?;
    var run := WithRetry(call, maxRetries, None);
    ModelRun(run.attempts, run.value)
  }

  /** `mapToLangChainMessages` for one message: the role picks the message
      kind and the text is kept. */
  function ToLangChain(m: ChatMessageDto): ChatMessage {
    match m.messageType
    case User => UserMessage(m.message)
    case Assistant => AiChatMessage(AiMessage(Some(m.message), Some([])))
    case System => SystemMessage(m.message)
  }

  /** The way back from a chat-library message to the API message it was
      mapped from, where there is one. */
  function FromLangChain(m: ChatMessage): Option<ChatMessageDto> {
    match m
    case UserMessage(text) => Some(ChatMessageDto(User, text))
    case AiChatMessage(ai) => if ai.text.Some? then Some(ChatMessageDto(Assistant, ai.text.value)) else None
    case SystemMessage(text) => Some(ChatMessageDto(System, text))
    case ToolResultMessage(_, _) => None
  }

  /** `mapToLangChainMessages`: one message per history entry, in order;
      each maps back to the entry it came from, so role and text are kept. */
  function MapToLangChainMessages(history: seq<ChatMessageDto>): (r: seq<ChatMessage>)
    ensures |r| == |history|
    ensures forall i :: 0 <= i < |history| ==> FromLangChain(r[i]) == Some(history[i])
    ensures forall i :: 0 <= i < |history| ==>
      && (r[i].UserMessage? <==> history[i].messageType == User)
      && (r[i].AiChatMessage? <==> history[i].messageType == Assistant)
      && (r[i].SystemMessage? <==> history[i].messageType == System)
  {
    seq(|history|, i requires 0 <= i < |history| => ToLangChain(history[i]))
  }

  /** Mapping a history and reading it back gives the history unchanged. */
  lemma HistoryRoundTrip(history: seq<ChatMessageDto>)
    ensures Unmap(MapToLangChainMessages(history)) == Some(history)
  {
    UnmapInverts(MapToLangChainMessages(history), history);
  }

  /** Reads a message list back as API messages; none when some message
      has no API form. */
  function Unmap(ms: seq<ChatMessage>): Option<seq<ChatMessageDto>>
    decreases |ms|
  {
    if ms == [] then Some([])
    else match (FromLangChain(ms[0]), Unmap(ms[1..]))
      case (Some(d), Some(rest)) => Some([d] + rest)
      case _ => None
  }

  lemma {:induction false} UnmapInverts(ms: seq<ChatMessage>, history: seq<ChatMessageDto>)
    requires |ms| == |history|
    requires forall i :: 0 <= i < |ms| ==> FromLangChain(ms[i]) == Some(history[i])
    ensures Unmap(ms) == Some(history)
    decreases |ms|
  {
    if ms != [] {
      assert forall i :: 0 <= i < |ms| - 1 ==> ms[1..][i] == ms[i + 1] && history[1..][i] == history[i + 1];
      UnmapInverts(ms[1..], history[1..]);
      assert history == [history[0]] + history[1..];
    }
  }

  /** `mapToChatMessageResponseDTO`: an assistant message carrying the final
      text unchanged (null stays null). The creation timestamp is not
      modelled. */
  function MapToChatMessageResponseDto(text: Option<string>): (r: ResponseDto)
    ensures r.messageType == Assistant
    ensures r.message == text
  {
    ResponseDto(Assistant, text)
  }
}
