/** The Ollama orchestrator's `chat`: assemble the conversation, create the
    request's tool registry, make the initial model call, run the bounded
    tool-calling loop, answer with the last response's text, and close the
    registry once on every exit after it was created.

    Everything the method talks to is an input: `Environment` holds the
    tool-server probes used by discovery, the model (`llm`), the tool
    servers, which tool passes end in an unexpected exception
    (`batchFault`, by pass number) and which client closes raise. The
    `Trace` out-parameter records what was observable: the clients opened,
    every model request with its reply, every tool pass and the close
    calls. */
module OllamaChat {
  import opened Base
  import opened Domain
  import opened Api
  import opened Messages
  import opened McpTools
  import opened ToolRegistry
  import opened McpDiscovery
  import opened LlmHelpers

  /** The static dispatch settings the loop reads: the iteration cap (a
      Java `long`, so possibly zero or negative) and the retry counts of the
      model call, the tool execution and the tool listing. */
  datatype DispatchSettings = DispatchSettings(maxIterations: int, modelRetries: nat, toolRetries: nat, listRetries: nat)

  datatype Environment = Environment(
    probe: McpServer -> ServerProbe,
    llm: (ModelRequest, nat) -> Try<ChatResponse>,
    toolServer: ToolServer,
    batchFault: nat -> bool,
    closeRaises: ClientId -> bool)

  /** One tool-processing pass: which reply it examined (an index into the
      trace's replies) and that response, the client calls its batch made,
      and whether the batch ended in an exception (then its messages are
      dropped and no follow-up is sent). */
  datatype Pass = Pass(reply: nat, examined: ChatResponse, calls: seq<ClientCall>, faulted: bool)

  /** `replies[k]` is what the retried model call returned for
      `requests[k]`. */
  datatype Trace = Trace(
    connections: seq<OpenedClient>,
    requests: seq<ModelRequest>,
    replies: seq<Option<ChatResponse>>,
    passes: seq<Pass>,
    closes: seq<CloseAttempt>)

  datatype Failure = ModelCallFailed | FollowUpCallFailed | UnexpectedError

  /** The HTTP response: 200 with the reply, 400 with a failure, 404 when no
      configuration resolves, or an exception that leaves the method. */
  datatype Response = Answered(dto: ResponseDto) | BadRequest(failure: Failure) | NotFound | Thrown

  /** The caller-supplied history; absent when the conversation or its
      history is null. */
  function History(request: ChatRequestDto): seq<ChatMessageDto> {
    if request.conversation.Some? && request.conversation.value.history.Some? then
      request.conversation.value.history.value
    else []
  }

  /** The message list of the initial request: the mapped history, then one
      user message with the request's text (whatever type the request's
      message declares). No system message is prepended. */
  function AssembleMessages(request: ChatRequestDto): (ms: seq<ChatMessage>)
    ensures |ms| == |History(request)| + 1
    ensures forall i :: 0 <= i < |History(request)| ==> FromLangChain(ms[i]) == Some(History(request)[i])
    ensures ms[|ms| - 1] == UserMessage(request.chatMessage.message)
  {
    var history := History(request);
    if history != [] then MapToLangChainMessages(history) + [UserMessage(request.chatMessage.message)]
    else [UserMessage(request.chatMessage.message)]
  }

  /** The registry creation for a configuration, with the clients it opened. */
  function RegistryFor(config: Configuration, env: Environment, settings: DispatchSettings): Creation {
    CreateToolRegistry(Some(config), env.probe, settings.listRetries)
  }

  function ModelCall(env: Environment, settings: DispatchSettings, request: ModelRequest): Option<ChatResponse> {
    ModelChatRequestWithRetries(env.llm, request, settings.modelRetries).response
  }

  /** The batch a pass over `response` runs. */
  function BatchOf(response: ChatResponse, reg: McpToolRegistry, env: Environment, settings: DispatchSettings): Batch
    requires HasToolExecutionRequests(response)
  {
    ExecuteToolRequests(response.aiMessage.value, reg, env.toolServer, settings.toolRetries)
  }

  /** The number of passes that completed without an exception. */
  function Completed(passes: seq<Pass>): (n: nat)
    ensures n <= |passes|
  {
    if passes == [] then 0
    else Completed(passes[..|passes| - 1]) + (if passes[|passes| - 1].faulted then 0 else 1)
  }

  /** Every reply answers its request through the retried model call. */
  ghost predicate RepliesAnswerRequests(requests: seq<ModelRequest>, replies: seq<Option<ChatResponse>>, env: Environment, settings: DispatchSettings) {
    && |replies| == |requests|
    && forall k {:trigger replies[k]} :: 0 <= k < |requests| ==> replies[k] == ModelCall(env, settings, requests[k])
  }

  /** The follow-up to `previous` after a completed pass over its reply
      `response`: it keeps the earlier messages, appends the AI message and
      one result message per tool request of the reply, and always carries
      the tool specifications. */
  function NextRequest(previous: ModelRequest, response: ChatResponse, reg: McpToolRegistry, env: Environment, settings: DispatchSettings): ModelRequest
    requires HasToolExecutionRequests(response)
  {
    ModelRequest(previous.messages + BatchOf(response, reg, env, settings).messages, Some(GetToolSpecifications(reg)))
  }

  /** Request `k + 1` is the follow-up to reply `k`. */
  ghost predicate FollowUpAt(requests: seq<ModelRequest>, replies: seq<Option<ChatResponse>>, k: nat, reg: McpToolRegistry, env: Environment, settings: DispatchSettings)
    requires k + 1 < |requests| && k < |replies|
  {
    && replies[k].Some?
    && HasToolExecutionRequests(replies[k].value)
    && requests[k + 1] == NextRequest(requests[k], replies[k].value, reg, env, settings)
  }

  /** Every request after the first is the follow-up to the reply before it. */
  ghost predicate FollowUpsExtend(requests: seq<ModelRequest>, replies: seq<Option<ChatResponse>>, reg: McpToolRegistry, env: Environment, settings: DispatchSettings) {
    && |replies| == |requests|
    && forall k: nat :: k + 1 < |requests| ==> FollowUpAt(requests, replies, k, reg, env, settings)
  }

  /** The reply the pass after `passes` examines: the same one after a
      faulted pass, otherwise the next. */
  function NextReply(passes: seq<Pass>): nat {
    if passes == [] then 0
    else passes[|passes| - 1].reply + (if passes[|passes| - 1].faulted then 0 else 1)
  }

  /** Pass `p` examines the reply that follows the passes before it (so
      after a faulted pass the next pass examines the same response); that
      response has pending tool requests; the pass runs its batch and faults
      as the environment says. */
  ghost predicate PassAt(passes: seq<Pass>, replies: seq<Option<ChatResponse>>, p: nat, reg: McpToolRegistry, env: Environment, settings: DispatchSettings)
    requires p < |passes|
  {
    && passes[p].reply == NextReply(passes[..p])
    && passes[p].reply < |replies|
    && replies[passes[p].reply] == Some(passes[p].examined)
    && HasToolExecutionRequests(passes[p].examined)
    && passes[p].faulted == env.batchFault(p)
    && passes[p].calls == BatchOf(passes[p].examined, reg, env, settings).calls
  }

  ghost predicate PassesFollowReplies(passes: seq<Pass>, replies: seq<Option<ChatResponse>>, reg: McpToolRegistry, env: Environment, settings: DispatchSettings) {
    forall p: nat :: p < |passes| ==> PassAt(passes, replies, p, reg, env, settings)
  }

  /** The initial request: the assembled messages, with the registry's tool
      specifications attached only when there are any. */
  function InitialRequest(request: ChatRequestDto, reg: McpToolRegistry): (m: ModelRequest)
    ensures m.messages == AssembleMessages(request)
    ensures m.toolSpecifications.Some? <==> reg.tools != []
    ensures m.toolSpecifications.Some? ==> m.toolSpecifications.value == GetToolSpecifications(reg)
  {
    var specs := GetToolSpecifications(reg);
    ModelRequest(AssembleMessages(request), if specs != [] then Some(specs) else None)
  }

  /** The registry's life: the clients discovery opened; an exception and
      nothing else when the registry cannot be built (duplicate tool names);
      otherwise one `close` of the registry, after everything else. */
  ghost predicate RegistryLifecycle(config: Configuration, env: Environment, settings: DispatchSettings, result: Response, t: Trace) {
    var creation := RegistryFor(config, env, settings);
    && t.connections == creation.connections
    && (result.Thrown? <==> creation.registry.None?)
    && (result.Thrown? ==> t.requests == [] && t.replies == [] && t.passes == [] && t.closes == [])
    && (creation.registry.Some? ==> t.closes == Close(creation.registry.value, env.closeRaises))
  }

  /** The conversation the model saw with registry `reg`: the initial
      request, its follow-ups, the replies and the passes in between. */
  ghost predicate Conversation(request: ChatRequestDto, reg: McpToolRegistry, env: Environment, settings: DispatchSettings, t: Trace) {
    && |t.requests| >= 1
    && t.requests[0] == InitialRequest(request, reg)
    && RepliesAnswerRequests(t.requests, t.replies, env, settings)
    && FollowUpsExtend(t.requests, t.replies, reg, env, settings)
    && PassesFollowReplies(t.passes, t.replies, reg, env, settings)
    && |t.requests| == 1 + Completed(t.passes)
  }

  ghost predicate ConversationFlow(config: Configuration, request: ChatRequestDto, env: Environment, settings: DispatchSettings, t: Trace) {
    var creation := RegistryFor(config, env, settings);
    creation.registry.Some? ==> Conversation(request, creation.registry.value, env, settings, t)
  }

  /** At most `maxIterations` passes, none when the cap is not positive. */
  ghost predicate LoopBound(settings: DispatchSettings, t: Trace) {
    |t.passes| == 0 || |t.passes| <= settings.maxIterations
  }

  /** How the result follows from the last reply: no reply to the initial
      request is a 400 before any pass; no reply to a follow-up is a 400;
      otherwise the loop stopped because the last reply asks for no tools or
      the cap was reached, and the answer is that reply's text (even with
      tool requests still pending), or an unexpected-error 400 when it has
      no AI message. */
  ghost predicate Exit(settings: DispatchSettings, result: Response, t: Trace) {
    && |t.replies| >= 1
    && (t.replies[0].None? ==> result == BadRequest(ModelCallFailed) && t.passes == [] && |t.requests| == 1)
    && (result == BadRequest(FollowUpCallFailed) <==> |t.replies| > 1 && t.replies[|t.replies| - 1].None?)
    && (t.replies[|t.replies| - 1].Some? ==>
      var last := t.replies[|t.replies| - 1].value;
      && (!HasToolExecutionRequests(last) || |t.passes| >= settings.maxIterations)
      && (last.aiMessage.Some? ==> result == Answered(MapToChatMessageResponseDto(last.aiMessage.value.text)))
      && (last.aiMessage.None? ==> result == BadRequest(UnexpectedError)))
  }

  ghost predicate Outcome(config: Configuration, env: Environment, settings: DispatchSettings, result: Response, t: Trace) {
    && !result.NotFound?
    && (RegistryFor(config, env, settings).registry.Some? ==> Exit(settings, result, t))
  }

  /** Everything `chat` guarantees, for callers that pass it on. */
  ghost predicate ChatOutcome(config: Configuration, request: ChatRequestDto, env: Environment, settings: DispatchSettings, result: Response, t: Trace) {
    && RegistryLifecycle(config, env, settings, result, t)
    && ConversationFlow(config, request, env, settings, t)
    && LoopBound(settings, t)
    && Outcome(config, env, settings, result, t)
  }

  lemma CompletedSnoc(passes: seq<Pass>, pass: Pass)
    ensures Completed(passes + [pass]) == Completed(passes) + (if pass.faulted then 0 else 1)
    ensures NextReply(passes + [pass]) == pass.reply + (if pass.faulted then 0 else 1)
  {
    assert (passes + [pass])[..|passes|] == passes;
  }

  /** Appending a pass over the reply that follows the earlier passes keeps
      the passes in step with the replies. */
  lemma {:induction false} PassStep(passes: seq<Pass>, replies: seq<Option<ChatResponse>>, reg: McpToolRegistry, env: Environment, settings: DispatchSettings, pass: Pass)
    requires PassesFollowReplies(passes, replies, reg, env, settings)
    requires pass.reply == NextReply(passes)
    requires pass.reply < |replies| && replies[pass.reply] == Some(pass.examined)
    requires HasToolExecutionRequests(pass.examined)
    requires pass.faulted == env.batchFault(|passes|)
    requires pass.calls == BatchOf(pass.examined, reg, env, settings).calls
    ensures PassesFollowReplies(passes + [pass], replies, reg, env, settings)
  {
    var ps := passes + [pass];
    forall p: nat | p < |ps| ensures PassAt(ps, replies, p, reg, env, settings) {
      assert ps[..p] == passes[..p];
      if p < |passes| {
        assert PassAt(passes, replies, p, reg, env, settings);
      } else {
        assert ps[..p] == passes;
      }
    }
  }

  /** More replies do not disturb the passes already in step. */
  lemma {:induction false} RepliesGrow(passes: seq<Pass>, replies: seq<Option<ChatResponse>>, reg: McpToolRegistry, env: Environment, settings: DispatchSettings, reply: Option<ChatResponse>)
    requires PassesFollowReplies(passes, replies, reg, env, settings)
    ensures PassesFollowReplies(passes, replies + [reply], reg, env, settings)
  {
    forall p: nat | p < |passes| ensures PassAt(passes, replies + [reply], p, reg, env, settings) {
      assert PassAt(passes, replies, p, reg, env, settings);
    }
  }

  /** A follow-up built from the last reply's batch and that follow-up's
      reply extend the request and reply logs in step. */
  lemma {:induction false} FollowUpStep(requests: seq<ModelRequest>, replies: seq<Option<ChatResponse>>, reg: McpToolRegistry, env: Environment, settings: DispatchSettings, response: ChatResponse, follow: ModelRequest)
    requires RepliesAnswerRequests(requests, replies, env, settings) && FollowUpsExtend(requests, replies, reg, env, settings)
    requires |requests| >= 1
    requires replies[|replies| - 1] == Some(response) && HasToolExecutionRequests(response)
    requires follow == NextRequest(requests[|requests| - 1], response, reg, env, settings)
    ensures RepliesAnswerRequests(requests + [follow], replies + [ModelCall(env, settings, follow)], env, settings)
    ensures FollowUpsExtend(requests + [follow], replies + [ModelCall(env, settings, follow)], reg, env, settings)
  {
    var rq := requests + [follow];
    var rp := replies + [ModelCall(env, settings, follow)];
    forall k | 0 <= k < |rq| ensures rp[k] == ModelCall(env, settings, rq[k]) {
      if k < |requests| {
        assert rp[k] == replies[k] && rq[k] == requests[k];
      }
    }
    forall k: nat | k + 1 < |rq| ensures FollowUpAt(rq, rp, k, reg, env, settings) {
      if k + 1 < |requests| {
        assert FollowUpAt(requests, replies, k, reg, env, settings);
        assert rq[k] == requests[k] && rq[k + 1] == requests[k + 1] && rp[k] == replies[k];
      } else {
        assert rq[k] == requests[|requests| - 1] && rp[k] == replies[|replies| - 1];
      }
    }
  }

  /** A pass that ends in an exception is followed, if by anything, by a
      pass over the same response; a pass that completes is followed by a
      pass over the reply to its follow-up. */
  lemma {:induction false} PassesInOrder(passes: seq<Pass>, replies: seq<Option<ChatResponse>>, reg: McpToolRegistry, env: Environment, settings: DispatchSettings, p: nat)
    requires PassesFollowReplies(passes, replies, reg, env, settings)
    requires p + 1 < |passes|
    ensures passes[p].faulted ==> passes[p + 1].reply == passes[p].reply && passes[p + 1].examined == passes[p].examined
    ensures !passes[p].faulted ==> passes[p + 1].reply == passes[p].reply + 1
  {
    assert PassAt(passes, replies, p, reg, env, settings);
    assert PassAt(passes, replies, p + 1, reg, env, settings);
    assert passes[..p + 1][..p] == passes[..p];
    assert passes[..p + 1] == passes[..p] + [passes[p]];
    CompletedSnoc(passes[..p], passes[p]);
  }

  /** The pass the loop runs over `response`, the last reply in `t`. */
  function PassOver(t: Trace, response: ChatResponse, reg: McpToolRegistry, env: Environment, settings: DispatchSettings): Pass
    requires HasToolExecutionRequests(response) && |t.replies| >= 1
  {
    Pass(|t.replies| - 1, response, BatchOf(response, reg, env, settings).calls, env.batchFault(|t.passes|))
  }

  /** The follow-up request after a completed pass over `response`. */
  function FollowUp(t: Trace, response: ChatResponse, reg: McpToolRegistry, env: Environment, settings: DispatchSettings): ModelRequest
    requires HasToolExecutionRequests(response) && |t.requests| >= 1
  {
    NextRequest(t.requests[|t.requests| - 1], response, reg, env, settings)
  }

  /** What holds at the head of the tool loop, with `response` the last
      reply. */
  ghost predicate LoopState(request: ChatRequestDto, reg: McpToolRegistry, env: Environment, settings: DispatchSettings, t: Trace, response: ChatResponse) {
    && t.connections == [] && t.closes == []
    && Conversation(request, reg, env, settings, t)
    && LoopBound(settings, t)
    && NextReply(t.passes) == |t.replies| - 1
    && t.replies[|t.replies| - 1] == Some(response)
    && t.replies[0].Some?
  }

  /** A faulted pass leaves the conversation as it was and the loop state
      intact. */
  lemma {:induction false} FaultedTurn(request: ChatRequestDto, reg: McpToolRegistry, env: Environment, settings: DispatchSettings, t: Trace, response: ChatResponse)
    requires LoopState(request, reg, env, settings, t, response)
    requires HasToolExecutionRequests(response) && |t.passes| < settings.maxIterations
    requires PassOver(t, response, reg, env, settings).faulted
    ensures LoopState(request, reg, env, settings, t.(passes := t.passes + [PassOver(t, response, reg, env, settings)]), response)
  {
    var pass := PassOver(t, response, reg, env, settings);
    PassStep(t.passes, t.replies, reg, env, settings, pass);
    CompletedSnoc(t.passes, pass);
  }

  /** The trace after a completed pass: the pass, its follow-up request and
      that request's reply. */
  function AfterCompletedPass(t: Trace, response: ChatResponse, reg: McpToolRegistry, env: Environment, settings: DispatchSettings): Trace
    requires HasToolExecutionRequests(response) && |t.replies| >= 1 && |t.requests| >= 1
  {
    var follow := FollowUp(t, response, reg, env, settings);
    t.(passes := t.passes + [PassOver(t, response, reg, env, settings)],
       requests := t.requests + [follow],
       replies := t.replies + [ModelCall(env, settings, follow)])
  }

  /** A completed pass keeps the conversation in step: the new pass examined
      the last reply, and the follow-up with its reply extend the logs. */
  lemma {:induction false} CompletedTurnConversation(request: ChatRequestDto, reg: McpToolRegistry, env: Environment, settings: DispatchSettings, t: Trace, response: ChatResponse)
    requires LoopState(request, reg, env, settings, t, response)
    requires HasToolExecutionRequests(response) && |t.passes| < settings.maxIterations
    requires !PassOver(t, response, reg, env, settings).faulted
    ensures var t2 := AfterCompletedPass(t, response, reg, env, settings);
      && Conversation(request, reg, env, settings, t2)
      && LoopBound(settings, t2)
      && NextReply(t2.passes) == |t2.replies| - 1
  {
    var pass := PassOver(t, response, reg, env, settings);
    PassStep(t.passes, t.replies, reg, env, settings, pass);
    CompletedSnoc(t.passes, pass);
    var follow := FollowUp(t, response, reg, env, settings);
    var next := ModelCall(env, settings, follow);
    FollowUpStep(t.requests, t.replies, reg, env, settings, response, follow);
    RepliesGrow(t.passes + [pass], t.replies, reg, env, settings, next);
  }

  /** A completed pass adds its follow-up request and that request's reply;
      the loop goes on with the reply, or ends when it is missing. */
  lemma {:induction false} CompletedTurn(request: ChatRequestDto, reg: McpToolRegistry, env: Environment, settings: DispatchSettings, t: Trace, response: ChatResponse)
    requires LoopState(request, reg, env, settings, t, response)
    requires HasToolExecutionRequests(response) && |t.passes| < settings.maxIterations
    requires !PassOver(t, response, reg, env, settings).faulted
    ensures var t2 := AfterCompletedPass(t, response, reg, env, settings);
      var next := t2.replies[|t2.replies| - 1];
      && (next.Some? ==> LoopState(request, reg, env, settings, t2, next.value))
      && (next.None? ==>
            && t2.connections == [] && t2.closes == []
            && Conversation(request, reg, env, settings, t2)
            && LoopBound(settings, t2)
            && Exit(settings, BadRequest(FollowUpCallFailed), t2))
  {
    CompletedTurnConversation(request, reg, env, settings, t, response);
  }

  /** When the loop stops by its condition the result follows from the last
      reply. */
  lemma LoopStop(request: ChatRequestDto, reg: McpToolRegistry, env: Environment, settings: DispatchSettings, t: Trace, response: ChatResponse, result: Response)
    requires LoopState(request, reg, env, settings, t, response)
    requires !HasToolExecutionRequests(response) || |t.passes| >= settings.maxIterations
    requires result == if response.aiMessage.None? then BadRequest(UnexpectedError)
      else Answered(MapToChatMessageResponseDto(response.aiMessage.value.text))
    ensures Exit(settings, result, t)
  {
  }

  /** The part of `chat` inside its `try`, for a registry that was built:
      the initial model call and the bounded tool loop. */
  method Converse(request: ChatRequestDto, reg: McpToolRegistry, env: Environment, settings: DispatchSettings)
    returns (result: Response, t: Trace)
    ensures t.connections == [] && t.closes == []
    ensures result.Answered? || result.BadRequest?
    ensures Conversation(request, reg, env, settings, t)
    ensures LoopBound(settings, t)
    ensures Exit(settings, result, t)
  {
    var initial := InitialRequest(request, reg);
    var reply := ModelCall(env, settings, initial);
    t := Trace([], [initial], [reply], [], []);
    if reply.None? {
      result := BadRequest(ModelCallFailed);
      return;
    }
    var response := reply.value;
    var iterations: int := 0;
    while HasToolExecutionRequests(response) && iterations < settings.maxIterations
      invariant iterations == |t.passes|
      invariant LoopState(request, reg, env, settings, t, response)
      decreases settings.maxIterations - iterations
    {
      iterations := iterations + 1;
      var pass := PassOver(t, response, reg, env, settings);
      if pass.faulted {
        FaultedTurn(request, reg, env, settings, t, response);
        t := t.(passes := t.passes + [pass]);
        continue;
      }
      CompletedTurn(request, reg, env, settings, t, response);
      var follow := FollowUp(t, response, reg, env, settings);
      var next := ModelCall(env, settings, follow);
      t := t.(passes := t.passes + [pass], requests := t.requests + [follow], replies := t.replies + [next]);
      if next.None? {
        result := BadRequest(FollowUpCallFailed);
        return;
      }
      response := next.value;
    }
    if response.aiMessage.None? {
      result := BadRequest(UnexpectedError);
    } else {
      result := Answered(MapToChatMessageResponseDto(response.aiMessage.value.text));
    }
    LoopStop(request, reg, env, settings, t, response, result);
  }

  /** `OllamaLlmService.chat` once the configuration is resolved: the
      registry is created outside the `try`, so a duplicate tool name
      escapes as an exception with nothing closed; otherwise the registry is
      closed once, after the conversation, whatever its outcome. */
  method Chat(config: Configuration, request: ChatRequestDto, env: Environment, settings: DispatchSettings)
    returns (result: Response, trace: Trace)
    ensures RegistryLifecycle(config, env, settings, result, trace)
    ensures ConversationFlow(config, request, env, settings, trace)
    ensures LoopBound(settings, trace)
    ensures Outcome(config, env, settings, result, trace)
  {
    var creation := RegistryFor(config, env, settings);
    if creation.registry.None? {
      result := Thrown;
      trace := Trace(creation.connections, [], [], [], []);
      return;
    }
    var reg := creation.registry.value;
    var t;
    result, t := Converse(request, reg, env, settings);
    trace := t.(connections := creation.connections, closes := Close(reg, env.closeRaises));
  }

  /** The call reaches the client of a registered tool that carries the
      requested name. */
  ghost predicate ReachesRegisteredTool(reg: McpToolRegistry, c: ClientCall) {
    exists i :: 0 <= i < |reg.tools| && c.client == reg.tools[i].mcpClient && ToolName(reg.tools[i]) == c.request.name
  }

  /** Every tool call of every pass reaches the client of a registered tool
      carrying the requested name. */
  lemma {:induction false} ToolCallsReachRegisteredTools(passes: seq<Pass>, replies: seq<Option<ChatResponse>>, reg: McpToolRegistry, env: Environment, settings: DispatchSettings)
    requires Valid(reg) && PassesFollowReplies(passes, replies, reg, env, settings)
    ensures forall p, c :: 0 <= p < |passes| && c in passes[p].calls ==> ReachesRegisteredTool(reg, c)
  {
    forall p, c | 0 <= p < |passes| && c in passes[p].calls
      ensures ReachesRegisteredTool(reg, c)
    {
      assert PassAt(passes, replies, p, reg, env, settings);
      var requests := passes[p].examined.aiMessage.value.toolExecutionRequests.value;
      RunRequestsCallsServeRequests(requests, reg, env.toolServer, settings.toolRetries);
      var j :| 0 <= j < |requests| && CallServes(reg, requests[j], c);
      FindByNameFindsNamedTool(reg, requests[j].name);
      var i :| 0 <= i < |reg.tools| && ToolName(reg.tools[i]) == requests[j].name;
      assert c.client == reg.tools[i].mcpClient;
    }
  }

  /** The clients `chat` closes: never that of a server which contributed no
      tool (its client leaks), and only clients discovery opened. */
  lemma {:induction false} LeakedClientsStayOpen(config: Configuration, env: Environment, settings: DispatchSettings, result: Response, trace: Trace)
    requires RegistryLifecycle(config, env, settings, result, trace)
    requires config.mcpServers.Some?
    ensures var servers := config.mcpServers.value;
      forall i :: 0 <= i < |servers| && Contribution(servers[i], i, env.probe(servers[i]), settings.listRetries) == [] ==>
        i !in ClosedClients(trace.closes)
    ensures forall c :: c in ClosedClients(trace.closes) ==> exists o :: o in trace.connections && o.id == c
  {
    var servers := config.mcpServers.value;
    var creation := RegistryFor(config, env, settings);
    if servers == [] {
      assert creation.registry == Some(Empty());
      assert Clients(Empty().tools) == [];
      assert trace.closes == [];
    } else {
      var d := DiscoverAll(servers, 0, env.probe, settings.listRetries);
      assert creation.connections == d.connections && creation.registry == FromTools(d.tools);
      FailedServerClientsNeverClosed(servers, env.probe, settings.listRetries, env.closeRaises);
    }
  }
}
