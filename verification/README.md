# Chat dispatch of the OneCX AI provider service

This project models the dispatch path of the OneCX AI provider service in Dafny.

A chat request arrives with an optional request context, an optional conversation history and a new message. The path goes as follows:

1. **Resolve a configuration.** The request context's filter key and value select one stored configuration. Without a filter value, the first catch-all configuration is chosen. With a value, the candidate whose `*` pattern matches the whole value and has the longest literal part (counted in UTF-16 code units, as Java's `length()` does) is chosen; the first such candidate wins a tie. When nothing resolves, the answer is 404.
2. **Route.** The resolved configuration goes to the orchestrator of its provider type. Ollama is the only type.
3. **Orchestrate.** The orchestrator does the following:
   - It assembles the messages: the history, then the new message as a user message.
   - It discovers tools from every tool (MCP) server of the configuration into a per-request tool registry.
   - It calls the model, retrying, and runs a bounded tool-calling loop. A pass whose tool batch raises is skipped. A missing reply gives a 400.
   - It answers with the last reply's text.
   - It closes the registry once on every exit after the registry was created.

Everything the path talks to is an input:

| input | what it decides |
|---|---|
| `fetch` | the candidate query by filter key |
| `ServerProbe` | whether a server connects, whether it is healthy, and what each listing attempt returns |
| `llm` | the model's result for a request and attempt number |
| `ToolServer` | a tool client's result for a request and attempt number |
| `batchFault` | which tool passes end in an unexpected exception |
| `closeRaises` | which client closes raise |

The orchestrator's `Trace` records what can be observed:

- the clients opened by discovery;
- every model request and its reply;
- every tool pass, with the response it examined and the client calls it made;
- the close calls.

The modules follow the source files:

| module | models |
|---|---|
| `Base` | `Option`, `Try`, `Stream.distinct` |
| `FaultTolerance` | `@Retry`/`@Fallback` |
| `Domain`, `Api`, `Messages` | entities, API objects, chat-library messages |
| `Glob` | the pattern-to-regex translation and its declarative reading |
| `ConfigurationService` | configuration resolution |
| `McpTools` | the tool record |
| `ToolRegistry` | the tool registry |
| `McpDiscovery` | tool discovery |
| `LlmHelpers` | the shared orchestrator helpers |
| `OllamaChat` | the Ollama orchestrator |
| `Router` | the service factory |

Points where the code's behaviour is easy to misread:

- A repeated tool name across servers makes building the registry raise (`Collectors.toMap` without a merge function). The registry is built outside the `try` of `chat`, so the exception leaves `chat` and nothing is closed.
- A filter pattern is used as a Java regular expression after replacing `*` by `.*`. Only patterns without other regex metacharacters are modelled; for those, the translation agrees with the glob reading, which is proved.
- The configuration's system message is never added to the conversation.
- An exception in a tool batch skips the pass with `continue`. That pass still counts as an iteration, and the next pass examines the same response.
- When a server's health check fails, or the server lists no tools, its client stays open: no tool refers to it, so the registry never closes it.

## Model

| member | source | states |
|---|---|---|
| Base.Distinct | src/main/java/org/tkit/onecx/ai/provider/common/services/mcp/McpToolRegistry.java:44-46 | `distinct` keeps each element once: the result has no duplicates, the same elements as the input, as many entries as there are distinct elements, and keeps them in the order of their first occurrence |
| FaultTolerance.WithRetry | src/main/java/org/tkit/onecx/ai/provider/common/services/llm/AbstractLlmService.java:97-107 | between 1 and maxRetries+1 attempts; every attempt before the last raised; a last attempt that returns gives the value; one that raises means all attempts were used and the fallback is returned |
| Glob.RegexAgreesWithGlob | src/main/java/org/tkit/onecx/ai/provider/common/services/configuration/ConfigurationService.java:121 | on plain patterns, the regex `replace("*", ".*")` matches a value exactly when some choice of line-terminator-free runs for the stars spells out the value |
| Glob.SpecificityCountsLiterals | src/main/java/org/tkit/onecx/ai/provider/common/services/configuration/ConfigurationService.java:123-124 | the rank `replace("*", "").length()` plus the number of stars is the pattern's Java length, counted in UTF-16 code units |
| Glob.Utf16LengthBounds | src/main/java/org/tkit/onecx/ai/provider/common/services/configuration/ConfigurationService.java:123-124 | `length()` counts one or two code units per character, and exactly one per character iff no character lies outside the Basic Multilingual Plane |
| Glob.SupplementaryCharacterRanksTwo | src/main/java/org/tkit/onecx/ai/provider/common/services/configuration/ConfigurationService.java:123-124 | a pattern whose only literal is a supplementary character ranks 2, tying with one of two BMP letters |
| Glob.SpecificityBoundsMatch | src/main/java/org/tkit/onecx/ai/provider/common/services/configuration/ConfigurationService.java:121-124 | a pattern never matches a value whose Java length is below its rank |
| ConfigurationService.FirstCatchAll | src/main/java/org/tkit/onecx/ai/provider/common/services/configuration/ConfigurationService.java:111-116 | no result iff no candidate is a catch-all; otherwise the first catch-all in fetch order |
| ConfigurationService.FindConfiguration | src/main/java/org/tkit/onecx/ai/provider/common/services/configuration/ConfigurationService.java:98-128 | the result is one of the candidates fetched for the request's filter key; without a value the first catch-all, with a value the most specific match |
| ConfigurationService.MostSpecificIsMaximal | src/main/java/org/tkit/onecx/ai/provider/common/services/configuration/ConfigurationService.java:118-127 | with a value the result matches, ranks at least as high as every match, and no earlier match ties it (`Stream.max` keeps the first maximum) |
| ConfigurationService.MostSpecificSnoc | src/main/java/org/tkit/onecx/ai/provider/common/services/configuration/ConfigurationService.java:122-126 | one more candidate fetched last replaces the result only when it matches and ranks strictly higher, or when nothing matched before |
| ConfigurationService.NoMatchNoResult | src/main/java/org/tkit/onecx/ai/provider/common/services/configuration/ConfigurationService.java:118-127 | with a value there is no result iff no candidate's pattern matches |
| ConfigurationService.ResolutionSpec | src/main/java/org/tkit/onecx/ai/provider/common/services/configuration/ConfigurationService.java:98-128 | the whole resolution under the glob reading: catch-all iff no value; a result iff some pattern spells out the value; the result's pattern spells it out and no matching pattern has more literal characters |
| ConfigurationService.MoreSpecificOfTwoWins | src/main/java/org/tkit/onecx/ai/provider/common/services/configuration/ConfigurationService.java:122-126 | of two matching candidates the strictly more specific one wins in either fetch order |
| ConfigurationService.NarrowerPatternWins | src/main/java/org/tkit/onecx/ai/provider/common/services/configuration/ConfigurationService.java:118-127 | for `tenant-acme-prod`, `tenant-acme-*` is chosen over `tenant-*` in either order |
| McpTools.Execute | src/main/java/org/tkit/onecx/ai/provider/common/services/mcp/McpTool.java:25-28 | the request goes unchanged to the tool's own client and that client's result is what comes back |
| ToolRegistry.IndexByName | src/main/java/org/tkit/onecx/ai/provider/common/services/mcp/McpToolRegistry.java:19-24 | the name index exists iff tool names are pairwise distinct, and then its keys are exactly the names and each maps to the tool carrying it |
| ToolRegistry.FromTools | src/main/java/org/tkit/onecx/ai/provider/common/services/mcp/McpToolRegistry.java:19-24 | a registry is built iff names are distinct; it keeps the tool list and a consistent index |
| ToolRegistry.Empty | src/main/java/org/tkit/onecx/ai/provider/common/services/mcp/McpToolRegistry.java:26-28 | no tools, a consistent registry, and no name is found |
| ToolRegistry.FindByNameFindsNamedTool | src/main/java/org/tkit/onecx/ai/provider/common/services/mcp/McpToolRegistry.java:30-32 | in a built registry a name is found iff some tool carries it, and the tool found is that tool |
| ToolRegistry.GetToolSpecifications | src/main/java/org/tkit/onecx/ai/provider/common/services/mcp/McpToolRegistry.java:34-38 | one specification per tool, in tool order, named after the tool |
| ToolRegistry.Close | src/main/java/org/tkit/onecx/ai/provider/common/services/mcp/McpToolRegistry.java:43-54 | every distinct client of the tools is closed exactly once, in the order of the clients' first use by a tool, and nothing else is; a raising close does not stop the others |
| McpDiscovery.TransportHeaders | src/main/java/org/tkit/onecx/ai/provider/common/services/mcp/McpService.java:97-99 | an `Authorization` header carrying the API key iff the key is present and not blank; no other header |
| McpDiscovery.ReceiveToolSpecifications | src/main/java/org/tkit/onecx/ai/provider/common/services/mcp/McpService.java:78-88 | all listing attempts raising gives the empty list; otherwise the result is the list returned by the first attempt that returns, within maxRetries+1 attempts |
| McpDiscovery.ListingAfterFailures | src/main/java/org/tkit/onecx/ai/provider/common/services/mcp/McpService.java:78-88 | an attempt k within the budget that returns after k raising attempts determines the server's listing |
| McpDiscovery.WrapSpecifications | src/main/java/org/tkit/onecx/ai/provider/common/services/mcp/McpService.java:64-66 | one tool per specification, in order, bound to the server's URL and client |
| McpDiscovery.DiscoverToolsFromServer | src/main/java/org/tkit/onecx/ai/provider/common/services/mcp/McpService.java:54-76 | no client and no tools when the client cannot be built; a client but no tools when unhealthy; otherwise the wrapped listing |
| McpDiscovery.ToolsOfMembers | src/main/java/org/tkit/onecx/ai/provider/common/services/mcp/McpService.java:64-66 | helper fact about the per-client projection used by the isolation proofs: the tools of a client are exactly the listed tools bound to it |
| McpDiscovery.ToolsOfAppend | src/main/java/org/tkit/onecx/ai/provider/common/services/mcp/McpService.java:44-46 | helper fact about the per-client projection: after `addAll`, a client's tools are its tools in each part, concatenated |
| McpDiscovery.ContributionUsesItsClient | src/main/java/org/tkit/onecx/ai/provider/common/services/mcp/McpService.java:64-66 | every tool a server contributes uses that server's client and URL |
| McpDiscovery.DiscoveryIsolatesServers | src/main/java/org/tkit/onecx/ai/provider/common/services/mcp/McpService.java:42-76 | failure isolation: the tools bound to server i's client are exactly what server i contributes alone, whatever the others do |
| McpDiscovery.ToolsCarryTheirServer | src/main/java/org/tkit/onecx/ai/provider/common/services/mcp/McpService.java:44-66 | every discovered tool uses some server's client and carries that server's URL |
| McpDiscovery.OpenedClientsAreConnectedServers | src/main/java/org/tkit/onecx/ai/provider/common/services/mcp/McpService.java:57-59 | the clients opened are exactly one per server whose client can be built, with that server's URL and headers |
| McpDiscovery.CreateToolRegistry | src/main/java/org/tkit/onecx/ai/provider/common/services/mcp/McpService.java:36-52 | no configuration or no server gives the empty registry and opens nothing; otherwise the registry over all servers' tools in server order |
| McpDiscovery.ToolsOfServer | src/main/java/org/tkit/onecx/ai/provider/common/services/mcp/McpService.java:42-51 | server i's tools in the combined list are exactly its own contribution |
| McpDiscovery.SilentServerOwnsNoTool | src/main/java/org/tkit/onecx/ai/provider/common/services/mcp/McpService.java:60-70 | a server that contributes no tool has no tool bound to its client |
| McpDiscovery.ToolClientsWereOpened | src/main/java/org/tkit/onecx/ai/provider/common/services/mcp/McpService.java:57-66 | every client a tool uses was opened by discovery |
| McpDiscovery.FailedServerClientsNeverClosed | src/main/java/org/tkit/onecx/ai/provider/common/services/mcp/McpService.java:57-70 | the registry's close never reaches the client of a server that contributed nothing, and closes only opened clients |
| LlmHelpers.HasToolExecutionRequests | src/main/java/org/tkit/onecx/ai/provider/common/services/llm/AbstractLlmService.java:54-60 | true iff the AI message is present and its request list is non-null and non-empty |
| LlmHelpers.ExecuteToolRequestWithRetry | src/main/java/org/tkit/onecx/ai/provider/common/services/llm/AbstractLlmService.java:97-107 | attempt k sends the unchanged request to the tool's client; earlier attempts raised; the text is the first returned result, or the failure message naming the tool after maxRetries+1 raising attempts |
| LlmHelpers.RunRequestsMessages | src/main/java/org/tkit/onecx/ai/provider/common/services/llm/AbstractLlmService.java:75-92 | result message i is the one for request i |
| LlmHelpers.RunRequestsResults | src/main/java/org/tkit/onecx/ai/provider/common/services/llm/AbstractLlmService.java:75-92 | one result message per request in order, bound to its request: the not-found text for an unknown name, else the retried execution's text |
| LlmHelpers.RunRequestsCallBound | src/main/java/org/tkit/onecx/ai/provider/common/services/llm/AbstractLlmService.java:75-92 | a batch makes at most maxRetries+1 client calls per request |
| LlmHelpers.RunRequestsCallsServeRequests | src/main/java/org/tkit/onecx/ai/provider/common/services/llm/AbstractLlmService.java:80-88 | every client call carries one of the batch's requests to the client of the tool registered under its name; an unknown name causes no call |
| LlmHelpers.RunRequestsAttemptsRegistered | src/main/java/org/tkit/onecx/ai/provider/common/services/llm/AbstractLlmService.java:80-91 | every request naming a registered tool is attempted at least once |
| LlmHelpers.ExecuteToolRequests | src/main/java/org/tkit/onecx/ai/provider/common/services/llm/AbstractLlmService.java:69-95 | the AI message first, then exactly one result message per request |
| LlmHelpers.ModelChatRequestWithRetries | src/main/java/org/tkit/onecx/ai/provider/common/services/llm/AbstractLlmService.java:129-138 | no response iff all maxRetries+1 attempts raise; otherwise the first attempt that returned, after only raising attempts |
| LlmHelpers.MapToLangChainMessages | src/main/java/org/tkit/onecx/ai/provider/common/services/llm/AbstractLlmService.java:109-119 | one message per history entry in order; each maps back to its entry; the role picks the message kind |
| LlmHelpers.HistoryRoundTrip | src/main/java/org/tkit/onecx/ai/provider/common/services/llm/AbstractLlmService.java:109-119 | mapping a history and reading it back gives the same history |
| LlmHelpers.UnmapInverts | src/main/java/org/tkit/onecx/ai/provider/common/services/llm/AbstractLlmService.java:109-119 | a message list whose entries each read back to the history's entries reads back to the history |
| LlmHelpers.MapToChatMessageResponseDto | src/main/java/org/tkit/onecx/ai/provider/common/services/llm/AbstractLlmService.java:121-127 | the reply is an assistant message carrying the final text unchanged, null included |
| OllamaChat.AssembleMessages | src/main/java/org/tkit/onecx/ai/provider/common/services/llm/OllamaLlmService.java:32-40 | the history entries in order, each reading back to its entry, followed by one user message with the request's text; nothing else |
| OllamaChat.InitialRequest | src/main/java/org/tkit/onecx/ai/provider/common/services/llm/OllamaLlmService.java:62-73 | the assembled messages, with tool specifications attached iff the registry has tools |
| OllamaChat.PassesInOrder | src/main/java/org/tkit/onecx/ai/provider/common/services/llm/OllamaLlmService.java:85-111 | after a pass that raised, the next pass examines the same response; after a completed pass, the reply to its follow-up |
| OllamaChat.FaultedTurn | src/main/java/org/tkit/onecx/ai/provider/common/services/llm/OllamaLlmService.java:89-95 | a pass whose batch raises adds no message and no request, and the loop goes on with the same response |
| OllamaChat.CompletedTurnConversation | src/main/java/org/tkit/onecx/ai/provider/common/services/llm/OllamaLlmService.java:89-103 | a completed pass appends its batch's messages to the last request and sends the follow-up with the tool specifications, keeping the logs in step |
| OllamaChat.CompletedTurn | src/main/java/org/tkit/onecx/ai/provider/common/services/llm/OllamaLlmService.java:97-111 | after a completed pass the loop goes on with the follow-up's reply, or ends with the follow-up 400 when it is missing |
| OllamaChat.Converse | src/main/java/org/tkit/onecx/ai/provider/common/services/llm/OllamaLlmService.java:61-126 | the initial request, each follow-up and reply, and each pass as above; at most maxIterations passes; a 400 when a reply is missing; otherwise the last reply's text, or an unexpected-error 400 when it has no AI message |
| OllamaChat.Chat | src/main/java/org/tkit/onecx/ai/provider/common/services/llm/OllamaLlmService.java:28-130 | a duplicate tool name escapes as an exception with nothing closed; otherwise the conversation as in Converse, then the registry closed once |
| OllamaChat.ToolCallsReachRegisteredTools | src/main/java/org/tkit/onecx/ai/provider/common/services/llm/AbstractLlmService.java:80-88 | every tool call of every pass reaches the client of a registered tool carrying the requested name |
| OllamaChat.LeakedClientsStayOpen | src/main/java/org/tkit/onecx/ai/provider/common/services/llm/OllamaLlmService.java:127-129 | the final close never reaches the client of a server that contributed no tool, and closes only opened clients |
| Router.Dispatch | src/main/java/org/tkit/onecx/ai/provider/common/services/llm/LlmServiceFactory.java:29-49 | 404 and no orchestrator run iff no configuration resolves; otherwise (the provider switch being exhaustive) exactly what the orchestrator guarantees for the resolved configuration and the untouched request |

## Left out

- REST controllers, mappers, DAOs and persistence: the candidate query is the parameter `fetch`.
- Building the Ollama model client (base URL, model name, `Authorization` header, timeout, logging flags, HTTP client). This is foreign code; the model is the oracle `llm`.
- The tool-server transport and clients beyond their identity, headers and URL: timeouts, logging and the network protocol.
- Retry delays, jitter and the overall retry duration of `@Retry`. The retry counts are parameters: the annotation default is 3 retries, and `maxToolExecutionRetries` is only read in log lines.
- Timestamps (`creationDate`) and all logging.
- The oracles are deterministic per request and attempt number, so two identical requests in one conversation see the same model outcome.
- The order of the configuration's tool-server `Set`: a server's client identity is its position in iteration order.
- A tool batch that raises is modelled as raising after all of the pass's calls. A batch that stops part-way through its calls is not modelled; the messages are dropped either way.
- OllamaChat.Converse: the loop counter `iterations` is a Java `int` compared with the `long` `maxIterations` (default 3). The model counts without bound, so the wrap-around that a cap above 2^31 - 1 would allow is not modelled.
- Null provider, provider type, chat message or message text, and other null-pointer paths. The chat library's own rejection of blank message text is not modelled either.
- A tool or model result that returns a null text; results are strings.
- ConfigurationService.FindConfiguration: requires every fetched pattern to be free of regex metacharacters other than `*`. Other patterns can raise `PatternSyntaxException` or match as full regular expressions, and that is not modelled.
- Strings are sequences of Unicode scalar values. A Java string holding an unpaired surrogate has no counterpart in the model.
- The service's other operations (configuration, provider and tool-server management).
