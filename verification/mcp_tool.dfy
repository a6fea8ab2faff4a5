/** A tool discovered on a remote tool (MCP) server. A tool does not own its
    client: every tool of one server holds the same client, identified by a
    `ClientId` (object identity in the source). The remote server is an
    oracle: what a client returns for a request on a given attempt. */
module McpTools {
  import opened Base
  import opened Messages

  /** Identity of one live tool-server client. */
  type ClientId = nat

  /** The tool-server side: the outcome of sending `request` through
      `client` on retry attempt `attempt`. */
  type ToolServer = (ClientId, ToolRequest, nat) -> Try<string>

  /** The `McpTool` record: its fields are fixed when it is built. */
  datatype McpTool = McpTool(serverUrl: string, toolSpecification: ToolSpec, mcpClient: ClientId)

  /** One request sent to a tool-server client. */
  datatype ClientCall = ClientCall(client: ClientId, request: ToolRequest, attempt: nat)

  function ToolName(t: McpTool): string {
    t.toolSpecification.name
  }

  /** One execution of a tool: the call it sends and what comes back. */
  datatype Execution = Execution(call: ClientCall, outcome: Try<string>)

  /** `McpTool.execute`: the request goes, unchanged, to this tool's own
      client, and the client's result text is returned unchanged. */
  function Execute(t: McpTool, request: ToolRequest, server: ToolServer, attempt: nat): (e: Execution)
    ensures e.call.client == t.mcpClient && e.call.request == request && e.call.attempt == attempt
    ensures e.outcome == server(t.mcpClient, request, attempt)
  {
    Execution(ClientCall(t.mcpClient, request, attempt), server(t.mcpClient, request, attempt))
  }
}
