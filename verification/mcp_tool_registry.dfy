/** The per-request tool registry: the ordered tool list and the name index
    built from it once. The index is built like `Collectors.toMap` without a
    merge function, which raises on a repeated name, so a registry exists
    only for tools with pairwise distinct names. */
module ToolRegistry {
  import opened Base
  import opened Messages
  import opened McpTools

  datatype McpToolRegistry = McpToolRegistry(tools: seq<McpTool>, toolsByName: map<string, McpTool>)

  function Names(tools: seq<McpTool>): (r: seq<string>)
    ensures |r| == |tools|
    ensures forall i :: 0 <= i < |tools| ==> r[i] == ToolName(tools[i])
  {
    seq(|tools|, i requires 0 <= i < |tools| => ToolName(tools[i]))
  }

  function Clients(tools: seq<McpTool>): (r: seq<ClientId>)
    ensures |r| == |tools|
    ensures forall i :: 0 <= i < |tools| ==> r[i] == tools[i].mcpClient
  {
    seq(|tools|, i requires 0 <= i < |tools| => tools[i].mcpClient)
  }

  /** The index keys are exactly the tool names and each name maps to the
      tool that carries it. */
  ghost predicate IndexesTools(tools: seq<McpTool>, index: map<string, McpTool>) {
    && index.Keys == Elements(Names(tools))
    && forall i :: 0 <= i < |tools| ==> index[ToolName(tools[i])] == tools[i]
  }

  /** A registry as its constructor leaves it. */
  ghost predicate Valid(r: McpToolRegistry) {
    NoDuplicates(Names(r.tools)) && IndexesTools(r.tools, r.toolsByName)
  }

  /** `Collectors.toMap(McpTool::toolName, identity)`: accumulates left to
      right and fails on the first repeated name. */
  function IndexByName(tools: seq<McpTool>): (r: Option<map<string, McpTool>>)
    ensures r.Some? <==> NoDuplicates(Names(tools))
    ensures r.Some? ==> IndexesTools(tools, r.value)
  {
    if tools == [] then Some(map[])
    else
      var init := tools[..|tools| - 1];
      var t := tools[|tools| - 1];
      assert Names(tools) == Names(init) + [ToolName(t)];
      assert Elements(Names(tools)) == Elements(Names(init)) + {ToolName(t)};
      match IndexByName(init)
      case None => None
      case Some(m) =>
        if ToolName(t) in m then
          assert exists i :: 0 <= i < |init| && Names(init)[i] == ToolName(t);
          None
        else
          Some(m[ToolName(t) := t])
  }

  /** The record's list constructor; `None` when it raises on a repeated
      name. */
  function FromTools(tools: seq<McpTool>): (r: Option<McpToolRegistry>)
    ensures r.Some? <==> NoDuplicates(Names(tools))
    ensures r.Some? ==> r.value.tools == tools && Valid(r.value)
  {
    match IndexByName(tools)
    case None => None
    case Some(index) => Some(McpToolRegistry(tools, index))
  }

  /** `McpToolRegistry.empty()`: no tools, and no name is found in it. */
  function Empty(): (r: McpToolRegistry)
    ensures r.tools == [] && Valid(r)
    ensures forall n :: FindByName(r, n).None?
  {
    McpToolRegistry([], map[])
  }

  function FindByName(r: McpToolRegistry, name: string): Option<McpTool> {
    if name in r.toolsByName then Some(r.toolsByName[name]) else None
  }

  /** In a registry as built, `findByName(n)` returns the one tool named `n`
      when there is one, and nothing otherwise. */
  lemma FindByNameFindsNamedTool(r: McpToolRegistry, name: string)
    requires Valid(r)
    ensures FindByName(r, name).Some? <==> exists i :: 0 <= i < |r.tools| && ToolName(r.tools[i]) == name
    ensures FindByName(r, name).Some? ==>
      forall i :: 0 <= i < |r.tools| && ToolName(r.tools[i]) == name ==> FindByName(r, name).value == r.tools[i]
  {
    if name in r.toolsByName {
      assert name in Elements(Names(r.tools));
      var i :| 0 <= i < |r.tools| && Names(r.tools)[i] == name;
    }
  }

  /** The specifications handed to the model: one per tool, in tool order. */
  function GetToolSpecifications(r: McpToolRegistry): (specs: seq<ToolSpec>)
    ensures |specs| == |r.tools|
    ensures forall i :: 0 <= i < |r.tools| ==> specs[i] == r.tools[i].toolSpecification
    ensures forall i :: 0 <= i < |r.tools| ==> specs[i].name == ToolName(r.tools[i])
  {
    seq(|r.tools|, i requires 0 <= i < |r.tools| => r.tools[i].toolSpecification)
  }

  /** One close call: the client and whether its `close` raised. */
  datatype CloseAttempt = CloseAttempt(client: ClientId, raised: bool)

  function ClosedClients(attempts: seq<CloseAttempt>): (r: seq<ClientId>)
    ensures |r| == |attempts|
    ensures forall i :: 0 <= i < |attempts| ==> r[i] == attempts[i].client
  {
    seq(|attempts|, i requires 0 <= i < |attempts| => attempts[i].client)
  }

  /** `close()`: the distinct clients of the tools, each closed once in
      encounter order; a close that raises is ignored and the remaining
      clients are still closed. `closeRaises` says which closes raise. */
  function Close(r: McpToolRegistry, closeRaises: ClientId -> bool): (attempts: seq<CloseAttempt>)
    ensures NoDuplicates(ClosedClients(attempts))
    ensures Elements(ClosedClients(attempts)) == Elements(Clients(r.tools))
    ensures |attempts| == |Elements(Clients(r.tools))|
    ensures forall i :: 0 <= i < |attempts| ==> attempts[i].client in Clients(r.tools)
    ensures forall i, j :: 0 <= i < j < |attempts| ==>
      FirstIndex(Clients(r.tools), attempts[i].client) < FirstIndex(Clients(r.tools), attempts[j].client)
    ensures forall i :: 0 <= i < |attempts| ==> attempts[i].raised == closeRaises(attempts[i].client)
  {
    var clients := Distinct(Clients(r.tools));
    var attempts := seq(|clients|, i requires 0 <= i < |clients| => CloseAttempt(clients[i], closeRaises(clients[i])));
    assert ClosedClients(attempts) == clients;
    attempts
  }
}
