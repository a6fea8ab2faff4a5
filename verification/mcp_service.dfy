/** Tool discovery (`McpService`). Each configured server is handled on its
    own: a client is opened, health-checked and asked for its tool
    specifications (retried, falling back to an empty list); each
    specification becomes a tool bound to that server's URL and client.
    Any failure of one server contributes no tools and leaves the other
    servers' tools as they are. A client opened for a server that then
    fails, or that lists no tools, belongs to no tool, so the registry never
    closes it.

    How a server behaves is an oracle (`ServerProbe`). The i-th server in
    the configuration's iteration order gets the fresh client `i`. */
module McpDiscovery {
  import opened Base
  import opened Domain
  import opened Messages
  import opened FaultTolerance
  import opened McpTools
  import opened ToolRegistry

  /** How one server behaves for this request: whether a client can be
      built for it, whether its health check passes, and what each listing
      attempt returns. */
  datatype ServerProbe = ServerProbe(connects: bool, healthy: bool, listing: nat -> Try<seq<ToolSpec>>)

  /** A client the discovery opened: its identity, the server URL and the
      transport headers it was built with. */
  datatype OpenedClient = OpenedClient(id: ClientId, url: string, headers: map<string, string>)

  datatype Discovery = Discovery(tools: seq<McpTool>, connections: seq<OpenedClient>)

  /** What `createToolRegistry` produced: the registry (none when building
      it raised on a repeated tool name) and the clients it opened. */
  datatype Creation = Creation(registry: Option<McpToolRegistry>, connections: seq<OpenedClient>)

  /** `Character.isWhitespace`. */
  predicate IsJavaWhitespace(c: char) {
    || c == ' ' || c == '\t' || c == '\n' || c == '\U{0B}' || c == '\U{0C}' || c == '\r'
    || ('\U{1C}' <= c <= '\U{1F}')
    || c == '\U{1680}' || ('\U{2000}' <= c <= '\U{200A}' && c != '\U{2007}')
    || c == '\U{2028}' || c == '\U{2029}' || c == '\U{205F}' || c == '\U{3000}'
  }

  /** `String.isBlank`. */
  predicate IsBlank(s: string) {
    forall i :: 0 <= i < |s| ==> IsJavaWhitespace(s[i])
  }

  /** The custom headers of a server's transport: an `Authorization` header
      carrying the API key exactly when the key is present and not blank. */
  function TransportHeaders(server: McpServer): (h: map<string, string>)
    ensures "Authorization" in h <==> server.apiKey.Some? && !IsBlank(server.apiKey.value)
    ensures "Authorization" in h ==> h["Authorization"] == server.apiKey.value
    ensures h.Keys <= {"Authorization"}
  {
    if server.apiKey.Some? && !IsBlank(server.apiKey.value) then map["Authorization" := server.apiKey.value]
    else map[]
  }

  /** `receiveToolSpecifications` with its fallback: the first listing
      attempt that returns, or the empty list when all attempts raise. */
  function ReceiveToolSpecifications(probe: ServerProbe, maxRetries: nat): (specs: seq<ToolSpec>)
    ensures (forall k :: 0 <= k <= maxRetries ==> probe.listing(k).Raised?) ==> specs == []
    ensures (exists k :: 0 <= k <= maxRetries && probe.listing(k).Ok?) ==>
      exists k :: 0 <= k <= maxRetries && FirstSuccessAt(probe.listing, k) && specs == probe.listing(k).value
  {
    var run := WithRetry(probe.listing, maxRetries, []);
    assert probe.listing(run.attempts - 1).Ok? ==> probe.listing(run.attempts - 1) == Ok(run.value);
    run.value
  }

  /** A listing that returns after `k` raising attempts, within the retry
      budget, is the list the server contributes. */
  lemma ListingAfterFailures(probe: ServerProbe, maxRetries: nat, k: nat)
    requires k <= maxRetries
    requires forall j :: 0 <= j < k ==> probe.listing(j).Raised?
    requires probe.listing(k).Ok?
    ensures ReceiveToolSpecifications(probe, maxRetries) == probe.listing(k).value
  {
    var specs := ReceiveToolSpecifications(probe, maxRetries);
    var k' :| 0 <= k' <= maxRetries && FirstSuccessAt(probe.listing, k') && specs == probe.listing(k').value;
    assert k' == k;
  }

  /** The tools a server contributes when it connects and is healthy. */
  function WrapSpecifications(server: McpServer, client: ClientId, specs: seq<ToolSpec>): (tools: seq<McpTool>)
    ensures |tools| == |specs|
    ensures forall i :: 0 <= i < |specs| ==> tools[i] == McpTool(server.url, specs[i], client)
  {
    seq(|specs|, i requires 0 <= i < |specs| => McpTool(server.url, specs[i], client))
  }

  /** `discoverToolsFromServer` for the server given client identity `id`. */
  function DiscoverToolsFromServer(server: McpServer, id: ClientId, probe: ServerProbe, maxRetries: nat): (d: Discovery)
    ensures !probe.connects ==> d == Discovery([], [])
    ensures probe.connects ==> d.connections == [OpenedClient(id, server.url, TransportHeaders(server))]
    ensures probe.connects && !probe.healthy ==> d.tools == []
    ensures probe.connects && probe.healthy ==>
      d.tools == WrapSpecifications(server, id, ReceiveToolSpecifications(probe, maxRetries))
  {
    if !probe.connects then Discovery([], [])
    else
      var connections := [OpenedClient(id, server.url, TransportHeaders(server))];
      if !probe.healthy then Discovery([], connections)
      else Discovery(WrapSpecifications(server, id, ReceiveToolSpecifications(probe, maxRetries)), connections)
  }

  /** The tools a server contributes, on its own. */
  function Contribution(server: McpServer, id: ClientId, probe: ServerProbe, maxRetries: nat): seq<McpTool> {
    DiscoverToolsFromServer(server, id, probe, maxRetries).tools
  }

  /** Discovery over the servers, the first one getting client `base`. */
  function DiscoverAll(servers: seq<McpServer>, base: ClientId, probe: McpServer -> ServerProbe, maxRetries: nat): Discovery
    decreases |servers|
  {
    if servers == [] then Discovery([], [])
    else
      var first := DiscoverToolsFromServer(servers[0], base, probe(servers[0]), maxRetries);
      var rest := DiscoverAll(servers[1..], base + 1, probe, maxRetries);
      Discovery(first.tools + rest.tools, first.connections + rest.connections)
  }

  /** The tools of one client. */
  function ToolsOf(tools: seq<McpTool>, client: ClientId): seq<McpTool> {
    if tools == [] then []
    else (if tools[0].mcpClient == client then [tools[0]] else []) + ToolsOf(tools[1..], client)
  }

  /** The tools of a client are exactly the listed tools bound to it. */
  lemma {:induction false} ToolsOfMembers(tools: seq<McpTool>, client: ClientId)
    ensures forall t :: t in ToolsOf(tools, client) <==> t in tools && t.mcpClient == client
  {
    if tools != [] {
      ToolsOfMembers(tools[1..], client);
      assert forall t :: t in tools <==> t == tools[0] || t in tools[1..];
    }
  }

  lemma {:induction false} ToolsOfAppend(a: seq<McpTool>, b: seq<McpTool>, client: ClientId)
    ensures ToolsOf(a + b, client) == ToolsOf(a, client) + ToolsOf(b, client)
  {
    if a == [] {
      assert a + b == b;
    } else {
      var head := if a[0].mcpClient == client then [a[0]] else [];
      calc {
        ToolsOf(a + b, client);
        == { assert (a + b)[0] == a[0]; assert (a + b)[1..] == a[1..] + b; }
        head + ToolsOf(a[1..] + b, client);
        == { ToolsOfAppend(a[1..], b, client); }
        head + (ToolsOf(a[1..], client) + ToolsOf(b, client));
        (head + ToolsOf(a[1..], client)) + ToolsOf(b, client);
        ToolsOf(a, client) + ToolsOf(b, client);
      }
    }
  }

  /** Every tool a server contributes uses that server's client and URL. */
  lemma ContributionUsesItsClient(server: McpServer, id: ClientId, probe: ServerProbe, maxRetries: nat)
    ensures forall t :: t in Contribution(server, id, probe, maxRetries) ==> t.mcpClient == id && t.serverUrl == server.url
  {
    var tools := Contribution(server, id, probe, maxRetries);
    forall t | t in tools ensures t.mcpClient == id && t.serverUrl == server.url {
      var k :| 0 <= k < |tools| && tools[k] == t;
    }
  }

  /** Failure isolation: the tools bound to the client of server `i` are
      exactly what that server contributes on its own, whatever the other
      servers do. */
  lemma {:induction false} DiscoveryIsolatesServers(servers: seq<McpServer>, base: ClientId, probe: McpServer -> ServerProbe, maxRetries: nat)
    ensures forall i :: 0 <= i < |servers| ==>
      ToolsOf(DiscoverAll(servers, base, probe, maxRetries).tools, base + i) ==
        Contribution(servers[i], base + i, probe(servers[i]), maxRetries)
    decreases |servers|
  {
    if servers != [] {
      DiscoveryIsolatesServers(servers[1..], base + 1, probe, maxRetries);
      forall i | 0 <= i < |servers|
        ensures ToolsOf(DiscoverAll(servers, base, probe, maxRetries).tools, base + i) ==
                Contribution(servers[i], base + i, probe(servers[i]), maxRetries)
      {
        IsolationStep(servers, base, probe, maxRetries, i);
      }
    }
  }

  lemma IsolationStep(servers: seq<McpServer>, base: ClientId, probe: McpServer -> ServerProbe, maxRetries: nat, i: nat)
    requires 0 <= i < |servers|
    requires forall j :: 0 <= j < |servers| - 1 ==>
      ToolsOf(DiscoverAll(servers[1..], base + 1, probe, maxRetries).tools, base + 1 + j) ==
        Contribution(servers[1..][j], base + 1 + j, probe(servers[1..][j]), maxRetries)
    ensures ToolsOf(DiscoverAll(servers, base, probe, maxRetries).tools, base + i) ==
              Contribution(servers[i], base + i, probe(servers[i]), maxRetries)
  {
    var first := Contribution(servers[0], base, probe(servers[0]), maxRetries);
    var rest := DiscoverAll(servers[1..], base + 1, probe, maxRetries).tools;
    assert DiscoverAll(servers, base, probe, maxRetries).tools == first + rest;
    ToolsOfAppend(first, rest, base + i);
    ContributionUsesItsClient(servers[0], base, probe(servers[0]), maxRetries);
    if i == 0 {
      OneClientTools(first, base);
      RestClientsAbove(servers[1..], base + 1, probe, maxRetries);
      NoToolsOf(rest, base);
    } else {
      assert servers[1..][i - 1] == servers[i];
      assert base + 1 + (i - 1) == base + i;
      NoToolsOf(first, base + i);
    }
  }

  /** Every discovered tool belongs to one of the servers' clients and
      carries that server's URL. */
  lemma {:induction false} ToolsCarryTheirServer(servers: seq<McpServer>, base: ClientId, probe: McpServer -> ServerProbe, maxRetries: nat)
    ensures forall t :: t in DiscoverAll(servers, base, probe, maxRetries).tools ==>
      exists i :: 0 <= i < |servers| && t.mcpClient == base + i && t.serverUrl == servers[i].url
    decreases |servers|
  {
    if servers != [] {
      var first := DiscoverToolsFromServer(servers[0], base, probe(servers[0]), maxRetries);
      var rest := DiscoverAll(servers[1..], base + 1, probe, maxRetries);
      ToolsCarryTheirServer(servers[1..], base + 1, probe, maxRetries);
      forall t | t in first.tools + rest.tools
        ensures exists i :: 0 <= i < |servers| && t.mcpClient == base + i && t.serverUrl == servers[i].url
      {
        if t in first.tools {
          assert t.mcpClient == base + 0 && t.serverUrl == servers[0].url;
        } else {
          var j :| 0 <= j < |servers[1..]| && t.mcpClient == base + 1 + j && t.serverUrl == servers[1..][j].url;
          assert t.mcpClient == base + (j + 1) && t.serverUrl == servers[j + 1].url;
        }
      }
    }
  }

  /** Tools discovered from the later servers never use an earlier client. */
  lemma {:induction false} RestClientsAbove(servers: seq<McpServer>, base: ClientId, probe: McpServer -> ServerProbe, maxRetries: nat)
    ensures forall t :: t in DiscoverAll(servers, base, probe, maxRetries).tools ==> t.mcpClient >= base
    decreases |servers|
  {
    if servers != [] {
      RestClientsAbove(servers[1..], base + 1, probe, maxRetries);
    }
  }

  lemma OneClientTools(tools: seq<McpTool>, client: ClientId)
    requires forall t :: t in tools ==> t.mcpClient == client
    ensures ToolsOf(tools, client) == tools
  {
    if tools != [] {
      assert tools[0] in tools;
      OneClientTools(tools[1..], client);
      assert tools == [tools[0]] + tools[1..];
    }
  }

  lemma NoToolsOf(tools: seq<McpTool>, client: ClientId)
    requires forall t :: t in tools ==> t.mcpClient != client
    ensures ToolsOf(tools, client) == []
  {
    if ToolsOf(tools, client) != [] {
      ToolsOfMembers(tools, client);
      assert ToolsOf(tools, client)[0] in ToolsOf(tools, client);
    }
  }

  /** The clients opened, with their identities: server `i`'s client is
      opened exactly when that server connects. */
  lemma {:induction false} OpenedClientsAreConnectedServers(servers: seq<McpServer>, base: ClientId, probe: McpServer -> ServerProbe, maxRetries: nat)
    ensures forall o :: o in DiscoverAll(servers, base, probe, maxRetries).connections <==>
      exists i :: 0 <= i < |servers| && probe(servers[i]).connects &&
        o == OpenedClient(base + i, servers[i].url, TransportHeaders(servers[i]))
    decreases |servers|
  {
    if servers != [] {
      OpenedClientsAreConnectedServers(servers[1..], base + 1, probe, maxRetries);
      var d := DiscoverAll(servers, base, probe, maxRetries);
      forall o | o in d.connections
        ensures exists i :: (0 <= i < |servers| && probe(servers[i]).connects &&
          o == OpenedClient(base + i, servers[i].url, TransportHeaders(servers[i])))
      {
        if o in DiscoverAll(servers[1..], base + 1, probe, maxRetries).connections {
          var j :| 0 <= j < |servers[1..]| && probe(servers[1..][j]).connects &&
            o == OpenedClient(base + 1 + j, servers[1..][j].url, TransportHeaders(servers[1..][j]));
          assert servers[j + 1] == servers[1..][j];
        }
      }
      forall i | 0 <= i < |servers| && probe(servers[i]).connects
        ensures OpenedClient(base + i, servers[i].url, TransportHeaders(servers[i])) in d.connections
      {
        if i > 0 {
          assert servers[1..][i - 1] == servers[i];
          assert base + 1 + (i - 1) == base + i;
        }
      }
    }
  }

  /** `createToolRegistry`: the empty registry (and no client) when there is
      no configuration or no server; otherwise the registry over the tools
      discovered from every server, in server order. */
  function CreateToolRegistry(configuration: Option<Configuration>, probe: McpServer -> ServerProbe, maxRetries: nat): (c: Creation)
    ensures configuration.None? || configuration.value.mcpServers.None? || configuration.value.mcpServers.value == [] ==>
      c == Creation(Some(Empty()), [])
    ensures configuration.Some? && configuration.value.mcpServers.Some? && configuration.value.mcpServers.value != [] ==>
      var d := DiscoverAll(configuration.value.mcpServers.value, 0, probe, maxRetries);
      c.connections == d.connections && c.registry == FromTools(d.tools)
  {
    if configuration.None? || configuration.value.mcpServers.None? || configuration.value.mcpServers.value == [] then
      Creation(Some(Empty()), [])
    else
      var d := DiscoverAll(configuration.value.mcpServers.value, 0, probe, maxRetries);
      Creation(FromTools(d.tools), d.connections)
  }

  /** Server `i`'s tools in the combined list are exactly its contribution. */
  lemma ToolsOfServer(servers: seq<McpServer>, probe: McpServer -> ServerProbe, maxRetries: nat, i: nat)
    requires i < |servers|
    ensures ToolsOf(DiscoverAll(servers, 0, probe, maxRetries).tools, i) == Contribution(servers[i], i, probe(servers[i]), maxRetries)
  {
    DiscoveryIsolatesServers(servers, 0, probe, maxRetries);
    assert 0 + i == i;
  }

  /** Server `i`'s client is among the opened clients when it connects. */
  lemma ServerClientOpened(servers: seq<McpServer>, probe: McpServer -> ServerProbe, maxRetries: nat, i: nat)
    requires i < |servers| && probe(servers[i]).connects
    ensures OpenedClient(i, servers[i].url, TransportHeaders(servers[i])) in DiscoverAll(servers, 0, probe, maxRetries).connections
  {
    OpenedClientsAreConnectedServers(servers, 0, probe, maxRetries);
    assert 0 + i == i;
  }

  /** A server that contributes no tool has no tool bound to its client. */
  lemma SilentServerOwnsNoTool(servers: seq<McpServer>, probe: McpServer -> ServerProbe, maxRetries: nat, i: nat)
    requires i < |servers| && Contribution(servers[i], i, probe(servers[i]), maxRetries) == []
    ensures i !in Clients(DiscoverAll(servers, 0, probe, maxRetries).tools)
  {
    var tools := DiscoverAll(servers, 0, probe, maxRetries).tools;
    ToolsOfServer(servers, probe, maxRetries, i);
    ToolsOfMembers(tools, i);
    forall k | 0 <= k < |tools| ensures Clients(tools)[k] != i {
      assert tools[k] in tools;
    }
  }

  /** Every client a discovered tool uses was opened by the discovery. */
  lemma ToolClientsWereOpened(servers: seq<McpServer>, probe: McpServer -> ServerProbe, maxRetries: nat, c: ClientId)
    requires c in Clients(DiscoverAll(servers, 0, probe, maxRetries).tools)
    ensures exists o :: o in DiscoverAll(servers, 0, probe, maxRetries).connections && o.id == c
  {
    var tools := DiscoverAll(servers, 0, probe, maxRetries).tools;
    var k :| 0 <= k < |tools| && Clients(tools)[k] == c;
    ToolsCarryTheirServer(servers, 0, probe, maxRetries);
    assert tools[k] in tools;
    var i :| 0 <= i < |servers| && tools[k].mcpClient == 0 + i && tools[k].serverUrl == servers[i].url;
    ToolsOfServer(servers, probe, maxRetries, i);
    ToolsOfMembers(tools, i);
    assert tools[k] in ToolsOf(tools, i);
    ServerClientOpened(servers, probe, maxRetries, i);
  }

  /** A client that was opened but whose server contributed no tool is not
      a client of the registry, so the registry's `close` never reaches it;
      every client the registry does close was opened by the discovery. */
  lemma FailedServerClientsNeverClosed(servers: seq<McpServer>, probe: McpServer -> ServerProbe, maxRetries: nat, closeRaises: ClientId -> bool)
    ensures var d := DiscoverAll(servers, 0, probe, maxRetries);
      FromTools(d.tools).Some? ==>
        var closed := ClosedClients(Close(FromTools(d.tools).value, closeRaises));
        && (forall i :: 0 <= i < |servers| && Contribution(servers[i], i, probe(servers[i]), maxRetries) == [] ==> i !in closed)
        && (forall c :: c in closed ==> exists o :: o in d.connections && o.id == c)
  {
    var d := DiscoverAll(servers, 0, probe, maxRetries);
    if FromTools(d.tools).Some? {
      var reg := FromTools(d.tools).value;
      var closed := ClosedClients(Close(reg, closeRaises));
      assert Elements(closed) == Elements(Clients(d.tools));
      forall i | 0 <= i < |servers| && Contribution(servers[i], i, probe(servers[i]), maxRetries) == []
        ensures i !in closed
      {
        SilentServerOwnsNoTool(servers, probe, maxRetries, i);
        assert i !in Elements(Clients(d.tools));
      }
      forall c | c in closed ensures exists o :: o in d.connections && o.id == c {
        assert c in Elements(Clients(d.tools));
        ToolClientsWereOpened(servers, probe, maxRetries, c);
      }
    }
  }
}
