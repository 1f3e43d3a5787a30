/** The read-only catalog operations of the front end: `get_server_info`,
    `list_indexed_servers`, `list_server_tools` and `get_tool_details`. Each
    forwards its identifying parameters to the index service and either
    shapes what comes back or returns an error object that echoes them. */
module CatalogViews {
  import opened Wrappers
  import opened Service
  import opened PyValue

  datatype ServerInfoResponse =
    | ServerInfo(serverName: string, serverInfo: Payload)
    | ServerInfoError(error: string, serverName: string)

  /** `get_server_info(server_name)`; `getServer` is the index lookup by name. */
  function GetServerInfo(serverName: string, getServer: string -> Outcome<Payload>): (r: ServerInfoResponse)
    ensures r.serverName == serverName
    ensures r.ServerInfo? <==> getServer(serverName).Ok?
    ensures r.ServerInfo? ==> r.serverInfo == getServer(serverName).value
    ensures getServer(serverName).NotFound? ==> r.error == "Server '" + serverName + "' not found"
    ensures getServer(serverName).Failed? ==>
      r.error == "Failed to get server info: " + getServer(serverName).msg
  {
    match getServer(serverName)
    case NotFound => ServerInfoError("Server '" + serverName + "' not found", serverName)
    case Ok(info) => ServerInfo(serverName, info)
    case Failed(msg) => ServerInfoError("Failed to get server info: " + msg, serverName)
  }

  /** The index lookup of a catalog held as a map from server name to payload. */
  function CatalogLookup(cat: map<string, Payload>): string -> Outcome<Payload> {
    n => if n in cat then Ok(cat[n]) else NotFound
  }

  /** Against a catalog, `get_server_info` finds exactly the catalogued servers,
      returns their entry unchanged, and reports every other name as not found. */
  lemma ServerInfoFromCatalog(cat: map<string, Payload>, serverName: string)
    ensures GetServerInfo(serverName, CatalogLookup(cat)).ServerInfo? <==> serverName in cat
    ensures serverName in cat ==> GetServerInfo(serverName, CatalogLookup(cat)).serverInfo == cat[serverName]
    ensures serverName !in cat ==>
      GetServerInfo(serverName, CatalogLookup(cat)) == ServerInfoError("Server '" + serverName + "' not found", serverName)
  {
    assert CatalogLookup(cat)(serverName) == if serverName in cat then Ok(cat[serverName]) else NotFound;
  }

  /** Minimal summary of one indexed server. */
  datatype ServerSummary = ServerSummary(serverName: Value, title: Value, nbTools: Value)

  datatype ServerPage =
    | ServerPage(servers: seq<ServerSummary>, totalServers: Value, limit: int, offset: Option<string>)
    | ServerPageError(error: string)

  const ListServersPrefix: string := "Failed to list servers: "

  function Summarize(payload: Payload): ServerSummary {
    ServerSummary(Get(payload, "server_name", Null), Get(payload, "title", Null), Get(payload, "nb_tools", Int(0)))
  }

  /** `list_indexed_servers(limit, offset)`: `listServers` is the paginated
      listing, called first; `nbServers` is the outcome of the count that
      follows it, which runs even when the listing returned None. */
  function ListIndexedServers(limit: int, offset: Option<string>,
                              listServers: (int, Option<string>) -> Outcome<seq<Payload>>,
                              nbServers: Outcome<Value>): (r: ServerPage)
    ensures r.ServerPage? <==> listServers(limit, offset).Ok? && !nbServers.Failed?
    ensures r.ServerPage? ==> r.limit == limit && r.offset == offset
    ensures r.ServerPage? ==> r.totalServers == (if nbServers.Ok? then nbServers.value else Null)
    ensures r.ServerPage? ==> |r.servers| == |listServers(limit, offset).value|
    ensures r.ServerPage? ==> forall i :: 0 <= i < |r.servers| ==>
      var p := listServers(limit, offset).value[i];
      && r.servers[i].serverName == Get(p, "server_name", Null)
      && r.servers[i].title == Get(p, "title", Null)
      && ("nb_tools" in p ==> r.servers[i].nbTools == p["nb_tools"])
      && ("nb_tools" !in p ==> r.servers[i].nbTools == Int(0))
    ensures r.ServerPageError? ==> ListServersPrefix <= r.error
    ensures listServers(limit, offset).Failed? ==> r.error == ListServersPrefix + listServers(limit, offset).msg
    ensures !listServers(limit, offset).Failed? && nbServers.Failed? ==> r.error == ListServersPrefix + nbServers.msg
    ensures listServers(limit, offset).NotFound? && !nbServers.Failed? ==> r.error == ListServersPrefix + NoneNotIterable
  {
    var listed := listServers(limit, offset);
    if listed.Failed? then ServerPageError(ListServersPrefix + listed.msg)
    else if nbServers.Failed? then ServerPageError(ListServersPrefix + nbServers.msg)
    else if listed.NotFound? then ServerPageError(ListServersPrefix + NoneNotIterable)
    else
      var payloads := listed.value;
      var total := if nbServers.Ok? then nbServers.value else Null;
      ServerPage(seq(|payloads|, i requires 0 <= i < |payloads| => Summarize(payloads[i])), total, limit, offset)
  }

  datatype ToolNames =
    | ToolNames(serverName: string, toolNames: seq<Value>, totalTools: int)
    | ToolNamesError(error: string, serverName: string)

  /** `list_server_tools(server_name)`; `listTools` lists the tools of the named servers. */
  function ListServerTools(serverName: string, listTools: seq<string> -> Outcome<seq<Payload>>): (r: ToolNames)
    ensures r.serverName == serverName
    ensures r.ToolNames? <==> listTools([serverName]).Ok?
    ensures r.ToolNames? ==> r.totalTools == |r.toolNames| == |listTools([serverName]).value|
    ensures r.ToolNames? ==> forall i :: 0 <= i < |r.toolNames| ==>
      r.toolNames[i] == Get(listTools([serverName]).value[i], "tool_name", Null)
    ensures r.ToolNamesError? ==> ("Failed to list tools for server '" + serverName + "': ") <= r.error
    ensures listTools([serverName]).Failed? ==>
      r.error == "Failed to list tools for server '" + serverName + "': " + listTools([serverName]).msg
    ensures listTools([serverName]).NotFound? ==>
      r.error == "Failed to list tools for server '" + serverName + "': " + NoneNotIterable
  {
    var prefix := "Failed to list tools for server '" + serverName + "': ";
    match listTools([serverName])
    case Failed(msg) => ToolNamesError(prefix + msg, serverName)
    case NotFound => ToolNamesError(prefix + NoneNotIterable, serverName)
    case Ok(payloads) =>
      var names := seq(|payloads|, i requires 0 <= i < |payloads| => Get(payloads[i], "tool_name", Null));
      ToolNames(serverName, names, |names|)
  }

  datatype ToolInfoResponse =
    | ToolInfo(toolName: string, serverName: string, toolInfo: Payload)
    | ToolInfoError(error: string, toolName: string, serverName: string)

  /** `get_tool_details(tool_name, server_name)`; `getTool` is the index lookup by (server, tool). */
  function GetToolDetails(toolName: string, serverName: string,
                          getTool: (string, string) -> Outcome<Payload>): (r: ToolInfoResponse)
    ensures r.toolName == toolName && r.serverName == serverName
    ensures r.ToolInfo? <==> getTool(serverName, toolName).Ok?
    ensures r.ToolInfo? ==> r.toolInfo == getTool(serverName, toolName).value
    ensures getTool(serverName, toolName).NotFound? ==>
      r.error == "Tool '" + toolName + "' not found on server '" + serverName + "'"
    ensures getTool(serverName, toolName).Failed? ==>
      r.error == "Failed to get tool details: " + getTool(serverName, toolName).msg
  {
    match getTool(serverName, toolName)
    case NotFound => ToolInfoError("Tool '" + toolName + "' not found on server '" + serverName + "'", toolName, serverName)
    case Ok(info) => ToolInfo(toolName, serverName, info)
    case Failed(msg) => ToolInfoError("Failed to get tool details: " + msg, toolName, serverName)
  }
}
