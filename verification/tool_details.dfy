/** `GetToolDetailsTool.get_tool_details`: a found tool yields a details item
    (header, description, schema) and a guidance item naming the calls that
    start the server and execute the tool; anything else yields one text item. */
module ToolDetails {
  import opened Service
  import opened PyValue
  import opened Strings
  import opened ToolResult
  import Views = CatalogViews

  const NoDescription: string := "No description available"
  const NoSchema: string := "No schema available"

  function NotFoundText(toolName: string, serverName: string): string {
    "Tool '" + toolName + "' not found on server '" + serverName + "'"
  }

  const FailurePrefix: string := "Failed to get tool details: "

  /** The first line of the details item. */
  function Header(toolName: string, serverName: string): string {
    "Tool: " + toolName + " (from " + serverName + ")"
  }

  /** The description line, with its fallback when the key is absent. */
  function DescriptionLine(info: Payload): string {
    "Description: " + Display(Get(info, "tool_description", Str(NoDescription)))
  }

  /** The schema section, with its fallback when the key is absent. */
  function SchemaSection(info: Payload): string {
    "Schema:\n" + Display(Get(info, "tool_schema", Str(NoSchema)))
  }

  function DetailsText(toolName: string, serverName: string, info: Payload): string {
    Header(toolName, serverName) + "\n\n" + DescriptionLine(info) + "\n\n" + SchemaSection(info) + "\n"
  }

  function StartHint(serverName: string): string {
    "manage_server('" + serverName + "', 'start')"
  }

  function ExecuteHint(serverName: string, toolName: string): string {
    "execute_tool('" + serverName + "', '" + toolName + "', arguments)"
  }

  const GuidanceOpening: string := "IMPORTANT: Review this schema carefully before execution!\n\nNext steps:\n"
  const GuidanceClosing: string := "Always provide correct arguments matching the schema above"
    + "For long running tool, consider to launch them in background and poll for results."

  function GuidanceText(toolName: string, serverName: string): string {
    GuidanceOpening
    + "Ensure server is running: " + StartHint(serverName) + "\n"
    + "Execute: " + ExecuteHint(serverName, toolName) + "\n"
    + GuidanceClosing
  }

  /** `get_tool_details(tool_name, server_name)`; `getTool` is the index lookup by (server, tool). */
  function GetToolDetails(toolName: string, serverName: string,
                          getTool: (string, string) -> Outcome<Payload>): (r: seq<Content>)
    ensures getTool(serverName, toolName).NotFound? ==> r == [Text(NotFoundText(toolName, serverName))]
    ensures getTool(serverName, toolName).Ok? ==>
      r == [Text(DetailsText(toolName, serverName, getTool(serverName, toolName).value)),
            Text(GuidanceText(toolName, serverName))]
    ensures getTool(serverName, toolName).Failed? ==>
      r == [Text(FailurePrefix + getTool(serverName, toolName).msg)]
  {
    match getTool(serverName, toolName)
    case NotFound => [Text(NotFoundText(toolName, serverName))]
    case Ok(info) => [Text(DetailsText(toolName, serverName, info)), Text(GuidanceText(toolName, serverName))]
    case Failed(msg) => [Text(FailurePrefix + msg)]
  }

  /** The details start with "Tool: <tool> (from <server>)". */
  lemma DetailsStartWithHeader(toolName: string, serverName: string, info: Payload)
    ensures Header(toolName, serverName) <= DetailsText(toolName, serverName, info)
  {
    var rest := "\n\n" + DescriptionLine(info) + "\n\n" + SchemaSection(info) + "\n";
    assert DetailsText(toolName, serverName, info) == Header(toolName, serverName) + rest;
  }

  /** The details show the description, or "No description available" when the
      payload has none; likewise the schema. */
  lemma DetailsShowDescriptionAndSchema(toolName: string, serverName: string, info: Payload)
    ensures "tool_description" !in info ==> Contains(DetailsText(toolName, serverName, info), "Description: " + NoDescription)
    ensures "tool_description" in info && info["tool_description"].Str? ==>
      Contains(DetailsText(toolName, serverName, info), "Description: " + info["tool_description"].s)
    ensures "tool_schema" !in info ==> Contains(DetailsText(toolName, serverName, info), "Schema:\n" + NoSchema)
    ensures "tool_schema" in info && info["tool_schema"].Str? ==>
      Contains(DetailsText(toolName, serverName, info), "Schema:\n" + info["tool_schema"].s)
  {
    var s0 := Header(toolName, serverName) + "\n\n";
    var s1 := s0 + DescriptionLine(info);
    ContainsEnd(s0, DescriptionLine(info));
    var s2 := s1 + "\n\n";
    ContainsExtend(s1, "\n\n", DescriptionLine(info));
    var s3 := s2 + SchemaSection(info);
    ContainsExtend(s2, SchemaSection(info), DescriptionLine(info));
    ContainsEnd(s2, SchemaSection(info));
    ContainsExtend(s3, "\n", DescriptionLine(info));
    ContainsExtend(s3, "\n", SchemaSection(info));
  }

  /** The guidance names the start call for this very server. */
  lemma GuidanceNamesStart(toolName: string, serverName: string)
    ensures Contains(GuidanceText(toolName, serverName), StartHint(serverName))
  {
    var s0 := GuidanceOpening + "Ensure server is running: " + StartHint(serverName);
    ContainsEnd(GuidanceOpening + "Ensure server is running: ", StartHint(serverName));
    var s1 := s0 + "\n";
    ContainsExtend(s0, "\n", StartHint(serverName));
    var s2 := s1 + "Execute: ";
    ContainsExtend(s1, "Execute: ", StartHint(serverName));
    var s3 := s2 + ExecuteHint(serverName, toolName);
    ContainsExtend(s2, ExecuteHint(serverName, toolName), StartHint(serverName));
    var s4 := s3 + "\n";
    ContainsExtend(s3, "\n", StartHint(serverName));
    ContainsExtend(s4, GuidanceClosing, StartHint(serverName));
  }

  /** The guidance names the execute call for this very server and tool. */
  lemma GuidanceNamesExecute(toolName: string, serverName: string)
    ensures Contains(GuidanceText(toolName, serverName), ExecuteHint(serverName, toolName))
  {
    var s2 := GuidanceOpening + "Ensure server is running: " + StartHint(serverName) + "\n" + "Execute: ";
    var s3 := s2 + ExecuteHint(serverName, toolName);
    ContainsEnd(s2, ExecuteHint(serverName, toolName));
    var s4 := s3 + "\n";
    ContainsExtend(s3, "\n", ExecuteHint(serverName, toolName));
    ContainsExtend(s4, GuidanceClosing, ExecuteHint(serverName, toolName));
  }

  /** Agreement with the dict-shaped `get_tool_details` of the server module:
      two items exactly when that one finds the tool, and otherwise a single
      item carrying its error message. */
  lemma AgreesWithToolInfo(toolName: string, serverName: string, getTool: (string, string) -> Outcome<Payload>)
    ensures |GetToolDetails(toolName, serverName, getTool)| == 2
        <==> Views.GetToolDetails(toolName, serverName, getTool).ToolInfo?
    ensures Views.GetToolDetails(toolName, serverName, getTool).ToolInfoError? ==>
      GetToolDetails(toolName, serverName, getTool) == [Text(Views.GetToolDetails(toolName, serverName, getTool).error)]
  {
  }
}
