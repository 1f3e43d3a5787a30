/** `ListServerToolsTool.list_server_tools`: one content item per tool of a
    server, in the order the index lists them, followed by a single guidance
    item that says whether another page follows. */
module ToolListing {
  import opened Wrappers
  import opened Service
  import opened PyValue
  import opened Strings
  import opened ToolResult
  import Views = CatalogViews

  /** Page size in the signature; it is never forwarded to the index. */
  const DefaultLimit: int := 50

  const LastPage: string := "Last page of results"

  function NoToolsText(serverName: string): string {
    "No tools found for server '" + serverName + "'"
  }

  function FailurePrefix(serverName: string): string {
    "Failed to list tools for server '" + serverName + "': "
  }

  /** The item for one tool payload: its `tool_name` and `title` and nothing else. */
  function Entry(payload: Payload): Content {
    ToolEntry(Get(payload, "tool_name", Null), Get(payload, "title", Null))
  }

  /** The cursor the index returned is truthy. */
  predicate HasNextPage(offset: Option<string>) {
    offset.Some? && offset.value != ""
  }

  function NextPageText(offset: string): string {
    "• Use offset '" + offset + "' for next page of results"
  }

  /** The fixed steps of the guidance item, naming the server. */
  function Steps(serverName: string): string {
    "Next steps:\n"
    + "• Use get_tool_details('" + serverName + "', 'tool_name') for schema\n"
    + "• Use manage_server('" + serverName + "', 'start') before execution\n"
    + "• Always check tool schema before calling execute_tool"
  }

  /** The trailing guidance item's text. */
  function Guidance(serverName: string, offset: Option<string>): string {
    Steps(serverName) + (if HasNextPage(offset) then NextPageText(offset.value) else LastPage)
  }

  /** `r` is the content list built from what the index returned: the failure
      text for an exception or a None result, the "No tools found" text for an
      empty list, and otherwise one item per tool in order followed by exactly
      one guidance item that names the returned cursor. */
  predicate RendersPage(serverName: string, listed: Outcome<(seq<Payload>, Option<string>)>, r: seq<Content>) {
    && |r| >= 1
    && (listed.Ok? && listed.value.0 == [] ==> r == [Text(NoToolsText(serverName))])
    && (listed.Ok? && listed.value.0 != [] ==>
          var (tools, next) := listed.value;
          && |r| == |tools| + 1
          && (forall i :: 0 <= i < |tools| ==> r[i] == Entry(tools[i]))
          && r[|tools|] == Text(Guidance(serverName, next)))
    && (!listed.Ok? ==> |r| == 1 && r[0].Text? && FailurePrefix(serverName) <= r[0].text)
    && (listed.Failed? ==> r == [Text(FailurePrefix(serverName) + listed.msg)])
    && (listed.NotFound? ==> r == [Text(FailurePrefix(serverName) + NoneNotUnpackable)])
  }

  /** The content list for one outcome of the index listing. */
  function Render(serverName: string, listed: Outcome<(seq<Payload>, Option<string>)>): (r: seq<Content>)
    ensures RendersPage(serverName, listed, r)
  {
    match listed
    case Failed(msg) => [Text(FailurePrefix(serverName) + msg)]
    case NotFound => [Text(FailurePrefix(serverName) + NoneNotUnpackable)]
    case Ok((tools, next)) =>
      if tools == [] then [Text(NoToolsText(serverName))]
      else seq(|tools|, i requires 0 <= i < |tools| => Entry(tools[i])) + [Text(Guidance(serverName, next))]
  }

  /** `list_server_tools(server_name, limit, offset)` as written: `listTools`
      is asked for the server's tools by name only, and the cursor it returns
      replaces the `offset` argument. */
  function ListServerTools(serverName: string, limit: int, offset: Option<string>,
                           listTools: string -> Outcome<(seq<Payload>, Option<string>)>): (r: seq<Content>)
    ensures RendersPage(serverName, listTools(serverName), r)
  {
    Render(serverName, listTools(serverName))
  }

  /** The evidently intended `list_server_tools`: `limit` and `offset` are
      forwarded to the index, so the page after the advertised cursor is listed. */
  function ListServerToolsPaged(serverName: string, limit: int, offset: Option<string>,
                                listPage: (string, int, Option<string>) -> Outcome<(seq<Payload>, Option<string>)>): (r: seq<Content>)
    ensures RendersPage(serverName, listPage(serverName, limit, offset), r)
  {
    Render(serverName, listPage(serverName, limit, offset))
  }

  /** A found list has exactly one text item, and it is the last. */
  lemma OneGuidanceItem(serverName: string, limit: int, offset: Option<string>,
                        listTools: string -> Outcome<(seq<Payload>, Option<string>)>)
    requires listTools(serverName).Ok? && listTools(serverName).value.0 != []
    ensures var r := ListServerTools(serverName, limit, offset, listTools);
      forall i :: 0 <= i < |r| ==> (r[i].Text? <==> i == |r| - 1)
  {
  }

  /** The `limit` and `offset` arguments are never forwarded, and the cursor
      the index returns shadows the argument: neither changes the output. */
  lemma ArgumentsIgnored(serverName: string, limit: int, offset: Option<string>, limit': int, offset': Option<string>,
                         listTools: string -> Outcome<(seq<Payload>, Option<string>)>)
    ensures ListServerTools(serverName, limit, offset, listTools) == ListServerTools(serverName, limit', offset', listTools)
  {
  }

  /** The guidance ends with "Last page of results" exactly when the index
      returned no next-page cursor, and otherwise names that cursor. */
  lemma GuidanceMarksLastPage(serverName: string, offset: Option<string>)
    ensures EndsWith(Guidance(serverName, offset), LastPage) <==> !HasNextPage(offset)
    ensures HasNextPage(offset) ==> EndsWith(Guidance(serverName, offset), NextPageText(offset.value))
  {
    if HasNextPage(offset) {
      NextPageIsNotLast(Steps(serverName), offset.value);
    } else {
      EndsWithConcat(Steps(serverName), LastPage);
    }
  }

  /** Text ending in the next-page note does not end in "Last page of results". */
  lemma NextPageIsNotLast(steps: string, offset: string)
    ensures EndsWith(steps + NextPageText(offset), NextPageText(offset))
    ensures !EndsWith(steps + NextPageText(offset), LastPage)
  {
    var g := steps + NextPageText(offset);
    var ending := "next page of results";
    EndsWithConcat(steps, NextPageText(offset));
    assert EndsWith(NextPageText(offset), ending) by {
      assert NextPageText(offset) == ("• Use offset '" + offset + "' for ") + ending;
      EndsWithConcat("• Use offset '" + offset + "' for ", ending);
    }
    EndsWithTrans(g, NextPageText(offset), ending);
    if EndsWith(g, LastPage) {
      SameSuffix(g, LastPage, ending);
      assert false;
    }
  }

  /** An index with two pages: `first` with cursor "2", then `second` as the last page. */
  function TwoPages(first: Payload, second: Payload): (string, int, Option<string>) -> Outcome<(seq<Payload>, Option<string>)> {
    (server: string, limit: int, offset: Option<string>) =>
      if offset == Some("2") then Ok(([second], None)) else Ok(([first], Some("2")))
  }

  /** As written, a client that follows the guidance and passes the advertised
      cursor back gets the first page again, advertising the same cursor. */
  lemma NextPageRepeatsFirstPage(serverName: string, first: Payload, second: Payload)
    ensures var listTools := (server: string) => TwoPages(first, second)(server, DefaultLimit, None);
      var page := ListServerTools(serverName, DefaultLimit, None, listTools);
      && page == [Entry(first), Text(Guidance(serverName, Some("2")))]
      && EndsWith(page[1].text, NextPageText("2"))
      && ListServerTools(serverName, DefaultLimit, Some("2"), listTools) == page
  {
    var listTools := (server: string) => TwoPages(first, second)(server, DefaultLimit, None);
    assert TwoPages(first, second)(serverName, DefaultLimit, None) == Ok(([first], Some("2")));
    assert listTools(serverName) == Ok(([first], Some("2")));
    var page := ListServerTools(serverName, DefaultLimit, None, listTools);
    assert page == [Entry(first), Text(Guidance(serverName, Some("2")))];
    GuidanceMarksLastPage(serverName, Some("2"));
  }

  /** With the cursor forwarded, passing the advertised cursor back lists the
      second page, which is marked as the last. */
  lemma NextPageFollowsCursor(serverName: string, first: Payload, second: Payload)
    ensures var page := ListServerToolsPaged(serverName, DefaultLimit, None, TwoPages(first, second));
      && page == [Entry(first), Text(Guidance(serverName, Some("2")))]
      && EndsWith(page[1].text, NextPageText("2"))
    ensures var page := ListServerToolsPaged(serverName, DefaultLimit, Some("2"), TwoPages(first, second));
      && page == [Entry(second), Text(Guidance(serverName, None))]
      && EndsWith(page[1].text, LastPage)
  {
    GuidanceMarksLastPage(serverName, Some("2"));
    GuidanceMarksLastPage(serverName, None);
  }

  /** Agreement with the dict-shaped `list_server_tools` of the server module:
      given the same payloads, the tool items name the same tools in the same
      order, and a failure carries the same message. */
  lemma AgreesWithToolNames(serverName: string, limit: int, offset: Option<string>,
                            listTools: string -> Outcome<(seq<Payload>, Option<string>)>,
                            listNames: seq<string> -> Outcome<seq<Payload>>)
    requires listTools(serverName).Ok? && listNames([serverName]).Ok?
    requires listTools(serverName).value.0 == listNames([serverName]).value != []
    ensures var r := ListServerTools(serverName, limit, offset, listTools);
      var v := Views.ListServerTools(serverName, listNames);
      && |r| == v.totalTools + 1
      && forall i :: 0 <= i < v.totalTools ==> r[i].ToolEntry? && r[i].toolName == v.toolNames[i]
  {
  }

  lemma FailureAgreesWithToolNames(serverName: string, limit: int, offset: Option<string>, msg: string,
                                   listTools: string -> Outcome<(seq<Payload>, Option<string>)>,
                                   listNames: seq<string> -> Outcome<seq<Payload>>)
    requires listTools(serverName) == Failed(msg) && listNames([serverName]) == Failed(msg)
    ensures ListServerTools(serverName, limit, offset, listTools)
         == [Text(Views.ListServerTools(serverName, listNames).error)]
  {
  }
}
