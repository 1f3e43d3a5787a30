# pulsar_mcp front end and startup configuration, modelled in Dafny

pulsar_mcp is a gateway that sits in front of many MCP tool servers. It
indexes their servers and tools in a semantic catalog. It exposes eight
operations to an agent: `semantic_search`, `get_server_info`,
`list_indexed_servers`, `list_server_tools`, `get_tool_details`,
`manage_server`, `list_running_servers` and `execute_tool`. The engine behind
them indexes servers, manages sessions and routes calls.

This project models two sequential pieces around that engine.

- **The startup configuration** (`McpStartupConfig`, `McpServersConfig`),
  in `startup_config.dfy`. A server is launched either as a process
  (`command`, `args`, `env`) or reached over HTTP (`url`, `headers`). Exactly
  one of `command` and `url` must be given. `transport` is derived from which
  one is present and is never stored. The optional fields have fixed
  defaults. A servers map validates each entry independently.
- **The response shaping of the front end**: the inner functions of
  `MCPServer.define_tools` and the two tool classes `ListServerToolsTool` and
  `GetToolDetailsTool`. Each operation forwards its parameters to an engine or
  index-service call and turns what comes back into a response. These are in
  `search.dfy`, `catalog_views.dfy`, `lifecycle.dfy`, `tool_listing.dfy` and
  `tool_details.dfy`.

The engine and the index service are not part of this model. Each operation
receives the call it makes as a function parameter. The call yields a
`Service.Outcome`: `Ok(v)` for a returned value, `NotFound` for a returned
`None`, and `Failed(msg)` for a raised exception whose `str()` is `msg`. The
contracts can therefore say what is forwarded (the server name, the
arguments) as well as how the result is shaped.

Python values are modelled by `PyValue.Value`; catalog payloads are dicts
(`Payload = map<string, Value>`). The Python errors the shaping code can
trigger are modelled with their exact messages:
- `.get` on a non-dict search payload raises an `AttributeError`;
- iterating over a `None` list, `len(None)` and unpacking `None` each raise a `TypeError`.
Responses are datatypes whose fields are the keys of the dicts the source
returns. `Content` items stand for the `TextContent` entries of a `ToolResult`.

`Selection` states the order-preserving filter shape of the search loop's results.
`Strings` holds the prefix, suffix and containment predicates used for
message texts.

Two guidance texts are modelled as written, missing line breaks included:
- `list_server_tools` joins "execute_tool" straight onto the page note;
- `get_tool_details` joins its last two sentences without a break.

The configuration model follows the assertions in `tests/test_types.py`. The
types module that implements it is not part of this model. Where the tests
leave something open, the model chooses as follows:
- "present" means the field was supplied; an empty string counts as present;
- `transport` is computed from `command` (both choices agree on every valid configuration);
- the tests check only that the refusal text contains "Cannot specify both 'url' and 'command'" or "Must specify either 'url'"; the model takes the first as the whole message and the second as its start, which `ConfigError.Message` completes as "... or 'command'".

## Model

| member | source | states |
|---|---|---|
| `StartupConfig.Validate` | tests/test_types.py:14-111 | Construction succeeds exactly when one of `command`/`url` is given. Both given is refused with BothTransports ("Cannot specify both 'url' and 'command'"). Neither given is refused with NoTransport. A constructed config is valid, its transport is stdio exactly when `command` was given, supplied fields are kept verbatim, and omitted fields take their defaults (`[]`, `{}`, 30.0, false). |
| `StartupConfig.MinimalStdioConfig` | tests/test_types.py:14-24 | A config with only `command` equals the config with `args=[]`, `env={}`, `timeout=30.0`, `overwrite=false`, `ignore=false`, `hints=None`, `blocked_tools=None`, and its transport is "stdio". |
| `StartupConfig.MinimalHttpConfig` | tests/test_types.py:67-72 | A config with only `url` is accepted with that url, `headers={}`, `timeout=30.0` and transport "http". |
| `StartupConfig.RoundTrip` | tests/test_types.py:26-44 | A valid config written out with every field explicit constructs back to itself, so explicitly supplied values survive construction unchanged. |
| `StartupConfig.ValidateIdempotent` | tests/test_types.py:74-89 | Constructing a config, writing it out in full and constructing again gives the same config. |
| `StartupConfig.TransportFromPresenceOnly` | tests/test_types.py:113-119 | Two accepted configs have the same transport if and only if they agree on whether `command` is present. |
| `StartupConfig.BlockedToolsMembership` | tests/test_types.py:46-53 | For a config built with `blocked_tools = names`, a tool is blocked if and only if it is in `names`. |
| `StartupConfig.ValidateServers` | tests/test_types.py:185-201 | A servers map is accepted exactly when every entry is. It then keeps the same keys, each value is that entry's own construction, and each entry's transport follows its own `command`. Otherwise it is refused with the error of exactly the invalid entries, under their names. |
| `StartupConfig.ConfigError.Message` | tests/test_types.py:98-111 | The model's refusal texts: the "both" refusal is the phrase "Cannot specify both 'url' and 'command'", and the "neither" refusal starts with "Must specify either 'url'", which the "both" text does not. |
| `StartupConfig.RefusalMessages` | tests/test_types.py:98-111 | A config with both `command` and `url` is refused with a text containing "Cannot specify both 'url' and 'command'", and one with neither with a text containing "Must specify either 'url'", as the tests check. Within the model the first is the whole message and the second its start. |
| `StartupConfig.EmptyServersConfig` | tests/test_types.py:160-162 | The empty servers map is accepted as the empty map. |
| `Search.ProjectHits` | src/pulsar_mcp/mcp_server.py:63-79 | The projection loop succeeds exactly when every point's payload is a dict, and then yields no more hits than points. Otherwise it fails at the first point whose payload is not a dict, with Python's AttributeError text for that payload's type. |
| `Search.ProjectHitsSelects` | src/pulsar_mcp/mcp_server.py:63-79 | The hits are the projections of exactly the points whose payload `type` is "server" or "tool", in input order. An increasing index list names the points that produced them, and no server or tool point is dropped. |
| `Search.ProjectHitsSelectsFrom` | src/pulsar_mcp/mcp_server.py:63-79 | The same selection for the loop resumed at any point `from`: the hits from `points[from..]` are, in order, the projections of exactly the server and tool points at positions `from` and later. |
| `Search.HitFields` | src/pulsar_mcp/mcp_server.py:66-79 | A kept point becomes a server hit exactly when its type is "server". Server hits carry the payload's `server_name` and `title`; tool hits carry its `server_name` and `tool_name`. Both carry the point's `score`, 0 when it has none. |
| `Search.MissingScoreIsZero` | src/pulsar_mcp/mcp_server.py:71-78 | A kept point without a `score` is reported with score 0. |
| `Search.SemanticSearch` | src/pulsar_mcp/mcp_server.py:52-93 | The request forwards query, limit, server names and scope. A success echoes query and scope, with `total_found` equal to the number of results and the results being the projection of the returned points. Every failure is an error starting "Search failed: " that echoes `original_query` and `scope`. The search's exception text is appended, the TypeError for a None result, and the AttributeError text of the first point whose payload is not a dict. |
| `CatalogViews.GetServerInfo` | src/pulsar_mcp/mcp_server.py:109-127 | Every response carries `server_name`. A found server is returned unchanged. A None lookup gives "Server '<name>' not found", and an exception gives "Failed to get server info: <msg>". |
| `CatalogViews.ServerInfoFromCatalog` | src/pulsar_mcp/mcp_server.py:109-127 | Against a catalog held as a map, a server's info is found exactly when its name is catalogued and is then its entry unchanged; any other name gives the "Server '<name>' not found" error. |
| `CatalogViews.ListIndexedServers` | src/pulsar_mcp/mcp_server.py:144-169 | A page is built exactly when the listing returned a list and the count did not raise. It has one summary per payload in order, with `server_name`, `title` and `nb_tools`; `nb_tools` defaults to 0. It echoes `limit` and `offset` and reports the count, or None. Errors start "Failed to list servers: " and follow the source's order: the listing's exception, then the count's, then the None-iteration TypeError. |
| `CatalogViews.ListServerTools` | src/pulsar_mcp/mcp_server.py:185-204 | The service is asked for `[server_name]`. One tool name per payload in order, with `total_tools` equal to their number. Errors echo `server_name` and read "Failed to list tools for server '<name>': " followed by the exception text, or by "'NoneType' object is not iterable" when the listing is None. |
| `CatalogViews.GetToolDetails` | src/pulsar_mcp/mcp_server.py:224-248 | The lookup is by (server, tool). A found tool's info is returned unchanged. A None lookup gives "Tool '<t>' not found on server '<s>'", and an exception gives "Failed to get tool details: <msg>". Both names are echoed in every response. |
| `Lifecycle.ManageServer` | src/pulsar_mcp/mcp_server.py:265-291 | "start" reports status "running" when the engine start returned true and "failed" for false or None; "shutdown" likewise reports "shutdown" or "failed". `success` is the engine's boolean, or None when it returned None. The status is not "failed" exactly when `success` is true. Any other action gives the "Invalid action: <a>. Use 'start' or 'shutdown'." error. An engine exception gives its text with the action echoed. `server_name` is always echoed. |
| `Lifecycle.InvalidActionCallsNothing` | src/pulsar_mcp/mcp_server.py:266-278 | For an unknown action the response is the same whatever the engine's start and shutdown would do, so neither is called, and its `success` is falsy. |
| `Lifecycle.ListRunningServers` | src/pulsar_mcp/mcp_server.py:298-307 | The running list is returned unchanged, with `total_running` equal to its length. A None list gives the `len(None)` TypeError, and an exception gives its text. |
| `Lifecycle.RunningCountsSessions` | src/pulsar_mcp/mcp_server.py:298-307 | When the engine lists each live session once, the running list names exactly those sessions and `total_running` is their number. |
| `Lifecycle.DistinctCount` | src/pulsar_mcp/mcp_server.py:301-304 | A listing without repeated names has as many entries as distinct names, so `len(running_servers)` counts sessions. |
| `Lifecycle.ExecuteTool` | src/pulsar_mcp/mcp_server.py:314-325 | The engine's result, None included, is returned unchanged. An engine exception gives `success=false` with `server_name`, `tool_name` and the exception text. |
| `Lifecycle.OmittedArgumentsAreEmpty` | src/pulsar_mcp/mcp_server.py:315-317 | Calling with no arguments behaves exactly like calling with `{}`. |
| `ToolListing.Render` | src/pulsar_mcp/tools/list_server_tools.py:20-48 | For an empty list the content is the single "No tools found for server '<name>'" item. For n tools it is n+1 items: one per tool in order, then the guidance naming the returned cursor. An exception or None result gives a single item starting "Failed to list tools for server '<name>': ". |
| `ToolListing.ListServerTools` | src/pulsar_mcp/tools/list_server_tools.py:15-48 | The content rendered from the index's answer for the server name alone. |
| `ToolListing.OneGuidanceItem` | src/pulsar_mcp/tools/list_server_tools.py:25-43 | In a non-empty listing, exactly one item is text, and it is the last. Every other item is a tool entry. |
| `ToolListing.ArgumentsIgnored` | src/pulsar_mcp/tools/list_server_tools.py:15-19 | The output is the same for every `limit` and `offset` argument. |
| `ToolListing.GuidanceMarksLastPage` | src/pulsar_mcp/tools/list_server_tools.py:37-41 | The guidance ends with "Last page of results" exactly when the returned cursor is falsy. Otherwise it ends with "• Use offset '<o>' for next page of results". |
| `ToolListing.NextPageRepeatsFirstPage` | src/pulsar_mcp/tools/list_server_tools.py:15-41 | As written, passing the advertised cursor back returns the identical first page, which advertises the same cursor again. |
| `ToolListing.ListServerToolsPaged` | src/pulsar_mcp/tools/list_server_tools.py:15-48 | The content rendered from the index's answer for (server, limit, offset), with the caller's limit and offset forwarded. |
| `ToolListing.NextPageFollowsCursor` | src/pulsar_mcp/tools/list_server_tools.py:15-41 | With the cursor forwarded, the first call advertises cursor "2". Passing it back lists the second page, marked "Last page of results". |
| `ToolListing.AgreesWithToolNames` | src/pulsar_mcp/tools/list_server_tools.py:25-35 | Given the same payloads, the tool items name the same tools, in the same order, as the `tool_names` of the dict-shaped `list_server_tools`. Their number is its `total_tools`. |
| `ToolListing.FailureAgreesWithToolNames` | src/pulsar_mcp/tools/list_server_tools.py:45-48 | On the same exception, the single failure item carries exactly the error of the dict-shaped `list_server_tools`. |
| `ToolDetails.GetToolDetails` | src/pulsar_mcp/tools/get_tool_details.py:13-46 | The lookup is by (server, tool). None gives the single item "Tool '<t>' not found on server '<s>'". A found tool gives exactly two items, details first and guidance second. An exception gives the single item "Failed to get tool details: <msg>". |
| `ToolDetails.DetailsStartWithHeader` | src/pulsar_mcp/tools/get_tool_details.py:25 | The details start with "Tool: <tool_name> (from <server_name>)". |
| `ToolDetails.DetailsShowDescriptionAndSchema` | src/pulsar_mcp/tools/get_tool_details.py:26-27 | The details contain "Description: No description available" when the payload has no `tool_description`, and the description itself when it is a string. The same holds for "Schema:" and "No schema available". |
| `ToolDetails.GuidanceNamesStart` | src/pulsar_mcp/tools/get_tool_details.py:31 | The guidance contains `manage_server('<server>', 'start')` for the same server. |
| `ToolDetails.GuidanceNamesExecute` | src/pulsar_mcp/tools/get_tool_details.py:32 | The guidance contains `execute_tool('<server>', '<tool>', arguments)` for the same server and tool. |
| `ToolDetails.AgreesWithToolInfo` | src/pulsar_mcp/tools/get_tool_details.py:20-46 | There are two items exactly when the dict-shaped `get_tool_details` finds the tool. Otherwise there is a single item carrying that response's error text. |

## Findings

| source | as written | input that shows it | evidently intended | confidence | as-written member | corrected member |
|---|---|---|---|---|---|---|
| src/pulsar_mcp/tools/list_server_tools.py:15-41 | `limit` and `offset` are accepted but never forwarded to `list_tools`. The returned cursor then overwrites `offset`, yet the guidance tells the client to "Use offset '<o>' for next page of results". | An index whose first page returns cursor "2": calling again with `offset="2"` returns the same first page and advertises "2" again. | Forward `limit` and `offset` to the index so that the advertised cursor reaches the next page (proved by `ToolListing.NextPageFollowsCursor`) | medium: not executed; the index service's `list_tools` signature is not part of this model | `ToolListing.NextPageRepeatsFirstPage` | `ToolListing.ListServerToolsPaged` |

## Left out

- The engine (`MCPEngine`): indexing, the session registry, routing and blocked-tool enforcement. Its module is not part of this model. Its calls are function parameters.
- The index, descriptor and embedding services: query rewriting, embedding, vector search and pagination. Their results are opaque outcomes.
- `services/embedding.py`: `create_embedding` is a network call to a model provider, and `weighted_embedding` is floating-point vector arithmetic.
- FastMCP plumbing: the `MCPServer` constructor, `lifespan`, `run_server`, tool registration decorators, and async/await. Each operation is modelled as a single synchronous function.
- The CLI and bootstrap (`__init__.py`, `main.py`), environment settings (`settings.py`) and logging (`omnimcp/log.py`): these are I/O and configuration loading.
- JSON serialisation of tool items: `json.dumps({"tool_name", "title"})` is kept as the record `ToolEntry(toolName, title)`.
- PyValue.Display: Python's `str()` is reproduced exactly for None, booleans, integers and strings. Floats, lists and dicts (a schema is usually a dict) are shown by type name only, because their `repr` depends on float formatting and dict insertion order. The description and schema lemmas therefore speak only of string values and of the defaults.
- PyValue.Value: floats are modelled as reals. No arithmetic is done on them, since scores are only passed through.
- `McpServerDescription` and `McpServerToolDescription` (tests/test_types.py:226-247): these are plain records with no rules beyond their fields.
- Default parameter values of the search limit (10) and server page size (20): every model operation takes the limit explicitly, and the engine decides what it means. The tool page size 50 appears as a constant in the pagination lemmas.
- StartupConfig.ConfigError.Message: the tests check only that the refusal text contains each phrase; the model takes the first as the whole message and the second as its start. Pydantic's wrapping of the text in a `ValidationError` and the words after "Must specify either 'url'" are not modelled.
