/** The session operations of the front end: `manage_server` dispatches an
    action to the engine's start or shutdown, `list_running_servers` reports
    the live sessions, and `execute_tool` forwards a call to a running server. */
module Lifecycle {
  import opened Wrappers
  import opened Service
  import opened PyValue

  datatype ManageResponse =
    | Managed(serverName: string, action: string, success: Value, status: string)
    | InvalidAction(serverName: string, error: string)
    | ManageFailed(serverName: string, action: string, error: string)
  {
    /** The `success` field of the returned object. */
    function SuccessField(): Value {
      if Managed? then success else Bool(false)
    }
  }

  /** The `status` reported after an engine call that returned `success`. */
  function StatusAfter(success: Outcome<bool>, whenDone: string): string
    requires !success.Failed?
  {
    if success == Ok(true) then whenDone else "failed"
  }

  /** The `success` field after an engine call that returned: the boolean, or None. */
  function SuccessValue(success: Outcome<bool>): Value
    requires !success.Failed?
  {
    if success.Ok? then Bool(success.value) else Null
  }

  /** `manage_server(server_name, action)`: "start" calls `start`, "shutdown"
      calls `shutdown`, anything else is refused without calling either. */
  function ManageServer(serverName: string, action: string,
                        start: string -> Outcome<bool>, shutdown: string -> Outcome<bool>): (r: ManageResponse)
    ensures r.serverName == serverName
    ensures r.InvalidAction? <==> action != "start" && action != "shutdown"
    ensures r.InvalidAction? ==> r.error == "Invalid action: " + action + ". Use 'start' or 'shutdown'."
    ensures r.Managed? || r.ManageFailed? ==> r.action == action
    ensures action == "start" ==> (r.Managed? <==> !start(serverName).Failed?)
    ensures action == "start" && r.Managed? ==>
      && r.status == (if start(serverName) == Ok(true) then "running" else "failed")
      && r.success == (if start(serverName).Ok? then Bool(start(serverName).value) else Null)
    ensures action == "shutdown" ==> (r.Managed? <==> !shutdown(serverName).Failed?)
    ensures action == "shutdown" && r.Managed? ==>
      && r.status == (if shutdown(serverName) == Ok(true) then "shutdown" else "failed")
      && r.success == (if shutdown(serverName).Ok? then Bool(shutdown(serverName).value) else Null)
    ensures r.Managed? ==> (r.status != "failed" <==> r.success == Bool(true))
    ensures action == "start" && start(serverName).Failed? ==> r.error == start(serverName).msg
    ensures action == "shutdown" && shutdown(serverName).Failed? ==> r.error == shutdown(serverName).msg
  {
    if action == "start" then
      var outcome := start(serverName);
      if outcome.Failed? then ManageFailed(serverName, action, outcome.msg)
      else Managed(serverName, action, SuccessValue(outcome), StatusAfter(outcome, "running"))
    else if action == "shutdown" then
      var outcome := shutdown(serverName);
      if outcome.Failed? then ManageFailed(serverName, action, outcome.msg)
      else Managed(serverName, action, SuccessValue(outcome), StatusAfter(outcome, "shutdown"))
    else
      InvalidAction(serverName, "Invalid action: " + action + ". Use 'start' or 'shutdown'.")
  }

  /** An unknown action calls neither engine operation: the response is the
      same whatever they would have done. */
  lemma InvalidActionCallsNothing(serverName: string, action: string,
                                  start: string -> Outcome<bool>, shutdown: string -> Outcome<bool>,
                                  start': string -> Outcome<bool>, shutdown': string -> Outcome<bool>)
    requires action != "start" && action != "shutdown"
    ensures ManageServer(serverName, action, start, shutdown) == ManageServer(serverName, action, start', shutdown')
    ensures !Truthy(ManageServer(serverName, action, start, shutdown).SuccessField())
  {
  }

  datatype RunningResponse =
    | Running(runningServers: seq<string>, totalRunning: int)
    | RunningError(error: string)

  /** `list_running_servers()`; `running` is the engine's list of live sessions. */
  function ListRunningServers(running: Outcome<seq<string>>): (r: RunningResponse)
    ensures r.Running? <==> running.Ok?
    ensures r.Running? ==> r.runningServers == running.value && r.totalRunning == |running.value|
    ensures running.NotFound? ==> r.error == NoneHasNoLen
    ensures running.Failed? ==> r.error == running.msg
  {
    match running
    case Ok(names) => Running(names, |names|)
    case NotFound => RunningError(NoneHasNoLen)
    case Failed(msg) => RunningError(msg)
  }

  /** No name occurs twice in `names`. */
  predicate Distinct(names: seq<string>) {
    forall i, j :: 0 <= i < j < |names| ==> names[i] != names[j]
  }

  /** A duplicate-free listing has as many entries as it names sessions. */
  lemma {:induction false} DistinctCount(names: seq<string>)
    requires Distinct(names)
    ensures |set n | n in names| == |names|
  {
    if names != [] {
      var tail := names[1..];
      assert Distinct(tail) by {
        forall i, j | 0 <= i < j < |tail| ensures tail[i] != tail[j] {
          assert tail[i] == names[i + 1] && tail[j] == names[j + 1];
        }
      }
      DistinctCount(tail);
      assert names[0] !in tail by {
        forall k | 0 <= k < |tail| ensures tail[k] != names[0] {
          assert tail[k] == names[k + 1];
        }
      }
      assert (set n | n in names) == {names[0]} + (set n | n in tail) by {
        assert names == [names[0]] + tail;
      }
    }
  }

  /** When the engine lists each live session once, `total_running` is the
      number of live sessions. */
  lemma RunningCountsSessions(sessions: set<string>, names: seq<string>)
    requires Distinct(names) && (set n | n in names) == sessions
    ensures ListRunningServers(Ok(names)).totalRunning == |sessions|
    ensures forall n :: n in ListRunningServers(Ok(names)).runningServers <==> n in sessions
  {
    DistinctCount(names);
  }

  datatype ExecuteResponse =
    | Executed(result: Value)
    | ExecuteFailed(serverName: string, toolName: string, error: string)

  /** `execute_tool(server_name, tool_name, arguments)`; `execute` is the engine's
      router, whose result (None included) is returned unchanged. */
  function ExecuteTool(serverName: string, toolName: string, arguments: Option<Payload>,
                       execute: (string, string, Payload) -> Outcome<Value>): (r: ExecuteResponse)
    ensures arguments.Some? ==> (r.Executed? <==> !execute(serverName, toolName, arguments.value).Failed?)
    ensures arguments.Some? && execute(serverName, toolName, arguments.value).Ok? ==>
      r == Executed(execute(serverName, toolName, arguments.value).value)
    ensures arguments.Some? && execute(serverName, toolName, arguments.value).NotFound? ==> r == Executed(Null)
    ensures arguments.Some? && execute(serverName, toolName, arguments.value).Failed? ==>
      r == ExecuteFailed(serverName, toolName, execute(serverName, toolName, arguments.value).msg)
    ensures r.ExecuteFailed? ==> r.serverName == serverName && r.toolName == toolName
  {
    var forwarded := arguments.GetOr(map[]);
    match execute(serverName, toolName, forwarded)
    case Ok(result) => Executed(result)
    case NotFound => Executed(Null)
    case Failed(msg) => ExecuteFailed(serverName, toolName, msg)
  }

  /** Omitted arguments are forwarded as an empty dict. */
  lemma OmittedArgumentsAreEmpty(serverName: string, toolName: string,
                                 execute: (string, string, Payload) -> Outcome<Value>)
    ensures ExecuteTool(serverName, toolName, None, execute) == ExecuteTool(serverName, toolName, Some(map[]), execute)
  {
  }
}
