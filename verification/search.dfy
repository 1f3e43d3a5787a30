/** `semantic_search`: the catalog's scored points are filtered to server and
    tool hits, projected to a minimal record, counted, and echoed with the query;
    a failure anywhere becomes an error object that still echoes the query. */
module Search {
  import opened Wrappers
  import opened Service
  import opened PyValue
  import opened Selection

  /** What the front end forwards to the query pipeline (rewrite, embed, search). */
  datatype Request = Request(query: string, topK: int, serverNames: Option<seq<string>>, scope: Option<string>)

  /** A minimal search hit. */
  datatype Hit =
    | ServerHit(serverName: Value, title: Value, score: Value)
    | ToolHit(serverName: Value, toolName: Value, score: Value)

  /** The object `semantic_search` returns. */
  datatype Response =
    | Found(query: string, scope: Option<string>, results: seq<Hit>, totalFound: int)
    | SearchFailed(error: string, originalQuery: string, scope: Option<string>)

  const ErrorPrefix: string := "Search failed: "

  /** `result.get('payload', {})`. */
  function PayloadOf(point: Payload): Value {
    Get(point, "payload", Dict(map[]))
  }

  /** The point's payload is a dict, so `payload.get('type')` does not raise. */
  predicate WellFormed(point: Payload) {
    PayloadOf(point).Dict?
  }

  /** The payload's fields; empty when the payload is not a dict. */
  function Fields(point: Payload): Payload {
    if PayloadOf(point).Dict? then PayloadOf(point).entries else map[]
  }

  /** The payload is a dict whose `type` is "server". */
  predicate IsServer(point: Payload) {
    WellFormed(point) && Get(Fields(point), "type", Null) == Str("server")
  }

  /** The payload is a dict whose `type` is "tool". */
  predicate IsTool(point: Payload) {
    WellFormed(point) && Get(Fields(point), "type", Null) == Str("tool")
  }

  /** The point survives the filter. */
  predicate Kept(point: Payload) {
    IsServer(point) || IsTool(point)
  }

  /** The minimal record of a point; only kept points are ever projected. */
  function Project(point: Payload): Hit {
    var score := Get(point, "score", Int(0));
    if IsServer(point) then
      ServerHit(Get(Fields(point), "server_name", Null), Get(Fields(point), "title", Null), score)
    else
      ToolHit(Get(Fields(point), "server_name", Null), Get(Fields(point), "tool_name", Null), score)
  }

  /** `points[i]` is the first point whose payload is not a dict. */
  predicate FirstMalformed(points: seq<Payload>, i: int) {
    && 0 <= i < |points|
    && !WellFormed(points[i])
    && forall j :: 0 <= j < i ==> WellFormed(points[j])
  }

  /** The loop over the scored points: keeps server and tool hits in order and
      stops at the first point whose payload is not a dict. */
  function ProjectHits(points: seq<Payload>): (r: Result<seq<Hit>, string>)
    ensures r.Success? <==> forall i :: 0 <= i < |points| ==> WellFormed(points[i])
    ensures r.Success? ==> |r.value| <= |points|
    ensures r.Failure? ==> exists i :: FirstMalformed(points, i) && r.error == NoGetAttribute(PayloadOf(points[i]))
    decreases |points|
  {
    if points == [] then Success([])
    else if !WellFormed(points[0]) then Failure(NoGetAttribute(PayloadOf(points[0])))
    else
      match ProjectHits(points[1..])
      case Failure(e) =>
        var i :| FirstMalformed(points[1..], i) && e == NoGetAttribute(PayloadOf(points[1..][i]));
        assert FirstMalformed(points, i + 1);
        Failure(e)
      case Success(rest) =>
        Success((if Kept(points[0]) then [Project(points[0])] else []) + rest)
  }

  /** `semantic_search(query, limit, scope, server_names)`. */
  function SemanticSearch(query: string, limit: int, scope: Option<string>, serverNames: Option<seq<string>>,
                          search: Request -> Outcome<seq<Payload>>): (r: Response)
    ensures r.Found? <==> search(Request(query, limit, serverNames, scope)).Ok?
                          && ProjectHits(search(Request(query, limit, serverNames, scope)).value).Success?
    ensures r.Found? ==> r.query == query && r.scope == scope && r.totalFound == |r.results|
    ensures r.Found? ==> Success(r.results) == ProjectHits(search(Request(query, limit, serverNames, scope)).value)
    ensures r.SearchFailed? ==> r.originalQuery == query && r.scope == scope && ErrorPrefix <= r.error
    ensures search(Request(query, limit, serverNames, scope)).Failed? ==>
      r.error == ErrorPrefix + search(Request(query, limit, serverNames, scope)).msg
    ensures search(Request(query, limit, serverNames, scope)).NotFound? ==> r.error == ErrorPrefix + NoneNotIterable
    ensures search(Request(query, limit, serverNames, scope)).Ok?
            && ProjectHits(search(Request(query, limit, serverNames, scope)).value).Failure? ==>
      r.error == ErrorPrefix + ProjectHits(search(Request(query, limit, serverNames, scope)).value).error
  {
    match search(Request(query, limit, serverNames, scope))
    case Failed(msg) => SearchFailed(ErrorPrefix + msg, query, scope)
    case NotFound => SearchFailed(ErrorPrefix + NoneNotIterable, query, scope)
    case Ok(points) =>
      match ProjectHits(points)
      case Failure(e) => SearchFailed(ErrorPrefix + e, query, scope)
      case Success(hits) => Found(query, scope, hits, |hits|)
  }

  /** The search results are the projections of the server and tool points,
      in the order the catalog returned them, with every other point dropped. */
  lemma ProjectHitsSelects(points: seq<Payload>) returns (idx: seq<nat>)
    requires forall i :: 0 <= i < |points| ==> WellFormed(points[i])
    ensures ProjectHits(points).Success?
    ensures SelectionFrom(points, 0, Kept, Project, ProjectHits(points).value, idx)
  {
    idx := ProjectHitsSelectsFrom(points, 0);
    assert points[0..] == points;
  }

  lemma {:induction false} ProjectHitsSelectsFrom(points: seq<Payload>, from: nat) returns (idx: seq<nat>)
    requires from <= |points| && forall i :: 0 <= i < |points| ==> WellFormed(points[i])
    ensures ProjectHits(points[from..]).Success?
    ensures SelectionFrom(points, from, Kept, Project, ProjectHits(points[from..]).value, idx)
    decreases |points| - from
  {
    if from == |points| {
      SelectionEnd(points, Kept, Project);
      idx := [];
    } else {
      var tail := ProjectHitsSelectsFrom(points, from + 1);
      assert points[from..][1..] == points[from + 1..];
      ProjectHitsCons(points[from..]);
      idx := SelectionStep(points, from, Kept, Project, ProjectHits(points[from + 1..]).value, tail);
    }
  }

  /** One step of the loop: the first point's hit, if kept, precedes the rest. */
  lemma ProjectHitsCons(points: seq<Payload>)
    requires points != [] && forall i :: 0 <= i < |points| ==> WellFormed(points[i])
    ensures ProjectHits(points[1..]).Success?
    ensures ProjectHits(points).value
         == (if Kept(points[0]) then [Project(points[0])] else []) + ProjectHits(points[1..]).value
  {
    assert forall i :: 0 <= i < |points[1..]| ==> WellFormed(points[1..][i]) by {
      forall i | 0 <= i < |points[1..]| ensures WellFormed(points[1..][i]) {
        assert points[1..][i] == points[i + 1];
      }
    }
  }

  /** A kept point with no `score` is reported with score 0. */
  lemma MissingScoreIsZero(point: Payload)
    requires Kept(point) && "score" !in point
    ensures Project(point).score == Int(0)
  {
  }

  /** Server hits carry the payload's server name and title, tool hits its server and tool names. */
  lemma HitFields(point: Payload)
    requires Kept(point)
    ensures Project(point).ServerHit? <==> IsServer(point)
    ensures Project(point).serverName == Get(PayloadOf(point).entries, "server_name", Null)
    ensures IsServer(point) ==> Project(point).title == Get(PayloadOf(point).entries, "title", Null)
    ensures IsTool(point) ==> Project(point).toolName == Get(PayloadOf(point).entries, "tool_name", Null)
    ensures Project(point).score == Get(point, "score", Int(0))
  {
  }
}
