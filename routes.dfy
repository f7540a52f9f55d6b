/**
 * The endpoint paths the client requests, relative to the service's base URL, and a
 * parser that reads a path back. The client builds paths by plain string templates
 * without escaping, so a path identifies its endpoint only when the project id and the
 * agent id contain no '/'.
 */
module Routes {
  import opened Wrappers

  /** The endpoints of the service the client calls. */
  datatype Route =
    | Projects
    | Status(id: string)
    | Feedback(id: string, agentId: string)
    | Suggestions(id: string, agentId: string)
    | Analytics(id: string)
    | Report(id: string)

  /** The path of an endpoint, as the client's template literals build it. */
  function Path(r: Route): (p: string)
    ensures |p| >= 9 && p[..9] == "/projects"
  {
    match r
    case Projects => "/projects"
    case Status(id) => "/projects/" + id + "/status"
    case Feedback(id, agentId) => "/projects/" + id + "/agents/" + agentId + "/feedback"
    case Suggestions(id, agentId) => "/projects/" + id + "/agents/" + agentId + "/suggestions"
    case Analytics(id) => "/projects/" + id + "/analytics"
    case Report(id) => "/projects/" + id + "/report"
  }

  /** A text that can stand as one path segment. */
  predicate IsSegment(s: string) {
    '/' !in s
  }

  /** Every id that goes into the route's path is a single segment. */
  predicate SafeRoute(r: Route) {
    match r
    case Projects => true
    case Status(id) => IsSegment(id)
    case Feedback(id, agentId) => IsSegment(id) && IsSegment(agentId)
    case Suggestions(id, agentId) => IsSegment(id) && IsSegment(agentId)
    case Analytics(id) => IsSegment(id)
    case Report(id) => IsSegment(id)
  }

  /** The pieces of `s` between its '/' characters, in order. */
  function Split(s: string): (parts: seq<string>)
    ensures |parts| > 0
  {
    if |s| == 0 then [""]
    else
      var rest := Split(s[1..]);
      if s[0] == '/' then [""] + rest else [[s[0]] + rest[0]] + rest[1..]
  }

  /** The route a path names, if it names one. */
  function ParseRoute(p: string): Option<Route> {
    RouteOfParts(Split(p))
  }

  /** The route named by the '/'-separated pieces of a path. */
  function RouteOfParts(parts: seq<string>): Option<Route> {
    if |parts| < 2 || parts[0] != "" || parts[1] != "projects" then None
    else if |parts| == 2 then Some(Projects)
    else if |parts| == 4 then
      if parts[3] == "status" then Some(Status(parts[2]))
      else if parts[3] == "analytics" then Some(Analytics(parts[2]))
      else if parts[3] == "report" then Some(Report(parts[2]))
      else None
    else if |parts| == 6 && parts[3] == "agents" then
      if parts[5] == "feedback" then Some(Feedback(parts[2], parts[4]))
      else if parts[5] == "suggestions" then Some(Suggestions(parts[2], parts[4]))
      else None
    else None
  }

  /** The segments of a route's path, in the order the path names them. */
  function Segments(r: Route): seq<string> {
    match r
    case Projects => ["projects"]
    case Status(id) => ["projects", id, "status"]
    case Feedback(id, agentId) => ["projects", id, "agents", agentId, "feedback"]
    case Suggestions(id, agentId) => ["projects", id, "agents", agentId, "suggestions"]
    case Analytics(id) => ["projects", id, "analytics"]
    case Report(id) => ["projects", id, "report"]
  }

  /** Each segment preceded by a '/'. */
  function Slashed(segs: seq<string>): string {
    if segs == [] then "" else "/" + segs[0] + Slashed(segs[1..])
  }

  lemma {:induction false} SplitPlain(s: string)
    requires IsSegment(s)
    ensures Split(s) == [s]
  {
    if |s| > 0 {
      SplitPlain(s[1..]);
      assert [s[0]] + s[1..] == s;
    }
  }

  lemma {:induction false} SplitPrefix(s: string, t: string)
    requires IsSegment(s)
    ensures Split(s + t) == [s + Split(t)[0]] + Split(t)[1..]
  {
    if |s| > 0 {
      assert (s + t)[1..] == s[1..] + t;
      SplitPrefix(s[1..], t);
      assert [s[0]] + (s[1..] + Split(t)[0]) == s + Split(t)[0];
    } else {
      assert s + t == t;
      assert s + Split(t)[0] == Split(t)[0];
      assert [Split(t)[0]] + Split(t)[1..] == Split(t);
    }
  }

  lemma {:induction false} SplitSlashed(segs: seq<string>)
    requires segs != []
    requires forall i | 0 <= i < |segs| :: IsSegment(segs[i])
    ensures Split(Slashed(segs)) == [""] + segs
  {
    var tail := Slashed(segs[1..]);
    assert Slashed(segs) == "/" + (segs[0] + tail);
    assert Split(Slashed(segs)) == [""] + Split(segs[0] + tail);
    SplitPrefix(segs[0], tail);
    if |segs| == 1 {
      assert tail == "";
      assert segs[0] + Split(tail)[0] == segs[0];
    } else {
      SplitSlashed(segs[1..]);
      assert segs[0] + Split(tail)[0] == segs[0];
      assert [segs[0]] + segs[1..] == segs;
    }
  }

  lemma SlashedCons(a: string, rest: seq<string>)
    ensures Slashed([a] + rest) == "/" + a + Slashed(rest)
  {
  }

  lemma Assoc(a: string, b: string, c: string)
    ensures (a + b) + c == a + (b + c)
  {
  }

  /** The path of a route that names one id and then a fixed last segment. */
  lemma OneIdPath(id: string, last: string)
    ensures "/projects/" + id + "/" + last == Slashed(["projects", id, last])
  {
    SlashedCons(last, []);
    SlashedCons(id, [last]);
    SlashedCons("projects", [id, last]);
    assert "/projects/" == "/" + "projects" + "/";
    Assoc("/" + "projects", "/", id);
    Assoc("/" + "projects", "/" + id, "/" + last);
    Assoc("/", id, "/" + last);
    Assoc("/" + id, "/", last);
  }

  /** The path of a route that names a project id, an agent id and a fixed last segment. */
  lemma AgentPath(id: string, agentId: string, last: string)
    ensures "/projects/" + id + "/agents/" + agentId + "/" + last
         == Slashed(["projects", id, "agents", agentId, last])
  {
    SlashedCons(last, []);
    SlashedCons(agentId, [last]);
    SlashedCons("agents", [agentId, last]);
    SlashedCons(id, ["agents", agentId, last]);
    SlashedCons("projects", [id, "agents", agentId, last]);
    assert "/agents/" == "/" + "agents" + "/";
    Assoc("/" + "agents", "/", agentId);
    Assoc("/" + "agents", "/" + agentId, "/" + last);
    Assoc("/" + agentId, "/", last);
    Assoc("/", agentId, "/" + last);
    OneIdPath(id, "agents");
    Assoc("/projects/" + id + "/", "agents", "/" + agentId + "/" + last);
  }

  lemma PathIsSlashed(r: Route)
    ensures Path(r) == Slashed(Segments(r))
  {
    match r
    case Projects =>
      SlashedCons("projects", []);
    case Status(id) =>
      OneIdPath(id, "status");
      assert "/status" == "/" + "status";
      Assoc("/projects/" + id, "/", "status");
    case Feedback(id, agentId) =>
      AgentPath(id, agentId, "feedback");
      assert "/feedback" == "/" + "feedback";
      Assoc("/projects/" + id + "/agents/" + agentId, "/", "feedback");
    case Suggestions(id, agentId) =>
      AgentPath(id, agentId, "suggestions");
      assert "/suggestions" == "/" + "suggestions";
      Assoc("/projects/" + id + "/agents/" + agentId, "/", "suggestions");
    case Analytics(id) =>
      OneIdPath(id, "analytics");
      assert "/analytics" == "/" + "analytics";
      Assoc("/projects/" + id, "/", "analytics");
    case Report(id) =>
      OneIdPath(id, "report");
      assert "/report" == "/" + "report";
      Assoc("/projects/" + id, "/", "report");
  }

  /** Reading a path back recovers the route it was built from. */
  lemma ParsePath(r: Route)
    requires SafeRoute(r)
    ensures ParseRoute(Path(r)) == Some(r)
  {
    PathIsSlashed(r);
    SplitSlashed(Segments(r));
    RouteOfSegments(r);
  }

  lemma RouteOfSegments(r: Route)
    ensures RouteOfParts([""] + Segments(r)) == Some(r)
  {
  }

  /** Distinct routes with single-segment ids have distinct paths. */
  lemma PathInjective(r1: Route, r2: Route)
    requires SafeRoute(r1) && SafeRoute(r2)
    requires Path(r1) == Path(r2)
    ensures r1 == r2
  {
    ParsePath(r1);
    ParsePath(r2);
  }

  /** Without the single-segment condition, two different routes share one path. */
  lemma UnescapedIdsCollide()
    ensures Feedback("p", "x/agents/y") != Feedback("p/agents/x", "y")
    ensures Path(Feedback("p", "x/agents/y")) == Path(Feedback("p/agents/x", "y"))
  {
  }
}
