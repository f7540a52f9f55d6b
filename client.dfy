/**
 * The `OmniBrain` transport client: how every call is shaped into an outgoing HTTP
 * request (URL, method, body, headers), how a reply is turned into a value or a thrown
 * error, and the request of each public operation. `fetch` itself is outside the model:
 * a request is shaped here, and the reply it got is an input.
 */
module Client {
  import opened Wrappers
  import opened JsValues
  import opened Routes

  /** The stored credentials of a client; they are never reassigned after construction. */
  datatype OmniBrain = OmniBrain(apiKey: string, wallet: string)

  const BaseUrl: string := "https://api.omnibrain.fun/v1"

  /** The endpoint a URL requests, when it lies under the base URL. */
  function StripBase(url: string): (endpoint: Option<string>)
    ensures endpoint.Some? ==> url == BaseUrl + endpoint.value
  {
    if |BaseUrl| <= |url| && url[..|BaseUrl|] == BaseUrl then Some(url[|BaseUrl|..]) else None
  }

  /** The URL requested for an endpoint: the base URL followed by the endpoint. */
  function Url(endpoint: string): (url: string)
    ensures StripBase(url) == Some(endpoint)
  {
    assert (BaseUrl + endpoint)[..|BaseUrl|] == BaseUrl;
    assert (BaseUrl + endpoint)[|BaseUrl|..] == endpoint;
    BaseUrl + endpoint
  }

  type Headers = map<string, string>

  /** The three headers every request starts from. */
  function DefaultHeaders(brain: OmniBrain): (h: Headers)
    ensures h.Keys == {"Content-Type", "Authorization", "X-Wallet-Address"}
  {
    map["Content-Type" := "application/json",
        "Authorization" := "Bearer " + brain.apiKey,
        "X-Wallet-Address" := brain.wallet]
  }

  /**
   * The headers of an outgoing request: the defaults spread first and the caller's
   * headers spread over them, so a caller's header replaces a default of the same name.
   */
  function MergeHeaders(brain: OmniBrain, caller: Headers): (h: Headers)
    ensures h.Keys == {"Content-Type", "Authorization", "X-Wallet-Address"} + caller.Keys
    ensures forall k | k in caller :: h[k] == caller[k]
    ensures h["Content-Type"] ==
      if "Content-Type" in caller then caller["Content-Type"] else "application/json"
    ensures h["Authorization"] ==
      if "Authorization" in caller then caller["Authorization"] else "Bearer " + brain.apiKey
    ensures h["X-Wallet-Address"] ==
      if "X-Wallet-Address" in caller then caller["X-Wallet-Address"] else brain.wallet
  {
    DefaultHeaders(brain) + caller
  }

  /** The options a call passes to the request primitive; `body` is the value serialised. */
  datatype RequestInit = RequestInit(httpMethod: Option<string>, body: Option<Json>, headers: Headers)

  /** What is handed to `fetch`. A missing httpMethod means GET. */
  datatype Outgoing = Outgoing(url: string, httpMethod: Option<string>, body: Option<Json>, headers: Headers)

  /** The request the primitive sends for `endpoint` with the caller's `options`. */
  function Prepare(brain: OmniBrain, endpoint: string, options: RequestInit): (out: Outgoing)
    ensures StripBase(out.url) == Some(endpoint)
    ensures out.httpMethod == options.httpMethod && out.body == options.body
    ensures out.headers == MergeHeaders(brain, options.headers)
  {
    Outgoing(Url(endpoint), options.httpMethod, options.body, MergeHeaders(brain, options.headers))
  }

  /** A response body: parsed JSON, or text that `response.json()` rejects. */
  datatype Body = Parsed(value: Json) | Malformed

  /** What `fetch` produced: a rejection, or a response with its `ok` flag and body. */
  datatype Reply = NetworkError | Received(ok: bool, body: Body)

  /** The ways a call of the client can reject. */
  datatype Failure =
    | FetchRejected              // `fetch` itself rejected
    | InvalidJson                // `response.json()` rejected
    | NullRead(key: string)      // a property was read off a `null` body (TypeError)
    | Thrown(message: string)    // `new Error(message)` thrown by the client

  /** The message chosen for a failed response whose body is not `null`. */
  function FailureMessage(message: Slot): (m: string)
    ensures Truthy(message) ==> m == SlotText(message)
    ensures !Truthy(message) ==> m == "Request failed"
  {
    if Truthy(message) then SlotText(message) else "Request failed"
  }

  /** The outcome of the request primitive once its reply has arrived. */
  function Interpret(reply: Reply): (r: Result<Json, Failure>)
    ensures r.Success? <==> reply.Received? && reply.ok && reply.body.Parsed?
    ensures r.Success? ==> r.value == reply.body.value
    ensures reply.NetworkError? ==> r == Failure(FetchRejected)
    ensures reply.Received? && reply.body.Malformed? ==> r == Failure(InvalidJson)
    ensures reply == Received(false, Parsed(JNull)) ==> r == Failure(NullRead("message"))
    ensures reply.Received? && !reply.ok && reply.body.Parsed? && !reply.body.value.JNull? ==>
      r == Failure(Thrown(FailureMessage(Property(reply.body.value, "message").value)))
  {
    match reply
    case NetworkError => Failure(FetchRejected)
    case Received(ok, body) =>
      match body
      case Malformed => Failure(InvalidJson)
      case Parsed(value) =>
        if ok then Success(value)
        else
          match Property(value, "message")
          case None => Failure(NullRead("message"))
          case Some(message) => Failure(Thrown(FailureMessage(message)))
  }

  /** The public calls of the client and of a project handle, with what they send. */
  datatype Operation =
    | CreateProject(config: Json)
    | ListProjects
    | GetStatus(id: string)
    | SendFeedback(id: string, agentId: string, feedback: Json)
    | GetAgentSuggestions(id: string, agentId: string, suggestionConfig: Json)
    | GetAnalytics(id: string)
    | ExportReport(id: string, reportConfig: Json)

  /** The endpoint each operation targets. */
  function RouteOf(op: Operation): Route {
    match op
    case CreateProject(_) => Projects
    case ListProjects => Projects
    case GetStatus(id) => Status(id)
    case SendFeedback(id, agentId, _) => Feedback(id, agentId)
    case GetAgentSuggestions(id, agentId, _) => Suggestions(id, agentId)
    case GetAnalytics(id) => Analytics(id)
    case ExportReport(id, _) => Report(id)
  }

  /** The options each operation passes: a POST with its payload, or nothing. */
  function InitOf(op: Operation): RequestInit {
    match op
    case CreateProject(config) => RequestInit(Some("POST"), Some(config), map[])
    case ListProjects => RequestInit(None, None, map[])
    case GetStatus(_) => RequestInit(None, None, map[])
    case SendFeedback(_, _, feedback) => RequestInit(Some("POST"), Some(feedback), map[])
    case GetAgentSuggestions(_, _, config) => RequestInit(Some("POST"), Some(config), map[])
    case GetAnalytics(_) => RequestInit(None, None, map[])
    case ExportReport(_, config) => RequestInit(Some("POST"), Some(config), map[])
  }

  /** The request an operation sends. */
  function Request(brain: OmniBrain, op: Operation): (out: Outgoing)
    ensures StripBase(out.url) == Some(Path(RouteOf(op)))
    ensures out.headers == DefaultHeaders(brain)
    ensures out.headers["Authorization"] == "Bearer " + brain.apiKey
    ensures out.headers["X-Wallet-Address"] == brain.wallet
  {
    assert DefaultHeaders(brain) + map[] == DefaultHeaders(brain);
    Prepare(brain, Path(RouteOf(op)), InitOf(op))
  }

  /** Every id the operation puts into its path is a single path segment. */
  predicate SafeOperation(op: Operation) {
    SafeRoute(RouteOf(op))
  }

  /** The operation a request on a given route, with a given method and body, performs. */
  function OperationOn(route: Route, httpMethod: Option<string>, body: Option<Json>): Option<Operation> {
    var get := httpMethod.None? && body.None?;
    var post := httpMethod == Some("POST") && body.Some?;
    match route
    case Projects =>
      if get then Some(ListProjects)
      else if post then Some(CreateProject(body.value))
      else None
    case Status(id) => if get then Some(GetStatus(id)) else None
    case Feedback(id, agentId) => if post then Some(SendFeedback(id, agentId, body.value)) else None
    case Suggestions(id, agentId) =>
      if post then Some(GetAgentSuggestions(id, agentId, body.value)) else None
    case Analytics(id) => if get then Some(GetAnalytics(id)) else None
    case Report(id) => if post then Some(ExportReport(id, body.value)) else None
  }

  /** The operation an outgoing request performs, read back from its URL, method and body. */
  function Decode(out: Outgoing): Option<Operation> {
    match StripBase(out.url)
    case None => None
    case Some(endpoint) =>
      match ParseRoute(endpoint)
      case None => None
      case Some(route) => OperationOn(route, out.httpMethod, out.body)
  }

  /** The request an operation sends determines the operation: endpoint, method and payload. */
  lemma DecodeRequest(brain: OmniBrain, op: Operation)
    requires SafeOperation(op)
    ensures Decode(Request(brain, op)) == Some(op)
  {
    ParsePath(RouteOf(op));
  }

  /** Two operations that send the same request are the same operation. */
  lemma RequestInjective(brain: OmniBrain, op1: Operation, op2: Operation)
    requires SafeOperation(op1) && SafeOperation(op2)
    requires Request(brain, op1) == Request(brain, op2)
    ensures op1 == op2
  {
    DecodeRequest(brain, op1);
    DecodeRequest(brain, op2);
  }

  /**
   * The id `createProject` binds its new handle to: `response.projectId` of the parsed
   * reply. The id is only ever used inside template literals, so it is kept as the text
   * it renders to there (an absent id renders as "undefined").
   */
  function CreatedId(reply: Reply): (r: Result<string, Failure>)
    ensures Interpret(reply).Failure? ==> r == Failure(Interpret(reply).error)
    ensures r.Success? ==> Interpret(reply).Success? && !Interpret(reply).value.JNull?
    ensures Interpret(reply) == Success(JNull) ==> r == Failure(NullRead("projectId"))
    ensures forall fields: map<string, Json>, id: string |
      Interpret(reply) == Success(JObject(fields)) && "projectId" in fields && fields["projectId"] == JStr(id)
      :: r == Success(id)
    ensures forall fields: map<string, Json>, n: int |
      Interpret(reply) == Success(JObject(fields)) && "projectId" in fields && fields["projectId"] == JNum(n)
      :: r == Success(if n < 0 then "-" + Digits(-n) else Digits(n))
    ensures forall fields: map<string, Json> |
      Interpret(reply) == Success(JObject(fields)) && "projectId" in fields
      :: r == Success(Text(fields["projectId"]))
    ensures forall fields: map<string, Json> |
      Interpret(reply) == Success(JObject(fields)) && "projectId" !in fields
      :: r == Success("undefined")
    ensures Interpret(reply).Success? && !Interpret(reply).value.JNull? && !Interpret(reply).value.JObject? ==>
      r == Success("undefined")
  {
    match Interpret(reply)
    case Failure(e) => Failure(e)
    case Success(response) =>
      match Property(response, "projectId")
      case None => Failure(NullRead("projectId"))
      case Some(projectId) => Success(SlotText(projectId))
  }

  /** A failed response whose body carries a message reports exactly that message. */
  lemma ServerMessageReported(message: string)
    requires message != ""
    ensures Interpret(Received(false, Parsed(JObject(map["message" := JStr(message)]))))
         == Failure(Thrown(message))
  {
  }

  /** A failed response whose body has no message, or an empty one, reports the fixed text. */
  lemma FallbackMessage(fields: map<string, Json>)
    requires "message" !in fields || fields["message"] == JStr("")
    ensures Interpret(Received(false, Parsed(JObject(fields)))) == Failure(Thrown("Request failed"))
  {
  }
}
