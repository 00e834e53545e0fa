/**
 * The messages the engine's actors exchange. Actor references are numbers; a message sent is
 * an envelope (destination and message) appended to the sender's outbox.
 */
module Messages {
  import opened Wrappers
  import opened HeaderMaps
  import opened CoreResponses
  import opened Config
  import opened Routing

  type ActorRef = nat

  /** The exceptions the modelled code raises or reports, by kind. */
  datatype ErrorKind =
    | RuntimeFailure
    | UnsupportedOperation
    | NullPointer
    | ParseFailure
    | IOFailure
    | CoreGetAuthenticationDetailsError
    | SSLSetupFailure
    | IllegalArgument

  /** An exception: its kind and its message (which may be null). */
  datatype Failure = Failure(kind: ErrorKind, message: Option<string>)

  /**
   * An HTTP request for a connector or a route handler. `uri`, when present, replaces scheme,
   * host, port and path; `params` are query parameters in order, repeated names allowed.
   */
  datatype MediatorHTTPRequest = MediatorHTTPRequest(
    requestHandler: ActorRef,
    respondTo: ActorRef,
    orchestration: Option<string>,
    correlationId: Option<string>,
    httpMethod: string,
    scheme: string,
    host: Option<string>,
    port: Option<int>,
    path: string,
    uri: Option<string>,
    body: Option<string>,
    headers: Option<Headers>,
    params: Option<seq<(string, string)>>)

  /** The full constructor (no URI). */
  function RequestWithCorrelation(
    requestHandler: ActorRef, respondTo: ActorRef, orchestration: Option<string>, httpMethod: string,
    scheme: string, host: Option<string>, port: Option<int>, path: string, body: Option<string>,
    headers: Option<Headers>, params: Option<seq<(string, string)>>, correlationId: Option<string>): (r: MediatorHTTPRequest)
    ensures r.requestHandler == requestHandler && r.respondTo == respondTo && r.orchestration == orchestration
    ensures r.httpMethod == httpMethod && r.scheme == scheme && r.host == host && r.port == port && r.path == path
    ensures r.body == body && r.headers == headers && r.params == params && r.correlationId == correlationId
    ensures r.uri.None?
  {
    MediatorHTTPRequest(requestHandler, respondTo, orchestration, correlationId, httpMethod, scheme, host, port, path, None, body, headers, params)
  }

  /** The constructor without a correlation id: the id is null. */
  function RequestWithoutCorrelation(
    requestHandler: ActorRef, respondTo: ActorRef, orchestration: Option<string>, httpMethod: string,
    scheme: string, host: Option<string>, port: Option<int>, path: string, body: Option<string>,
    headers: Option<Headers>, params: Option<seq<(string, string)>>): (r: MediatorHTTPRequest)
    ensures r == RequestWithCorrelation(requestHandler, respondTo, orchestration, httpMethod, scheme, host, port, path, body, headers, params, None)
    ensures r.correlationId.None?
  {
    RequestWithCorrelation(requestHandler, respondTo, orchestration, httpMethod, scheme, host, port, path, body, headers, params, None)
  }

  /** The short constructor: no body, empty headers and params, no correlation id. */
  function BasicRequest(
    requestHandler: ActorRef, respondTo: ActorRef, orchestration: Option<string>, httpMethod: string,
    scheme: string, host: Option<string>, port: Option<int>, path: string): (r: MediatorHTTPRequest)
    ensures r.body.None? && r.headers == Some([]) && r.params == Some([]) && r.correlationId.None?
    ensures r.requestHandler == requestHandler && r.respondTo == respondTo && r.orchestration == orchestration
    ensures r.httpMethod == httpMethod && r.scheme == scheme && r.host == host && r.port == port && r.path == path
  {
    RequestWithCorrelation(requestHandler, respondTo, orchestration, httpMethod, scheme, host, port, path, None, Some([]), Some([]), None)
  }

  /**
   * A fresh case-insensitive map holding the entries of `headers` (absent stays absent): every
   * name gives the value its last spelling in `headers` gives, and no two names collide.
   */
  function CopyOfHeaders(headers: Option<Headers>): (r: Option<Headers>)
    ensures r.None? <==> headers.None?
    ensures r.Some? ==> CaseInsensitiveKeys(r.value)
    ensures r.Some? ==> forall n :: Lookup(r.value, n) == LookupLast(headers.value, n)
  {
    if headers.None? then None
    else
      var copy := PutAll([], headers.value);
      PutAllKeepsKeysDistinct([], headers.value);
      forall n ensures Lookup(copy, n) == LookupLast(headers.value, n) {
        LookupPutAll([], headers.value, n);
      }
      Some(copy)
  }

  /** The copy constructor. */
  function CopyOf(r: MediatorHTTPRequest): (c: MediatorHTTPRequest)
    ensures c == r.(headers := CopyOfHeaders(r.headers))
  {
    RequestWithCorrelation(r.requestHandler, r.respondTo, r.orchestration, r.httpMethod, r.scheme, r.host, r.port,
                           r.path, r.body, CopyOfHeaders(r.headers), r.params, r.correlationId).(uri := r.uri)
  }

  /** The copy constructor that re-targets the reply: a new respond-to and correlation id. */
  function CopyWithRespondTo(respondTo: ActorRef, correlationId: Option<string>, r: MediatorHTTPRequest): (c: MediatorHTTPRequest)
    ensures c == CopyOf(r).(respondTo := respondTo, correlationId := correlationId)
  {
    RequestWithCorrelation(r.requestHandler, respondTo, r.orchestration, r.httpMethod, r.scheme, r.host, r.port,
                           r.path, r.body, CopyOfHeaders(r.headers), r.params, correlationId).(uri := r.uri)
  }

  /** Copying headers that already form a case-insensitive map gives the same map back. */
  lemma CopyOfDistinctHeaders(headers: Option<Headers>)
    requires headers.Some? ==> CaseInsensitiveKeys(headers.value)
    ensures CopyOfHeaders(headers) == headers
  {
    if headers.Some? {
      assert [] + headers.value == headers.value;
      CopyOfDistinctKeys([], headers.value);
    }
  }

  /**
   * A copy keeps every field of the original, respond-to and correlation id included; the
   * re-targeting copy differs from it in those two fields only. Headers are a fresh map that
   * equals the original whenever the original is a case-insensitive map, as the engine's are.
   */
  lemma CopiesKeepFields(r: MediatorHTTPRequest, respondTo: ActorRef, correlationId: Option<string>)
    requires r.headers.Some? ==> CaseInsensitiveKeys(r.headers.value)
    ensures CopyOf(r) == r
    ensures CopyWithRespondTo(respondTo, correlationId, r) == r.(respondTo := respondTo, correlationId := correlationId)
    ensures CopyWithRespondTo(r.respondTo, r.correlationId, r) == CopyOf(r)
  {
    CopyOfDistinctHeaders(r.headers);
  }

  /** Whatever the original headers, a copy looks up every header name the same way. */
  lemma CopyLooksUpHeadersAlike(r: MediatorHTTPRequest, name: string)
    requires r.headers.Some? && CaseInsensitiveKeys(r.headers.value)
    ensures CopyOf(r).headers.Some?
    ensures Lookup(CopyOf(r).headers.value, name) == Lookup(r.headers.value, name)
  {
    LookupLastOfDistinctKeys(r.headers.value, name);
  }

  /** A response from a connector, tied to the request it answers (if any). */
  datatype MediatorHTTPResponse = MediatorHTTPResponse(
    originalRequest: Option<MediatorHTTPRequest>,
    body: Option<string>,
    statusCode: Option<int>,
    headers: Option<Headers>)

  /** The constructor without an original request. */
  function ResponseWithoutRequest(body: Option<string>, statusCode: Option<int>, headers: Option<Headers>): (r: MediatorHTTPResponse)
    ensures r.originalRequest.None? && r.body == body && r.statusCode == statusCode && r.headers == headers
  {
    MediatorHTTPResponse(None, body, statusCode, headers)
  }

  /** The final response a route handler asks the request handler to send. */
  datatype FinishRequest = FinishRequest(response: Option<string>, responseMimeType: Option<string>, responseStatus: Option<int>)

  /**
   * A connector response turned into a FinishRequest: the status is carried over unchanged; with
   * a body, the MIME type is the Content-Type header (any spelling) or "text/plain" without one;
   * without a body, neither body nor MIME type.
   */
  function ToFinishRequest(r: MediatorHTTPResponse): (f: FinishRequest)
    ensures f.responseStatus == r.statusCode
    ensures f.response == r.body
    ensures r.body.None? ==> f.responseMimeType.None?
    ensures r.body.Some? && r.headers.Some? && Lookup(r.headers.value, "Content-Type").Some? ==>
              f.responseMimeType == Lookup(r.headers.value, "Content-Type")
    ensures r.body.Some? && (r.headers.None? || Lookup(r.headers.value, "Content-Type").None?) ==>
              f.responseMimeType == Some("text/plain")
  {
    if r.body.Some? then
      var mime := if r.headers.Some? && Lookup(r.headers.value, "Content-Type").Some?
                  then Lookup(r.headers.value, "Content-Type").value else "text/plain";
      FinishRequest(r.body, Some(mime), r.statusCode)
    else
      FinishRequest(None, None, r.statusCode)
  }

  // The responses the request handlers stage.

  /** The response staged for a path no route matches. */
  function NotFoundResponse(path: string): Response {
    Response(Some(404), Some([("Content-Type", "text/plain")]), Some(path + " not found"))
  }

  /** The response a FinishRequest stages: its body and status, and its MIME type as Content-Type if given. */
  function FinishResponse(f: FinishRequest): Response {
    Response(f.responseStatus, Some(if f.responseMimeType.Some? then [("Content-Type", f.responseMimeType.value)] else []), f.response)
  }

  /** The response an error stages: 500 with the error message as a plain-text body. */
  function ErrorResponse(e: Failure): Response {
    Response(Some(500), Some([("Content-Type", "text/plain")]), e.message)
  }

  /** The outcome of a heartbeat, as the core API connector reports it to the heartbeat actor. */
  datatype SendHeartbeatToCoreResponse = SendHeartbeatToCoreResponse(
    requestSucceeded: bool,
    rawResponse: Option<string>,
    config: Option<map<string, ConfigValue>>)
  {
    predicate ReceivedConfigUpdate() { config.Some? }
  }

  /** The two-argument constructor: a successful heartbeat. */
  function HeartbeatSucceeded(rawResponse: Option<string>, config: Option<map<string, ConfigValue>>): (r: SendHeartbeatToCoreResponse)
    ensures r.requestSucceeded && r.rawResponse == rawResponse && r.config == config
    ensures r.ReceivedConfigUpdate() <==> config.Some?
  {
    SendHeartbeatToCoreResponse(true, rawResponse, config)
  }

  /** The one-argument constructor: a successful heartbeat without a config update. */
  function HeartbeatSucceededWithoutConfig(rawResponse: Option<string>): (r: SendHeartbeatToCoreResponse)
    ensures r.requestSucceeded && r.rawResponse == rawResponse && !r.ReceivedConfigUpdate()
  {
    HeartbeatSucceeded(rawResponse, None)
  }

  /** A request for the MLLP connector: send `body` to host:port over a TCP socket. */
  datatype MediatorSocketRequest = MediatorSocketRequest(
    requestHandler: ActorRef,
    respondTo: ActorRef,
    orchestration: Option<string>,
    correlationId: Option<string>,
    host: string,
    port: int,
    body: string)

  /** An incoming request as the embedded HTTP server hands it over; the body parse may fail. */
  datatype HttpSession = HttpSession(
    httpMethod: string,
    uri: string,
    headers: Headers,
    queryParameterString: Option<string>,
    params: seq<(string, string)>,
    bodyParseError: Option<Failure>)

  /** A task handed to the scheduler. */
  datatype ScheduledTask =
    | RegistrationRetry(delaySeconds: int)
    | HeartbeatTimer(periodSeconds: int)

  datatype Message =
    | HttpRequestMsg(request: MediatorHTTPRequest)
    | HttpResponseMsg(response: MediatorHTTPResponse)
    | FinishRequestMsg(finish: FinishRequest)
    | ExceptErrorMsg(failedRequest: Option<MediatorHTTPRequest>, error: Failure)
    | AcceptedAsyncRequestMsg
    | AddOrchestrationMsg(orchestration: Orchestration)
    | PutPropertyMsg(name: string, value: string)
    | SocketRequestMsg(socketRequest: MediatorSocketRequest)
    | SocketResponseMsg(originalSocketRequest: MediatorSocketRequest, socketBody: string)
    | RegisterMediatorWithCoreMsg
    | RegisterResponseMsg(successful: bool, responseStatus: Option<int>, responseBody: Option<string>)
    | SendHeartbeatToCoreMsg(uptimeSeconds: int, forceConfig: bool)
    | HeartbeatResponseMsg(heartbeat: SendHeartbeatToCoreResponse)
    | SetupSSLContextMsg(setupHandler: ActorRef, setupRespondTo: ActorRef, context: SSLContext)
    | SetupSSLContextResponseMsg(setupError: Option<Failure>)
    | NanoResponseMsg(status: int, mimeType: string, content: string)
    | HttpSessionMsg(session: HttpSession)
    | HeartbeatStartMsg(sendRegistration: bool)
    | HeartbeatStopMsg
    | HeartbeatTriggerMsg
    | ScheduleMsg(task: ScheduledTask)
    | CancelMsg(cancelled: ScheduledTask)
    | Crashed(crash: Failure)
    | OtherMsg(description: string)

  /**
   * Where a message goes: an actor, an actor path, a new child actor of the given class (created
   * for the occasion), the scheduler, or the supervisor (to which an exception escapes).
   */
  datatype Address =
    | ToActor(ref: ActorRef)
    | ToPath(path: string)
    | ToNewChild(actorClass: ActorClass)
    | ToScheduler
    | ToSupervisor

  datatype Envelope = Envelope(to: Address, msg: Message)
}
