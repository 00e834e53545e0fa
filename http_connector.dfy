/**
 * The HTTP connector: turns a connector request into an outbound HTTP request, hands it to the
 * HTTP client (a parameter here), and turns the reply into a connector response for
 * `respondTo`, an orchestration for the request handler and, for replies that are themselves
 * OpenHIM mediator responses, the nested orchestrations and properties. It also keeps the TLS
 * context a SetupSSLContext message configures.
 */
module HTTP {
  import opened Wrappers
  import opened Text
  import opened HeaderMaps
  import opened CoreResponses
  import opened Config
  import opened Messages
  import RequestHandler

  const NO_RESPONSE_OBJECT := "java.lang.Exception: No response object found in application/json+openhim content"
  const NULL_ENTITY := "Source string may not be null"

  predicate SupportedMethod(m: string) {
    m == "GET" || m == "POST" || m == "PUT" || m == "DELETE"
  }

  /** The methods whose request carries the body as an entity. */
  predicate CarriesEntity(m: string) {
    m == "POST" || m == "PUT"
  }

  /** Where a URI comes from: the request's own URI text, or its scheme, host, port and path. */
  datatype UriBase =
    | GivenUri(text: string)
    | UriParts(scheme: string, host: Option<string>, port: int, path: string)

  /** A URI: its base and the query parameters added to it, in order. */
  datatype Uri = Uri(base: UriBase, addedParams: seq<(string, string)>)

  /**
   * The URI of a request: a given URI wins over the parts; every parameter is added in list
   * order, repeated names kept. Without a URI the port must be present (unboxing it fails otherwise).
   */
  function BuildURI(req: MediatorHTTPRequest): (u: Option<Uri>)
    ensures u.None? <==> req.uri.None? && req.port.None?
    ensures u.Some? ==> u.value.addedParams == req.params.GetOr([])
    ensures u.Some? && req.uri.Some? ==> u.value.base == GivenUri(req.uri.value)
    ensures u.Some? && req.uri.None? ==> u.value.base == UriParts(req.scheme, req.host, req.port.value, req.path)
  {
    var params := if req.params.Some? then req.params.value else [];
    if req.uri.Some? then Some(Uri(GivenUri(req.uri.value), params))
    else if req.port.Some? then Some(Uri(UriParts(req.scheme, req.host, req.port.value, req.path), params))
    else None
  }

  datatype ApacheRequest = ApacheRequest(httpMethod: string, uri: Uri, entity: Option<string>, headers: Headers)

  /**
   * Building the outbound request either succeeds, or is rejected (an unsupported method), or
   * fails with an exception the connector does not catch.
   */
  datatype BuildOutcome =
    | Built(request: ApacheRequest)
    | Rejected(rejection: Failure)
    | Escaped(escaped: Failure)

  /**
   * The outbound request: only GET, POST, PUT and DELETE are built; only POST and PUT carry the
   * body (which must then be present); every caller header is copied.
   */
  function BuildApacheHttpRequest(req: MediatorHTTPRequest): (b: BuildOutcome)
    ensures b.Rejected? <==> !SupportedMethod(req.httpMethod)
    ensures b.Rejected? ==> b.rejection == Failure(UnsupportedOperation, Some(req.httpMethod + " requests not supported"))
    ensures b.Escaped? <==>
      SupportedMethod(req.httpMethod) && (BuildURI(req).None? || (CarriesEntity(req.httpMethod) && req.body.None?))
    ensures b.Built? ==>
      && Some(b.request.uri) == BuildURI(req)
      && b.request.httpMethod == req.httpMethod
      && (b.request.entity.Some? <==> CarriesEntity(req.httpMethod))
      && (b.request.entity.Some? ==> b.request.entity == req.body)
      && b.request.headers == req.headers.GetOr([])
  {
    if !SupportedMethod(req.httpMethod) then
      Rejected(Failure(UnsupportedOperation, Some(req.httpMethod + " requests not supported")))
    else
      var u := BuildURI(req);
      if u.None? then Escaped(Failure(NullPointer, None))
      else if CarriesEntity(req.httpMethod) && req.body.None? then Escaped(Failure(IllegalArgument, Some(NULL_ENTITY)))
      else
        var headers := if req.headers.Some? then req.headers.value else [];
        Built(ApacheRequest(req.httpMethod, u.value, if CarriesEntity(req.httpMethod) then req.body else None, headers))
  }

  /** The client a request is sent with: the default one, or one over the configured TLS context. */
  datatype HttpClient =
    | DefaultClient
    | CustomTlsClient(context: SSLContext, allowAllHostnames: bool)

  datatype ApacheResponse = ApacheResponse(statusCode: int, headers: Headers, entity: Option<string>)

  /** What executing a request gives: an I/O failure or a reply. */
  datatype HttpOutcome =
    | ExecFailed(execError: Failure)
    | Received(received: ApacheResponse)

  /** What the JSON parser makes of a nested mediator response: malformed JSON, JSON null, or a response. */
  datatype ParsedCore =
    | MalformedJson
    | NullJson
    | ParsedCore(data: CoreResponseData)

  datatype ResponseOutcome =
    | Responded(response: MediatorHTTPResponse)
    | ResponseFailed(failure: Failure)

  /** The Content-Type of a reply: the value of the first header so named, ignoring case. */
  function ContentType(r: ApacheResponse): (ct: Option<string>)
    ensures ct.None? <==> forall i :: 0 <= i < |r.headers| ==> !EqualsIgnoreCase(r.headers[i].0, "Content-Type")
    ensures ct.Some? ==> exists i :: FirstMatchAt(r.headers, "Content-Type", i) && ct.value == r.headers[i].1
  {
    Lookup(r.headers, "Content-Type")
  }

  /** Whether a reply is itself a mediator response, to be unpacked: its first Content-Type names the OpenHIM type. */
  predicate IsOpenHIMContent(r: ApacheResponse)
    ensures IsOpenHIMContent(r) <==>
      exists i :: FirstMatchAt(r.headers, "Content-Type", i) && Contains(r.headers[i].1, RequestHandler.OPENHIM_MIME_TYPE)
  {
    ContentType(r).Some? && Contains(ContentType(r).value, RequestHandler.OPENHIM_MIME_TYPE)
  }

  /** Whether `order` lists every key of `keys` exactly once. */
  predicate EnumeratesKeys(order: seq<string>, keys: set<string>) {
    && (forall i, j :: 0 <= i < j < |order| ==> order[i] != order[j])
    && (forall k :: k in keys ==> k in order)
    && (forall i :: 0 <= i < |order| ==> order[i] in keys)
  }

  function OrchestrationMessages(handler: ActorRef, os: seq<Orchestration>): seq<Envelope> {
    seq(|os|, i requires 0 <= i < |os| => Envelope(ToActor(handler), AddOrchestrationMsg(os[i])))
  }

  /** One PutProperty message per key of `order` that `props` has, in that order. */
  function PropertyMessages(handler: ActorRef, order: seq<string>, props: map<string, string>): seq<Envelope> {
    if |order| == 0 then []
    else
      var k := order[|order| - 1];
      PropertyMessages(handler, order[..|order| - 1], props) + (if k in props then [Envelope(ToActor(handler), PutPropertyMsg(k, props[k]))] else [])
  }

  /** The properties a request handler ends up with after receiving some messages. */
  function ApplyProperties(m: map<string, string>, es: seq<Envelope>): map<string, string> {
    if |es| == 0 then m
    else
      var before := ApplyProperties(m, es[..|es| - 1]);
      var last := es[|es| - 1].msg;
      if last.PutPropertyMsg? then before[last.name := last.value] else before
  }

  /**
   * Whatever order the keys are forwarded in, the handler receiving them ends up with exactly
   * the nested properties added to its own.
   */
  lemma {:induction false} ForwardedPropertiesArrive(m: map<string, string>, handler: ActorRef, order: seq<string>, props: map<string, string>)
    requires forall k :: k in props ==> k in order
    ensures ApplyProperties(m, PropertyMessages(handler, order, props)) == m + props
  {
    ApplyPropertyMessages(m, handler, order, props);
    var restricted := map k | k in props && k in order :: props[k];
    assert restricted == props;
  }

  lemma {:induction false} ApplyPropertyMessages(m: map<string, string>, handler: ActorRef, order: seq<string>, props: map<string, string>)
    ensures ApplyProperties(m, PropertyMessages(handler, order, props)) == m + map k | k in props && k in order :: props[k]
  {
    if |order| == 0 {
      assert (map k | k in props && k in order :: props[k]) == map[];
    } else {
      var prefix := order[..|order| - 1];
      var k := order[|order| - 1];
      assert order == prefix + [k];
      ApplyPropertyMessages(m, handler, prefix, props);
      RestrictExtended(props, prefix, k);
      var before := PropertyMessages(handler, prefix, props);
      var earlier := map j | j in props && j in prefix :: props[j];
      if k in props {
        assert PropertyMessages(handler, order, props) == before + [Envelope(ToActor(handler), PutPropertyMsg(k, props[k]))];
        ApplyLastProperty(m, before, k, props[k]);
        assert (m + earlier)[k := props[k]] == m + earlier[k := props[k]];
      } else {
        assert PropertyMessages(handler, order, props) == before;
      }
    }
  }

  /** Restricting a map to one more key adds that key's entry, when the map has it. */
  lemma RestrictExtended(props: map<string, string>, prefix: seq<string>, k: string)
    ensures var earlier := map j | j in props && j in prefix :: props[j];
      (map j | j in props && j in prefix + [k] :: props[j]) == if k in props then earlier[k := props[k]] else earlier
  {
  }

  /** A PutProperty message at the end of a run sets its key last. */
  lemma ApplyLastProperty(m: map<string, string>, es: seq<Envelope>, k: string, v: string)
    ensures forall to :: ApplyProperties(m, es + [Envelope(to, PutPropertyMsg(k, v))]) == ApplyProperties(m, es)[k := v]
  {
    forall to ensures ApplyProperties(m, es + [Envelope(to, PutPropertyMsg(k, v))]) == ApplyProperties(m, es)[k := v] {
      assert (es + [Envelope(to, PutPropertyMsg(k, v))])[..|es|] == es;
    }
  }

  /** The status of an unpacked reply: the nested status when it has one, the outer status otherwise. */
  function NestedStatus(r: ApacheResponse, nested: Response): int {
    if nested.status.Some? then nested.status.value else r.statusCode
  }

  /** The headers of an unpacked reply: the outer headers, overridden (ignoring case) by the nested ones. */
  function NestedHeaders(r: ApacheResponse, nested: Response): Headers {
    PutAll(PutAll([], r.headers), nested.headers.GetOr([]))
  }

  /**
   * The connector response for a reply and the messages forwarded to the request handler on
   * the way, for a given order of the nested property keys.
   */
  function HandleReceived(req: MediatorHTTPRequest, r: ApacheResponse, parse: string -> ParsedCore, order: seq<string>): (res: (ResponseOutcome, seq<Envelope>))
    ensures !IsOpenHIMContent(r) ==>
      res == (Responded(MediatorHTTPResponse(Some(req), r.entity, Some(r.statusCode), Some(PutAll([], r.headers)))), [])
    ensures res.0.ResponseFailed? ==> res.1 == [] && IsOpenHIMContent(r)
    ensures IsOpenHIMContent(r) && r.entity.None? ==> res.0 == ResponseFailed(Failure(NullPointer, None))
    ensures IsOpenHIMContent(r) && r.entity.Some? ==>
      match parse(r.entity.value)
      case MalformedJson => res.0 == ResponseFailed(Failure(ParseFailure, None))
      case NullJson => res.0 == ResponseFailed(Failure(NullPointer, None))
      case ParsedCore(d) =>
        && (d.response.None? ==> res.0 == ResponseFailed(Failure(ParseFailure, Some(NO_RESPONSE_OBJECT))))
        && (d.response.Some? ==>
              && res.0 == Responded(MediatorHTTPResponse(Some(req), d.response.value.body,
                                      Some(NestedStatus(r, d.response.value)), Some(NestedHeaders(r, d.response.value))))
              && res.1 == OrchestrationMessages(req.requestHandler, d.orchestrations)
                          + PropertyMessages(req.requestHandler, order, d.properties))
  {
    if !IsOpenHIMContent(r) then
      (Responded(MediatorHTTPResponse(Some(req), r.entity, Some(r.statusCode), Some(PutAll([], r.headers)))), [])
    else if r.entity.None? then (ResponseFailed(Failure(NullPointer, None)), [])
    else match parse(r.entity.value)
      case MalformedJson => (ResponseFailed(Failure(ParseFailure, None)), [])
      case NullJson => (ResponseFailed(Failure(NullPointer, None)), [])
      case ParsedCore(d) =>
        if d.response.None? then (ResponseFailed(Failure(ParseFailure, Some(NO_RESPONSE_OBJECT))), [])
        else
          (Responded(MediatorHTTPResponse(Some(req), d.response.value.body,
             Some(NestedStatus(r, d.response.value)), Some(NestedHeaders(r, d.response.value)))),
           OrchestrationMessages(req.requestHandler, d.orchestrations) + PropertyMessages(req.requestHandler, order, d.properties))
  }

  /** The nested properties of a reply whose unpacking succeeds, and none otherwise. */
  function ForwardedKeys(r: ApacheResponse, parse: string -> ParsedCore): set<string> {
    if IsOpenHIMContent(r) && r.entity.Some? && parse(r.entity.value).ParsedCore? && parse(r.entity.value).data.response.Some?
    then parse(r.entity.value).data.properties.Keys
    else {}
  }

  /** A header looked up in an unpacked reply has its nested value if the nested headers name it, its outer value otherwise. */
  lemma NestedHeadersOverride(r: ApacheResponse, nested: Response, name: string)
    ensures Lookup(NestedHeaders(r, nested), name) ==
      if LookupLast(nested.headers.GetOr([]), name).Some? then LookupLast(nested.headers.GetOr([]), name)
      else LookupLast(r.headers, name)
  {
    LookupPutAll(PutAll([], r.headers), nested.headers.GetOr([]), name);
    LookupPutAll([], r.headers, name);
  }

  /** The orchestration recorded for an exchange: named after the request; host, port and path only without a URI. */
  function HTTPOrchestration(req: MediatorHTTPRequest, resp: MediatorHTTPResponse): (o: Orchestration)
    ensures o.name == req.orchestration && o.request.Some? && o.response.Some?
    ensures req.uri.Some? ==> o.request.value.host.None? && o.request.value.port.None? && o.request.value.path.None?
    ensures req.uri.None? ==> o.request.value.host == req.host && o.request.value.path == Some(req.path)
    ensures req.uri.None? && req.port.Some? ==> o.request.value.port.Some? && ParseInt(o.request.value.port.value) == req.port
    ensures o.request.value.body == req.body && o.request.value.httpMethod == Some(req.httpMethod)
    ensures o.request.value.headers == req.headers && o.request.value.queryString.None?
    ensures o.response.value.status == resp.statusCode && o.response.value.headers == resp.headers
    ensures o.response.value.body == resp.body
  {
    var port := if req.uri.None? && req.port.Some? then Some(IntToString(req.port.value)) else None;
    assert req.port.Some? ==> ParseInt(IntToString(req.port.value)) == req.port by {
      if req.port.Some? {
        IntToStringRoundTrip(req.port.value);
      }
    }
    Orchestration(req.orchestration,
      Some(Request(if req.uri.None? then req.host else None, port, if req.uri.None? then Some(req.path) else None,
                   req.headers, None, req.body, Some(req.httpMethod))),
      Some(Response(resp.statusCode, resp.headers, resp.body)))
  }

  /**
   * Everything a request leads the connector to send, for the client it is sent with and a
   * given order of the nested property keys: a rejection or an I/O failure is reported to the
   * request handler as an error; otherwise the forwarded messages, the orchestration and finally
   * the response to `respondTo`.
   */
  function Emitted(req: MediatorHTTPRequest, client: HttpClient, exec: (HttpClient, ApacheRequest) -> HttpOutcome,
                   parse: string -> ParsedCore, order: seq<string>): (es: seq<Envelope>)
    ensures !SupportedMethod(req.httpMethod) ==>
      es == [Envelope(ToActor(req.requestHandler), ExceptErrorMsg(Some(req), Failure(UnsupportedOperation, Some(req.httpMethod + " requests not supported"))))]
    ensures ResponseLast(es, ToActor(req.respondTo))
    ensures BuildApacheHttpRequest(req).Escaped? ==> es == [Envelope(ToSupervisor, Crashed(BuildApacheHttpRequest(req).escaped))]
    ensures BuildApacheHttpRequest(req).Built? ==>
      match exec(client, BuildApacheHttpRequest(req).request)
      case ExecFailed(e) => es == [Envelope(ToActor(req.requestHandler), ExceptErrorMsg(Some(req), e))]
      case Received(r) =>
        var res := HandleReceived(req, r, parse, order);
        match res.0
        case ResponseFailed(e) => es == [Envelope(ToActor(req.requestHandler), ExceptErrorMsg(Some(req), e))]
        case Responded(resp) =>
          es == res.1 + [Envelope(ToActor(req.requestHandler), AddOrchestrationMsg(HTTPOrchestration(req, resp))),
                         Envelope(ToActor(req.respondTo), HttpResponseMsg(resp))]
  {
    match BuildApacheHttpRequest(req)
    case Rejected(e) => [Envelope(ToActor(req.requestHandler), ExceptErrorMsg(Some(req), e))]
    case Escaped(e) => [Envelope(ToSupervisor, Crashed(e))]
    case Built(request) =>
      match exec(client, request)
      case ExecFailed(e) => [Envelope(ToActor(req.requestHandler), ExceptErrorMsg(Some(req), e))]
      case Received(r) =>
        var (result, forwarded) := HandleReceived(req, r, parse, order);
        ForwardedAreNotResponses(req, r, parse, order);
        match result
        case ResponseFailed(e) =>
          var tail := [Envelope(ToActor(req.requestHandler), ExceptErrorMsg(Some(req), e))];
          ResponseOnlyAtEnd(forwarded, tail, ToActor(req.respondTo));
          forwarded + tail
        case Responded(resp) =>
          var tail := [Envelope(ToActor(req.requestHandler), AddOrchestrationMsg(HTTPOrchestration(req, resp))),
                       Envelope(ToActor(req.respondTo), HttpResponseMsg(resp))];
          ResponseOnlyAtEnd(forwarded, tail, ToActor(req.respondTo));
          forwarded + tail
  }

  /** Whether a request gets through: it is built, the exchange completes and the reply unpacks. */
  predicate Answered(req: MediatorHTTPRequest, client: HttpClient, exec: (HttpClient, ApacheRequest) -> HttpOutcome,
                     parse: string -> ParsedCore, order: seq<string>) {
    && BuildApacheHttpRequest(req).Built?
    && exec(client, BuildApacheHttpRequest(req).request).Received?
    && HandleReceived(req, exec(client, BuildApacheHttpRequest(req).request).received, parse, order).0.Responded?
  }

  /**
   * A request that gets through sends its orchestration to the handler and then the response to
   * `respondTo`, as the last two messages; one that does not sends no response at all, and its
   * last message is an error, to the handler or (for an escaping exception) the supervisor.
   */
  lemma EmittedRespondsIffAnswered(req: MediatorHTTPRequest, client: HttpClient, exec: (HttpClient, ApacheRequest) -> HttpOutcome,
                                   parse: string -> ParsedCore, order: seq<string>)
    ensures var es := Emitted(req, client, exec, parse, order);
      && |es| > 0
      && (Answered(req, client, exec, parse, order) <==> exists i :: 0 <= i < |es| && es[i].msg.HttpResponseMsg?)
      && (Answered(req, client, exec, parse, order) ==>
            && |es| >= 2
            && es[|es| - 1].to == ToActor(req.respondTo)
            && es[|es| - 1].msg.HttpResponseMsg?
            && es[|es| - 2] == Envelope(ToActor(req.requestHandler), AddOrchestrationMsg(HTTPOrchestration(req, es[|es| - 1].msg.response))))
      && (!Answered(req, client, exec, parse, order) ==>
            es[|es| - 1].msg.ExceptErrorMsg? || es[|es| - 1].msg.Crashed?)
  {
    var es := Emitted(req, client, exec, parse, order);
    if Answered(req, client, exec, parse, order) {
      assert es[|es| - 1].msg.HttpResponseMsg?;
    } else {
      var fwd := if BuildApacheHttpRequest(req).Built? && exec(client, BuildApacheHttpRequest(req).request).Received?
                 then HandleReceived(req, exec(client, BuildApacheHttpRequest(req).request).received, parse, order).1 else [];
      assert es == fwd + [es[|es| - 1]];
      ForwardedNoResponse(es, fwd);
    }
  }

  lemma ForwardedNoResponse(es: seq<Envelope>, fwd: seq<Envelope>)
    requires |es| > 0 && es == fwd + [es[|es| - 1]] && !es[|es| - 1].msg.HttpResponseMsg?
    requires forall i :: 0 <= i < |fwd| ==> !fwd[i].msg.HttpResponseMsg?
    ensures forall i :: 0 <= i < |es| ==> !es[i].msg.HttpResponseMsg?
  {
    forall i | 0 <= i < |es| ensures !es[i].msg.HttpResponseMsg? {
      if i < |fwd| {
        assert es[i] == fwd[i];
      }
    }
  }

  /** Whether the only response in `es`, if any, is its last message, goes to `to` and follows an orchestration. */
  predicate ResponseLast(es: seq<Envelope>, to: Address) {
    forall i :: 0 <= i < |es| && es[i].msg.HttpResponseMsg? ==>
      i == |es| - 1 && es[i].to == to && i > 0 && es[i - 1].msg.AddOrchestrationMsg?
  }

  lemma ResponseOnlyAtEnd(fwd: seq<Envelope>, tail: seq<Envelope>, to: Address)
    requires forall i :: 0 <= i < |fwd| ==> !fwd[i].msg.HttpResponseMsg?
    requires |tail| > 0 && !tail[0].msg.HttpResponseMsg? && ResponseLast(tail, to)
    ensures ResponseLast(fwd + tail, to)
  {
    var es := fwd + tail;
    forall i | 0 <= i < |es| && es[i].msg.HttpResponseMsg?
      ensures i == |es| - 1 && es[i].to == to && i > 0 && es[i - 1].msg.AddOrchestrationMsg?
    {
      assert i >= |fwd| && es[i] == tail[i - |fwd|];
      assert i - |fwd| > 0 && es[i - 1] == tail[i - |fwd| - 1];
    }
  }

  lemma ForwardedAreNotResponses(req: MediatorHTTPRequest, r: ApacheResponse, parse: string -> ParsedCore, order: seq<string>)
    ensures forall i :: 0 <= i < |HandleReceived(req, r, parse, order).1| ==> !HandleReceived(req, r, parse, order).1[i].msg.HttpResponseMsg?
  {
    var fwd := HandleReceived(req, r, parse, order).1;
    if fwd != [] {
      var d := parse(r.entity.value).data;
      var os := OrchestrationMessages(req.requestHandler, d.orchestrations);
      PropertyMessagesArePuts(req.requestHandler, order, d.properties);
      assert fwd == os + PropertyMessages(req.requestHandler, order, d.properties);
    }
  }

  lemma {:induction false} PropertyMessagesArePuts(handler: ActorRef, order: seq<string>, props: map<string, string>)
    ensures forall i :: 0 <= i < |PropertyMessages(handler, order, props)| ==> PropertyMessages(handler, order, props)[i].msg.PutPropertyMsg?
  {
    if |order| > 0 {
      PropertyMessagesArePuts(handler, order[..|order| - 1], props);
    }
  }

  /** Puts each header of `src`, in order, into `into`, as the case-insensitive map does. */
  method CollectHeaders(into: Headers, src: Headers) returns (r: Headers)
    ensures r == PutAll(into, src)
  {
    r := into;
    for i := 0 to |src|
      invariant r == PutAll(into, src[..i])
    {
      PutAllSnoc(into, src[..i], src[i]);
      assert src[..i + 1] == src[..i] + [src[i]];
      r := Put(r, src[i].0, src[i].1);
    }
    assert src[..|src|] == src;
  }

  /** The loop telling the request handler each nested orchestration, in list order. */
  method ForwardOrchestrations(handler: ActorRef, os: seq<Orchestration>) returns (sent: seq<Envelope>)
    ensures sent == OrchestrationMessages(handler, os)
  {
    sent := [];
    for i := 0 to |os|
      invariant sent == OrchestrationMessages(handler, os[..i])
    {
      sent := sent + [Envelope(ToActor(handler), AddOrchestrationMsg(os[i]))];
    }
    assert os[..|os|] == os;
  }

  /**
   * The loop telling the request handler each nested property, in the order the map yields its
   * keys; `order` is that order, every key exactly once.
   */
  method ForwardProperties(handler: ActorRef, props: map<string, string>) returns (sent: seq<Envelope>, order: seq<string>)
    ensures EnumeratesKeys(order, props.Keys)
    ensures sent == PropertyMessages(handler, order, props)
  {
    sent := [];
    order := [];
    var remaining := props.Keys;
    while remaining != {}
      invariant forall k :: k in props.Keys <==> k in remaining || k in order
      invariant forall k :: k in remaining ==> k !in order
      invariant forall i, j :: 0 <= i < j < |order| ==> order[i] != order[j]
      invariant sent == PropertyMessages(handler, order, props)
      decreases |remaining|
    {
      var k :| k in remaining;
      assert (order + [k])[..|order|] == order;
      sent := sent + [Envelope(ToActor(handler), PutPropertyMsg(k, props[k]))];
      order := order + [k];
      remaining := remaining - {k};
    }
  }

  /**
   * Turning a reply into a connector response, as the connector does it: headers are put one by
   * one, nested orchestrations forwarded in order and nested properties one per key, in the
   * (unspecified) iteration order of the property map, returned as `order`.
   */
  method BuildResponse(req: MediatorHTTPRequest, r: ApacheResponse, parse: string -> ParsedCore)
    returns (result: ResponseOutcome, forwarded: seq<Envelope>, order: seq<string>)
    ensures EnumeratesKeys(order, ForwardedKeys(r, parse))
    ensures (result, forwarded) == HandleReceived(req, r, parse, order)
  {
    order := [];
    forwarded := [];
    var contentType := Lookup(r.headers, "Content-Type");
    if !(contentType.Some? && Contains(contentType.value, RequestHandler.OPENHIM_MIME_TYPE)) {
      var headers := CollectHeaders([], r.headers);
      result := Responded(MediatorHTTPResponse(Some(req), r.entity, Some(r.statusCode), Some(headers)));
      return;
    }
    if r.entity.None? {
      result := ResponseFailed(Failure(NullPointer, None));
      return;
    }
    var parsed := parse(r.entity.value);
    if parsed.MalformedJson? {
      result := ResponseFailed(Failure(ParseFailure, None));
      return;
    } else if parsed.NullJson? {
      result := ResponseFailed(Failure(NullPointer, None));
      return;
    }
    var d := parsed.data;
    if d.response.None? {
      result := ResponseFailed(Failure(ParseFailure, Some(NO_RESPONSE_OBJECT)));
      return;
    }
    var nested := d.response.value;
    var status := r.statusCode;
    if nested.status.Some? {
      status := nested.status.value;
    }
    var headers := CollectHeaders([], r.headers);
    if nested.headers.Some? {
      headers := CollectHeaders(headers, nested.headers.value);
    }
    var sentOrchestrations := ForwardOrchestrations(req.requestHandler, d.orchestrations);
    var sentProperties;
    sentProperties, order := ForwardProperties(req.requestHandler, d.properties);
    forwarded := sentOrchestrations + sentProperties;
    result := Responded(MediatorHTTPResponse(Some(req), nested.body, Some(status), Some(headers)));
  }

  class HTTPConnector {
    const self: ActorRef
    var sslContext: Option<SSLContext>
    var sslTrustAll: bool
    var outbox: seq<Envelope>

    constructor (self: ActorRef)
      ensures this.self == self && sslContext.None? && !sslTrustAll && outbox == []
    {
      this.self := self;
      sslContext := None;
      sslTrustAll := false;
      outbox := [];
    }

    /** The custom TLS client is used only with a TLS context and an "https" scheme (any case); it skips host-name checks when trusting all. */
    function ClientFor(req: MediatorHTTPRequest): (c: HttpClient)
      reads this
      ensures c.CustomTlsClient? <==> sslContext.Some? && EqualsIgnoreCase(req.scheme, "https")
      ensures c.CustomTlsClient? ==> c.context == sslContext.value && c.allowAllHostnames == sslTrustAll
    {
      if sslContext.Some? && EqualsIgnoreCase(req.scheme, "https") then CustomTlsClient(sslContext.value, sslTrustAll)
      else DefaultClient
    }

    /** One request, with `exec` standing for the HTTP client's execution of it. */
    method SendRequest(req: MediatorHTTPRequest, exec: (HttpClient, ApacheRequest) -> HttpOutcome, parse: string -> ParsedCore)
      returns (order: seq<string>)
      modifies this`outbox
      ensures outbox == old(outbox) + Emitted(req, ClientFor(req), exec, parse, order)
    {
      order := [];
      var client := ClientFor(req);
      var built := BuildApacheHttpRequest(req);
      match built {
        case Rejected(e) =>
          outbox := outbox + [Envelope(ToActor(req.requestHandler), ExceptErrorMsg(Some(req), e))];
        case Escaped(e) =>
          outbox := outbox + [Envelope(ToSupervisor, Crashed(e))];
        case Built(request) =>
          var outcome := exec(client, request);
          match outcome {
            case ExecFailed(e) =>
              outbox := outbox + [Envelope(ToActor(req.requestHandler), ExceptErrorMsg(Some(req), e))];
            case Received(r) =>
              var result, forwarded;
              result, forwarded, order := BuildResponse(req, r, parse);
              match result {
                case ResponseFailed(e) =>
                  outbox := outbox + forwarded + [Envelope(ToActor(req.requestHandler), ExceptErrorMsg(Some(req), e))];
                case Responded(resp) =>
                  outbox := outbox + forwarded + [Envelope(ToActor(req.requestHandler), AddOrchestrationMsg(HTTPOrchestration(req, resp))),
                                                  Envelope(ToActor(req.respondTo), HttpResponseMsg(resp))];
              }
          }
      }
    }

    /**
     * TLS setup: the trust-all flag is taken from the request first; the context is installed
     * if loading the key material succeeds (`loadError` is None), and cleared otherwise; either
     * way the requester is told the outcome.
     */
    method SetupSSLContext(respondTo: ActorRef, context: SSLContext, loadError: Option<Failure>)
      modifies this`sslContext, this`sslTrustAll, this`outbox
      ensures sslTrustAll == context.trustAll
      ensures sslContext == (if loadError.None? then Some(context) else None)
      ensures outbox == old(outbox) + [Envelope(ToActor(respondTo), SetupSSLContextResponseMsg(loadError))]
      ensures loadError.Some? ==> forall req :: ClientFor(req) == DefaultClient
    {
      sslTrustAll := context.trustAll;
      if loadError.None? {
        sslContext := Some(context);
      } else {
        sslContext := None;
      }
      outbox := outbox + [Envelope(ToActor(respondTo), SetupSSLContextResponseMsg(loadError))];
    }

    method OnReceive(msg: Message, exec: (HttpClient, ApacheRequest) -> HttpOutcome, parse: string -> ParsedCore, loadError: Option<Failure>)
      modifies this`sslContext, this`sslTrustAll, this`outbox
      ensures msg.HttpRequestMsg? ==>
        && sslContext == old(sslContext) && sslTrustAll == old(sslTrustAll)
        && exists order :: outbox == old(outbox) + Emitted(msg.request, ClientFor(msg.request), exec, parse, order)
      ensures msg.SetupSSLContextMsg? ==>
        && sslTrustAll == msg.context.trustAll
        && sslContext == (if loadError.None? then Some(msg.context) else None)
        && outbox == old(outbox) + [Envelope(ToActor(msg.setupRespondTo), SetupSSLContextResponseMsg(loadError))]
      ensures !msg.HttpRequestMsg? && !msg.SetupSSLContextMsg? ==> unchanged(this)
    {
      match msg {
        case HttpRequestMsg(req) =>
          var order := SendRequest(req, exec, parse);
        case SetupSSLContextMsg(_, respondTo, context) =>
          SetupSSLContext(respondTo, context, loadError);
        case _ =>
      }
    }
  }
}
