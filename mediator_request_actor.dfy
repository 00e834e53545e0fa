/**
 * The older request actor, fed by the embedded NanoHTTPD server: it routes a session to the
 * handler class the routing table names (or answers 404), gathers orchestrations and
 * properties, and answers the caller once, with the serialised response aggregate.
 */
module RequestActor {
  import opened Wrappers
  import opened HeaderMaps
  import opened CoreResponses
  import opened Routing
  import opened Config
  import opened Messages

  const OPENHIM_MIME_TYPE := "application/json+openhim"

  /** The server-side status of a reply: 200 OK when none is given, the given code otherwise. */
  function NanoStatus(status: Option<int>): (r: int)
    ensures status.None? ==> r == 200
    ensures status.Some? ==> r == status.value
  {
    if status.None? then 200 else status.value
  }

  /** The request handed to the route's handler: the session's method, uri, query string, headers and parameters over plain http. */
  function SessionRequest(self: ActorRef, session: HttpSession): (r: MediatorHTTPRequest)
    ensures r.requestHandler == self && r.respondTo == self && r.orchestration == Some(session.uri)
    ensures r.httpMethod == session.httpMethod && r.scheme == "http" && r.host.None? && r.port.None?
    ensures r.path == session.uri && r.body == session.queryParameterString
    ensures r.headers == Some(session.headers) && r.params == Some(session.params)
  {
    RequestWithoutCorrelation(self, self, Some(session.uri), session.httpMethod, "http", None, None, session.uri,
      session.queryParameterString, Some(session.headers), Some(session.params))
  }

  /** Whether the server parses a body for this method. */
  predicate HasBody(httpMethod: string) {
    httpMethod == "POST" || httpMethod == "PUT"
  }

  /** The number of replies among some sent messages. */
  function Replies(es: seq<Envelope>): nat {
    if |es| == 0 then 0 else Replies(es[..|es| - 1]) + (if es[|es| - 1].msg.NanoResponseMsg? then 1 else 0)
  }

  lemma RepliesAfterSend(es: seq<Envelope>, start: nat, e: Envelope)
    requires start <= |es|
    ensures Replies((es + [e])[start..]) == Replies(es[start..]) + (if e.msg.NanoResponseMsg? then 1 else 0)
  {
    assert (es + [e])[start..][..|(es + [e])[start..]| - 1] == es[start..];
  }

  class MediatorRequestActor {
    const self: ActorRef
    const config: MediatorConfig
    const toJSON: CoreResponseData -> string
    const fullMatch: FullMatch
    const response: CoreResponse

    var requestCaller: Option<ActorRef>
    var outbox: seq<Envelope>
    /** Where in the outbox the messages sent since the last session begin. */
    ghost var requestStart: nat

    /** Since the last session, at most one reply, and none while the caller is still known. */
    ghost predicate Valid()
      reads this
    {
      && requestStart <= |outbox|
      && Replies(outbox[requestStart..]) <= (if requestCaller.Some? then 0 else 1)
    }

    function Reply(caller: ActorRef, data: CoreResponseData, status: Option<int>): Envelope {
      Envelope(ToActor(caller), NanoResponseMsg(NanoStatus(status), OPENHIM_MIME_TYPE, toJSON(data)))
    }

    /**
     * The reply step for the caller known before it: fill in the descriptive status if none is
     * set yet, send the reply, forget the caller. With no caller, nothing happens.
     */
    twostate predicate RespondedToCaller(caller: Option<ActorRef>, status: Option<int>)
      reads this, response
    {
      && requestCaller.None?
      && (caller.None? ==> outbox == old(outbox) && response.status == old(response.status))
      && (caller.Some? ==>
            && response.status == (if old(response.status).Some? then old(response.status)
                                   else Some(DescriptiveStatus(response.response, response.orchestrations)))
            && outbox == old(outbox) + [Reply(caller.value, response.Data(), status)])
    }

    /** Creating the actor reads the URN of the registration configuration, which must be present. */
    constructor (self: ActorRef, config: MediatorConfig, toJSON: CoreResponseData -> string, fullMatch: FullMatch)
      requires config.registrationConfig.Some?
      ensures Valid() && fresh(response)
      ensures this.self == self && this.config == config && this.toJSON == toJSON && this.fullMatch == fullMatch
      ensures requestCaller.None? && outbox == []
      ensures response.urn == config.registrationConfig.value.urn
      ensures response.status.None? && response.response.None?
      ensures response.orchestrations == [] && response.properties == map[]
    {
      this.self := self;
      this.config := config;
      this.toJSON := toJSON;
      this.fullMatch := fullMatch;
      var r := new CoreResponse();
      r.SetUrn(config.registrationConfig.value.urn);
      response := r;
      requestCaller := None;
      outbox := [];
      requestStart := 0;
    }

    method RespondToCaller(status: Option<int>)
      requires Valid()
      modifies this`requestCaller, this`outbox, response`status
      ensures Valid()
      ensures RespondedToCaller(old(requestCaller), status)
    {
      if requestCaller.Some? {
        if response.status.None? {
          var d := response.GetDescriptiveStatus();
          response.SetStatus(Some(d));
        }
        var e := Reply(requestCaller.value, response.Data(), status);
        RepliesAfterSend(outbox, requestStart, e);
        outbox := outbox + [e];
        requestCaller := None;
      }
    }

    /** A FinishRequest stages its response only if none is staged yet, then replies with its status. */
    method ProcessFinishRequestMessage(f: FinishRequest)
      requires Valid()
      modifies this`requestCaller, this`outbox, response`status, response`response
      ensures Valid()
      ensures response.response == if old(response.response).Some? then old(response.response) else Some(FinishResponse(f))
      ensures RespondedToCaller(old(requestCaller), f.responseStatus)
    {
      if response.response.None? {
        response.SetResponse(Some(FinishResponse(f)));
      }
      RespondToCaller(f.responseStatus);
    }

    /** An error stages a 500 with its message only if no response is staged yet, then replies with 500. */
    method ExceptError(e: Failure)
      requires Valid()
      modifies this`requestCaller, this`outbox, response`status, response`response
      ensures Valid()
      ensures response.response == if old(response.response).Some? then old(response.response) else Some(ErrorResponse(e))
      ensures RespondedToCaller(old(requestCaller), Some(500))
    {
      if response.response.None? {
        response.SetResponse(Some(ErrorResponse(e)));
      }
      RespondToCaller(Some(500));
    }

    /**
     * A matched session goes to a new actor of the route's class, after a body that fails to
     * parse has been answered as an error; an unmatched one stages a 404 and replies.
     */
    method RouteRequest(session: HttpSession)
      requires Valid() && config.routingTable != null
      modifies this`requestCaller, this`outbox, response`status, response`response
      ensures Valid()
      ensures var handler := FirstMatch(config.routingTable.routes, session.uri, fullMatch);
        && (handler.None? ==>
              response.response == Some(NotFoundResponse(session.uri)) && RespondedToCaller(old(requestCaller), Some(404)))
        && (handler.Some? && (!HasBody(session.httpMethod) || session.bodyParseError.None?) ==>
              && outbox == old(outbox) + [Envelope(ToNewChild(handler.value), HttpRequestMsg(SessionRequest(self, session)))]
              && unchanged(this`requestCaller, response`status, response`response))
        && (handler.Some? && HasBody(session.httpMethod) && session.bodyParseError.Some? ==>
              && response.response == (if old(response.response).Some? then old(response.response)
                                       else Some(ErrorResponse(session.bodyParseError.value)))
              && requestCaller.None?
              && (old(requestCaller).None? ==>
                    && response.status == old(response.status)
                    && outbox == old(outbox) + [Envelope(ToNewChild(handler.value), HttpRequestMsg(SessionRequest(self, session)))])
              && (old(requestCaller).Some? ==>
                    && response.status == (if old(response.status).Some? then old(response.status)
                                           else Some(DescriptiveStatus(response.response, response.orchestrations)))
                    && outbox == old(outbox) + [Reply(old(requestCaller).value, response.Data(), Some(500)),
                                                Envelope(ToNewChild(handler.value), HttpRequestMsg(SessionRequest(self, session)))]))
    {
      var handler := config.routingTable.GetActorClassForPath(session.uri, fullMatch);
      if handler.Some? {
        if HasBody(session.httpMethod) && session.bodyParseError.Some? {
          ExceptError(session.bodyParseError.value);
        }
        var e := Envelope(ToNewChild(handler.value), HttpRequestMsg(SessionRequest(self, session)));
        RepliesAfterSend(outbox, requestStart, e);
        outbox := outbox + [e];
      } else {
        response.SetResponse(Some(NotFoundResponse(session.uri)));
        RespondToCaller(Some(404));
      }
    }

    /**
     * One message. Orchestrations and properties are recorded in the order they arrive, at any
     * time; the descriptive status, once set, never changes.
     */
    method OnReceive(sender: ActorRef, msg: Message)
      requires Valid() && config.routingTable != null
      modifies this, response
      ensures Valid()
      ensures old(response.status).Some? ==> response.status == old(response.status)
      ensures response.urn == old(response.urn)
      ensures (msg.FinishRequestMsg? || msg.ExceptErrorMsg?) && old(response.response).Some? ==>
                response.response == old(response.response)
      ensures !(msg.FinishRequestMsg? || msg.ExceptErrorMsg? || msg.HttpSessionMsg?) ==>
                response.response == old(response.response)
      ensures (msg.FinishRequestMsg? || msg.ExceptErrorMsg?) && old(requestCaller).None? ==> outbox == old(outbox)
      ensures response.orchestrations ==
                if msg.AddOrchestrationMsg? then old(response.orchestrations) + [msg.orchestration] else old(response.orchestrations)
      ensures response.properties ==
                if msg.PutPropertyMsg? then old(response.properties)[msg.name := msg.value] else old(response.properties)
      ensures msg.FinishRequestMsg? ==> RespondedToCaller(old(requestCaller), msg.finish.responseStatus)
      ensures msg.ExceptErrorMsg? ==> RespondedToCaller(old(requestCaller), Some(500))
    {
      match msg {
        case HttpSessionMsg(session) =>
          requestCaller := Some(sender);
          requestStart := |outbox|;
          RouteRequest(session);
        case FinishRequestMsg(f) =>
          ProcessFinishRequestMessage(f);
        case ExceptErrorMsg(_, e) =>
          ExceptError(e);
        case AddOrchestrationMsg(o) =>
          response.AddOrchestration(o);
        case PutPropertyMsg(name, value) =>
          response.PutProperty(name, value);
        case _ =>
      }
    }
  }
}
