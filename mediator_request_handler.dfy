/**
 * The request handler: the actor created for each incoming HTTP request. It routes the request
 * to the handler class the routing table names (or answers 404), gathers orchestrations and
 * properties from the route handler and the connectors, stages the final response, and either
 * replies to the caller or, in asynchronous mode, replies 202 at once and later sends the final
 * result to the core API as a transaction update.
 */
module RequestHandler {
  import opened Wrappers
  import opened HeaderMaps
  import opened CoreResponses
  import opened Routing
  import opened Config
  import opened Messages

  const OPENHIM_MIME_TYPE := "application/json+openhim"
  const TRANSACTION_ID_HEADER := "X-OpenHIM-TransactionID"
  const UPDATE_TRANSACTION := "core-api-update-transaction"
  const NO_TRANSACTION_ID := "Cannot enable asyncronous processing if X-OpenHIM-TransactionID is unknown"

  /** The response the caller is given when the request goes asynchronous. */
  function AcceptedResponse(): Response {
    Response(Some(202), Some([]), Some("Accepted request"))
  }

  /** The number of replies (connector-style responses) among some sent messages. */
  function Replies(es: seq<Envelope>): nat {
    if |es| == 0 then 0 else Replies(es[..|es| - 1]) + (if es[|es| - 1].msg.HttpResponseMsg? then 1 else 0)
  }

  /** The number of messages sent by actor path; the handler sends only transaction updates that way. */
  function PathSends(es: seq<Envelope>): nat {
    if |es| == 0 then 0 else PathSends(es[..|es| - 1]) + (if es[|es| - 1].to.ToPath? then 1 else 0)
  }

  lemma CountsAfterSend(es: seq<Envelope>, start: nat, e: Envelope)
    requires start <= |es|
    ensures Replies((es + [e])[start..]) == Replies(es[start..]) + (if e.msg.HttpResponseMsg? then 1 else 0)
    ensures PathSends(es + [e]) == PathSends(es) + (if e.to.ToPath? then 1 else 0)
  {
    assert (es + [e])[start..][..|(es + [e])[start..]| - 1] == es[start..];
    assert (es + [e])[..|es|] == es;
  }

  class MediatorRequestHandler {
    const self: ActorRef
    const config: MediatorConfig
    /** The JSON serialisation of the response aggregate. */
    const toJSON: CoreResponseData -> string
    const fullMatch: FullMatch
    const response: CoreResponse

    var requestCaller: Option<ActorRef>
    var coreTransactionID: Option<string>
    var async: bool
    var finalizingRequest: bool
    var stopped: bool
    var outbox: seq<Envelope>
    /** Where in the outbox the messages sent since the last request begin. */
    ghost var requestStart: nat

    /**
     * At most one reply per request, and none while the caller is still known; exactly one
     * transaction update, sent when an asynchronous request is finalized; a synchronous
     * finalization stops the actor.
     */
    ghost predicate Valid()
      reads this
    {
      && requestStart <= |outbox|
      && Replies(outbox[requestStart..]) <= (if requestCaller.Some? then 0 else 1)
      && PathSends(outbox) == (if finalizingRequest && async then 1 else 0)
      && (finalizingRequest && !async ==> stopped)
    }

    /** The reply to the caller: the serialised aggregate as application/json+openhim with the given status. */
    function Reply(caller: ActorRef, data: CoreResponseData, status: Option<int>): Envelope {
      Envelope(ToActor(caller), HttpResponseMsg(MediatorHTTPResponse(None, Some(toJSON(data)), status,
        Some([("Content-Type", OPENHIM_MIME_TYPE)]))))
    }

    /** The transaction update: a PUT of the serialised aggregate to /transactions/{id} through the core API connector. */
    function CoreUpdate(transactionId: string, data: CoreResponseData): Envelope
      reads config
    {
      Envelope(ToPath(config.UserPathFor("core-api-connector")),
        HttpRequestMsg(RequestWithoutCorrelation(self, self, Some(UPDATE_TRANSACTION), "PUT", "https",
          config.coreHost, config.coreAPIPort, "/transactions/" + transactionId, Some(toJSON(data)),
          Some([("Content-Type", "application/json")]), None)))
    }

    /**
     * The reply step for the caller known before it: fill in the descriptive status if none is
     * set yet, send the reply, forget the caller. With no caller, nothing happens.
     */
    twostate predicate RespondedToCaller(caller: Option<ActorRef>, status: Option<int>)
      reads this, response
    {
      && requestCaller.None?
      && (caller.None? ==> outbox == old(outbox) && response.status == old(response.status))
      && (caller.Some? ==>
            && response.status == (if old(response.status).Some? then old(response.status)
                                   else Some(DescriptiveStatus(response.response, response.orchestrations)))
            && outbox == old(outbox) + [Reply(caller.value, response.Data(), status)])
    }

    /**
     * The finalization step, for the caller known before it: it runs only once; in
     * asynchronous mode it sends the transaction update and keeps the actor alive for the core's
     * answer, otherwise it replies to the caller and stops the actor.
     */
    twostate predicate Finalized(caller: Option<ActorRef>, status: Option<int>)
      reads this, response, config
    {
      && finalizingRequest
      && (old(finalizingRequest) ==>
            outbox == old(outbox) && requestCaller == caller && stopped == old(stopped) && response.status == old(response.status))
      && (!old(finalizingRequest) && async ==>
            && outbox == old(outbox) + [CoreUpdate(JavaString(coreTransactionID), response.Data())]
            && requestCaller == caller && stopped == old(stopped) && response.status == old(response.status))
      && (!old(finalizingRequest) && !async ==> stopped && RespondedToCaller(caller, status))
    }

    constructor (self: ActorRef, config: MediatorConfig, toJSON: CoreResponseData -> string, fullMatch: FullMatch)
      ensures Valid() && fresh(response)
      ensures this.self == self && this.config == config && this.toJSON == toJSON && this.fullMatch == fullMatch
      ensures requestCaller.None? && coreTransactionID.None? && !async && !finalizingRequest && !stopped && outbox == []
      ensures response.urn == (if config.registrationConfig.Some? then config.registrationConfig.value.urn else None)
      ensures response.status.None? && response.response.None?
      ensures response.orchestrations == [] && response.properties == map[]
    {
      this.self := self;
      this.config := config;
      this.toJSON := toJSON;
      this.fullMatch := fullMatch;
      var r := new CoreResponse();
      if config.registrationConfig.Some? {
        r.SetUrn(config.registrationConfig.value.urn);
      }
      response := r;
      requestCaller := None;
      coreTransactionID := None;
      async := false;
      finalizingRequest := false;
      stopped := false;
      outbox := [];
      requestStart := 0;
    }

    method RespondToCaller(status: Option<int>)
      requires requestStart <= |outbox|
      modifies this`requestCaller, this`outbox, response`status
      ensures RespondedToCaller(old(requestCaller), status)
      ensures requestStart <= |outbox| && PathSends(outbox) == PathSends(old(outbox))
      ensures Replies(outbox[requestStart..]) == Replies(old(outbox)[requestStart..]) + (if old(requestCaller).Some? then 1 else 0)
    {
      if requestCaller.Some? {
        if response.status.None? {
          var d := response.GetDescriptiveStatus();
          response.SetStatus(Some(d));
        }
        var e := Reply(requestCaller.value, response.Data(), status);
        CountsAfterSend(outbox, requestStart, e);
        outbox := outbox + [e];
        requestCaller := None;
      }
    }

    method UpdateTransactionToCoreAPI()
      requires requestStart <= |outbox|
      modifies this`outbox
      ensures outbox == old(outbox) + [CoreUpdate(JavaString(coreTransactionID), response.Data())]
      ensures Replies(outbox[requestStart..]) == Replies(old(outbox)[requestStart..])
      ensures PathSends(outbox) == PathSends(old(outbox)) + 1
    {
      var e := CoreUpdate(JavaString(coreTransactionID), response.Data());
      CountsAfterSend(outbox, requestStart, e);
      outbox := outbox + [e];
    }

    method EndRequest()
      modifies this`stopped
      ensures stopped
    {
      stopped := true;
    }

    method RespondAndEnd(status: Option<int>)
      requires requestStart <= |outbox|
      modifies this`finalizingRequest, this`requestCaller, this`outbox, this`stopped, response`status
      ensures Finalized(old(requestCaller), status)
      ensures requestStart <= |outbox|
      ensures PathSends(outbox) == PathSends(old(outbox)) + (if !old(finalizingRequest) && async then 1 else 0)
      ensures Replies(outbox[requestStart..]) ==
        Replies(old(outbox)[requestStart..]) + (if !old(finalizingRequest) && !async && old(requestCaller).Some? then 1 else 0)
    {
      if finalizingRequest {
        return;
      }
      finalizingRequest := true;
      if async {
        UpdateTransactionToCoreAPI();
      } else {
        RespondThenEnd(status);
      }
    }

    /** The synchronous ending: the reply to the caller, and the actor stops whatever happens. */
    method RespondThenEnd(status: Option<int>)
      requires requestStart <= |outbox|
      modifies this`requestCaller, this`outbox, this`stopped, response`status
      ensures stopped && RespondedToCaller(old(requestCaller), status)
      ensures requestStart <= |outbox| && PathSends(outbox) == PathSends(old(outbox))
      ensures Replies(outbox[requestStart..]) == Replies(old(outbox)[requestStart..]) + (if old(requestCaller).Some? then 1 else 0)
    {
      RespondToCaller(status);
      EndRequest();
    }

    /** An unmatched path stages a 404 and finalizes; a matched one goes to a new actor of the route's class. */
    method RouteRequest(request: MediatorHTTPRequest)
      requires Valid() && !stopped && config.routingTable != null && requestCaller.Some?
      requires Replies(outbox[requestStart..]) == 0
      modifies this`finalizingRequest, this`requestCaller, this`outbox, this`stopped, response`status, response`response
      ensures Valid()
      ensures var handler := FirstMatch(config.routingTable.routes, request.path, fullMatch);
        && (handler.Some? ==>
              && outbox == old(outbox) + [Envelope(ToNewChild(handler.value), HttpRequestMsg(request))]
              && unchanged(this`finalizingRequest, this`requestCaller, this`stopped, response`status, response`response))
        && (handler.None? ==>
              response.response == Some(NotFoundResponse(request.path)) && Finalized(old(requestCaller), Some(404)))
    {
      var handler := config.routingTable.GetActorClassForPath(request.path, fullMatch);
      if handler.Some? {
        var e := Envelope(ToNewChild(handler.value), HttpRequestMsg(request));
        CountsAfterSend(outbox, requestStart, e);
        outbox := outbox + [e];
      } else {
        response.SetResponse(Some(NotFoundResponse(request.path)));
        RespondAndEnd(Some(404));
      }
    }

    /** A new request: remember the caller and the core transaction id, then route. */
    method HandleRequest(sender: ActorRef, request: MediatorHTTPRequest)
      requires Valid() && !stopped && config.routingTable != null
      modifies this`requestCaller, this`requestStart, this`coreTransactionID, this`outbox
      modifies this`finalizingRequest, this`stopped, response`status, response`response
      ensures Valid()
      ensures async == old(async) && unchanged(response`urn, response`orchestrations, response`properties)
      ensures request.headers.None? ==>
        && requestCaller == Some(sender)
        && outbox == old(outbox) + [Envelope(ToSupervisor, Crashed(Failure(NullPointer, None)))]
        && unchanged(this`finalizingRequest, this`stopped, response`status, response`response)
      ensures request.headers.Some? ==> coreTransactionID == Lookup(request.headers.value, TRANSACTION_ID_HEADER)
      ensures var handler := FirstMatch(config.routingTable.routes, request.path, fullMatch);
        && (request.headers.Some? && handler.Some? ==>
              && requestCaller == Some(sender)
              && outbox == old(outbox) + [Envelope(ToNewChild(handler.value), HttpRequestMsg(request))]
              && unchanged(this`finalizingRequest, this`stopped, response`status, response`response))
        && (request.headers.Some? && handler.None? ==>
              response.response == Some(NotFoundResponse(request.path)) && Finalized(Some(sender), Some(404)))
    {
      if request.headers.None? {
        requestCaller := Some(sender);
        requestStart := |outbox|;
        var e := Envelope(ToSupervisor, Crashed(Failure(NullPointer, None)));
        CountsAfterSend(outbox, requestStart, e);
        outbox := outbox + [e];
      } else {
        AcceptRequest(sender, request);
      }
    }

    /** A request with headers: the caller and transaction id are recorded, then the request is routed. */
    method AcceptRequest(sender: ActorRef, request: MediatorHTTPRequest)
      requires Valid() && !stopped && config.routingTable != null && request.headers.Some?
      modifies this`requestCaller, this`requestStart, this`coreTransactionID, this`outbox
      modifies this`finalizingRequest, this`stopped, response`status, response`response
      ensures Valid()
      ensures async == old(async) && coreTransactionID == Lookup(request.headers.value, TRANSACTION_ID_HEADER)
      ensures var handler := FirstMatch(config.routingTable.routes, request.path, fullMatch);
        && (handler.Some? ==>
              && requestCaller == Some(sender)
              && outbox == old(outbox) + [Envelope(ToNewChild(handler.value), HttpRequestMsg(request))]
              && unchanged(this`finalizingRequest, this`stopped, response`status, response`response))
        && (handler.None? ==>
              response.response == Some(NotFoundResponse(request.path)) && Finalized(Some(sender), Some(404)))
    {
      requestCaller := Some(sender);
      requestStart := |outbox|;
      coreTransactionID := Lookup(request.headers.value, TRANSACTION_ID_HEADER);
      assert outbox == old(outbox) && finalizingRequest == old(finalizingRequest) && stopped == old(stopped);
      assert response.status == old(response.status) && async == old(async);
      RouteRequest(request);
    }

    /** A FinishRequest stages its response only if none is staged yet, then finalizes with its status. */
    method ProcessFinishRequestMessage(f: FinishRequest)
      requires Valid() && !stopped
      modifies this, response
      ensures Valid()
      ensures response.response == if old(response.response).Some? then old(response.response) else Some(FinishResponse(f))
      ensures async == old(async) && coreTransactionID == old(coreTransactionID)
      ensures unchanged(response`urn, response`orchestrations, response`properties)
      ensures Finalized(old(requestCaller), f.responseStatus)
    {
      if response.response.None? {
        response.SetResponse(Some(FinishResponse(f)));
      }
      RespondAndEnd(f.responseStatus);
    }

    /** An error stages a 500 with its message only if no response is staged yet, then finalizes with 500. */
    method ExceptError(e: Failure)
      requires Valid() && !stopped
      modifies this, response
      ensures Valid()
      ensures response.response == if old(response.response).Some? then old(response.response) else Some(ErrorResponse(e))
      ensures async == old(async) && coreTransactionID == old(coreTransactionID)
      ensures unchanged(response`urn, response`orchestrations, response`properties)
      ensures Finalized(old(requestCaller), Some(500))
    {
      if response.response.None? {
        response.SetResponse(Some(ErrorResponse(e)));
      }
      RespondAndEnd(Some(500));
    }

    /**
     * Going asynchronous needs a known, non-empty core transaction id (otherwise it is an error).
     * The caller is sent a 202 "Accepted request" reply, and the staged response is then put
     * back as it was.
     */
    method EnableAsyncProcessing()
      requires Valid() && !stopped
      modifies this, response
      ensures Valid()
      ensures coreTransactionID == old(coreTransactionID)
      ensures unchanged(response`urn, response`orchestrations, response`properties)
      ensures (coreTransactionID.None? || coreTransactionID.value == "") ==>
        && async == old(async)
        && response.response == (if old(response.response).Some? then old(response.response)
                                 else Some(ErrorResponse(Failure(RuntimeFailure, Some(NO_TRANSACTION_ID)))))
        && Finalized(old(requestCaller), Some(500))
      ensures coreTransactionID.Some? && coreTransactionID.value != "" ==>
        && async
        && response.response == old(response.response)
        && requestCaller.None?
        && finalizingRequest == old(finalizingRequest) && stopped == old(stopped)
        && (old(requestCaller).None? ==> outbox == old(outbox) && response.status == old(response.status))
        && (old(requestCaller).Some? ==>
              && response.status == (if old(response.status).Some? then old(response.status)
                                     else Some(DescriptiveStatus(Some(AcceptedResponse()), response.orchestrations)))
              && outbox == old(outbox) + [Reply(old(requestCaller).value, response.Data().(response := Some(AcceptedResponse())), Some(202))])
    {
      if coreTransactionID.None? || coreTransactionID.value == "" {
        ExceptError(Failure(RuntimeFailure, Some(NO_TRANSACTION_ID)));
        return;
      }
      async := true;
      var saved := response.response;
      response.SetResponse(Some(AcceptedResponse()));
      RespondToCaller(Some(202));
      response.SetResponse(saved);
    }

    /** The core's answer to the transaction update: the request is done. */
    method ProcessResponseFromCoreAPI(r: MediatorHTTPResponse)
      modifies this`stopped
      ensures stopped
    {
      EndRequest();
    }

    /**
     * One message. A stopped actor receives nothing more. Orchestrations and properties are
     * recorded, in the order they arrive, only until finalization starts.
     */
    method OnReceive(sender: ActorRef, msg: Message)
      requires Valid() && config.routingTable != null
      modifies this, response
      ensures Valid()
      ensures old(stopped) ==> unchanged(this, response)
      ensures old(response.status).Some? ==> response.status == old(response.status)
      ensures response.urn == old(response.urn)
      ensures (msg.FinishRequestMsg? || msg.ExceptErrorMsg? || msg.AcceptedAsyncRequestMsg?) && old(response.response).Some? ==>
                response.response == old(response.response)
      ensures !(msg.FinishRequestMsg? || msg.ExceptErrorMsg? || msg.AcceptedAsyncRequestMsg? || msg.HttpRequestMsg?) ==>
                response.response == old(response.response)
      ensures (msg.FinishRequestMsg? || msg.ExceptErrorMsg?) && old(finalizingRequest) ==>
                outbox == old(outbox) && requestCaller == old(requestCaller)
      ensures response.orchestrations ==
                if msg.AddOrchestrationMsg? && !old(stopped) && !old(finalizingRequest)
                then old(response.orchestrations) + [msg.orchestration] else old(response.orchestrations)
      ensures response.properties ==
                if msg.PutPropertyMsg? && !old(stopped) && !old(finalizingRequest)
                then old(response.properties)[msg.name := msg.value] else old(response.properties)
      ensures !old(stopped) && msg.FinishRequestMsg? ==> Finalized(old(requestCaller), msg.finish.responseStatus)
      ensures !old(stopped) && msg.ExceptErrorMsg? ==> Finalized(old(requestCaller), Some(500))
    {
      if stopped {
        return;
      }
      match msg {
        case HttpRequestMsg(request) =>
          HandleRequest(sender, request);
        case AcceptedAsyncRequestMsg =>
          EnableAsyncProcessing();
        case FinishRequestMsg(f) =>
          ProcessFinishRequestMessage(f);
        case ExceptErrorMsg(_, e) =>
          ExceptError(e);
        case AddOrchestrationMsg(o) =>
          if !finalizingRequest {
            response.AddOrchestration(o);
          }
        case PutPropertyMsg(name, value) =>
          if !finalizingRequest {
            response.PutProperty(name, value);
          }
        case HttpResponseMsg(r) =>
          ProcessResponseFromCoreAPI(r);
        case _ =>
      }
    }
  }
}
