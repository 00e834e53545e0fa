/**
 * The OpenHIM core response aggregate: the primary response of a mediated transaction, the
 * orchestrations (outbound calls) the mediator made while handling it, and free-form properties.
 * The "descriptive status" the core shows for a transaction is derived from the primary status
 * and the statuses of the orchestrations.
 */
module CoreResponses {
  import opened Wrappers
  import opened HeaderMaps

  /** An outbound request recorded in an orchestration (the timestamp is not modelled). */
  datatype Request = Request(
    host: Option<string>,
    port: Option<string>,
    path: Option<string>,
    headers: Option<Headers>,
    queryString: Option<string>,
    body: Option<string>,
    httpMethod: Option<string>)

  /** A response: the primary one of the transaction or the one of an orchestration. */
  datatype Response = Response(status: Option<int>, headers: Option<Headers>, body: Option<string>)

  datatype Orchestration = Orchestration(name: Option<string>, request: Option<Request>, response: Option<Response>)

  /** A value copy of the aggregate, as it is carried in messages and serialised to the core. */
  datatype CoreResponseData = CoreResponseData(
    urn: Option<string>,
    status: Option<string>,
    response: Option<Response>,
    orchestrations: seq<Orchestration>,
    properties: map<string, string>)

  const SUCCESSFUL := "Successful"
  const COMPLETED := "Completed"
  const COMPLETED_WITH_ERRORS := "Completed with error(s)"
  const FAILED := "Failed"

  /** The status of a response, when there is a response and it has a status. */
  function StatusOf(r: Option<Response>): Option<int> {
    if r.Some? then r.value.status else None
  }

  /** An orchestration failed when its response status is a client or a server error. */
  predicate OrchestrationFailed(o: Orchestration) {
    var s := StatusOf(o.response);
    s.Some? && 400 <= s.value < 600
  }

  predicate AnyOrchestrationFailed(os: seq<Orchestration>) {
    exists i :: 0 <= i < |os| && OrchestrationFailed(os[i])
  }

  /**
   * The descriptive status: a 5xx primary status means "Failed", a 4xx one "Completed", a 2xx
   * one with at least one failed orchestration "Completed with error(s)", everything else
   * (no response, no status, 1xx, 3xx, 600 and above, or 2xx with no failed orchestration)
   * "Successful".
   */
  function DescriptiveStatus(response: Option<Response>, orchestrations: seq<Orchestration>): string {
    var s := StatusOf(response);
    if s.Some? && 500 <= s.value < 600 then FAILED
    else if s.Some? && 400 <= s.value < 500 then COMPLETED
    else if s.Some? && 200 <= s.value < 300 && AnyOrchestrationFailed(orchestrations) then COMPLETED_WITH_ERRORS
    else SUCCESSFUL
  }

  /** Each of the four descriptive statuses, with exactly the inputs that produce it. */
  lemma DescriptiveStatusCases(response: Option<Response>, orchestrations: seq<Orchestration>)
    ensures var d, s := DescriptiveStatus(response, orchestrations), StatusOf(response);
      && (d == FAILED <==> s.Some? && 500 <= s.value < 600)
      && (d == COMPLETED <==> s.Some? && 400 <= s.value < 500)
      && (d == COMPLETED_WITH_ERRORS <==>
            s.Some? && 200 <= s.value < 300 && exists i :: 0 <= i < |orchestrations| && OrchestrationFailed(orchestrations[i]))
      && (d == SUCCESSFUL <==>
            s.None? || s.value < 200 || 300 <= s.value < 400 || 600 <= s.value ||
            (200 <= s.value < 300 && forall i :: 0 <= i < |orchestrations| ==> !OrchestrationFailed(orchestrations[i])))
  {
  }

  /**
   * Recording one more orchestration can only turn "Successful" into "Completed with error(s)"
   * (when the new one failed); every other descriptive status stays as it was.
   */
  lemma {:induction false} DescriptiveStatusAfterAppend(response: Option<Response>, os: seq<Orchestration>, o: Orchestration)
    ensures var before, after := DescriptiveStatus(response, os), DescriptiveStatus(response, os + [o]);
      after == before || (before == SUCCESSFUL && after == COMPLETED_WITH_ERRORS && OrchestrationFailed(o))
  {
    var os' := os + [o];
    if AnyOrchestrationFailed(os) {
      var i :| 0 <= i < |os| && OrchestrationFailed(os[i]);
      assert os'[i] == os[i];
    }
    if AnyOrchestrationFailed(os') && !OrchestrationFailed(o) {
      var i :| 0 <= i < |os'| && OrchestrationFailed(os'[i]);
      assert i < |os| && os[i] == os'[i];
    }
    if OrchestrationFailed(o) {
      assert os'[|os|] == o;
    }
  }

  /** The response aggregate. The list and the map are updated in place, as in the engine. */
  class CoreResponse {
    var urn: Option<string>
    var status: Option<string>
    var response: Option<Response>
    var orchestrations: seq<Orchestration>
    var properties: map<string, string>

    /** A fresh aggregate: no urn, status or response, no orchestrations and no properties. */
    constructor ()
      ensures urn.None? && status.None? && response.None?
      ensures orchestrations == [] && properties == map[]
    {
      urn := None;
      status := None;
      response := None;
      orchestrations := [];
      properties := map[];
    }

    /** The aggregate as the value that is serialised and sent. */
    function Data(): CoreResponseData
      reads this
    {
      CoreResponseData(urn, status, response, orchestrations, properties)
    }

    /**
     * Scans the orchestrations for a failed one only when the primary status is 2xx, and
     * returns at the first failed one. Reads only the response and the orchestrations (the
     * explicit status field plays no part) and changes nothing.
     */
    method GetDescriptiveStatus() returns (d: string)
      ensures d == DescriptiveStatus(response, orchestrations)
    {
      if response.Some? && response.value.status.Some? {
        var s := response.value.status.value;
        if 500 <= s < 600 {
          return FAILED;
        } else if 400 <= s < 500 {
          return COMPLETED;
        } else if 200 <= s < 300 {
          var i := 0;
          while i < |orchestrations|
            invariant 0 <= i <= |orchestrations|
            invariant forall j :: 0 <= j < i ==> !OrchestrationFailed(orchestrations[j])
          {
            var o := orchestrations[i];
            if o.response.Some? && o.response.value.status.Some? {
              var os := o.response.value.status.value;
              if 400 <= os < 600 {
                return COMPLETED_WITH_ERRORS;
              }
            }
            i := i + 1;
          }
        }
      }
      return SUCCESSFUL;
    }

    method SetUrn(u: Option<string>)
      modifies this`urn
      ensures urn == u
    {
      urn := u;
    }

    method SetStatus(s: Option<string>)
      modifies this`status
      ensures status == s
    {
      status := s;
    }

    method SetResponse(r: Option<Response>)
      modifies this`response
      ensures response == r
    {
      response := r;
    }

    /** Appends at the end; the earlier orchestrations keep their places. */
    method AddOrchestration(o: Orchestration)
      modifies this`orchestrations
      ensures orchestrations == old(orchestrations) + [o]
      ensures |orchestrations| == |old(orchestrations)| + 1
      ensures forall i :: 0 <= i < |old(orchestrations)| ==> orchestrations[i] == old(orchestrations)[i]
    {
      orchestrations := orchestrations + [o];
    }

    /** Sets one property (the last write wins); all other properties are unchanged. */
    method PutProperty(name: string, value: string)
      modifies this`properties
      ensures properties == old(properties)[name := value]
      ensures name in properties && properties[name] == value
      ensures forall k :: k != name ==> (k in properties <==> k in old(properties))
      ensures forall k :: k != name && k in properties ==> properties[k] == old(properties)[k]
    {
      properties := properties[name := value];
    }
  }
}
