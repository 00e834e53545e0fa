# OpenHIM mediator engine — a Dafny model

This project models the core of the OpenHIM mediator engine (Java, Akka). The engine is the
runtime a mediator is built on:

- it accepts HTTP requests, routes each to a handler actor by path, and collects the handler's
  orchestrations and properties into one `CoreResponse`;
- it returns that response to the caller synchronously, or later through the core API;
- it connects to other systems over HTTP and MLLP;
- it talks to the OpenHIM core through an authenticating connector (registration and heartbeats).

Each actor handles one message at a time against private fields. Each actor is therefore a
Dafny class: its fields are the class's fields, and its `onReceive` branches are methods. Messages
it sends become `Envelope`s appended to the class's `outbox`. An exception that escapes
`onReceive` becomes a `Crashed` envelope addressed to the supervisor. Foreign code is passed in
as function-typed parameters: regex full match, SHA-512, JSON parsing and serialisation, executing
an HTTP request, loading TLS key stores. So are the values the environment supplies: the clock,
random UUIDs, and the order in which a hash map hands out its keys.

Files, one module each:

- `wrappers.dfy`: Option, Outcome.
- `text.dfy`: ASCII case folding, blank test, decimal rendering and parsing.
- `headers.dfy`: case-insensitive header maps.
- `core_response.dfy`: the response aggregate.
- `routing_table.dfy`: the routing table.
- `mediator_config.dfy`: configuration.
- `messages.dfy`: message carriers.
- `mediator_request_handler.dfy`, `mediator_request_actor.dfy`: the two request lifecycles.
- `http_connector.dfy`, `mllp_connector.dfy`, `core_api_connector.dfy`: the connectors.
- `heartbeat_actor.dfy`: registration and heartbeats.

Where the documentation and the code disagree, the model follows the code:

- The HTTP connector sends its orchestration record both for a plain reply and for a reply
  unpacked from OpenHIM JSON.
- The core API connector does not turn the core's answer to a registration into a
  registration result. It only drops the call from its table, so `RegisterResponseMsg` reaches
  the heartbeat actor only from elsewhere.
- In asynchronous mode the descriptive status is fixed when the 202 reply is sent. The later
  transaction update to the core carries that status.
- The HTTP connector reads a request URI and a list of query parameter pairs, which the
  request class in the same revision does not declare (it has a parameter map). The model's
  request carries both an optional URI and a list of pairs.

## Model

| member | source | states |
|---|---|---|
| CoreResponses.DescriptiveStatusCases | src/main/java/org/openhim/mediator/engine/CoreResponse.java:210-229 | Each descriptive status holds exactly for its inputs. "Failed" iff the primary status is 5xx; "Completed" iff 4xx; "Completed with error(s)" iff 2xx and some orchestration has a 4xx/5xx status; "Successful" otherwise, including no response, no status, 1xx, 3xx and 600 and above |
| CoreResponses.DescriptiveStatusAfterAppend | src/main/java/org/openhim/mediator/engine/CoreResponse.java:210-229 | Adding an orchestration can change the descriptive status only from "Successful" to "Completed with error(s)", and only when the new orchestration failed |
| CoreResponses.CoreResponse.GetDescriptiveStatus | src/main/java/org/openhim/mediator/engine/CoreResponse.java:210-229 | The status computed from the stored response and orchestrations |
| CoreResponses.CoreResponse.constructor | src/main/java/org/openhim/mediator/engine/CoreResponse.java:187-191 | A new aggregate has no urn, status or response, no orchestrations and no properties |
| CoreResponses.CoreResponse.SetUrn | src/main/java/org/openhim/mediator/engine/CoreResponse.java:198-200 | Stores the urn |
| CoreResponses.CoreResponse.SetStatus | src/main/java/org/openhim/mediator/engine/CoreResponse.java:231-233 | Stores the status |
| CoreResponses.CoreResponse.SetResponse | src/main/java/org/openhim/mediator/engine/CoreResponse.java:239-241 | Stores the response |
| CoreResponses.CoreResponse.AddOrchestration | src/main/java/org/openhim/mediator/engine/CoreResponse.java:251-253 | Appends one orchestration at the end and keeps the earlier ones in order |
| CoreResponses.CoreResponse.PutProperty | src/main/java/org/openhim/mediator/engine/CoreResponse.java:263-265 | Maps the name to the value, overwriting it, and leaves every other property as it was |
| Routing.FirstMatch | src/main/java/org/openhim/mediator/engine/RoutingTable.java:83-96 | The lookup result is absent iff no route matches. Otherwise it is the class of the first matching route in insertion order. An exact route matches only its own path; a regex route matches the paths it matches in full |
| Routing.SameRouteIgnoresKind | src/main/java/org/openhim/mediator/engine/RoutingTable.java:29-38 | Route equality is reflexive and symmetric and ignores whether a route is a regex: the path alone decides |
| Routing.FirstMatchAppend | src/main/java/org/openhim/mediator/engine/RoutingTable.java:47-59 | Adding a route never changes a lookup that already matched. It decides only lookups that matched nothing before |
| Routing.ClassFor | src/main/java/org/openhim/mediator/engine/RoutingTable.java:98-101 | The class stored under a path, present iff some route has that path (exact or regex alike) |
| Routing.Without | src/main/java/org/openhim/mediator/engine/RoutingTable.java:98-101 | Removing a path leaves no route with that path |
| Routing.WithoutKeepsOthers | src/main/java/org/openhim/mediator/engine/RoutingTable.java:98-101 | Removal keeps every other route. With distinct paths it removes exactly one entry when the path was mapped and none otherwise |
| Routing.RoutingTable.constructor | src/main/java/org/openhim/mediator/engine/RoutingTable.java:47 | A new table is empty |
| Routing.RoutingTable.Add | src/main/java/org/openhim/mediator/engine/RoutingTable.java:49-59 | Fails with RouteAlreadyMapped, changing nothing, iff a route with the same path exists, whether exact or regex. Otherwise appends the route. Paths stay distinct |
| Routing.RoutingTable.AddRoute | src/main/java/org/openhim/mediator/engine/RoutingTable.java:61-69 | As Add, for an exact route |
| Routing.RoutingTable.AddRegexRoute | src/main/java/org/openhim/mediator/engine/RoutingTable.java:71-81 | As Add, for a regex route |
| Routing.RoutingTable.GetActorClassForPath | src/main/java/org/openhim/mediator/engine/RoutingTable.java:83-96 | The loop returns the first match in insertion order, and none iff no route matches |
| Routing.RoutingTable.RemoveRoute | src/main/java/org/openhim/mediator/engine/RoutingTable.java:98-101 | Returns the class that was mapped under the path, removes that route only, and leaves the path unmapped |
| Config.SSLContextOf | src/main/java/org/openhim/mediator/engine/MediatorConfig.java:72-74 | Key store and trust stores as given, trust-all off |
| Config.SSLContextWithTrustStore | src/main/java/org/openhim/mediator/engine/MediatorConfig.java:76-78 | A one-element trust store array, trust-all off |
| Config.TrustStoresContext | src/main/java/org/openhim/mediator/engine/MediatorConfig.java:80-82 | No key store, the given trust stores, trust-all off |
| Config.TrustStoreContext | src/main/java/org/openhim/mediator/engine/MediatorConfig.java:84-86 | No key store, one trust store, trust-all off |
| Config.KeyStoreContext | src/main/java/org/openhim/mediator/engine/MediatorConfig.java:88-90 | The key store, an empty trust store array, and the given flag |
| Config.TrustAllContext | src/main/java/org/openhim/mediator/engine/MediatorConfig.java:92-94 | No key store, an empty trust store array, and the given flag |
| Config.NewRegistrationConfig | src/main/java/org/openhim/mediator/engine/RegistrationConfig.java:34-36 | A registration is a POST of JSON to /mediators carrying the given content, urn and default config |
| Config.MergeConfig | src/main/java/org/openhim/mediator/engine/MediatorConfig.java:330-338 | The merged map has the keys of both maps. Updated keys take the new values; all other keys keep theirs |
| Config.PutEach | src/main/java/org/openhim/mediator/engine/MediatorConfig.java:333-337 | The key-by-key put loop yields exactly the merge, whatever order the keys come in |
| Config.MediatorConfig.constructor | src/main/java/org/openhim/mediator/engine/MediatorConfig.java:116-146 | Defaults: core API port 8080 over https, no core host or credentials, heartbeats off with a period of 10 seconds, no registration or TLS context, empty dynamic config |
| Config.MediatorConfig.UserPathFor | src/main/java/org/openhim/mediator/engine/MediatorConfig.java:168-170 | The path is "/user/", then the mediator name (rendered "null" when unset), then "/", then the actor name |
| Config.MediatorConfig.SetRegistrationConfig | src/main/java/org/openhim/mediator/engine/MediatorConfig.java:330-338 | Stores the registration and merges its default config into the dynamic config. A missing default config leaves the dynamic config unchanged |
| Messages.RequestWithCorrelation | src/main/java/org/openhim/mediator/engine/messages/MediatorHTTPRequest.java:26-38 | Every field is as given |
| Messages.RequestWithoutCorrelation | src/main/java/org/openhim/mediator/engine/messages/MediatorHTTPRequest.java:40-46 | The full constructor with no correlation id |
| Messages.BasicRequest | src/main/java/org/openhim/mediator/engine/messages/MediatorHTTPRequest.java:48-54 | No body, empty headers and parameters, no correlation id |
| Messages.CopyOfHeaders | src/main/java/org/openhim/mediator/engine/messages/MediatorHTTPRequest.java:96-103 | A missing map stays missing. The copy has case-distinct names, and a lookup in it finds the last value the source gives that name |
| Messages.CopyOf | src/main/java/org/openhim/mediator/engine/messages/MediatorHTTPRequest.java:59-74 | The copy differs from the original at most in its headers, which are copied into a case-insensitive map |
| Messages.CopyWithRespondTo | src/main/java/org/openhim/mediator/engine/messages/MediatorHTTPRequest.java:79-94 | The copy with the respond-to and correlation id replaced |
| Messages.CopyOfDistinctHeaders | src/main/java/org/openhim/mediator/engine/messages/MediatorHTTPRequest.java:96-103 | Copying headers whose names are already distinct ignoring case changes nothing |
| Messages.CopiesKeepFields | src/main/java/org/openhim/mediator/engine/messages/MediatorHTTPRequest.java:59-94 | For such headers, the plain copy equals the original, and the re-targeted copy equals the original with two fields replaced |
| Messages.CopyLooksUpHeadersAlike | src/main/java/org/openhim/mediator/engine/messages/MediatorHTTPRequest.java:96-103 | Every header looks up the same in the copy as in the original |
| Messages.ResponseWithoutRequest | src/main/java/org/openhim/mediator/engine/messages/MediatorHTTPResponse.java:23-25 | A response with no original request, other fields as given |
| Messages.ToFinishRequest | src/main/java/org/openhim/mediator/engine/messages/MediatorHTTPResponse.java:43-53 | Status and body carried over. The MIME type is absent without a body; otherwise it is the Content-Type header, or text/plain when there is none |
| Messages.HeartbeatSucceeded | src/main/java/org/openhim/mediator/engine/messages/SendHeartbeatToCoreResponse.java:34-36 | The two-argument form is a success. It reports a config update iff the config is present |
| Messages.HeartbeatSucceededWithoutConfig | src/main/java/org/openhim/mediator/engine/messages/SendHeartbeatToCoreResponse.java:38-40 | The one-argument form is a success with no config update |
| HeaderMaps.Lookup | src/main/java/org/openhim/mediator/engine/messages/MediatorHTTPRequest.java:96-103 | A lookup succeeds iff some name equals the key ignoring case, and yields the value of the first such entry |
| HeaderMaps.Put | src/main/java/org/openhim/mediator/engine/connectors/HTTPConnector.java:169-172 | A put grows the map by one entry, or keeps its size exactly when a name equal to the key ignoring case is present |
| HeaderMaps.PutAll | src/main/java/org/openhim/mediator/engine/messages/MediatorHTTPRequest.java:96-103 | Copying a list in adds at most one entry per copied header and removes none |
| HeaderMaps.LookupPut | src/main/java/org/openhim/mediator/engine/messages/MediatorHTTPRequest.java:100-101 | After a put, the key (in any case) reads the new value and every other key reads as before |
| HeaderMaps.PutKeepsKeysDistinct | src/main/java/org/openhim/mediator/engine/messages/MediatorHTTPRequest.java:100-101 | A put keeps names distinct ignoring case |
| HeaderMaps.LookupPutAll | src/main/java/org/openhim/mediator/engine/connectors/HTTPConnector.java:62-70 | After copying a header list in, a key reads the last value the list gives it, or its old value when the list does not name it |
| HeaderMaps.PutAllKeepsKeysDistinct | src/main/java/org/openhim/mediator/engine/connectors/HTTPConnector.java:62-70 | Copying a list in keeps names distinct ignoring case |
| HeaderMaps.LookupLastOfDistinctKeys | src/main/java/org/openhim/mediator/engine/messages/MediatorHTTPRequest.java:96-103 | With distinct names, the first and the last value for a key coincide |
| RequestHandler.MediatorRequestHandler.constructor | src/main/java/org/openhim/mediator/engine/MediatorRequestHandler.java:51-62 | A new handler has no caller, no transaction id, and is neither async, finalizing nor stopped. The response's urn is the registration's urn, or absent when there is no registration |
| RequestHandler.MediatorRequestHandler.RespondToCaller | src/main/java/org/openhim/mediator/engine/MediatorRequestHandler.java:197-212 | With a caller: the descriptive status is filled in if unset, then exactly one JSON reply with the status and the OpenHIM MIME type is sent, and the caller is forgotten. With no caller nothing is sent, so at most one reply per request |
| RequestHandler.MediatorRequestHandler.UpdateTransactionToCoreAPI | src/main/java/org/openhim/mediator/engine/MediatorRequestHandler.java:147-168 | Sends one PUT of the serialised aggregate to /transactions/{id}, through the core API connector's path |
| RequestHandler.MediatorRequestHandler.EndRequest | src/main/java/org/openhim/mediator/engine/MediatorRequestHandler.java:218-220 | The handler stops |
| RequestHandler.MediatorRequestHandler.RespondAndEnd | src/main/java/org/openhim/mediator/engine/MediatorRequestHandler.java:179-195 | Runs once: the first call marks finalizing, then either sends the transaction update (async) or replies to the caller and stops. Later calls do nothing |
| RequestHandler.MediatorRequestHandler.RespondThenEnd | src/main/java/org/openhim/mediator/engine/MediatorRequestHandler.java:186-194 | Replies to the caller (when there is one) with the given status and then stops, whatever the reply did; transaction updates already sent are kept and exactly one reply is added per recorded caller |
| RequestHandler.MediatorRequestHandler.RouteRequest | src/main/java/org/openhim/mediator/engine/MediatorRequestHandler.java:66-95 | A matched path forwards the request to a new child of the routed class, touching no other state. An unmatched path stages a 404 "{path} not found" text response and finalizes with status 404 |
| RequestHandler.MediatorRequestHandler.HandleRequest | src/main/java/org/openhim/mediator/engine/MediatorRequestHandler.java:224-227 | Records the caller and the X-OpenHIM-TransactionID header, then routes. A request with no header map fails with a null dereference after the caller is recorded |
| RequestHandler.MediatorRequestHandler.AcceptRequest | src/main/java/org/openhim/mediator/engine/MediatorRequestHandler.java:224-227 | For a request with headers: records the caller and the transaction ID header value, then routes; an unmatched path ends in a 404 reply to that caller |
| RequestHandler.MediatorRequestHandler.ProcessFinishRequestMessage | src/main/java/org/openhim/mediator/engine/MediatorRequestHandler.java:121-132 | Stages the finish response only if none is staged (the first writer wins), then finalizes with the finish status |
| RequestHandler.MediatorRequestHandler.ExceptError | src/main/java/org/openhim/mediator/engine/MediatorRequestHandler.java:134-145 | Stages a 500 text response with the error message only if none is staged, then finalizes with 500 |
| RequestHandler.MediatorRequestHandler.EnableAsyncProcessing | src/main/java/org/openhim/mediator/engine/MediatorRequestHandler.java:97-119 | With no (or an empty) transaction id: fails as ExceptError with the "no transaction id" message. Otherwise switches to async, replies 202 "Accepted request" with the status computed for that reply (the staged response is not touched), and forgets the caller |
| RequestHandler.MediatorRequestHandler.ProcessResponseFromCoreAPI | src/main/java/org/openhim/mediator/engine/MediatorRequestHandler.java:170-177 | The core's answer to the transaction update ends the handler |
| RequestHandler.MediatorRequestHandler.OnReceive | src/main/java/org/openhim/mediator/engine/MediatorRequestHandler.java:222-247 | Keeps the handler's invariant: at most one reply per request and at most one transaction update. A stopped handler changes nothing. Once set, the descriptive status never changes. On a running handler, a finish message finalizes with its own status and an error finalizes with 500, each as Finalized states for the caller known before; after finalizing they send nothing. Orchestrations and properties are added only before finalizing |
| RequestActor.NanoStatus | src/main/java/org/openhim/mediator/engine/MediatorRequestActor.java:144-160 | A missing status is 200; any other status is passed through |
| RequestActor.SessionRequest | src/main/java/org/openhim/mediator/engine/MediatorRequestActor.java:71-86 | The routed request: the session's method, URI (as path and orchestration name), headers and parameters, the query string as body, and the actor as both handler and respond-to |
| RequestActor.MediatorRequestActor.constructor | src/main/java/org/openhim/mediator/engine/MediatorRequestActor.java:48-57 | No caller, nothing sent, an empty response carrying the registration's urn |
| RequestActor.MediatorRequestActor.RespondToCaller | src/main/java/org/openhim/mediator/engine/MediatorRequestActor.java:129-142 | With a caller: fills in the descriptive status if unset, sends one NanoHTTPD reply (a missing status becoming 200), and forgets the caller. Otherwise nothing is sent |
| RequestActor.MediatorRequestActor.ProcessFinishRequestMessage | src/main/java/org/openhim/mediator/engine/MediatorRequestActor.java:104-115 | First writer wins on the staged response, then the caller is answered with the finish status |
| RequestActor.MediatorRequestActor.ExceptError | src/main/java/org/openhim/mediator/engine/MediatorRequestActor.java:117-127 | First writer wins on a 500 error response, then the caller is answered with 500 |
| RequestActor.MediatorRequestActor.RouteRequest | src/main/java/org/openhim/mediator/engine/MediatorRequestActor.java:60-102 | Unmatched: a 404 is staged and answered. Matched: the request is forwarded. For a POST/PUT whose body fails to load, the caller first gets a 500, and the request is still forwarded |
| RequestActor.MediatorRequestActor.OnReceive | src/main/java/org/openhim/mediator/engine/MediatorRequestActor.java:162-178 | At most one reply per session. A set status never changes. A finish message replies to the caller known before with its own status and an error replies with 500, as RespondedToCaller states; with no caller they send nothing. Orchestrations and properties are always accepted, since this actor has no finalizing guard |
| MLLP.Unwrap | src/main/java/org/openhim/mediator/engine/connectors/MLLPConnector.java:106-110 | The payload is the frame minus its start byte and two end bytes |
| MLLP.WrapMLLP | src/main/java/org/openhim/mediator/engine/connectors/MLLPConnector.java:53-55 | Wrapping adds three bytes, yields a well-formed frame, and unwrapping gives the payload back |
| MLLP.WrappedIffFramed | src/main/java/org/openhim/mediator/engine/connectors/MLLPConnector.java:57-62 | A string passes the frame check iff it is the wrapping of some payload, namely of its own unwrapping |
| MLLP.UnwrapReply | src/main/java/org/openhim/mediator/engine/connectors/MLLPConnector.java:106-110 | A framed reply is unwrapped to its payload; any other reply is kept as is |
| MLLP.UnwrapReplyOfWrap | src/main/java/org/openhim/mediator/engine/connectors/MLLPConnector.java:106-110 | Unwrapping a wrapped reply gives the payload back |
| MLLP.ReadAsWritten | src/main/java/org/openhim/mediator/engine/connectors/MLLPConnector.java:80-93 | The bytes read are a prefix of the stream, and not empty when the stream is not |
| MLLP.ReadMLLPStream | src/main/java/org/openhim/mediator/engine/connectors/MLLPConnector.java:80-93 | The read loop returns exactly ReadAsWritten of the stream: it stops after any CR, or after the byte following FS |
| MLLP.ReadAsWrittenOfPlainPayload | src/main/java/org/openhim/mediator/engine/connectors/MLLPConnector.java:80-93 | The loop as written reads exactly one frame when the payload has no CR and no FS |
| MLLP.SegmentedReplyTruncated | src/main/java/org/openhim/mediator/engine/connectors/MLLPConnector.java:90 | Counterexample: the frame of the payload "a", CR, "b" is read as VT, "a", CR, so the reply does not round-trip |
| MLLP.ReadFrame | src/main/java/org/openhim/mediator/engine/connectors/MLLPConnector.java:80-93 | The corrected reader also returns a non-empty prefix of the stream |
| MLLP.ReadFrameStream | src/main/java/org/openhim/mediator/engine/connectors/MLLPConnector.java:80-93 | The corrected loop returns exactly ReadFrame: it stops only at FS followed by CR, or at the end of the stream |
| MLLP.ReadFrameOfPayload | src/main/java/org/openhim/mediator/engine/connectors/MLLPConnector.java:80-93 | The corrected reader stops exactly at the first FS CR, so it reads one frame whatever else follows |
| MLLP.FramedReplyRoundTrip | src/main/java/org/openhim/mediator/engine/connectors/MLLPConnector.java:80-110 | Any payload without an FS CR pair, segment separators included, round-trips through wrap, read and unwrap |
| MLLP.PlainPayloadReadAlike | src/main/java/org/openhim/mediator/engine/connectors/MLLPConnector.java:80-93 | On payloads without CR or FS, the as-written and corrected readers agree and read the whole frame |
| MLLP.BuildOrchestration | src/main/java/org/openhim/mediator/engine/connectors/MLLPConnector.java:65-78 | The orchestration keeps the request's name and records the request and reply bodies in MLLP frames that unwrap back to them |
| MLLP.SendRequest | src/main/java/org/openhim/mediator/engine/connectors/MLLPConnector.java:95-139 | A failure to connect or exchange is reported as ExceptError to the request handler. A reply, read with the corrected reader ReadFrameStream (up to FS CR, see Findings), sends the unwrapped body to respond-to, then the orchestration to the handler |
| MLLP.SendRequestReportsPayload | src/main/java/org/openhim/mediator/engine/connectors/MLLPConnector.java:95-139 | The connector reports exactly the payload the other side framed, both in the response and in the orchestration |
| HTTP.BuildURI | src/main/java/org/openhim/mediator/engine/connectors/HTTPConnector.java:72-92 | A given URI wins over the scheme/host/port/path parts. Every parameter is added in order. With neither a URI nor a port the build fails (unboxing a null port) |
| HTTP.BuildApacheHttpRequest | src/main/java/org/openhim/mediator/engine/connectors/HTTPConnector.java:94-120 | Only GET, POST, PUT and DELETE are accepted, anything else being rejected with "{method} requests not supported". POST and PUT carry the body as entity, and a missing body fails. Headers are copied |
| HTTP.HandleReceived | src/main/java/org/openhim/mediator/engine/connectors/HTTPConnector.java:123-199 | A reply without the OpenHIM content type is passed on with its own body, status and headers. An OpenHIM reply is unpacked: missing body, malformed or null JSON, or no response object are failures. Otherwise the nested response, status and headers override the outer ones, and each nested orchestration and property is forwarded to the request handler |
| HTTP.ContentType | src/main/java/org/openhim/mediator/engine/connectors/HTTPConnector.java:177-189 | Absent iff no header is named Content-Type ignoring case; otherwise the value of the first such header |
| HTTP.IsOpenHIMContent | src/main/java/org/openhim/mediator/engine/connectors/HTTPConnector.java:191-198 | A reply is unpacked iff its first Content-Type header contains the OpenHIM mime type |
| HTTP.NestedHeadersOverride | src/main/java/org/openhim/mediator/engine/connectors/HTTPConnector.java:135-144 | In an unpacked reply a header has its nested value if the nested headers name it, its outer value otherwise |
| HTTP.ForwardedPropertiesArrive | src/main/java/org/openhim/mediator/engine/connectors/HTTPConnector.java:152-156 | Whatever order the hash map yields its keys in, the handler ends up with exactly its properties plus the nested ones |
| HTTP.ApplyPropertyMessages | src/main/java/org/openhim/mediator/engine/connectors/HTTPConnector.java:152-156 | Forwarding in any key order applies exactly the listed keys |
| HTTP.ForwardedAreNotResponses | src/main/java/org/openhim/mediator/engine/connectors/HTTPConnector.java:123-159 | Nothing forwarded while unpacking is a response message |
| HTTP.PropertyMessagesArePuts | src/main/java/org/openhim/mediator/engine/connectors/HTTPConnector.java:152-156 | Every forwarded property is a put-property message |
| HTTP.HTTPOrchestration | src/main/java/org/openhim/mediator/engine/connectors/HTTPConnector.java:201-223 | The record carries the request's name, method, body and headers. Host, port (as decimal text that parses back to the port) and path are recorded only without a given URI. The response's status, headers and body are recorded |
| HTTP.Emitted | src/main/java/org/openhim/mediator/engine/connectors/HTTPConnector.java:243-280 | An unsupported method yields only an ExceptError to the handler; a request that cannot be built (neither a URI nor a port, or no body for POST/PUT) only the escaping failure; a failed exchange only an ExceptError to the handler. A completed exchange sends the forwarded orchestrations and properties, then, if the reply unpacks, the synthetic HTTP orchestration to the handler followed by the response to respond-to, and otherwise an ExceptError to the handler. At most one response is sent, and it is last |
| HTTP.EmittedRespondsIffAnswered | src/main/java/org/openhim/mediator/engine/connectors/HTTPConnector.java:243-280 | A response is sent iff the request is built, the exchange completes and the reply unpacks; it is then the last message, to respond-to, right after the orchestration record built from that very response. Otherwise the last message is an error |
| HTTP.ForwardOrchestrations | src/main/java/org/openhim/mediator/engine/connectors/HTTPConnector.java:146-150 | The loop tells the request handler every nested orchestration, in list order |
| HTTP.ForwardProperties | src/main/java/org/openhim/mediator/engine/connectors/HTTPConnector.java:152-156 | The loop visits every nested property key exactly once and tells the handler each key with its value, in the order visited |
| HTTP.CollectHeaders | src/main/java/org/openhim/mediator/engine/connectors/HTTPConnector.java:62-70 | The copy loop yields exactly the put-all of the list |
| HTTP.BuildResponse | src/main/java/org/openhim/mediator/engine/connectors/HTTPConnector.java:191-199 | The unpacking loops yield exactly HandleReceived, for the order in which they visited every nested property key once |
| HTTP.HTTPConnector.constructor | src/main/java/org/openhim/mediator/engine/connectors/HTTPConnector.java:58-59 | No TLS context, trust-all off |
| HTTP.HTTPConnector.ClientFor | src/main/java/org/openhim/mediator/engine/connectors/HTTPConnector.java:226-241 | The custom TLS client, with the context and the trust-all setting, is used iff a context is set and the scheme is https in any case |
| HTTP.HTTPConnector.SendRequest | src/main/java/org/openhim/mediator/engine/connectors/HTTPConnector.java:243-280 | Sends exactly Emitted for the request, on the client ClientFor chooses: so a completed exchange ends with the orchestration record to the handler and the response to respond-to |
| HTTP.HTTPConnector.SetupSSLContext | src/main/java/org/openhim/mediator/engine/connectors/HTTPConnector.java:306-338 | Trust-all is taken from the context even when loading fails. A failed load leaves no context, so every request uses the default client. The outcome is always answered |
| HTTP.HTTPConnector.OnReceive | src/main/java/org/openhim/mediator/engine/connectors/HTTPConnector.java:340-349 | A request is sent as Emitted says, without touching the TLS state; a TLS setup sets it and replies with the outcome to the requester; anything else changes nothing |
| CoreAPI.Radix16 | src/main/java/org/openhim/mediator/engine/connectors/CoreAPIConnector.java:146-148 | Base-16 rendering in lower-case hex digits |
| CoreAPI.ByteHex | src/main/java/org/openhim/mediator/engine/connectors/CoreAPIConnector.java:146-148 | Each byte becomes exactly two lower-case hex digits, high nibble first, that read back as the byte |
| CoreAPI.HexEncode | src/main/java/org/openhim/mediator/engine/connectors/CoreAPIConnector.java:137-151 | The hash text is two lower-case hex digits per digest byte |
| CoreAPI.HexRoundTrip | src/main/java/org/openhim/mediator/engine/connectors/CoreAPIConnector.java:137-151 | Decoding the hash text gives the digest back |
| CoreAPI.AuthToken | src/main/java/org/openhim/mediator/engine/connectors/CoreAPIConnector.java:175-176 | The token is lower-case hex that decodes to the digest of the hex password hash followed by the salt and the timestamp |
| CoreAPI.HeartbeatBody | src/main/java/org/openhim/mediator/engine/connectors/CoreAPIConnector.java:97-103 | The body opens with the uptime field and closes with a brace; when config is forced the config flag comes right before the brace |
| CoreAPI.HexEncodeInjective | src/main/java/org/openhim/mediator/engine/connectors/CoreAPIConnector.java:137-151 | Different digests never give the same hash text |
| CoreAPI.Hash | src/main/java/org/openhim/mediator/engine/connectors/CoreAPIConnector.java:137-151 | The loop yields the hex encoding of the SHA-512 digest |
| CoreAPI.HeartbeatBodyRoundTrip | src/main/java/org/openhim/mediator/engine/connectors/CoreAPIConnector.java:93-118 | The heartbeat body carries exactly the uptime, and the config request exactly when it is forced |
| CoreAPI.ClassifyHeartbeat | src/main/java/org/openhim/mediator/engine/connectors/CoreAPIConnector.java:215-236 | Success iff status 200 with a blank or JSON body. A config update iff the JSON gives a config, which is then passed on. The raw body is always kept. A 200 with no body is a null dereference |
| CoreAPI.AuthHeadersAdded | src/main/java/org/openhim/mediator/engine/connectors/CoreAPIConnector.java:177-182 | The authenticated copy gains the auth-username, auth-ts, auth-salt and auth-token headers and keeps every other header |
| CoreAPI.AuthHeaderNamesDistinct | src/main/java/org/openhim/mediator/engine/connectors/CoreAPIConnector.java:177-182 | The four auth header names differ ignoring case, so none overwrites another |
| CoreAPI.CoreAPIConnector.constructor | src/main/java/org/openhim/mediator/engine/connectors/CoreAPIConnector.java:61 | No active requests and nothing sent |
| CoreAPI.CoreAPIConnector.RegistrationRequest | src/main/java/org/openhim/mediator/engine/connectors/CoreAPIConnector.java:73-91 | The registration call carries the registration's method, path, content and content type to the core's scheme, host and port, marked register-mediator |
| CoreAPI.CoreAPIConnector.HeartbeatRequest | src/main/java/org/openhim/mediator/engine/connectors/CoreAPIConnector.java:93-118 | A JSON POST to /mediators/{urn}/heartbeat whose body parses back to the uptime and the force flag |
| CoreAPI.CoreAPIConnector.AuthMessage | src/main/java/org/openhim/mediator/engine/connectors/CoreAPIConnector.java:120-135 | A GET of /authenticate/{username} tagged with the call's correlation id, answered to the connector |
| CoreAPI.CoreAPIConnector.AuthenticateMessage | src/main/java/org/openhim/mediator/engine/connectors/CoreAPIConnector.java:190-199 | Files the call under the fresh id (the table grows by one) and sends the authentication request to the HTTP connector |
| CoreAPI.CoreAPIConnector.HandleAuthenticationResponse | src/main/java/org/openhim/mediator/engine/connectors/CoreAPIConnector.java:153-188 | An unknown call fails. Register and heartbeat calls stay filed and are re-targeted to the connector; other calls leave the table. A non-200 sends CoreGetAuthenticationDetailsError to the call's handler and forwards nothing. Otherwise the call goes on with the four auth headers and the token hash(hash(salt + password) + salt + ts) |
| CoreAPI.CoreAPIConnector.AuthReply | src/main/java/org/openhim/mediator/engine/connectors/CoreAPIConnector.java:166-187 | Computes, hashing included, exactly the messages AuthReplyMessages describes for a filed call and an authentication reply: the error to the handler, a null-dereference failure, or the call with the four auth headers forwarded to the HTTP connector |
| CoreAPI.OrdinaryCallRoundTrip | src/main/java/org/openhim/mediator/engine/connectors/CoreAPIConnector.java:153-188 | For an ordinary call and a 200 reply with salt and timestamp, exactly the authenticated copy is sent, keeping respond-to and correlation id |
| CoreAPI.CoreAPIConnector.AuthReplyMessages | src/main/java/org/openhim/mediator/engine/connectors/CoreAPIConnector.java:153-188 | An authentication reply sends exactly one message. The call goes on to the HTTP connector iff the reply is a 200 whose body parses and the call has headers; registration and heartbeat calls then answer to the connector under their id, other calls keep their respond-to and correlation id |
| CoreAPI.RejectedAuthReply | src/main/java/org/openhim/mediator/engine/connectors/CoreAPIConnector.java:166-170 | A reply with a status other than 200 forwards nothing: the call's handler gets a CoreGetAuthenticationDetailsError quoting the status and the body |
| CoreAPI.CoreAPIConnector.HandleHeartbeatResponse | src/main/java/org/openhim/mediator/engine/connectors/CoreAPIConnector.java:215-236 | The classified heartbeat result goes to the call's respond-to and the call leaves the table |
| CoreAPI.CoreAPIConnector.HandleRegisterMediatorResponse | src/main/java/org/openhim/mediator/engine/connectors/CoreAPIConnector.java:201-206 | A registration answer only removes its call from the table |
| CoreAPI.CoreAPIConnector.HandleHTTPConnectorResponse | src/main/java/org/openhim/mediator/engine/connectors/CoreAPIConnector.java:238-251 | Dispatches on the answered call's purpose: a registration answer closes its call and sends nothing; an authentication reply is answered as AuthReplyMessages says for the filed call; a heartbeat answer is classified, closes its call and goes to the call's respond-to; any other answer is passed on unchanged to its respond-to. No original request is a null dereference |
| CoreAPI.CoreAPIConnector.OnReceive | src/main/java/org/openhim/mediator/engine/connectors/CoreAPIConnector.java:253-274 | Registration, heartbeat and plain requests each file exactly one entry under the fresh id and send GET /authenticate for it, or fail when there is no registration. An answer from the HTTP connector is handled as HandleHTTPConnectorResponse states. Unknown messages change nothing |
| Heartbeat.JavaDiv | src/main/java/org/openhim/mediator/engine/HeartbeatActor.java:127 | Long division truncates toward zero |
| Heartbeat.FlagsAfterRun | src/main/java/org/openhim/mediator/engine/HeartbeatActor.java:132-157 | After a run of heartbeats: the error flag says whether the last one failed; the log is re-armed iff it succeeded; the config stays forced iff none has succeeded |
| Heartbeat.OneLogPerOutage | src/main/java/org/openhim/mediator/engine/HeartbeatActor.java:150-155 | A run of failures logs one error if the log was armed, none otherwise |
| Heartbeat.RecoveryRearmsLog | src/main/java/org/openhim/mediator/engine/HeartbeatActor.java:131-155 | A failure right after a success is always logged |
| Heartbeat.HeartbeatActor.constructor | src/main/java/org/openhim/mediator/engine/HeartbeatActor.java:48-59 | The log is armed, no error, no task, the config is not forced |
| Heartbeat.HeartbeatActor.Fired | src/main/java/org/openhim/mediator/engine/HeartbeatActor.java:98-123 | A fired retry sends a registration to the connector; a fired heartbeat timer triggers this actor |
| Heartbeat.HeartbeatActor.StartHeartbeatTask | src/main/java/org/openhim/mediator/engine/HeartbeatActor.java:112-124 | Arms the log, forces the config, and schedules the heartbeat timer at the configured period |
| Heartbeat.HeartbeatActor.Start | src/main/java/org/openhim/mediator/engine/HeartbeatActor.java:62-79 | Starts the clock and arms the log. Registration is sent iff it is asked for and a registration config exists; otherwise heartbeats start iff enabled, and otherwise the task, the force flag and the outbox are kept. The error flag, the log and the dynamic config are untouched |
| Heartbeat.HeartbeatActor.HandleRegisterResponse | src/main/java/org/openhim/mediator/engine/HeartbeatActor.java:81-110 | Success starts heartbeats iff enabled and logs nothing. Each failure schedules exactly one retry after one period and logs two lines (with the status when there is one) only while the log is armed, then disarms it. The clock, the error flag and the dynamic config are untouched |
| Heartbeat.HeartbeatActor.Trigger | src/main/java/org/openhim/mediator/engine/HeartbeatActor.java:126-130 | Sends the heartbeat with the whole seconds since start and the force flag, and changes nothing else |
| Heartbeat.HeartbeatActor.HandleHeartbeatResponse | src/main/java/org/openhim/mediator/engine/HeartbeatActor.java:132-157 | The flags move as AfterHeartbeat says and a failure is logged only while armed. A successful config update overwrites the returned keys in the dynamic config and keeps all others. The task, the clock and the outbox are untouched |
| Heartbeat.HeartbeatActor.Stop | src/main/java/org/openhim/mediator/engine/HeartbeatActor.java:159-163 | Cancels the current task if there is one, and changes nothing else |
| Heartbeat.HeartbeatActor.OnReceive | src/main/java/org/openhim/mediator/engine/HeartbeatActor.java:166-187 | Each message has its handler's whole effect, on every field: a start as Start states, a registration answer as HandleRegisterResponse, a tick as Trigger, a heartbeat answer as HandleHeartbeatResponse, a stop as Stop. Unknown messages change nothing |

## Findings

| source | as written | input that shows it | evidently intended | confidence | as-written member | corrected member |
|---|---|---|---|---|---|---|
| src/main/java/org/openhim/mediator/engine/connectors/MLLPConnector.java:90 | The read loop stops after any CR byte, and also after any byte that follows an FS | A reply framing the payload "a", CR, "b" (MLLP segments are CR-separated) is read as VT, "a", CR. It is then passed on unwrapped and cut short. The connector's own test (src/test/java/org/openhim/mediator/engine/connectors/MLLPConnectorTest.java:62,125) frames a payload with a CR LF inside and expects it back whole | Read up to the FS CR end-of-frame pair | not executed | MLLP.SegmentedReplyTruncated | MLLP.FramedReplyRoundTrip |

`MLLP.SendRequest` reads with the corrected loop (`MLLP.ReadFrameStream`). The loop as written is
kept as `MLLP.ReadMLLPStream`.

## Left out

- Akka itself is not modelled: actor creation, supervision and restart after a `Crashed` envelope, dead letters, `ask` timeouts and message ordering across actors. Each class handles one message per method call.
- The scheduler is modelled as messages: scheduling and cancelling are `ScheduleMsg`/`CancelMsg` to the scheduler. Time passing and a task firing are not modelled; `Fired` says what a task sends.
- Logging is left out, except the heartbeat actor's error lines, which its flags exist to throttle.
- Clocks, random UUIDs and hash-map key order are parameters: `now`, `freshId`, and the `order` out-parameter.
- Regex matching, SHA-512, JSON parsing and serialisation (Gson, json-simple), Apache HttpClient execution, socket I/O and key store loading are parameters. Their results are whatever the caller supplies.
- Java nulls are modelled as `Option` where the code checks them or where they reach a string ("null"). The scheme, method and path of a request are never null here.
- Case-insensitive header maps use ASCII case folding. The header maps' sorted (TreeMap) iteration order is not modelled: maps are lists in insertion order, and lookups are what the model states.
- Strings are sequences of characters. Byte/charset conversion of bodies and MLLP streams is not modelled, and the MLLP control bytes are characters 0x0B, 0x1C and 0x0D.
- URI syntax errors and IOExceptions while building or reading are left out, apart from connect and exchange failures on the MLLP socket.
- Long and int overflow (uptime milliseconds, status codes) is not modelled: integers are unbounded.
- The UDP fire-and-forget connector, the root actor, the server bootstrap, reflection-based actor creation and the testing helpers are not part of this model.
- CoreAPI.CoreAPIConnector.AuthReplyMessages: requires a core API username when the reply is a 200 with readable details for a call with headers, the one case that reads it, because a null username becomes a null auth-username header value, which the model's string headers cannot carry.
- CoreAPI.CoreAPIConnector.AuthReply: requires a username in that same case, for the same reason.
- CoreAPI.CoreAPIConnector.HandleAuthenticationResponse: requires a username when the filed call's reply reaches that case, for the same reason.
- CoreAPI.CoreAPIConnector.HandleHTTPConnectorResponse: requires a username only for an authentication reply that reaches that case, for the same reason; registration, heartbeat and other answers need none.
- CoreAPI.CoreAPIConnector.OnReceive: requires a username only for such an authentication reply, for the same reason, and requires the fresh id to be unused (a UUID).
- CoreAPI.OrdinaryCallRoundTrip: requires a username, because the 200 reply it describes is exactly the case that reads it.
- RequestActor.MediatorRequestActor.constructor: requires a registration config, which the source dereferences unguarded.
- A salt or timestamp missing from the core's authentication reply is not modelled. The reply either parses into both strings or fails to parse.
