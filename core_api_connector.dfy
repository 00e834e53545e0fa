/**
 * The core API connector: every call to the OpenHIM core is authenticated first. The connector
 * files the call under a fresh correlation id, asks the core for the user's salt and timestamp,
 * and on the answer sends the call on with the auth-username, auth-ts, auth-salt and auth-token
 * headers. Registration and heartbeat calls are answered back to the connector itself, which
 * then closes them; other calls are answered directly to their callers.
 */
module CoreAPI {
  import opened Wrappers
  import opened Text
  import opened HeaderMaps
  import opened Config
  import opened Messages

  const REGISTER_MEDIATOR := "register-mediator"
  const HEARTBEAT := "heartbeat"
  const GET_AUTH_DETAILS := "get-auth-details"
  const HTTP_CONNECTOR := "http-connector"

  // Hexadecimal rendering of the digest

  predicate IsLowerHex(c: char) {
    '0' <= c <= '9' || 'a' <= c <= 'f'
  }

  function HexDigit(d: nat): (c: char)
    requires d < 16
    ensures IsLowerHex(c) && HexValue(c) == d
  {
    if d < 10 then ('0' as int + d) as char else ('a' as int + d - 10) as char
  }

  function HexValue(c: char): (d: nat)
    requires IsLowerHex(c)
    ensures d < 16
  {
    if c <= '9' then c as int - '0' as int else c as int - 'a' as int + 10
  }

  /** `Integer.toString(n, 16)` for n >= 0: lower-case hex digits, most significant first. */
  function Radix16(n: nat): (s: string)
    ensures |s| > 0
    ensures forall i :: 0 <= i < |s| ==> IsLowerHex(s[i])
  {
    if n < 16 then [HexDigit(n)] else Radix16(n / 16) + [HexDigit(n % 16)]
  }

  /** Adding 0x100 to a byte makes its base-16 rendering three digits long, the first being 1. */
  lemma OffsetByteRadix(b: bv8)
    ensures Radix16(b as int + 0x100) == [HexDigit(1), HexDigit(b as int / 16), HexDigit(b as int % 16)]
  {
    OffsetRadix(b as int);
  }

  lemma OffsetRadix(n: int)
    requires 0 <= n < 0x100
    ensures Radix16(n + 0x100) == [HexDigit(1), HexDigit(n / 16), HexDigit(n % 16)]
  {
    var hi := n / 16;
    assert (n + 0x100) / 16 == 16 + hi && (n + 0x100) % 16 == n % 16;
    assert (16 + hi) / 16 == 1 && (16 + hi) % 16 == hi;
    assert Radix16(16 + hi) == [HexDigit(1), HexDigit(hi)];
    assert Radix16(n + 0x100) == Radix16(16 + hi) + [HexDigit(n % 16)];
  }

  /** The two digits appended for one digest byte: the byte plus 0x100 in base 16, leading 1 dropped. */
  function ByteHex(b: bv8): (s: string)
    ensures |s| == 2 && IsLowerHex(s[0]) && IsLowerHex(s[1])
    ensures HexValue(s[0]) * 16 + HexValue(s[1]) == b as int
  {
    OffsetByteRadix(b);
    Radix16(b as int + 0x100)[1..]
  }

  function HexEncode(bs: seq<bv8>): (s: string)
    ensures |s| == 2 * |bs|
    ensures forall i :: 0 <= i < |s| ==> IsLowerHex(s[i])
  {
    if |bs| == 0 then [] else HexEncode(bs[..|bs| - 1]) + ByteHex(bs[|bs| - 1])
  }

  /** Reads lower-case hex back into bytes, two digits per byte. */
  function HexDecode(s: string): seq<bv8>
    requires |s| % 2 == 0
    requires forall i :: 0 <= i < |s| ==> IsLowerHex(s[i])
  {
    if |s| == 0 then []
    else HexDecode(s[..|s| - 2]) + [(HexValue(s[|s| - 2]) * 16 + HexValue(s[|s| - 1])) as bv8]
  }

  /** The hex rendering loses nothing: decoding it gives the digest back. */
  lemma {:induction false} HexRoundTrip(bs: seq<bv8>)
    ensures HexDecode(HexEncode(bs)) == bs
  {
    if |bs| > 0 {
      var s := HexEncode(bs);
      var prefix := bs[..|bs| - 1];
      assert s[..|s| - 2] == HexEncode(prefix);
      HexRoundTrip(prefix);
      var last := ByteHex(bs[|bs| - 1]);
      assert s[|s| - 2] == last[0] && s[|s| - 1] == last[1];
      ByteHexDecodes(bs[|bs| - 1]);
      assert bs == prefix + [bs[|bs| - 1]];
    }
  }

  lemma ByteHexDecodes(b: bv8)
    ensures (HexValue(ByteHex(b)[0]) * 16 + HexValue(ByteHex(b)[1])) as bv8 == b
  {
    var v := HexValue(ByteHex(b)[0]) * 16 + HexValue(ByteHex(b)[1]);
    assert v == b as int;
  }

  /** Different digests never give the same hash text. */
  lemma HexEncodeInjective(a: seq<bv8>, b: seq<bv8>)
    requires HexEncode(a) == HexEncode(b)
    ensures a == b
  {
    HexRoundTrip(a);
    HexRoundTrip(b);
  }

  /** `hash`: the digest of `s` (SHA-512, a parameter here), as two lower-case hex digits per byte. */
  method Hash(s: string, digest: string -> seq<bv8>) returns (h: string)
    ensures h == HexEncode(digest(s))
  {
    var byteData := digest(s);
    h := "";
    for i := 0 to |byteData|
      invariant h == HexEncode(byteData[..i])
    {
      assert byteData[..i + 1][..i] == byteData[..i];
      h := h + Radix16(byteData[i] as int + 0x100)[1..];
    }
    assert byteData[..|byteData|] == byteData;
  }

  /** The token the core expects: hash(hash(salt + password) + salt + ts). */
  function AuthToken(salt: string, password: string, ts: string, digest: string -> seq<bv8>): (token: string)
    ensures |token| % 2 == 0 && forall i :: 0 <= i < |token| ==> IsLowerHex(token[i])
    ensures HexDecode(token) == digest(HexEncode(digest(salt + password)) + salt + ts)
  {
    var passHash := HexEncode(digest(salt + password));
    var tokenBytes := digest(passHash + salt + ts);
    HexRoundTrip(tokenBytes);
    HexEncode(tokenBytes)
  }

  // Heartbeat requests and replies

  const UPTIME_FIELD := "{\"uptime\":"
  const CONFIG_FLAG := ",\"config\":true"

  /** The heartbeat body: the uptime in seconds, and a request for the config when forced. */
  function HeartbeatBody(uptimeSeconds: int, forceConfig: bool): (body: string)
    ensures |body| > |UPTIME_FIELD| && body[..|UPTIME_FIELD|] == UPTIME_FIELD && body[|body| - 1] == '}'
    ensures forceConfig ==> |body| > |CONFIG_FLAG| && body[|body| - 1 - |CONFIG_FLAG|..|body| - 1] == CONFIG_FLAG
  {
    UPTIME_FIELD + IntToString(uptimeSeconds) + (if forceConfig then CONFIG_FLAG else "") + "}"
  }

  /** Reads a heartbeat body back: the uptime and whether the config was asked for. */
  function ParseHeartbeatBody(s: string): Option<(int, bool)> {
    if |s| >= |UPTIME_FIELD| + 1 && s[..|UPTIME_FIELD|] == UPTIME_FIELD && s[|s| - 1] == '}' then
      var middle := s[|UPTIME_FIELD|..|s| - 1];
      if |middle| >= |CONFIG_FLAG| && middle[|middle| - |CONFIG_FLAG|..] == CONFIG_FLAG then
        match ParseInt(middle[..|middle| - |CONFIG_FLAG|])
        case Some(n) => Some((n, true))
        case None => None
      else
        match ParseInt(middle)
        case Some(n) => Some((n, false))
        case None => None
    else None
  }

  /** The body carries exactly the uptime, and the config request exactly when forced. */
  lemma HeartbeatBodyRoundTrip(uptimeSeconds: int, forceConfig: bool)
    ensures ParseHeartbeatBody(HeartbeatBody(uptimeSeconds, forceConfig)) == Some((uptimeSeconds, forceConfig))
  {
    var n := IntToString(uptimeSeconds);
    var flag := if forceConfig then CONFIG_FLAG else "";
    var s := HeartbeatBody(uptimeSeconds, forceConfig);
    assert s == UPTIME_FIELD + (n + flag) + "}";
    assert s[..|UPTIME_FIELD|] == UPTIME_FIELD;
    var middle := s[|UPTIME_FIELD|..|s| - 1];
    assert middle == n + flag;
    IntToStringRoundTrip(uptimeSeconds);
    if forceConfig {
      assert middle[|middle| - |CONFIG_FLAG|..] == CONFIG_FLAG;
      assert middle[..|middle| - |CONFIG_FLAG|] == n;
    } else {
      assert middle == n;
      assert |middle| >= |CONFIG_FLAG| ==> middle[|middle| - |CONFIG_FLAG|..][|CONFIG_FLAG| - 1] == n[|n| - 1];
    }
  }

  /** What the JSON parser makes of a heartbeat reply body: invalid JSON, or a (possibly null) config map. */
  datatype ConfigParse =
    | InvalidJson
    | ConfigJson(config: Option<map<string, ConfigValue>>)

  /**
   * The heartbeat result for a core reply: success needs status 200 and a body that is blank or
   * valid JSON; only a JSON config counts as a config update. None is a 200 reply with no body,
   * which the connector fails on.
   */
  function ClassifyHeartbeat(status: int, body: Option<string>, parseConfig: string -> ConfigParse): (r: Option<SendHeartbeatToCoreResponse>)
    ensures r.None? <==> status == 200 && body.None?
    ensures r.Some? ==> r.value.rawResponse == body
    ensures r.Some? ==> (r.value.requestSucceeded <==> status == 200 && (IsBlank(body.value) || parseConfig(body.value).ConfigJson?))
    ensures r.Some? ==>
      (r.value.ReceivedConfigUpdate() <==>
         status == 200 && !IsBlank(body.value) && parseConfig(body.value).ConfigJson? && parseConfig(body.value).config.Some?)
    ensures r.Some? && r.value.ReceivedConfigUpdate() ==> r.value.config == parseConfig(body.value).config
  {
    if status == 200 then
      if body.None? then None
      else if IsBlank(body.value) then Some(HeartbeatSucceededWithoutConfig(body))
      else match parseConfig(body.value)
        case InvalidJson => Some(SendHeartbeatToCoreResponse(false, body, None))
        case ConfigJson(c) => Some(HeartbeatSucceeded(body, c))
    else Some(SendHeartbeatToCoreResponse(false, body, None))
  }

  // Authentication

  /** The salt and timestamp the core returns for a user. */
  datatype AuthResponse = AuthResponse(salt: string, ts: string)

  /** Whether an answer from the HTTP connector is the reply to an authentication request. */
  predicate IsAuthReply(msg: MediatorHTTPResponse) {
    msg.originalRequest.Some? && msg.originalRequest.value.orchestration == Some(GET_AUTH_DETAILS)
  }

  /** Whether a call is answered back to the connector rather than to its caller. */
  predicate AnsweredToConnector(request: MediatorHTTPRequest) {
    request.orchestration == Some(REGISTER_MEDIATOR) || request.orchestration == Some(HEARTBEAT)
  }

  function AuthHeaders(h: Headers, username: string, auth: AuthResponse, token: string): Headers {
    Put(Put(Put(Put(h, "auth-username", username), "auth-ts", auth.ts), "auth-salt", auth.salt), "auth-token", token)
  }

  /**
   * The authenticated copy of a call gains exactly the four auth headers (replacing any
   * spelling of those names) and keeps every other header.
   */
  lemma AuthHeadersAdded(h: Headers, username: string, auth: AuthResponse, token: string, name: string)
    ensures Lookup(AuthHeaders(h, username, auth, token), name) ==
      if EqualsIgnoreCase("auth-token", name) then Some(token)
      else if EqualsIgnoreCase("auth-salt", name) then Some(auth.salt)
      else if EqualsIgnoreCase("auth-ts", name) then Some(auth.ts)
      else if EqualsIgnoreCase("auth-username", name) then Some(username)
      else Lookup(h, name)
  {
    var h1 := Put(h, "auth-username", username);
    var h2 := Put(h1, "auth-ts", auth.ts);
    var h3 := Put(h2, "auth-salt", auth.salt);
    LookupPut(h3, "auth-token", token, name);
    LookupPut(h2, "auth-salt", auth.salt, name);
    LookupPut(h1, "auth-ts", auth.ts, name);
    LookupPut(h, "auth-username", username, name);
  }

  /** The four auth header names are distinct ignoring case, so each keeps its own value. */
  lemma AuthHeaderNamesDistinct()
    ensures !EqualsIgnoreCase("auth-token", "auth-salt") && !EqualsIgnoreCase("auth-token", "auth-ts")
    ensures !EqualsIgnoreCase("auth-token", "auth-username") && !EqualsIgnoreCase("auth-salt", "auth-ts")
    ensures !EqualsIgnoreCase("auth-salt", "auth-username") && !EqualsIgnoreCase("auth-ts", "auth-username")
  {
    assert |Lower("auth-token")| == 10 && |Lower("auth-salt")| == 9;
    assert |Lower("auth-ts")| == 7 && |Lower("auth-username")| == 13;
  }

  function Crash(f: Failure): Envelope {
    Envelope(ToSupervisor, Crashed(f))
  }

  class CoreAPIConnector {
    const self: ActorRef
    const config: MediatorConfig
    /** SHA-512 over the bytes of a string. */
    const digest: string -> seq<bv8>
    /** The JSON reading of an authentication reply; None when it fails. */
    const parseAuth: string -> Option<AuthResponse>
    const parseConfig: string -> ConfigParse

    /** The calls waiting for authentication or for their answer, by correlation id. */
    var activeRequests: map<string, MediatorHTTPRequest>
    var outbox: seq<Envelope>

    constructor (self: ActorRef, config: MediatorConfig, digest: string -> seq<bv8>,
                 parseAuth: string -> Option<AuthResponse>, parseConfig: string -> ConfigParse)
      ensures this.self == self && this.config == config && this.digest == digest
      ensures this.parseAuth == parseAuth && this.parseConfig == parseConfig
      ensures activeRequests == map[] && outbox == []
    {
      this.self := self;
      this.config := config;
      this.digest := digest;
      this.parseAuth := parseAuth;
      this.parseConfig := parseConfig;
      activeRequests := map[];
      outbox := [];
    }

    function ToHttpConnector(request: MediatorHTTPRequest): Envelope
      reads config
    {
      Envelope(ToPath(config.UserPathFor(HTTP_CONNECTOR)), HttpRequestMsg(request))
    }

    /** The registration call: the registration settings sent to the core, answered back to the connector. */
    function RegistrationRequest(sender: ActorRef): (r: MediatorHTTPRequest)
      reads config
      requires config.registrationConfig.Some?
      ensures var rc := config.registrationConfig.value;
        && r.requestHandler == self && r.respondTo == sender && r.orchestration == Some(REGISTER_MEDIATOR)
        && r.httpMethod == rc.httpMethod && r.path == rc.path && r.body == Some(rc.content)
        && r.headers == Some([("Content-Type", rc.contentType)])
        && r.scheme == config.coreAPIScheme && r.host == config.coreHost && r.port == config.coreAPIPort
        && r.correlationId.None? && r.params.None? && r.uri.None?
    {
      var rc := config.registrationConfig.value;
      RequestWithCorrelation(self, sender, Some(REGISTER_MEDIATOR), rc.httpMethod, config.coreAPIScheme, config.coreHost,
        config.coreAPIPort, rc.path, Some(rc.content), Some([("Content-Type", rc.contentType)]), None, None)
    }

    /** The heartbeat call: a JSON POST to /mediators/{urn}/heartbeat, answered back to the connector. */
    function HeartbeatRequest(sender: ActorRef, uptimeSeconds: int, forceConfig: bool): (r: MediatorHTTPRequest)
      reads config
      requires config.registrationConfig.Some?
      ensures r.requestHandler == self && r.respondTo == sender && r.orchestration == Some(HEARTBEAT)
      ensures r.httpMethod == "POST" && r.path == "/mediators/" + JavaString(config.registrationConfig.value.urn) + "/heartbeat"
      ensures r.body.Some? && ParseHeartbeatBody(r.body.value) == Some((uptimeSeconds, forceConfig))
      ensures r.headers == Some([("Content-Type", "application/json")])
      ensures r.scheme == config.coreAPIScheme && r.host == config.coreHost && r.port == config.coreAPIPort
    {
      HeartbeatBodyRoundTrip(uptimeSeconds, forceConfig);
      RequestWithoutCorrelation(self, sender, Some(HEARTBEAT), "POST", config.coreAPIScheme, config.coreHost, config.coreAPIPort,
        "/mediators/" + JavaString(config.registrationConfig.value.urn) + "/heartbeat",
        Some(HeartbeatBody(uptimeSeconds, forceConfig)), Some([("Content-Type", "application/json")]), None)
    }

    /** The request for the user's salt and timestamp, tagged with the call's correlation id and answered to the connector. */
    function AuthMessage(correlationId: string): (r: MediatorHTTPRequest)
      reads config
      ensures r.requestHandler == self && r.respondTo == self && r.orchestration == Some(GET_AUTH_DETAILS)
      ensures r.httpMethod == "GET" && r.path == "/authenticate/" + JavaString(config.coreAPIUsername)
      ensures r.correlationId == Some(correlationId) && r.body.None? && r.headers.None? && r.params.None?
      ensures r.scheme == config.coreAPIScheme && r.host == config.coreHost && r.port == config.coreAPIPort
    {
      RequestWithCorrelation(self, self, Some(GET_AUTH_DETAILS), "GET", config.coreAPIScheme, config.coreHost,
        config.coreAPIPort, "/authenticate/" + JavaString(config.coreAPIUsername), None, None, None, Some(correlationId))
    }

    /** A call is filed under a new correlation id, and the authentication request for it is sent. */
    method AuthenticateMessage(request: MediatorHTTPRequest, correlationId: string)
      requires correlationId !in activeRequests
      modifies this`activeRequests, this`outbox
      ensures activeRequests == old(activeRequests)[correlationId := request]
      ensures |activeRequests| == |old(activeRequests)| + 1
      ensures outbox == old(outbox) + [ToHttpConnector(AuthMessage(correlationId))]
    {
      activeRequests := activeRequests[correlationId := request];
      outbox := outbox + [ToHttpConnector(AuthMessage(correlationId))];
    }

    /** The call the authentication reply `msg` is about, if the connector has it on file. */
    function FiledCall(msg: MediatorHTTPResponse): Option<(string, MediatorHTTPRequest)>
      reads this
    {
      if msg.originalRequest.Some? && msg.originalRequest.value.correlationId.Some?
         && msg.originalRequest.value.correlationId.value in activeRequests
      then
        var id := msg.originalRequest.value.correlationId.value;
        Some((id, activeRequests[id]))
      else None
    }

    /**
     * Whether answering an authentication reply about the call `original` gets as far as reading
     * the core API username: a 200 carrying readable details, for a call with headers.
     */
    predicate ReadsUsername(original: MediatorHTTPRequest, msg: MediatorHTTPResponse) {
      msg.statusCode == Some(200) && msg.body.Some? && parseAuth(msg.body.value).Some? && original.headers.Some?
    }

    /** The username is configured whenever answering the authentication reply `msg` would read it. */
    predicate UsernameAtHand(msg: MediatorHTTPResponse)
      reads this, config
    {
      var filed := FiledCall(msg);
      filed.Some? && ReadsUsername(filed.value.1, msg) ==> config.coreAPIUsername.Some?
    }

    /**
     * What the connector sends on an authentication reply for the filed call `original`: an
     * error to the call's request handler on a status other than 200, otherwise the call (copied
     * and, for registration and heartbeat, re-targeted to the connector) with the auth headers.
     */
    function AuthReplyMessages(id: string, original: MediatorHTTPRequest, msg: MediatorHTTPResponse): (sent: seq<Envelope>)
      reads config
      requires ReadsUsername(original, msg) ==> config.coreAPIUsername.Some?
      ensures |sent| == 1
      ensures sent[0].msg.HttpRequestMsg? <==>
        msg.statusCode == Some(200) && msg.body.Some? && parseAuth(msg.body.value).Some? && original.headers.Some?
      ensures sent[0].msg.HttpRequestMsg? ==>
        && sent[0].to == ToPath(config.UserPathFor(HTTP_CONNECTOR))
        && sent[0].msg.request.correlationId == (if AnsweredToConnector(original) then Some(id) else original.correlationId)
        && sent[0].msg.request.respondTo == (if AnsweredToConnector(original) then self else original.respondTo)
    {
      var request := if AnsweredToConnector(original) then CopyWithRespondTo(self, Some(id), original) else CopyOf(original);
      if msg.statusCode.None? then [Crash(Failure(NullPointer, None))]
      else if msg.statusCode.value != 200 then
        [Envelope(ToActor(original.requestHandler), ExceptErrorMsg(None, Failure(CoreGetAuthenticationDetailsError,
           Some("Core responded with " + IntToString(msg.statusCode.value) + " (" + JavaString(msg.body) + ")"))))]
      else if msg.body.None? then [Crash(Failure(NullPointer, None))]
      else if parseAuth(msg.body.value).None? then [Crash(Failure(ParseFailure, None))]
      else if request.headers.None? then [Crash(Failure(NullPointer, None))]
      else
        var auth := parseAuth(msg.body.value).value;
        var token := AuthToken(auth.salt, JavaString(config.coreAPIPassword), auth.ts, digest);
        [ToHttpConnector(request.(headers := Some(AuthHeaders(request.headers.value, config.coreAPIUsername.value, auth, token))))]
    }

    /**
     * An authentication reply. Registration and heartbeat calls stay on file (to be closed by
     * their own answer); any other call leaves the table now, whatever the outcome.
     */
    method HandleAuthenticationResponse(msg: MediatorHTTPResponse)
      requires UsernameAtHand(msg)
      modifies this`activeRequests, this`outbox
      ensures var filed := old(FiledCall(msg));
        && (filed.None? ==> activeRequests == old(activeRequests) && outbox == old(outbox) + [Crash(Failure(NullPointer, None))])
        && (filed.Some? ==>
              && activeRequests == (if AnsweredToConnector(filed.value.1) then old(activeRequests) else old(activeRequests) - {filed.value.0})
              && outbox == old(outbox) + AuthReplyMessages(filed.value.0, filed.value.1, msg))
    {
      if msg.originalRequest.None? || msg.originalRequest.value.correlationId.None?
         || msg.originalRequest.value.correlationId.value !in activeRequests {
        outbox := outbox + [Crash(Failure(NullPointer, None))];
        return;
      }
      var correlationId := msg.originalRequest.value.correlationId.value;
      var originalRequest := activeRequests[correlationId];
      if !AnsweredToConnector(originalRequest) {
        activeRequests := activeRequests - {correlationId};
      }
      var sent := AuthReply(correlationId, originalRequest, msg);
      outbox := outbox + sent;
    }

    /**
     * The messages for an authentication reply about the filed call `originalRequest`, computed
     * as the connector does it, hashing included.
     */
    method AuthReply(correlationId: string, originalRequest: MediatorHTTPRequest, msg: MediatorHTTPResponse)
      returns (sent: seq<Envelope>)
      requires ReadsUsername(originalRequest, msg) ==> config.coreAPIUsername.Some?
      ensures sent == AuthReplyMessages(correlationId, originalRequest, msg)
    {
      var request;
      if AnsweredToConnector(originalRequest) {
        request := CopyWithRespondTo(self, Some(correlationId), originalRequest);
      } else {
        request := CopyOf(originalRequest);
      }
      if msg.statusCode.None? {
        return [Crash(Failure(NullPointer, None))];
      }
      if msg.statusCode.value != 200 {
        var message := "Core responded with " + IntToString(msg.statusCode.value) + " (" + JavaString(msg.body) + ")";
        return [Envelope(ToActor(originalRequest.requestHandler),
                         ExceptErrorMsg(None, Failure(CoreGetAuthenticationDetailsError, Some(message))))];
      }
      if msg.body.None? {
        return [Crash(Failure(NullPointer, None))];
      }
      var parsed := parseAuth(msg.body.value);
      if parsed.None? {
        return [Crash(Failure(ParseFailure, None))];
      }
      var auth := parsed.value;
      var passHash := Hash(auth.salt + JavaString(config.coreAPIPassword), digest);
      var token := Hash(passHash + auth.salt + auth.ts, digest);
      if request.headers.None? {
        return [Crash(Failure(NullPointer, None))];
      }
      var headers := request.headers.value;
      headers := Put(headers, "auth-username", config.coreAPIUsername.value);
      headers := Put(headers, "auth-ts", auth.ts);
      headers := Put(headers, "auth-salt", auth.salt);
      headers := Put(headers, "auth-token", token);
      sent := [ToHttpConnector(request.(headers := Some(headers)))];
    }

    /**
     * A heartbeat answer: classified, then the call leaves the table and the result goes to the
     * call's respond-to.
     */
    method HandleHeartbeatResponse(msg: MediatorHTTPResponse)
      modifies this`activeRequests, this`outbox
      ensures msg.statusCode.None? ==> activeRequests == old(activeRequests) && outbox == old(outbox) + [Crash(Failure(NullPointer, None))]
      ensures msg.statusCode.Some? ==>
        var result := ClassifyHeartbeat(msg.statusCode.value, msg.body, parseConfig);
        var filed := old(FiledCall(msg));
        && (result.None? || filed.None? ==> activeRequests == old(activeRequests) && outbox == old(outbox) + [Crash(Failure(NullPointer, None))])
        && (result.Some? && filed.Some? ==>
              && activeRequests == old(activeRequests) - {filed.value.0}
              && outbox == old(outbox) + [Envelope(ToActor(filed.value.1.respondTo), HeartbeatResponseMsg(result.value))])
    {
      if msg.statusCode.None? {
        outbox := outbox + [Crash(Failure(NullPointer, None))];
        return;
      }
      var result := ClassifyHeartbeat(msg.statusCode.value, msg.body, parseConfig);
      if result.None? || msg.originalRequest.None? || msg.originalRequest.value.correlationId.None?
         || msg.originalRequest.value.correlationId.value !in activeRequests {
        outbox := outbox + [Crash(Failure(NullPointer, None))];
        return;
      }
      var correlationId := msg.originalRequest.value.correlationId.value;
      var originalHttp := activeRequests[correlationId];
      activeRequests := activeRequests - {correlationId};
      outbox := outbox + [Envelope(ToActor(originalHttp.respondTo), HeartbeatResponseMsg(result.value))];
    }

    /** A registration answer only closes its call. */
    method HandleRegisterMediatorResponse(msg: MediatorHTTPResponse)
      requires msg.originalRequest.Some?
      modifies this`activeRequests
      ensures var id := msg.originalRequest.value.correlationId;
        activeRequests == if id.Some? then old(activeRequests) - {id.value} else old(activeRequests)
    {
      if msg.originalRequest.value.correlationId.Some? {
        activeRequests := activeRequests - {msg.originalRequest.value.correlationId.value};
      }
    }

    /**
     * The effect of an answer from the HTTP connector, by the purpose of the request it answers:
     * a registration answer closes its call; an authentication reply is answered as
     * AuthReplyMessages says; a heartbeat answer is classified and goes to the call's respond-to;
     * any other answer is passed to the request's respond-to. An answer with no original request
     * fails with a null dereference.
     */
    twostate predicate HandledConnectorResponse(msg: MediatorHTTPResponse)
      requires IsAuthReply(msg) ==> old(UsernameAtHand(msg))
      reads this, config
    {
      if msg.originalRequest.None? then
        activeRequests == old(activeRequests) && outbox == old(outbox) + [Crash(Failure(NullPointer, None))]
      else
        var purpose := msg.originalRequest.value.orchestration;
        var id := msg.originalRequest.value.correlationId;
        var filed := old(FiledCall(msg));
        if purpose == Some(REGISTER_MEDIATOR) then
          && outbox == old(outbox)
          && activeRequests == (if id.Some? then old(activeRequests) - {id.value} else old(activeRequests))
        else if purpose == Some(GET_AUTH_DETAILS) then
          && (filed.None? ==> activeRequests == old(activeRequests) && outbox == old(outbox) + [Crash(Failure(NullPointer, None))])
          && (filed.Some? ==>
                && activeRequests == (if AnsweredToConnector(filed.value.1) then old(activeRequests) else old(activeRequests) - {filed.value.0})
                && outbox == old(outbox) + old(AuthReplyMessages(filed.value.0, filed.value.1, msg)))
        else if purpose == Some(HEARTBEAT) then
          if msg.statusCode.None? then
            activeRequests == old(activeRequests) && outbox == old(outbox) + [Crash(Failure(NullPointer, None))]
          else
            var result := ClassifyHeartbeat(msg.statusCode.value, msg.body, parseConfig);
            && (result.None? || filed.None? ==> activeRequests == old(activeRequests) && outbox == old(outbox) + [Crash(Failure(NullPointer, None))])
            && (result.Some? && filed.Some? ==>
                  && activeRequests == old(activeRequests) - {filed.value.0}
                  && outbox == old(outbox) + [Envelope(ToActor(filed.value.1.respondTo), HeartbeatResponseMsg(result.value))])
        else
          activeRequests == old(activeRequests) &&
          outbox == old(outbox) + [Envelope(ToActor(msg.originalRequest.value.respondTo), HttpResponseMsg(msg))]
    }

    /** An answer from the HTTP connector, dispatched on the purpose of the request it answers. */
    method HandleHTTPConnectorResponse(msg: MediatorHTTPResponse)
      requires IsAuthReply(msg) ==> UsernameAtHand(msg)
      modifies this`activeRequests, this`outbox
      ensures HandledConnectorResponse(msg)
    {
      if msg.originalRequest.None? {
        outbox := outbox + [Crash(Failure(NullPointer, None))];
        return;
      }
      var purpose := msg.originalRequest.value.orchestration;
      if purpose == Some(REGISTER_MEDIATOR) {
        HandleRegisterMediatorResponse(msg);
      } else if purpose == Some(GET_AUTH_DETAILS) {
        HandleAuthenticationResponse(msg);
      } else if purpose == Some(HEARTBEAT) {
        HandleHeartbeatResponse(msg);
      } else {
        outbox := outbox + [Envelope(ToActor(msg.originalRequest.value.respondTo), HttpResponseMsg(msg))];
      }
    }

    /**
     * One message; `freshId` stands for the random UUID a new call is filed under. Every new
     * call (a registration, a heartbeat, or any request) files exactly one entry.
     */
    method OnReceive(sender: ActorRef, msg: Message, freshId: string)
      requires freshId !in activeRequests
      requires msg.HttpResponseMsg? && IsAuthReply(msg.response) ==> UsernameAtHand(msg.response)
      modifies this`activeRequests, this`outbox
      ensures msg.RegisterMediatorWithCoreMsg? && config.registrationConfig.Some? ==>
        activeRequests == old(activeRequests)[freshId := RegistrationRequest(sender)]
      ensures msg.SendHeartbeatToCoreMsg? && config.registrationConfig.Some? ==>
        activeRequests == old(activeRequests)[freshId := HeartbeatRequest(sender, msg.uptimeSeconds, msg.forceConfig)]
      ensures (msg.RegisterMediatorWithCoreMsg? || msg.SendHeartbeatToCoreMsg?) && config.registrationConfig.None? ==>
        activeRequests == old(activeRequests) && outbox == old(outbox) + [Crash(Failure(NullPointer, None))]
      ensures msg.HttpRequestMsg? ==> activeRequests == old(activeRequests)[freshId := msg.request]
      ensures (msg.RegisterMediatorWithCoreMsg? || msg.SendHeartbeatToCoreMsg?) && config.registrationConfig.Some? ==>
        outbox == old(outbox) + [ToHttpConnector(AuthMessage(freshId))]
      ensures msg.HttpRequestMsg? ==> outbox == old(outbox) + [ToHttpConnector(AuthMessage(freshId))]
      ensures msg.HttpResponseMsg? ==> HandledConnectorResponse(msg.response)
      ensures !(msg.RegisterMediatorWithCoreMsg? || msg.SendHeartbeatToCoreMsg? || msg.HttpRequestMsg? || msg.HttpResponseMsg?) ==>
        activeRequests == old(activeRequests) && outbox == old(outbox)
    {
      match msg {
        case RegisterMediatorWithCoreMsg =>
          if config.registrationConfig.None? {
            outbox := outbox + [Crash(Failure(NullPointer, None))];
          } else {
            AuthenticateMessage(RegistrationRequest(sender), freshId);
          }
        case HttpRequestMsg(request) =>
          AuthenticateMessage(request, freshId);
        case SendHeartbeatToCoreMsg(uptimeSeconds, forceConfig) =>
          if config.registrationConfig.None? {
            outbox := outbox + [Crash(Failure(NullPointer, None))];
          } else {
            AuthenticateMessage(HeartbeatRequest(sender, uptimeSeconds, forceConfig), freshId);
          }
        case HttpResponseMsg(response) =>
          HandleHTTPConnectorResponse(response);
        case _ =>
      }
    }
  }

  /**
   * An authentication reply whose status is not 200 forwards nothing: the call's request
   * handler is told of a CoreGetAuthenticationDetailsError quoting the status and the body.
   */
  lemma RejectedAuthReply(c: CoreAPIConnector, id: string, original: MediatorHTTPRequest, msg: MediatorHTTPResponse)
    requires msg.statusCode.Some? && msg.statusCode.value != 200
    ensures c.AuthReplyMessages(id, original, msg) ==
      [Envelope(ToActor(original.requestHandler), ExceptErrorMsg(None, Failure(CoreGetAuthenticationDetailsError,
         Some("Core responded with " + IntToString(msg.statusCode.value) + " (" + JavaString(msg.body) + ")"))))]
  {
  }

  /**
   * The protocol for an ordinary call: filing it and authenticating, then a 200 reply with the
   * user's salt and timestamp, sends the call on with the auth headers and closes it.
   */
  lemma {:induction false} OrdinaryCallRoundTrip(c: CoreAPIConnector, id: string, original: MediatorHTTPRequest,
                                                 msg: MediatorHTTPResponse, auth: AuthResponse)
    requires c.config.coreAPIUsername.Some?
    requires !AnsweredToConnector(original) && original.headers.Some?
    requires msg.statusCode == Some(200) && msg.body.Some? && c.parseAuth(msg.body.value) == Some(auth)
    ensures var token := AuthToken(auth.salt, JavaString(c.config.coreAPIPassword), auth.ts, c.digest);
      var copied := CopyOf(original);
      c.AuthReplyMessages(id, original, msg) ==
        [c.ToHttpConnector(copied.(headers := Some(AuthHeaders(copied.headers.value, c.config.coreAPIUsername.value, auth, token))))]
    ensures CopyOf(original).respondTo == original.respondTo && CopyOf(original).correlationId == original.correlationId
  {
  }
}
