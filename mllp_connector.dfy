/**
 * The MLLP connector: sends a message over a TCP socket framed by the Minimal Lower Layer
 * Protocol (a VT start byte, then the payload, then FS and CR), reads the framed reply, strips
 * the framing and reports both to the requesting actors. Bytes are modelled as characters.
 */
module MLLP {
  import opened Wrappers
  import opened CoreResponses
  import opened Messages

  const VT: char := '\U{000B}'
  const FS: char := '\U{001C}'
  const CR: char := '\r'

  /** Whether a frame end (FS immediately followed by CR) occurs in s. */
  predicate HasFrameEnd(s: string) {
    exists i :: 0 <= i < |s| - 1 && s[i] == FS && s[i + 1] == CR
  }

  predicate IsMLLPWrapped(s: string) {
    |s| >= 3 && s[0] == VT && s[|s| - 2] == FS && s[|s| - 1] == CR
  }

  /** The payload of a frame: everything between the start byte and the two end bytes. */
  function Unwrap(s: string): (p: string)
    requires |s| >= 3
    ensures |p| == |s| - 3
    ensures forall i :: 0 <= i < |p| ==> p[i] == s[i + 1]
  {
    s[1..|s| - 2]
  }

  function WrapMLLP(s: string): (r: string)
    ensures |r| == |s| + 3
    ensures IsMLLPWrapped(r)
    ensures Unwrap(r) == s
  {
    [VT] + s + [FS, CR]
  }

  /** Being wrapped means being the framing of some payload, namely the unwrapped one. */
  lemma WrappedIffFramed(t: string)
    ensures IsMLLPWrapped(t) <==> exists s :: t == WrapMLLP(s)
    ensures IsMLLPWrapped(t) ==> t == WrapMLLP(Unwrap(t))
  {
    if IsMLLPWrapped(t) {
      assert t == WrapMLLP(Unwrap(t));
    }
  }

  /** A reply is unwrapped when it is framed, and kept as it is (with only a warning) otherwise. */
  function UnwrapReply(result: string): (r: string)
    ensures IsMLLPWrapped(result) ==> WrapMLLP(r) == result
    ensures !IsMLLPWrapped(result) ==> r == result
  {
    if IsMLLPWrapped(result) then Unwrap(result) else result
  }

  lemma UnwrapReplyOfWrap(s: string)
    ensures UnwrapReply(WrapMLLP(s)) == s
  {
  }

  /**
   * The reply reader as written: it reads up to end of stream, up to and including the first
   * CR, or up to and including the byte after an FS, whichever comes first. `afterFS` says
   * whether the byte read before was FS.
   */
  function ReadAsWritten(s: string, afterFS: bool): (r: string)
    ensures r <= s
    ensures |s| > 0 ==> |r| > 0
  {
    if |s| == 0 then []
    else if afterFS || s[0] == CR then [s[0]]
    else [s[0]] + ReadAsWritten(s[1..], s[0] == FS)
  }

  /** The reader as evidently intended: it reads up to end of stream or up to and including the first frame end. */
  function ReadFrame(s: string, afterFS: bool): (r: string)
    ensures r <= s
    ensures |s| > 0 ==> |r| > 0
  {
    if |s| == 0 then []
    else if afterFS && s[0] == CR then [s[0]]
    else [s[0]] + ReadFrame(s[1..], s[0] == FS)
  }

  /** The reader runs through a payload with no frame end and stops exactly after the FS CR that follows it. */
  lemma {:induction false} ReadFrameOfPayload(p: string, rest: string, afterFS: bool)
    requires !HasFrameEnd(p)
    requires afterFS && |p| > 0 ==> p[0] != CR
    ensures ReadFrame(p + [FS, CR] + rest, afterFS) == p + [FS, CR]
  {
    if |p| == 0 {
      assert p + [FS, CR] + rest == [FS] + ([CR] + rest);
      assert ([CR] + rest)[0] == CR;
      assert ReadFrame([CR] + rest, true) == [CR];
    } else {
      assert (p + [FS, CR] + rest)[1..] == p[1..] + [FS, CR] + rest;
      assert !HasFrameEnd(p[1..]) by {
        forall i | 0 <= i < |p[1..]| - 1
          ensures !(p[1..][i] == FS && p[1..][i + 1] == CR)
        {
          assert p[1..][i] == p[i + 1] && p[1..][i + 1] == p[i + 2];
        }
      }
      assert p[0] == FS && |p[1..]| > 0 ==> p[1..][0] != CR by {
        if p[0] == FS && |p[1..]| > 0 {
          assert p[1..][0] == p[1];
        }
      }
      ReadFrameOfPayload(p[1..], rest, p[0] == FS);
      assert p == [p[0]] + p[1..];
    }
  }

  /**
   * The round trip the connector is for: a reply framing any payload without a frame end in it
   * (HL7 segments separated by CR included) is read in full, and unwrapping gives the payload back.
   */
  lemma FramedReplyRoundTrip(payload: string, rest: string)
    requires !HasFrameEnd(payload)
    ensures ReadFrame(WrapMLLP(payload) + rest, false) == WrapMLLP(payload)
    ensures UnwrapReply(ReadFrame(WrapMLLP(payload) + rest, false)) == payload
  {
    var p := [VT] + payload;
    assert !HasFrameEnd(p) by {
      forall i | 0 <= i < |p| - 1
        ensures !(p[i] == FS && p[i + 1] == CR)
      {
        if i > 0 {
          assert p[i] == payload[i - 1] && p[i + 1] == payload[i];
        }
      }
    }
    assert WrapMLLP(payload) + rest == p + [FS, CR] + rest;
    ReadFrameOfPayload(p, rest, false);
  }

  /** A payload with no CR and no FS in it is read the same by the reader as written. */
  lemma {:induction false} ReadAsWrittenOfPlainPayload(p: string, rest: string)
    requires forall i :: 0 <= i < |p| ==> p[i] != CR && p[i] != FS
    ensures ReadAsWritten(p + [FS, CR] + rest, false) == p + [FS, CR]
  {
    if |p| == 0 {
      assert p + [FS, CR] + rest == [FS] + ([CR] + rest);
      assert ([CR] + rest)[0] == CR;
      assert ReadAsWritten([CR] + rest, true) == [CR];
    } else {
      assert (p + [FS, CR] + rest)[1..] == p[1..] + [FS, CR] + rest;
      ReadAsWrittenOfPlainPayload(p[1..], rest);
      assert p == [p[0]] + p[1..];
    }
  }

  lemma PlainPayloadReadAlike(payload: string, rest: string)
    requires forall i :: 0 <= i < |payload| ==> payload[i] != CR && payload[i] != FS
    ensures ReadAsWritten(WrapMLLP(payload) + rest, false) == ReadFrame(WrapMLLP(payload) + rest, false) == WrapMLLP(payload)
  {
    var p := [VT] + payload;
    assert forall i :: 0 <= i < |p| ==> p[i] != CR && p[i] != FS by {
      forall i | 0 <= i < |p|
        ensures p[i] != CR && p[i] != FS
      {
        if i > 0 {
          assert p[i] == payload[i - 1];
        }
      }
    }
    assert WrapMLLP(payload) + rest == p + [FS, CR] + rest;
    ReadAsWrittenOfPlainPayload(p, rest);
    FramedReplyRoundTrip(payload, rest);
  }

  /** The reader as written cuts a two-segment HL7 reply at the CR between the segments. */
  lemma SegmentedReplyTruncated()
    ensures ReadAsWritten(WrapMLLP("a\rb"), false) == [VT, 'a', CR]
    ensures UnwrapReply(ReadAsWritten(WrapMLLP("a\rb"), false)) != "a\rb"
  {
    var w := WrapMLLP("a\rb");
    assert w == [VT, 'a', CR, 'b', FS, CR];
    assert w[1..] == ['a', CR, 'b', FS, CR];
    assert w[1..][1..] == [CR, 'b', FS, CR];
    assert ReadAsWritten(w[1..][1..], false) == [CR];
    assert !IsMLLPWrapped([VT, 'a', CR]);
  }

  /**
   * The do-while reading loop as written: `lastByte` is the byte just read (-1 at end of
   * stream) and `lastLastByte` the one before.
   */
  method ReadMLLPStream(input: string) returns (result: string)
    ensures result == ReadAsWritten(input, false)
  {
    result := [];
    var pos := 0;
    var lastByte := -1;
    var lastLastByte := -1;
    while true
      invariant 0 <= pos <= |input|
      invariant result == input[..pos]
      invariant lastByte == (if pos == 0 then -1 else input[pos - 1] as int)
      invariant ReadAsWritten(input, false) == result + ReadAsWritten(input[pos..], lastByte == FS as int)
      decreases |input| - pos
    {
      lastLastByte := lastByte;
      if pos < |input| {
        ReadAsWrittenAdvance(input, pos, lastLastByte == FS as int);
        lastByte := input[pos] as int;
        result := result + [input[pos]];
        pos := pos + 1;
      } else {
        lastByte := -1;
      }
      if !(lastByte != -1 && lastLastByte != FS as int && lastByte != CR as int) {
        break;
      }
    }
  }

  lemma AppendAssociates(a: string, b: string, c: string)
    ensures a + (b + c) == (a + b) + c
  {
  }

  /** One turn of the reading loop as written, on the text read so far. */
  lemma ReadAsWrittenAdvance(input: string, pos: nat, afterFS: bool)
    requires pos < |input|
    ensures input[..pos + 1] == input[..pos] + [input[pos]]
    ensures afterFS || input[pos] == CR ==>
      input[..pos] + ReadAsWritten(input[pos..], afterFS) == input[..pos + 1]
    ensures !afterFS && input[pos] != CR ==>
      input[..pos] + ReadAsWritten(input[pos..], afterFS) == input[..pos + 1] + ReadAsWritten(input[pos + 1..], input[pos] == FS)
    ensures (input[pos] as int == CR as int) == (input[pos] == CR) && (input[pos] as int == FS as int) == (input[pos] == FS)
  {
    var t := input[pos..];
    assert t[0] == input[pos] && t[1..] == input[pos + 1..];
    assert input[..pos + 1] == input[..pos] + [input[pos]];
    if !afterFS && input[pos] != CR {
      assert ReadAsWritten(t, afterFS) == [input[pos]] + ReadAsWritten(input[pos + 1..], input[pos] == FS);
      AppendAssociates(input[..pos], [input[pos]], ReadAsWritten(input[pos + 1..], input[pos] == FS));
    }
  }

  /** The reading loop as evidently intended: it stops at end of stream or after an FS CR pair. */
  method ReadFrameStream(input: string) returns (result: string)
    ensures result == ReadFrame(input, false)
  {
    result := [];
    var pos := 0;
    var lastByte := -1;
    var lastLastByte := -1;
    while true
      invariant 0 <= pos <= |input|
      invariant result == input[..pos]
      invariant lastByte == (if pos == 0 then -1 else input[pos - 1] as int)
      invariant ReadFrame(input, false) == result + ReadFrame(input[pos..], lastByte == FS as int)
      decreases |input| - pos
    {
      lastLastByte := lastByte;
      if pos < |input| {
        ReadFrameAdvance(input, pos, lastLastByte == FS as int);
        lastByte := input[pos] as int;
        result := result + [input[pos]];
        pos := pos + 1;
      } else {
        lastByte := -1;
      }
      if !(lastByte != -1 && !(lastLastByte == FS as int && lastByte == CR as int)) {
        break;
      }
    }
  }

  /** One turn of the intended reading loop, on the text read so far. */
  lemma ReadFrameAdvance(input: string, pos: nat, afterFS: bool)
    requires pos < |input|
    ensures input[..pos + 1] == input[..pos] + [input[pos]]
    ensures afterFS && input[pos] == CR ==>
      input[..pos] + ReadFrame(input[pos..], afterFS) == input[..pos + 1]
    ensures !(afterFS && input[pos] == CR) ==>
      input[..pos] + ReadFrame(input[pos..], afterFS) == input[..pos + 1] + ReadFrame(input[pos + 1..], input[pos] == FS)
    ensures (input[pos] as int == CR as int) == (input[pos] == CR) && (input[pos] as int == FS as int) == (input[pos] == FS)
  {
    var t := input[pos..];
    assert t[0] == input[pos] && t[1..] == input[pos + 1..];
    assert input[..pos + 1] == input[..pos] + [input[pos]];
    if !(afterFS && input[pos] == CR) {
      assert ReadFrame(t, afterFS) == [input[pos]] + ReadFrame(input[pos + 1..], input[pos] == FS);
      AppendAssociates(input[..pos], [input[pos]], ReadFrame(input[pos + 1..], input[pos] == FS));
    }
  }

  /** The orchestration of an exchange records the framed request and reply bodies. */
  function BuildOrchestration(request: MediatorSocketRequest, replyBody: string): (o: Orchestration)
    ensures o.name == request.orchestration
    ensures o.request.Some? && o.request.value.body.Some? && IsMLLPWrapped(o.request.value.body.value)
    ensures UnwrapReply(o.request.value.body.value) == request.body
    ensures o.response.Some? && o.response.value.body.Some? && IsMLLPWrapped(o.response.value.body.value)
    ensures UnwrapReply(o.response.value.body.value) == replyBody
  {
    Orchestration(request.orchestration,
      Some(Request(None, None, None, Some([]), None, Some(WrapMLLP(request.body)), None)),
      Some(Response(None, Some([]), Some(WrapMLLP(replyBody)))))
  }

  /** What the socket exchange gives: no connection, a failure while writing or reading, or the bytes the server sent. */
  datatype SocketOutcome =
    | ConnectFailed(connectError: Failure)
    | ExchangeFailed(exchangeError: Failure)
    | Replied(stream: string)

  /**
   * One socket request: the framed body is written, the reply read and unwrapped, and then the
   * reply goes to `respondTo` and the orchestration to the request handler; any failure goes to
   * the request handler as an error instead.
   */
  method SendRequest(request: MediatorSocketRequest, outcome: SocketOutcome) returns (sent: seq<Envelope>)
    ensures outcome.ConnectFailed? ==> sent == [Envelope(ToActor(request.requestHandler), ExceptErrorMsg(None, outcome.connectError))]
    ensures outcome.ExchangeFailed? ==> sent == [Envelope(ToActor(request.requestHandler), ExceptErrorMsg(None, outcome.exchangeError))]
    ensures outcome.Replied? ==>
      var body := UnwrapReply(ReadFrame(outcome.stream, false));
      && sent == [Envelope(ToActor(request.respondTo), SocketResponseMsg(request, body)),
                  Envelope(ToActor(request.requestHandler), AddOrchestrationMsg(BuildOrchestration(request, body)))]
  {
    match outcome {
      case ConnectFailed(e) =>
        sent := [Envelope(ToActor(request.requestHandler), ExceptErrorMsg(None, e))];
      case ExchangeFailed(e) =>
        sent := [Envelope(ToActor(request.requestHandler), ExceptErrorMsg(None, e))];
      case Replied(stream) =>
        var result := ReadFrameStream(stream);
        result := UnwrapReply(result);
        sent := [Envelope(ToActor(request.respondTo), SocketResponseMsg(request, result)),
                 Envelope(ToActor(request.requestHandler), AddOrchestrationMsg(BuildOrchestration(request, result)))];
    }
  }

  /** A server that frames its reply to the request is reported with exactly that reply as the body. */
  lemma SendRequestReportsPayload(request: MediatorSocketRequest, payload: string, rest: string)
    requires !HasFrameEnd(payload)
    ensures UnwrapReply(ReadFrame(WrapMLLP(payload) + rest, false)) == payload
    ensures UnwrapReply(BuildOrchestration(request, payload).response.value.body.value) == payload
  {
    FramedReplyRoundTrip(payload, rest);
  }
}
