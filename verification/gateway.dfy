/**
 * `POST /chat`: validate, probe the upstream, proxy or fall back to the
 * local responder, and record both sides of the exchange in the session
 * store. The network is replaced by the outcomes of the probe and of the
 * forwarded call; the clock by one timestamp.
 */
module Gateway {
  import opened Wrappers
  import opened Text
  import opened Sessions
  import opened Requests
  import opened Responder
  import opened Upstream

  /** What the client receives: a 400 with its detail, or a `{message, type, audioUrl}` document. */
  datatype ChatResponse = Rejected(status: int, detail: string) | Responded(reply: Reply)

  /** A declared media type passes when it is missing, empty, or an `audio/` type. */
  predicate AudioTypeAccepted(contentType: Option<string>)
  {
    contentType.None? || contentType.value == "" || StartsWith(contentType.value, "audio/")
  }

  /** The requests the endpoint accepts: text, or voice with an audio part of an accepted type. */
  predicate WellFormed(req: ChatRequest)
    ensures WellFormed(req) ==> req.kind in {"text", "voice"}
    ensures WellFormed(req) && req.kind == "voice" ==> req.audio.Some?
    ensures req.kind == "voice" && req.audio.Some? && req.audio.value.contentType == Some("audio/webm") ==> WellFormed(req)
  {
    || req.kind == "text"
    || (req.kind == "voice" && req.audio.Some? && AudioTypeAccepted(req.audio.value.contentType))
  }

  /** The three validation checks, in order; the first that fails gives the 400 detail. */
  function ValidationError(req: ChatRequest): (e: Option<string>)
    ensures e.None? <==> WellFormed(req)
    ensures req.kind != "text" && req.kind != "voice" ==> e == Some("Type must be 'text' or 'voice'")
    ensures req.kind == "voice" && req.audio.None? ==> e == Some("Audio file required for voice messages")
    ensures req.kind == "voice" && req.audio.Some? && !AudioTypeAccepted(req.audio.value.contentType) ==>
      e == Some("File must be an audio file")
  {
    if req.kind != "text" && req.kind != "voice" then
      Some("Type must be 'text' or 'voice'")
    else if req.kind == "voice" && req.audio.None? then
      Some("Audio file required for voice messages")
    else if req.kind == "voice" && req.audio.value.contentType.Some? && req.audio.value.contentType.value != ""
         && !StartsWith(req.audio.value.contentType.value, "audio/") then
      Some("File must be an audio file")
    else
      None
  }

  function UserEntry(content: string, kind: string): MessageInput
  {
    MessageInput(content, kind, Some(true))
  }

  function AssistantEntry(content: string, kind: string): MessageInput
  {
    MessageInput(content, kind, Some(false))
  }

  /** What one request does: the response, the messages it records in order, and the upstream request it prepares, if any. */
  datatype Handling = Handling(response: ChatResponse, recorded: seq<MessageInput>, forwarded: Option<UpstreamRequest>)

  /** The placeholder path: transcription stub for voice, classifier reply for both kinds. */
  function Fallback(req: ChatRequest): (h: Handling)
    requires WellFormed(req)
    ensures h.forwarded.None? && h.response.Responded?
    ensures |h.recorded| == 2 && h.recorded[0].isUser == Some(true) && h.recorded[1].isUser == Some(false)
    ensures h.recorded[0].kind == req.kind && h.recorded[1].kind == req.kind
    ensures h.response.reply.kind == Some(req.kind) && h.response.reply.message == Some(h.recorded[1].content)
    ensures h.response.reply.audioUrl.None?
    ensures req.kind == "text" ==> h.recorded[0].content == req.message
    ensures req.kind == "voice" ==> h.recorded[0].content == TranscriptionPlaceholder
  {
    if req.kind == "voice" then
      var transcribed := TranscribeAudio(req.audio.value);
      var text := GenerateLlmResponse(transcribed);
      Handling(Responded(Reply(Some(text), Some("voice"), TextToSpeech(text))),
               [UserEntry(transcribed, "voice"), AssistantEntry(text, "voice")], None)
    else
      var text := GenerateLlmResponse(req.message);
      Handling(Responded(Reply(Some(text), Some("text"), None)),
               [UserEntry(req.message, "text"), AssistantEntry(text, "text")], None)
  }

  /**
   * The whole decision of `chat_endpoint`. When the proxied call returns a
   * JSON value that is not an object, the user message has already been
   * recorded when `result.get` fails; the failure is absorbed and the
   * fallback records its own pair after it.
   */
  function HandleChat(req: ChatRequest, probe: ProbeOutcome, forward: ForwardOutcome): (h: Handling)
    ensures h.response.Rejected? <==> h.recorded == []
    ensures h.forwarded.Some? ==> CheckBackendAvailability(probe) && h.forwarded.value == ProxyRequest(req)
    ensures h.recorded != [] ==> h.recorded[0].isUser == Some(true) && h.recorded[|h.recorded| - 1].isUser == Some(false)
  {
    match ValidationError(req)
    case Some(detail) => Handling(Rejected(400, detail), [], None)
    case None =>
      if !CheckBackendAvailability(probe) then Fallback(req)
      else
        var sent := Some(ProxyRequest(req));
        match ProxyToBackendClient(forward)
        case Ok(JsonObject(reply)) =>
          Handling(Responded(reply),
                   [UserEntry(req.message, req.kind), AssistantEntry(reply.message.GetOr(""), reply.kind.GetOr("text"))],
                   sent)
        case Ok(_) =>
          var fb := Fallback(req);
          Handling(fb.response, [UserEntry(req.message, req.kind)] + fb.recorded, sent)
        case Err(_) =>
          Fallback(req).(forwarded := sent)
  }

  /** A request is rejected, with 400 and before any probe or recording, exactly when it is malformed. */
  lemma RejectedIffMalformed(req: ChatRequest, probe: ProbeOutcome, forward: ForwardOutcome)
    ensures var h := HandleChat(req, probe, forward);
      && (h.response.Rejected? <==> !WellFormed(req))
      && (h.response.Rejected? ==> h.response.status == 400 && h.recorded == [] && h.forwarded.None?)
  {
  }

  /** A request is prepared for the upstream exactly when it is valid and the probe said the upstream is available. */
  lemma ForwardOnlyWhenAvailable(req: ChatRequest, probe: ProbeOutcome, forward: ForwardOutcome)
    ensures var h := HandleChat(req, probe, forward);
      && (h.forwarded.Some? <==> WellFormed(req) && CheckBackendAvailability(probe))
      && (h.forwarded.Some? ==> h.forwarded.value == ProxyRequest(req))
  {
  }

  /** A malformed request is answered before the probe and the forwarded call: their outcomes do not matter. */
  lemma RejectionIgnoresNetwork(req: ChatRequest, p1: ProbeOutcome, p2: ProbeOutcome, f1: ForwardOutcome, f2: ForwardOutcome)
    requires !WellFormed(req)
    ensures HandleChat(req, p1, f1) == HandleChat(req, p2, f2)
  {
  }

  /** With the probe down, the outcome of the (never made) forwarded call is irrelevant. */
  lemma ProbeDownIgnoresForward(req: ChatRequest, probe: ProbeOutcome, f1: ForwardOutcome, f2: ForwardOutcome)
    requires !CheckBackendAvailability(probe)
    ensures HandleChat(req, probe, f1) == HandleChat(req, probe, f2)
  {
  }

  /**
   * A failed forwarded call (timeout, refused connection, non-200 status,
   * unparsable body, any other error) is invisible to the client: it gets
   * the same response, and the same messages are recorded, as when the probe
   * is down.
   */
  lemma FailedForwardFallsBack(req: ChatRequest, up: ProbeOutcome, down: ProbeOutcome, failed: ForwardOutcome, any: ForwardOutcome)
    requires CheckBackendAvailability(up) && !CheckBackendAvailability(down)
    requires ProxyToBackendClient(failed).Err?
    ensures HandleChat(req, up, failed).response == HandleChat(req, down, any).response
    ensures HandleChat(req, up, failed).recorded == HandleChat(req, down, any).recorded
  {
  }

  /** Text fallback: the classifier's reply as text without audio, recorded as user message then reply. */
  lemma TextFallback(req: ChatRequest, probe: ProbeOutcome, forward: ForwardOutcome)
    requires req.kind == "text"
    requires !CheckBackendAvailability(probe) || ProxyToBackendClient(forward).Err?
    ensures var text := GenerateLlmResponse(req.message);
      && HandleChat(req, probe, forward).response == Responded(Reply(Some(text), Some("text"), None))
      && HandleChat(req, probe, forward).recorded == [MessageInput(req.message, "text", Some(true)), MessageInput(text, "text", Some(false))]
  {
  }

  /**
   * Voice fallback: the user entry recorded is the transcription placeholder,
   * not the submitted message, and the reply is the classifier's answer to
   * that placeholder, of type voice, with no audio.
   */
  lemma VoiceFallback(req: ChatRequest, probe: ProbeOutcome, forward: ForwardOutcome)
    requires WellFormed(req) && req.kind == "voice"
    requires !CheckBackendAvailability(probe) || ProxyToBackendClient(forward).Err?
    ensures var text := GenerateLlmResponse(TranscriptionPlaceholder);
      && HandleChat(req, probe, forward).response == Responded(Reply(Some(text), Some("voice"), None))
      && HandleChat(req, probe, forward).recorded
         == [MessageInput(TranscriptionPlaceholder, "voice", Some(true)), MessageInput(text, "voice", Some(false))]
  {
  }

  /**
   * A successful proxied call: the upstream's document is returned verbatim,
   * and the request's message and type, then the reply's message (default "")
   * and type (default "text"), are recorded.
   */
  lemma ProxySuccess(req: ChatRequest, probe: ProbeOutcome, reply: Reply)
    requires WellFormed(req) && CheckBackendAvailability(probe)
    ensures var h := HandleChat(req, probe, Answered(200, JsonObject(reply)));
      && h.response == Responded(reply)
      && h.recorded == [MessageInput(req.message, req.kind, Some(true)),
                        MessageInput(reply.message.GetOr(""), reply.kind.GetOr("text"), Some(false))]
  {
  }

  /**
   * A 200 answer whose body is JSON but not an object records the user
   * message once in the proxy branch and again in the fallback: three
   * entries, the response being the fallback's.
   */
  lemma NonObjectBodyRecordsThree(req: ChatRequest, probe: ProbeOutcome)
    requires WellFormed(req) && CheckBackendAvailability(probe)
    ensures var h := HandleChat(req, probe, Answered(200, JsonOther));
      && h.response == Fallback(req).response
      && |h.recorded| == 3
      && h.recorded[0] == MessageInput(req.message, req.kind, Some(true))
      && h.recorded[1..] == Fallback(req).recorded
  {
  }

  /** Nothing is recorded exactly when the request is rejected. */
  lemma RecordedShapeOrEmpty(req: ChatRequest, probe: ProbeOutcome, forward: ForwardOutcome)
    ensures HandleChat(req, probe, forward).recorded == [] <==> !WellFormed(req)
  {
  }

  /**
   * Every answered request records a user entry first and an assistant
   * entry last; exactly two entries unless the upstream's 200 body was a
   * JSON non-object.
   */
  lemma RecordedShape(req: ChatRequest, probe: ProbeOutcome, forward: ForwardOutcome)
    requires WellFormed(req)
    ensures var r := HandleChat(req, probe, forward).recorded;
      && |r| in {2, 3}
      && (|r| == 3 <==> CheckBackendAvailability(probe) && forward == Answered(200, JsonOther))
      && r[0].isUser == Some(true) && r[|r| - 1].isUser == Some(false)
  {
  }

  /** The placeholder part of `chat_endpoint`: fetch the session, record the user entry, reply, record the reply. */
  method PlaceholderResponse(store: SessionStore, req: ChatRequest, now: Timestamp) returns (response: ChatResponse)
    requires store.Valid() && WellFormed(req)
    modifies store
    ensures store.Valid()
    ensures response == Fallback(req).response
    ensures store.sessions == AddMessages(old(store.sessions), req.sessionId, Fallback(req).recorded, now)
  {
    ghost var before := store.sessions;
    var sessionContext := store.GetSessionContext(req.sessionId, now);
    var userContent: string;
    var kind: string;
    if req.kind == "voice" {
      userContent := TranscribeAudio(req.audio.value);
      kind := "voice";
    } else {
      userContent := req.message;
      kind := "text";
    }
    var user := UserEntry(userContent, kind);
    store.AddMessageToSession(req.sessionId, user, now);
    var responseText := GenerateLlmResponse(userContent);
    var audioUrl := if req.kind == "voice" then TextToSpeech(responseText) else None;
    var assistant := AssistantEntry(responseText, kind);
    store.AddMessageToSession(req.sessionId, assistant, now);
    response := Responded(Reply(Some(responseText), Some(kind), audioUrl));
    assert Fallback(req).recorded == [user] + [assistant];
    AddMessagesConcat(GetOrCreate(before, req.sessionId, now), req.sessionId, [user], [assistant], now);
    AddMessagesAfterCreate(before, req.sessionId, [user] + [assistant], now);
  }

  /**
   * `chat_endpoint` against the process-wide store. Returns the response and
   * the request prepared for the upstream (None when the upstream is not
   * tried).
   */
  method ChatEndpoint(store: SessionStore, req: ChatRequest, probe: ProbeOutcome, forward: ForwardOutcome, now: Timestamp)
    returns (response: ChatResponse, forwarded: Option<UpstreamRequest>)
    requires store.Valid()
    modifies store
    ensures store.Valid()
    ensures response == HandleChat(req, probe, forward).response
    ensures forwarded == HandleChat(req, probe, forward).forwarded
    ensures store.sessions == AddMessages(old(store.sessions), req.sessionId, HandleChat(req, probe, forward).recorded, now)
    ensures !WellFormed(req) ==> store.sessions == old(store.sessions)
    ensures WellFormed(req) ==> req.sessionId in store.sessions
    ensures WellFormed(req) ==>
              store.sessions[req.sessionId].messages == Trim(Lookup(old(store.sessions), req.sessionId, now).messages + StampAll(HandleChat(req, probe, forward).recorded, now))
    ensures forall k :: k in old(store.sessions) && k != req.sessionId ==> k in store.sessions && store.sessions[k] == old(store.sessions)[k]
  {
    ghost var before := store.sessions;
    ghost var recorded := HandleChat(req, probe, forward).recorded;
    RecordedShapeOrEmpty(req, probe, forward);
    AddMessagesFrame(before, req.sessionId, recorded, now);
    if recorded != [] {
      AddMessagesHistory(before, req.sessionId, recorded, now);
      AddMessagesTimes(before, req.sessionId, recorded, now);
    }
    forwarded := None;
    var invalid := ValidationError(req);
    if invalid.Some? {
      return Rejected(400, invalid.value), None;
    }
    var backendAvailable := CheckBackendAvailability(probe);
    if backendAvailable {
      forwarded := Some(ProxyRequest(req));
      var result := ProxyToBackendClient(forward);
      if result.Ok? {
        var user := UserEntry(req.message, req.kind);
        store.AddMessageToSession(req.sessionId, user, now);
        if result.value.JsonObject? {
          var reply := result.value.reply;
          var assistant := AssistantEntry(reply.message.GetOr(""), reply.kind.GetOr("text"));
          store.AddMessageToSession(req.sessionId, assistant, now);
          AddMessagesConcat(before, req.sessionId, [user], [assistant], now);
          assert [user] + [assistant] == HandleChat(req, probe, forward).recorded;
          return Responded(reply), forwarded;
        }
        // `result.get` fails on a non-object body: fall through to the placeholder path.
        ghost var mid := store.sessions;
        assert mid == AddMessages(before, req.sessionId, [user], now);
        response := PlaceholderResponse(store, req, now);
        AddMessagesConcat(before, req.sessionId, [user], Fallback(req).recorded, now);
        return;
      }
    }
    response := PlaceholderResponse(store, req, now);
  }
}
