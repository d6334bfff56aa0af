/**
 * The client side of the upstream processing backend: the availability
 * probe and the proxied chat call, each reduced to a total mapping from what
 * the network did to what the gateway sees.
 */
module Upstream {
  import opened Wrappers
  import opened Requests

  const BackendClientUrl: string := "https://mercy-tooth-jpg-attached.trycloudflare.com"

  /** What `GET {BACKEND_CLIENT_URL}/health` did: answered with a status, or raised (timeout, refused, ...). */
  datatype ProbeOutcome = ProbeAnswered(status: int) | ProbeRaised

  /** `check_backend_availability`: available exactly on a 200 answer; an exception never escapes. */
  function CheckBackendAvailability(probe: ProbeOutcome): (available: bool)
    ensures available ==> probe.ProbeAnswered?
    ensures probe.ProbeAnswered? ==> (available <==> probe.status == 200)
  {
    match probe
    case ProbeAnswered(status) => status == 200
    case ProbeRaised => false
  }

  /** The `{status, timestamp, service, backend_client}` document of `GET /health`. */
  datatype HealthReport = HealthReport(status: string, timestamp: string, service: string, backendUrl: string, backendAvailable: bool)

  /** `health_check`: always "healthy"; the backend flag is a fresh probe. */
  function HealthCheck(probe: ProbeOutcome, now: string): (r: HealthReport)
    ensures r.status == "healthy" && r.service == "llm-chat-api" && r.backendUrl == BackendClientUrl
    ensures r.backendAvailable <==> probe == ProbeAnswered(200)
  {
    HealthReport("healthy", now, "llm-chat-api", BackendClientUrl, CheckBackendAvailability(probe))
  }

  /** The JSON fields of a chat reply the gateway reads: `message`, `type`, `audioUrl`; None is an absent key. */
  datatype Reply = Reply(message: Option<string>, kind: Option<string>, audioUrl: Option<string>)

  /** A response body: a JSON object, some other JSON value (list, string, number, null), or not JSON at all. */
  datatype Body = JsonObject(reply: Reply) | JsonOther | NotJson

  /** What `POST {BACKEND_CLIENT_URL}/chat` did. `Raised` is any exception other than a timeout or a connect error. */
  datatype ForwardOutcome = Answered(status: int, body: Body) | TimedOut | ConnectFailed | Raised

  /** The uploaded file part: `(filename or "audio.webm", bytes, content_type)`. */
  datatype AudioPart = AudioPart(filename: string, contentType: Option<string>)

  /** The form fields and files the proxy sends upstream. */
  datatype UpstreamRequest = UpstreamRequest(form: map<string, string>, audio: Option<AudioPart>)

  /** The request `proxy_to_backend_client` builds: all five form fields, and the audio only for a voice message. */
  function ProxyRequest(req: ChatRequest): (u: UpstreamRequest)
    ensures u.form.Keys == {"message", "type", "sessionId", "userId", "username"}
    ensures u.form["message"] == req.message && u.form["type"] == req.kind
    ensures u.form["sessionId"] == req.sessionId && u.form["userId"] == req.userId && u.form["username"] == req.username
    ensures u.audio.Some? <==> req.audio.Some? && req.kind == "voice"
    ensures u.audio.Some? ==> u.audio.value.contentType == req.audio.value.contentType
    ensures u.audio.Some? && req.audio.value.filename.Some? && req.audio.value.filename.value != "" ==>
      u.audio.value.filename == req.audio.value.filename.value
    ensures u.audio.Some? && (req.audio.value.filename.None? || req.audio.value.filename.value == "") ==>
      u.audio.value.filename == "audio.webm"
  {
    var form := map["message" := req.message, "type" := req.kind, "sessionId" := req.sessionId,
                     "userId" := req.userId, "username" := req.username];
    var audio :=
      if req.audio.Some? && req.kind == "voice" then
        var name := if req.audio.value.filename.Some? && req.audio.value.filename.value != ""
                    then req.audio.value.filename.value else "audio.webm";
        Some(AudioPart(name, req.audio.value.contentType))
      else None;
    UpstreamRequest(form, audio)
  }

  /**
   * `proxy_to_backend_client` as a mapping from the outcome of the call to
   * the parsed body or the status of the `HTTPException` it raises. A non-200
   * upstream status raises inside the same `try`, so the generic handler
   * re-raises it as 500 and the upstream's own status is lost; an unparsable
   * 200 body is a 500 as well.
   */
  function ProxyToBackendClient(outcome: ForwardOutcome): (r: Result<Body, int>)
    ensures r.Ok? <==> outcome.Answered? && outcome.status == 200 && !outcome.body.NotJson?
    ensures r.Ok? ==> r.value == outcome.body
    ensures outcome.TimedOut? ==> r == Err(504)
    ensures outcome.ConnectFailed? ==> r == Err(503)
    ensures outcome.Answered? || outcome.Raised? ==> r.Err? ==> r.error == 500
  {
    match outcome
    case Answered(status, body) =>
      if status == 200 then
        if body.NotJson? then Err(500) else Ok(body)
      else Err(500)
    case TimedOut => Err(504)
    case ConnectFailed => Err(503)
    case Raised => Err(500)
  }

  /** Whatever non-200 status the upstream answers with, the proxy reports 500. */
  lemma UpstreamStatusNotPropagated(status: int, body: Body)
    requires status != 200
    ensures ProxyToBackendClient(Answered(status, body)) == Err(500)
  {
  }
}
