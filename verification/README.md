# Chat gateway model

A Dafny model of the chat gateway of the Daredevil LLM Chat API
(`llm_backend/main.py`). The gateway accepts text or voice chat requests.
For each request it probes an upstream processing backend. If the backend is
reachable it proxies the request there; otherwise, or when the proxied call
fails, it answers with a local placeholder responder. Both sides of every
answered exchange are recorded in a per-session history that keeps only the
last ten messages. A separate WebSocket endpoint keeps a registry of live
connections and echoes inbound text back to the sender.

Modules, one per component of `main.py`:

- `Sessions` — the `sessions` dictionary as a `SessionStore` class holding a
  `map<string, Session>`. It provides `get_session_context` (get or create),
  `add_message_to_session` (append and trim to ten) and `get_session_info`
  (read-only lookup, 404 when absent). Pure functions (`Lookup`,
  `AddMessage`, `AddMessages`) specify the methods, and lemmas state what a
  run of appends does to a history.
- `Connections` — `ConnectionManager` as a class over `map<string, Handle>`
  with an opaque handle type. `WebsocketSession` is the echo loop of
  `websocket_endpoint`, run over the finite list of texts the client sent.
- `Responder` — `generate_llm_response`, a priority-ordered, case-insensitive
  keyword classifier. Also `transcribe_audio` and `text_to_speech`, which are
  constant stubs.
- `Upstream` — `check_backend_availability` and `proxy_to_backend_client` as
  total functions. Each maps what the network did (an answer with a status
  and body, a timeout, a refused connection, another exception) to what the
  gateway sees. Also `health_check` and the form the proxy sends upstream.
- `Gateway` — `chat_endpoint`. `HandleChat` is the decision as a pure
  function: the response, the messages recorded in order, and the request
  forwarded upstream, if any. `ChatEndpoint` is the imperative method on
  the store, proved to agree with it.
- `Text` — the Python string operations used: `lower()`, `in`, `startswith`.
- `Scenarios` — request sequences from the repository's integration scripts.

The network and the clock are parameters. The probe outcome, the outcome of
the forwarded call and the current timestamp are passed in. The inbound
WebSocket texts are also passed in.

Behaviour of the code that the model keeps, although a reader of the
endpoint's documentation might expect otherwise:

- A non-200 upstream status is reported as 500, not as the upstream's
  status. The `HTTPException` raised at line 139 is inside the same `try` and
  is caught again by `except Exception` at line 147. No proxy failure reaches
  the client in any case.
- A voice request whose audio part has a missing or empty content type is
  accepted. Only a non-empty type that does not start with `audio/` is
  rejected (line 221).
- An upstream 200 answer whose body is JSON but not an object produces three
  history entries rather than two. The user message is recorded at line 241.
  Then `result.get` fails at line 247, and the fallback records the user
  message again, followed by its reply (`Gateway.NonObjectBodyRecordsThree`).
- Same-session requests are not serialised: the source has no locking. The
  model is sequential: one request runs to completion before the next.

## Model

| member | source | states |
|---|---|---|
| `Sessions.Stamp` | llm_backend/main.py:82-87 | the recorded message keeps the content and type, takes the timestamp, and `is_user` is true when absent |
| `Sessions.Appended` | llm_backend/main.py:79-90 | after an append the history has min(old+1, 10) entries, the new message is last, and the entries before it are the newest entries of the old history in their original order (oldest evicted first) |
| `Sessions.TrimConcat` | llm_backend/main.py:88-89 | trimming to the last ten part-way through a run of appends does not change the final trimmed history |
| `Sessions.Trim` | llm_backend/main.py:88-89 | the trimmed history has min(length, 10) entries, and they are the last entries of the history in order |
| `Sessions.Lookup` | llm_backend/main.py:69-77 | get-or-create returns the stored session when present, else a new session with no messages created now |
| `Sessions.GetOrCreate` | llm_backend/main.py:69-77 | after get-or-create the key is present; an existing store is unchanged, a missing session is added empty with both timestamps now, and no other session changes |
| `Sessions.AddMessage` | llm_backend/main.py:79-90 | one append adds at most its own key, sets the session's history to the trimmed append of the stamped message, keeps its creation time, sets its last activity to now, and leaves other sessions unchanged |
| `Sessions.AddMessages` | llm_backend/main.py:79-90 | no messages leave the store as it was; after at least one the session exists, its last activity is now and its history holds at most ten entries |
| `Sessions.GetOrCreateIdempotent` | llm_backend/main.py:69-77 | a second get-or-create changes nothing and returns the same session as the first |
| `Sessions.AddMessagesHistory` | llm_backend/main.py:79-90 | after a run of appends to one session its history is the last ten of the old history followed by the new messages |
| `Sessions.AddMessageLookup` | llm_backend/main.py:79-89 | one append sets the session's history to the last ten of the old history plus the stamped message |
| `Sessions.AddMessagesTimes` | llm_backend/main.py:72-90 | after a run of appends the session exists, keeps its creation time (or gets now if it was new), and its last activity is now |
| `Sessions.AddMessagesFrame` | llm_backend/main.py:79-90 | a run of appends adds at most its own session key and leaves every other session unchanged |
| `Sessions.AddMessagesConcat` | llm_backend/main.py:79-90 | two runs of appends to one session equal a single run of their concatenation |
| `Sessions.AddMessagesAfterCreate` | llm_backend/main.py:261-263 | fetching the session before appending (as the fallback path does) makes no difference to the appends |
| `Sessions.AddMessagesBounded` | llm_backend/main.py:88-89 | every history stays within ten entries under any run of appends |
| `Sessions.SessionStore.constructor` | llm_backend/main.py:42 | the store starts empty |
| `Sessions.SessionStore.GetSessionContext` | llm_backend/main.py:69-77 | returns the existing session, or creates and stores an empty one; no other entry changes |
| `Sessions.SessionStore.AddMessageToSession` | llm_backend/main.py:79-90 | the session's history becomes the trimmed append of the stamped message, the bound is kept, and other sessions are unchanged |
| `Sessions.SessionStore.GetSessionInfo` | llm_backend/main.py:359-365 | returns the session when present and 404 otherwise, without creating or changing anything |
| `Text.StartsWith` | llm_backend/main.py:221 | `startswith` holds iff the prefix is no longer than the string and agrees with it character by character |
| `Text.Contains` | llm_backend/main.py:179-186 | a pattern occurs only in a string at least as long, and the empty pattern occurs in every string |
| `Text.ContainsIff` | llm_backend/main.py:179-186 | the scanning definition of Python's `in` on strings holds exactly when some window of the string equals the pattern |
| `Text.ContainsMiddle` | llm_backend/main.py:186 | a string occurs in any concatenation that has it as a middle part |
| `Text.NotContainsMissingChar` | llm_backend/main.py:179-186 | a pattern with a character absent from the string does not occur in it |
| `Text.Lower` | llm_backend/main.py:179 | lower-casing keeps the length, folds each character, and leaves no upper-case ASCII letter |
| `Text.LowerIdempotent` | llm_backend/main.py:179 | lower-casing twice is lower-casing once |
| `Responder.Classify` | llm_backend/main.py:179-186 | no trigger of any group gives the echo branch, and only then; a motorsport trigger always wins; the betting branch needs a betting trigger, the greeting branch a greeting trigger and no betting one |
| `Responder.GenerateLlmResponse` | llm_backend/main.py:171-186 | the reply is one of the three fixed replies or the echo of the message; a motorsport trigger gives the motorsport reply; no trigger gives the echo |
| `Responder.TranscribeAudio` | llm_backend/main.py:151-157 | every audio upload is transcribed to the fixed placeholder text |
| `Responder.TextToSpeech` | llm_backend/main.py:162-169 | speech synthesis yields no audio reference |
| `Responder.RepliesDistinct` | llm_backend/main.py:179-186 | the four replies are pairwise different, so the reply identifies the branch taken |
| `Responder.ReplyPriority` | llm_backend/main.py:179-186 | motorsport reply iff "f1"/"formula" occurs; betting reply iff "bet"/"betting" occurs and no motorsport trigger; greeting reply iff only "hello"/"hi" occurs; echo reply iff no trigger occurs |
| `Responder.EchoQuotesMessage` | llm_backend/main.py:185-186 | the echo reply contains the original message verbatim |
| `Responder.ClassifyIgnoresCase` | llm_backend/main.py:179-186 | lower-casing a message first selects the same branch |
| `Responder.BettingTriggerSubsumed` | llm_backend/main.py:181 | the "betting" test never changes the outcome: a betting trigger occurs iff "bet" occurs |
| `Responder.F1MentionWins` | llm_backend/main.py:179-180 | an "F1" or "f1" anywhere in a message selects the motorsport reply regardless of other triggers |
| `Responder.SpeechStubsAreConstant` | llm_backend/main.py:151-169 | transcription returns the fixed placeholder for every audio, and speech synthesis yields no audio reference |
| `Upstream.CheckBackendAvailability` | llm_backend/main.py:92-100 | the backend is available only when the health probe answered with status 200; a raised exception means unavailable |
| `Upstream.HealthCheck` | llm_backend/main.py:188-199 | the health document always says "healthy" and reports the backend available iff a fresh probe answered 200 |
| `Upstream.ProxyRequest` | llm_backend/main.py:114-126 | the forwarded form carries exactly the five request fields; the audio part is attached only for a voice request with audio, keeps its content type, and is named by its filename when that is non-empty and "audio.webm" when it is missing or empty |
| `Upstream.ProxyToBackendClient` | llm_backend/main.py:111-149 | success exactly on a 200 answer with a JSON body, returning the body verbatim; timeout gives 504, connect error 503, and a non-200 status, an unparsable body or any other error 500 |
| `Upstream.UpstreamStatusNotPropagated` | llm_backend/main.py:135-149 | every non-200 upstream status is reported as 500 |
| `Gateway.WellFormed` | llm_backend/main.py:214-222 | an accepted request has type "text" or "voice", a voice request carries audio, and voice audio declared as "audio/webm" is accepted |
| `Gateway.ValidationError` | llm_backend/main.py:214-222 | validation passes iff the type is "text", or "voice" with audio whose content type is missing, empty or starts with "audio/"; the detail is "Type must be 'text' or 'voice'" for any other type, "Audio file required for voice messages" for voice without audio, and "File must be an audio file" for voice audio of another declared type |
| `Gateway.RejectedIffMalformed` | llm_backend/main.py:214-222 | a request is rejected with 400 iff it is malformed, and then nothing is recorded and nothing is forwarded |
| `Gateway.RejectionIgnoresNetwork` | llm_backend/main.py:214-222 | a malformed request is answered before any probe or forwarded call: the outcome does not depend on either |
| `Gateway.ForwardOnlyWhenAvailable` | llm_backend/main.py:225-238 | a request is prepared for the upstream iff the request is valid and the probe reported the backend available, and it is the proxy form |
| `Gateway.ProbeDownIgnoresForward` | llm_backend/main.py:225-227 | with the probe down the result and the recorded messages do not depend on the forwarded call's outcome |
| `Gateway.FailedForwardFallsBack` | llm_backend/main.py:229-261 | any failed forwarded call yields the same response and recorded messages as a down probe |
| `Gateway.Fallback` | llm_backend/main.py:261-319 | the placeholder path forwards nothing, records the user entry then the assistant entry, both of the request's type, and answers with the assistant entry's text, the request's type and no audio; the user entry is the message for text and the transcription placeholder for voice |
| `Gateway.HandleChat` | llm_backend/main.py:201-325 | a response is a rejection iff nothing is recorded; a request is prepared for the upstream only when the probe reported it available, and it is the proxy form; whatever is recorded starts with a user entry and ends with an assistant entry |
| `Gateway.TextFallback` | llm_backend/main.py:297-319 | text fallback answers with the classifier reply as text with no audio, recording the user message then the reply |
| `Gateway.VoiceFallback` | llm_backend/main.py:266-295 | voice fallback records the transcription placeholder (not the submitted message) then the classifier's reply to it, both as voice, and answers with type voice and no audio |
| `Gateway.ProxySuccess` | llm_backend/main.py:231-252 | a successful proxied call returns the upstream document verbatim and records the user message with the request type, then the reply's message (default "") and type (default "text") |
| `Gateway.NonObjectBodyRecordsThree` | llm_backend/main.py:240-259 | a 200 answer with a non-object JSON body records the user message, then the fallback's two entries, and answers with the fallback's response |
| `Gateway.RecordedShapeOrEmpty` | llm_backend/main.py:214-319 | nothing is recorded iff the request is rejected |
| `Gateway.RecordedShape` | llm_backend/main.py:240-319 | an answered request records two or three entries, user first and assistant last; three only for a non-object 200 body |
| `Gateway.PlaceholderResponse` | llm_backend/main.py:261-319 | the placeholder path answers with the fallback response and appends exactly the fallback's entries |
| `Gateway.ChatEndpoint` | llm_backend/main.py:201-325 | the endpoint's response and the request prepared for the upstream are those of the decision; the store is unchanged on rejection; otherwise the session's history is the last ten of the old history plus the recorded entries; other sessions are unchanged; the bound is kept |
| `Connections.EchoText` | llm_backend/main.py:338 | the realtime reply is "Echo: " followed by the inbound text |
| `Connections.EchoTextInjective` | llm_backend/main.py:338 | different inbound texts give different echoes |
| `Connections.ConnectionManager.constructor` | llm_backend/main.py:50-51 | the registry starts empty |
| `Connections.ConnectionManager.Connect` | llm_backend/main.py:53-56 | the user maps to the new handle, replacing any previous one; other users are unchanged |
| `Connections.ConnectionManager.Disconnect` | llm_backend/main.py:58-61 | the user's entry is removed if present, and nothing changes otherwise |
| `Connections.ConnectionManager.SendMessage` | llm_backend/main.py:63-65 | a delivery happens iff the user is registered, to that user's handle with the given text; the registry is not changed |
| `Connections.ConnectionManager.WebsocketSession` | llm_backend/main.py:327-342 | every inbound text is answered, in order, with its echo over the connection's own handle, and on disconnect the user is deregistered |
| `Scenarios.MotorsportQuestion` | llm_backend/main.py:179-180 | "Hello, can you help me with F1 predictions?" gets the motorsport reply, not the greeting |
| `Scenarios.MotorsportBettingQuestion` | llm_backend/final_integration_test.py:51-56 | "Tell me about F1 betting" gets the motorsport reply, not the betting one |
| `Scenarios.MotorsportWithoutUpstream` | llm_backend/main.py:297-319 | "Tell me about F1" with the upstream down is answered with the motorsport reply, as text, with no audio |
| `Scenarios.PlainGreeting` | llm_backend/main.py:183-184 | "hello" gets the greeting reply, not the echo |
| `Scenarios.SessionManagementScenario` | llm_backend/final_integration_test.py:79-96 | three text messages to a new session with the upstream down leave six entries in it |

## Left out

- The F1 data service (`f1_backend/`): a wrapper over third-party motorsport and dataframe libraries, with floating-point lap-time formatting and a wall-clock year list.
- Network I/O: the `httpx` calls, form and file encoding and `audio_file.read()` become the `ProbeOutcome` and `ForwardOutcome` parameters. Audio bytes are not modelled. `forwarded` is the request the proxy prepares; whether it reached the upstream is not modelled. A failed `audio_file.read()` (line 125) happens before the POST at line 129, so nothing is sent; the model gives it the `Raised` outcome, with the same response and history as a failed call.
- The upstream's JSON document is modelled by its `message`, `type` and `audioUrl` fields as optional strings, None meaning the key is absent. Other keys, and non-string values of these keys, are not modelled. That includes an explicit JSON `null`: `.get` returns None for it rather than the default, so the source would record None where the model records "" or "text".
- The detail strings of the proxy's `HTTPException`s are not modelled, only their status codes.
- The generic 500 of `chat_endpoint` (lines 323-325): no step of the modelled request path raises, so the model never produces it.
- The `except` branches of `transcribe_audio` and `text_to_speech`: their `try` bodies cannot raise.
- Framework plumbing: FastAPI routing, CORS, the static mount, `serve_voice_file` (its path check depends on the file system), and `uvicorn` startup.
- The realtime loop ends only through a client disconnect; any other exception from `receive_text` or `send_text` would leave the user registered, and is not modelled.
- Concurrency: requests run one after another. The WebSocket `receive_text` loop is modelled as a finite list of inbound texts that ends with the client's disconnect. Another connection replacing the handle in the middle of that loop is not modelled.
- Timestamps: one opaque `now` per operation, while the source calls `datetime.now()` separately for each field. Logging is not modelled.
- Text.Lower: folds only the ASCII letters A-Z, whereas Python's `str.lower()` folds all Unicode letters. A message with a non-ASCII letter whose lower case contains an ASCII letter (the Kelvin sign, or `İ`, which lowers to `i` plus a combining dot) may be classified differently.
- Test, demo and startup scripts (`test_*.py`, `final_integration_test.py`, `run.py`, `start.py`) are not part of this model, apart from the scenarios above.
