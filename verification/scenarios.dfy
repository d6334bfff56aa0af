/** The request sequences exercised by the repository's integration scripts, stated over the model. */
module Scenarios {
  import opened Wrappers
  import opened Text
  import opened Sessions
  import opened Requests
  import opened Responder
  import opened Upstream
  import opened Gateway

  function TextRequest(message: string, sessionId: string): ChatRequest
  {
    ChatRequest(message, "text", sessionId, "12345", "testuser", None)
  }

  /** A motorsport trigger beats the greeting that comes first in the text. */
  lemma MotorsportQuestion()
    ensures GenerateLlmResponse("Hello, can you help me with F1 predictions?") == MotorsportReply
  {
    F1MentionWins("Hello, can you help me with F1 predictions?", 28);
  }

  /** A motorsport trigger beats a betting trigger. */
  lemma MotorsportBettingQuestion()
    ensures GenerateLlmResponse("Tell me about F1 betting") == MotorsportReply
  {
    F1MentionWins("Tell me about F1 betting", 14);
  }

  /** "Tell me about F1" with no upstream: the motorsport reply, as text, without audio. */
  lemma MotorsportWithoutUpstream(forward: ForwardOutcome)
    ensures HandleChat(TextRequest("Tell me about F1", "s"), ProbeRaised, forward).response
            == Responded(Reply(Some(MotorsportReply), Some("text"), None))
  {
    F1MentionWins("Tell me about F1", 14);
  }

  /** "hello" gets the greeting reply, not the echo. */
  lemma PlainGreeting()
    ensures GenerateLlmResponse("hello") == GreetingReply
  {
    var l := Lower("hello");
    assert l == "hello";
    assert StartsWith(l, "hello");
    NotContainsMissingChar(l, "f1", 0);
    NotContainsMissingChar(l, "formula", 0);
    NotContainsMissingChar(l, "bet", 0);
    NotContainsMissingChar(l, "betting", 0);
  }

  /** Three text messages to a new session, upstream down: the session then holds six entries. */
  method SessionManagementScenario() returns (count: nat)
    ensures count == 6
  {
    var store := new SessionStore();
    var id := "session_test_456";
    var messages := ["Message 1", "Message 2", "Message 3"];
    for i := 0 to 3
      invariant store.Valid()
      invariant id in store.sessions || i == 0
      invariant id in store.sessions ==> |store.sessions[id].messages| == 2 * i
      invariant i == 0 ==> store.sessions == map[]
    {
      var req := ChatRequest(messages[i], "text", id, "67890", "sessionuser", None);
      RecordedShape(req, ProbeRaised, Raised);
      var response, forwarded := ChatEndpoint(store, req, ProbeRaised, Raised, "now");
    }
    var info := store.GetSessionInfo(id);
    count := |info.value.messages|;
  }
}
