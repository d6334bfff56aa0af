/**
 * The local placeholder responder: a keyword classifier standing in for an
 * LLM, and speech-to-text / text-to-speech stubs.
 */
module Responder {
  import opened Wrappers
  import opened Text
  import Requests

  // The replies are split after a short head so that their first characters are cheap to compare.
  const MotorsportReply: string :=
    "I can help " + "you with F1 predictions and analysis! Based on current data, I'd recommend checking the latest qualifying results and driver performance metrics."
  const BettingReply: string :=
    "For sports " + "betting insights, I can analyze match statistics, team performance, and historical data to help you make informed decisions."
  const GreetingReply: string :=
    "Hello! " + "I'm your AI assistant for sports betting and F1 analysis. How can I help you today?"
  const EchoOpening: string := "I understand you said: '"
  const EchoClosing: string :=
    "'. I'm here to help with sports betting analysis, F1 predictions, and match insights. What specific information are you looking for?"

  /** The text returned by the speech-to-text stub. */
  const TranscriptionPlaceholder: string :=
    "I received your voice message, but speech-to-text is not implemented yet. Please use text messages for now."

  /** The fallback reply that quotes the message back. */
  function EchoReply(message: string): string
  {
    EchoOpening + message + EchoClosing
  }

  /** Which branch of the classifier a message takes. */
  datatype Topic = Motorsport | Betting | Greeting | Unrecognised

  predicate MentionsMotorsport(message: string)
  {
    Contains(Lower(message), "f1") || Contains(Lower(message), "formula")
  }

  predicate MentionsBetting(message: string)
  {
    Contains(Lower(message), "bet") || Contains(Lower(message), "betting")
  }

  predicate MentionsGreeting(message: string)
  {
    Contains(Lower(message), "hello") || Contains(Lower(message), "hi")
  }

  /** The if/elif chain of `generate_llm_response`: the first trigger group that matches wins. */
  function Classify(message: string): (t: Topic)
    ensures t == Unrecognised <==> !MentionsMotorsport(message) && !MentionsBetting(message) && !MentionsGreeting(message)
    ensures MentionsMotorsport(message) ==> t == Motorsport
    ensures t == Betting ==> MentionsBetting(message)
    ensures t == Greeting ==> MentionsGreeting(message) && !MentionsBetting(message)
  {
    if MentionsMotorsport(message) then Motorsport
    else if MentionsBetting(message) then Betting
    else if MentionsGreeting(message) then Greeting
    else Unrecognised
  }

  /**
   * `generate_llm_response(message, session_context, user_id)`: the session
   * context and the user id are not used by the source, so they are not
   * parameters here.
   */
  function GenerateLlmResponse(message: string): (r: string)
    ensures r == MotorsportReply || r == BettingReply || r == GreetingReply || r == EchoReply(message)
    ensures MentionsMotorsport(message) ==> r == MotorsportReply
    ensures !MentionsMotorsport(message) && !MentionsBetting(message) && !MentionsGreeting(message) ==> r == EchoReply(message)
  {
    match Classify(message)
    case Motorsport => MotorsportReply
    case Betting => BettingReply
    case Greeting => GreetingReply
    case Unrecognised => EchoReply(message)
  }

  /** `transcribe_audio`: the stub ignores the audio. */
  function TranscribeAudio(audio: Requests.AudioUpload): (r: string)
    ensures r == TranscriptionPlaceholder
  {
    TranscriptionPlaceholder
  }

  /** `text_to_speech`: the stub produces no audio reference. */
  function TextToSpeech(text: string): (r: Option<string>)
    ensures r.None?
  {
    None
  }

  /** The speech stubs do not depend on their input: every audio gives the same text, and no text gives audio. */
  lemma SpeechStubsAreConstant(a: Requests.AudioUpload, b: Requests.AudioUpload, text: string)
    ensures TranscribeAudio(a) == TranscribeAudio(b) == TranscriptionPlaceholder
    ensures TextToSpeech(text).None?
  {
  }

  /** The four replies are pairwise distinct, so a reply tells which branch was taken. */
  lemma RepliesDistinct(message: string)
    ensures MotorsportReply != BettingReply && MotorsportReply != GreetingReply && BettingReply != GreetingReply
    ensures EchoReply(message) != MotorsportReply
    ensures EchoReply(message) != BettingReply
    ensures EchoReply(message) != GreetingReply
  {
    assert MotorsportReply[0] == 'I' && BettingReply[0] == 'F' && GreetingReply[0] == 'H';
    assert EchoReply(message)[2] == 'u' && MotorsportReply[2] == 'c';
    assert EchoReply(message)[0] == 'I';
  }

  /**
   * Priority of the classifier: the motorsport reply exactly when a motorsport
   * trigger occurs; the betting reply exactly when a betting trigger occurs
   * and no motorsport one does; the greeting reply exactly when only a
   * greeting trigger occurs; otherwise the echo reply.
   */
  lemma ReplyPriority(message: string)
    ensures GenerateLlmResponse(message) == MotorsportReply <==> MentionsMotorsport(message)
    ensures GenerateLlmResponse(message) == BettingReply <==> !MentionsMotorsport(message) && MentionsBetting(message)
    ensures GenerateLlmResponse(message) == GreetingReply
      <==> !MentionsMotorsport(message) && !MentionsBetting(message) && MentionsGreeting(message)
    ensures GenerateLlmResponse(message) == EchoReply(message)
      <==> !MentionsMotorsport(message) && !MentionsBetting(message) && !MentionsGreeting(message)
  {
    RepliesDistinct(message);
  }

  /** The echo reply quotes the original message verbatim (not lower-cased). */
  lemma EchoQuotesMessage(message: string)
    requires Classify(message) == Unrecognised
    ensures Contains(GenerateLlmResponse(message), message)
  {
    ContainsMiddle(EchoOpening, message, EchoClosing);
  }

  /** Matching is case-insensitive: lower-casing a message first selects the same branch. */
  lemma ClassifyIgnoresCase(message: string)
    ensures Classify(Lower(message)) == Classify(message)
  {
    LowerIdempotent(message);
  }

  /** The "betting" test of the second branch is subsumed by the "bet" test before it. */
  lemma BettingTriggerSubsumed(message: string)
    ensures MentionsBetting(message) <==> Contains(Lower(message), "bet")
  {
    var l := Lower(message);
    ContainsIff(l, "betting");
    ContainsIff(l, "bet");
    if Contains(l, "betting") {
      var i :| OccursAt(l, "betting", i);
      assert l[i..i + 3] == l[i..i + 7][..3];
      assert OccursAt(l, "bet", i);
    }
  }

  /** An "F1" or "f1" anywhere in the message selects the motorsport reply, whatever else it mentions. */
  lemma F1MentionWins(message: string, i: nat)
    requires i + 2 <= |message| && message[i] in "fF" && message[i + 1] == '1'
    ensures GenerateLlmResponse(message) == MotorsportReply
  {
    var l := Lower(message);
    assert l[i..i + 2] == "f1";
    assert OccursAt(l, "f1", i);
    ContainsIff(l, "f1");
  }
}
