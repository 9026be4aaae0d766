/** The telephony side of app.py: the outbound-call request check and the
    three webhooks, each a pure function from the posted form fields to the
    list of TwiML verbs it answers with. */
module Telephony {
  import opened Common

  /** The TwiML verbs the webhooks use. */
  datatype Verb =
    | Say(text: string)
    | Gather(input: string, action: string, httpMethod: string, speechTimeout: string, timeout: nat, language: string)
    | Redirect(url: string, httpMethod: string)
    | Hangup

  const CallbackUrl := "/twilio_gather_callback"
  const FallbackUrl := "/twilio_gather_fallback"
  const Greeting := "Hello! I am your AI agent. How can I help you today?"
  const NothingHeard := "I didn't hear anything."
  const StillThere := "Are you still there?"
  const NoInputApology := "I apologize, I didn't receive any input."
  const Goodbye := "Thank you for calling. Goodbye."

  /** The `<Gather>` every prompt ends with: speech, posted back to the callback. */
  const ListenForSpeech := Gather("speech", CallbackUrl, "POST", "auto", 5, "en-US")

  /** Where the call goes when that gather times out. */
  const ToFallback := Redirect(FallbackUrl, "POST")

  /** The "keep listening" shape: the answer ends by gathering speech for the
      callback, then redirecting to the fallback, and never hangs up. */
  predicate KeepsListening(verbs: seq<Verb>)
  {
    && |verbs| >= 2
    && verbs[|verbs| - 2] == ListenForSpeech
    && verbs[|verbs| - 1] == ToFallback
    && forall i :: 0 <= i < |verbs| ==> !verbs[i].Hangup?
  }

  /** The closing shape: only spoken lines, then a hang-up. */
  predicate SaysGoodbye(verbs: seq<Verb>)
  {
    && |verbs| >= 1
    && verbs[|verbs| - 1] == Hangup
    && forall i :: 0 <= i < |verbs| - 1 ==> verbs[i].Say?
  }

  /** `twilio_voice_webhook`: greet, then listen. */
  function VoiceWebhook(): (r: seq<Verb>)
    ensures |r| == 3 && r[0] == Say(Greeting)
    ensures KeepsListening(r)
  {
    [Say(Greeting), ListenForSpeech, ToFallback]
  }

  /** The reply the callback speaks for recognized speech (a fixed template,
      not a model call). */
  function SpeechReply(userText: string): string
  {
    "You said: " + userText + ". I understand. What else would you like to know?"
  }

  /** `twilio_gather_callback`: speech takes priority over digits, and digits
      over no input; every branch keeps listening. */
  function GatherCallback(speech: Option<string>, digits: Option<string>): (r: seq<Verb>)
    ensures KeepsListening(r)
    ensures Truthy(speech) ==> |r| == 3 && r[0].Say? && Contains(r[0].text, speech.value)
    ensures !Truthy(speech) && Truthy(digits) ==>
              r == [Say("You pressed " + digits.value + ". Let's continue the conversation."), ListenForSpeech, ToFallback]
    ensures !Truthy(speech) && !Truthy(digits) ==>
              r == [Say(NothingHeard), Say(StillThere), ListenForSpeech, ToFallback]
  {
    if Truthy(speech) then
      var reply := SpeechReply(speech.value);
      assert reply[10..] == speech.value + ". I understand. What else would you like to know?";
      if reply != "" then
        [Say(reply), ListenForSpeech, ToFallback]
      else
        [Say("I'm sorry, I couldn't generate a response at this time."), Say("Please try again."),
         ListenForSpeech, ToFallback]
    else if Truthy(digits) then
      [Say("You pressed " + digits.value + ". Let's continue the conversation."), ListenForSpeech, ToFallback]
    else
      [Say(NothingHeard), Say(StillThere), ListenForSpeech, ToFallback]
  }

  /** `twilio_gather_fallback`: apologize, say goodbye, hang up; no gather. */
  function GatherFallback(): (r: seq<Verb>)
    ensures SaysGoodbye(r)
    ensures |r| == 3 && r[0] == Say(NoInputApology) && r[1] == Say(Goodbye)
    ensures forall i :: 0 <= i < |r| ==> !r[i].Gather?
  {
    [Say(NoInputApology), Say(Goodbye), Hangup]
  }

  /** When speech was recognized the digits field is ignored. */
  lemma SpeechOverridesDigits(speech: Option<string>, d1: Option<string>, d2: Option<string>)
    requires Truthy(speech)
    ensures GatherCallback(speech, d1) == GatherCallback(speech, d2)
  {
  }

  /** Without speech, any non-empty digits are acknowledged rather than
      treated as silence, whatever empty speech field came with them. */
  lemma DigitsOverrideSilence(s1: Option<string>, s2: Option<string>, digits: Option<string>)
    requires !Truthy(s1) && !Truthy(s2) && Truthy(digits)
    ensures GatherCallback(s1, digits) == GatherCallback(s2, digits)
    ensures GatherCallback(s1, digits) != GatherCallback(s1, None)
  {
  }

  /** What the callback answers to each gathered input of a call, in order. */
  function Answers(inputs: seq<(Option<string>, Option<string>)>): seq<Verb>
  {
    if inputs == [] then []
    else GatherCallback(inputs[0].0, inputs[0].1) + Answers(inputs[1..])
  }

  lemma {:induction false} AnswersNeverHangUp(inputs: seq<(Option<string>, Option<string>)>)
    ensures forall i :: 0 <= i < |Answers(inputs)| ==> !Answers(inputs)[i].Hangup?
  {
    if inputs != [] {
      var head := GatherCallback(inputs[0].0, inputs[0].1);
      AnswersNeverHangUp(inputs[1..]);
      forall i | 0 <= i < |Answers(inputs)|
        ensures !Answers(inputs)[i].Hangup?
      {
        if i >= |head| {
          assert Answers(inputs)[i] == Answers(inputs[1..])[i - |head|];
        }
      }
    }
  }

  /** Everything a call is told: the greeting, the callback's answer to each
      gathered input, and finally the fallback once a gather times out. */
  function CallScript(inputs: seq<(Option<string>, Option<string>)>): seq<Verb>
  {
    VoiceWebhook() + Answers(inputs) + GatherFallback()
  }

  /** However many gathers a call goes through, it is hung up exactly once,
      by the fallback, at the very end. */
  lemma OnlyFallbackHangsUp(inputs: seq<(Option<string>, Option<string>)>)
    ensures var t := CallScript(inputs);
            && t[|t| - 1] == Hangup
            && forall i :: 0 <= i < |t| - 1 ==> !t[i].Hangup?
  {
    var t := CallScript(inputs);
    var a := Answers(inputs);
    AnswersNeverHangUp(inputs);
    forall i | 0 <= i < |t| - 1
      ensures !t[i].Hangup?
    {
      if i < 3 {
        assert t[i] == VoiceWebhook()[i];
      } else if i < 3 + |a| {
        assert t[i] == a[i - 3];
      } else {
        assert t[i] == GatherFallback()[i - 3 - |a|];
      }
    }
  }

  /** How `initiate_call` answers. */
  datatype CallRequestReply = CallRequestReply(
    code: nat,
    status: string,
    message: string,
    callSid: Option<string>,
    dbId: Option<string>,
    dialed: Option<string>)

  /** What the telephony provider answers to a call-creation request. */
  datatype DialOutcome = Dialed(sid: string) | DialFailed(error: string)

  /** What saving the call record does: it returns the inserted id, or `None`
      when the insert itself fails (that error is caught inside the save), or
      it raises because the database connection could not be opened, which
      happens before the save's own error handling. */
  datatype SaveOutcome = Saved(id: Option<string>) | SaveRaised(error: string)

  /** `initiate_call`: a request without a number is refused with 400 and
      places no call. Otherwise the call is placed and its record saved. A
      provider error, or a save that raises after the call was already
      placed, becomes a 500. */
  function InitiateCall(number: Option<string>, dial: DialOutcome, save: SaveOutcome): (r: CallRequestReply)
    ensures !Truthy(number) <==> r.code == 400
    ensures !Truthy(number) ==> r.dialed == None && r.status == "error" && r.message == "Phone number is required"
    ensures Truthy(number) ==> r.dialed == Some(number.value)
    ensures r.code == 200 <==> Truthy(number) && dial.Dialed? && save.Saved?
    ensures r.code == 200 ==>
              && r.status == "success"
              && r.message == "Call initiated to " + number.value
              && r.callSid == Some(dial.sid) && r.dbId == save.id
    ensures Truthy(number) && dial.DialFailed? ==>
              r.code == 500 && r.status == "error" && r.message == "Failed to initiate call: " + dial.error
    ensures Truthy(number) && dial.Dialed? && save.SaveRaised? ==>
              r.code == 500 && r.status == "error" && r.message == "Failed to initiate call: " + save.error
  {
    if !Truthy(number) then
      CallRequestReply(400, "error", "Phone number is required", None, None, None)
    else
      match dial
      case DialFailed(error) =>
        CallRequestReply(500, "error", "Failed to initiate call: " + error, None, None, Some(number.value))
      case Dialed(sid) =>
        match save
        case Saved(id) =>
          CallRequestReply(200, "success", "Call initiated to " + number.value, Some(sid), id, Some(number.value))
        case SaveRaised(error) =>
          CallRequestReply(500, "error", "Failed to initiate call: " + error, None, None, Some(number.value))
  }

  /** A save that raises after the call was placed answers exactly like a
      provider that refused the call with the same error: the client cannot
      tell from a 500 whether a call is ringing. */
  lemma SaveFailureLooksLikeDialFailure(number: Option<string>, sid: string, error: string, save: SaveOutcome)
    ensures InitiateCall(number, Dialed(sid), SaveRaised(error)) == InitiateCall(number, DialFailed(error), save)
  {
  }

  /** The record is saved only for a placed call: without a number, or when
      the dial fails, the outcome of the save cannot change the answer. */
  lemma SaveOnlyAfterDial(number: Option<string>, dial: DialOutcome, s1: SaveOutcome, s2: SaveOutcome)
    requires !Truthy(number) || dial.DialFailed?
    ensures InitiateCall(number, dial, s1) == InitiateCall(number, dial, s2)
  {
  }
}
