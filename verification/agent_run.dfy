/** The single-conversation agent of src/agent_run.py: one global history,
    reset by `initialize_agent` and grown by `process_user_audio_text`. */
module AgentRun {
  import opened Common
  import opened Gemini

  const Reprompt := "I didn't quite catch that. Could you please repeat?"
  const Apology := "I'm sorry, I encountered an error. Could you please try again?"

  /** The global history after `initialize_agent`, and whether it could open
      a chat (it cannot when no model is available). */
  datatype Initialized = Initialized(history: seq<ChatTurn>, chatOpened: bool)

  /** `initialize_agent`: forget the previous conversation. */
  function InitializeAgent(modelAvailable: bool): (r: Initialized)
    ensures r.history == []
    ensures r.chatOpened <==> modelAvailable
  {
    Initialized([], modelAvailable)
  }

  /** What one `send_message` on the chat amounts to: the model answers with
      text, the send itself raises, or the send succeeds but reading the
      response's text raises (a response without a text part). */
  datatype SendOutcome = Answered(text: string) | SendRaised | TextUnreadable

  /** The chat as seen from this agent: the history so far and the user's text
      determine what the send does. */
  type ChatOracle = (seq<ChatTurn>, string) -> SendOutcome

  /** The history after a turn, the text returned, and whether the model was contacted. */
  datatype TurnResult = TurnResult(history: seq<ChatTurn>, reply: string, askedModel: bool)

  /** Input the agent does not pass on: missing, empty or whitespace only. */
  predicate Unheard(userText: Option<string>)
  {
    !Truthy(userText) || Blank(userText.value)
  }

  /** `process_user_audio_text`: re-prompt on unheard input without contacting
      the model; otherwise send the text with the history and, once the reply
      text has been read, append the user's text and the reply. Any error,
      in the send or in reading the text, leaves the history as it was and
      returns the apology. */
  function ProcessUserAudioText(history: seq<ChatTurn>, userText: Option<string>, send: ChatOracle): (r: TurnResult)
    ensures r.askedModel <==> !Unheard(userText)
    ensures !r.askedModel ==> r.reply == Reprompt && r.history == history
    ensures r.askedModel && !send(history, userText.value).Answered? ==>
              r.reply == Apology && r.history == history
    ensures r.askedModel && send(history, userText.value).Answered? ==>
              && r.reply == send(history, userText.value).text
              && |r.history| == |history| + 2
              && r.history[..|history|] == history
              && r.history[|history|] == ChatTurn(User, userText.value)
              && r.history[|history| + 1] == ChatTurn(Model, r.reply)
  {
    if Unheard(userText) then
      TurnResult(history, Reprompt, false)
    else
      match send(history, userText.value)
      case Answered(text) => TurnResult(history + Exchange(userText.value, text), text, true)
      case SendRaised => TurnResult(history, Apology, true)
      case TextUnreadable => TurnResult(history, Apology, true)
  }

  /** The turn as the source writes it: the user's entry is appended right
      after the send succeeds, before the reply text is read, so a reply whose
      text cannot be read leaves the user entry without its model entry. */
  function ProcessUserAudioTextAsWritten(history: seq<ChatTurn>, userText: Option<string>, send: ChatOracle): (r: TurnResult)
    ensures r.askedModel <==> !Unheard(userText)
    ensures r.askedModel && send(history, userText.value).TextUnreadable? ==>
              r.reply == Apology && r.history == history + [ChatTurn(User, userText.value)]
    ensures !(r.askedModel && send(history, userText.value).TextUnreadable?) ==>
              r == ProcessUserAudioText(history, userText, send)
  {
    if Unheard(userText) then
      TurnResult(history, Reprompt, false)
    else
      match send(history, userText.value)
      case Answered(text) => TurnResult(history + Exchange(userText.value, text), text, true)
      case SendRaised => TurnResult(history, Apology, true)
      case TextUnreadable => TurnResult(history + [ChatTurn(User, userText.value)], Apology, true)
  }

  /** As written, one unreadable reply is enough to leave the history with a
      user entry that has no model entry after it, so the history no longer
      consists of whole exchanges. */
  lemma AsWrittenUnreadableTextBreaksAlternation(history: seq<ChatTurn>, userText: Option<string>, send: ChatOracle)
    requires Alternating(history) && !Unheard(userText)
    requires send(history, userText.value).TextUnreadable?
    ensures !Alternating(ProcessUserAudioTextAsWritten(history, userText, send).history)
  {
  }

  /** A concrete instance: the first turn of a fresh conversation. */
  lemma AsWrittenFirstTurnCounterexample()
    ensures var r := ProcessUserAudioTextAsWritten([], Some("hello"), (h, t) => TextUnreadable);
            r.history == [ChatTurn(User, "hello")] && !Alternating(r.history)
  {
    assert "hello"[0] == 'h';
    AsWrittenUnreadableTextBreaksAlternation([], Some("hello"), (h, t) => TextUnreadable);
  }

  /** The history after handling `inputs` one after another. */
  function Converse(history: seq<ChatTurn>, inputs: seq<Option<string>>, send: ChatOracle): seq<ChatTurn>
    decreases |inputs|
  {
    if inputs == [] then history
    else Converse(ProcessUserAudioText(history, inputs[0], send).history, inputs[1..], send)
  }

  /** One turn keeps a history made of whole exchanges. */
  lemma TurnKeepsAlternation(history: seq<ChatTurn>, userText: Option<string>, send: ChatOracle)
    requires Alternating(history)
    ensures Alternating(ProcessUserAudioText(history, userText, send).history)
  {
    var h := ProcessUserAudioText(history, userText, send).history;
    if h != history {
      forall i | 0 <= i < |h|
        ensures h[i].role == (if i % 2 == 0 then User else Model)
      {
        if i < |history| {
          assert h[i] == history[i];
        }
      }
    }
  }

  /** Any number of turns keep a history made of whole exchanges. */
  lemma {:induction false} ConverseKeepsAlternation(history: seq<ChatTurn>, inputs: seq<Option<string>>, send: ChatOracle)
    requires Alternating(history)
    ensures Alternating(Converse(history, inputs, send))
    decreases |inputs|
  {
    if inputs != [] {
      TurnKeepsAlternation(history, inputs[0], send);
      ConverseKeepsAlternation(ProcessUserAudioText(history, inputs[0], send).history, inputs[1..], send);
    }
  }

  /** From a reset, the history always has even length and alternates user
      and model entries, whatever the inputs and the model's answers. */
  lemma ResetConversationAlternates(modelAvailable: bool, inputs: seq<Option<string>>, send: ChatOracle)
    ensures Alternating(Converse(InitializeAgent(modelAvailable).history, inputs, send))
  {
    ConverseKeepsAlternation([], inputs, send);
  }
}
