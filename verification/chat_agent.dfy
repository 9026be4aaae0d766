/** The per-call chat sessions of agent.py: the `active_chats` registry from
    call id to a Gemini chat session, and the three operations on it. */
module ChatAgent {
  import opened Gemini

  /** A chat session: the history the library sends along with every message. */
  datatype ChatSession = ChatSession(history: seq<ChatTurn>)

  /** `active_chats`: call id to chat session. */
  type Chats = map<string, ChatSession>

  /** What `get_gemini_response` says when the model raises. */
  const Fallback := "Sorry, I encountered an error trying to process that."

  datatype Started = Started(chats: Chats, session: ChatSession)

  datatype Answer = Answer(chats: Chats, text: string)

  /** The history of the session of `callId`; a session not yet opened has none. */
  function HistoryOf(chats: Chats, callId: string): seq<ChatTurn>
  {
    if callId in chats then chats[callId].history else []
  }

  /** `start_chat_session`: reuse the session of a known id, otherwise open one
      with an empty history. No other session is touched. */
  function StartChatSession(chats: Chats, callId: string): (r: Started)
    ensures callId in r.chats && r.chats[callId] == r.session
    ensures callId in chats ==> r.chats == chats
    ensures callId !in chats ==> r.session.history == [] && r.chats.Keys == chats.Keys + {callId}
    ensures forall k :: k in chats ==> k in r.chats && r.chats[k] == chats[k]
  {
    if callId in chats then Started(chats, chats[callId])
    else Started(chats[callId := ChatSession([])], ChatSession([]))
  }

  /** `end_chat_session`: forget the session of `callId` if there is one. */
  function EndChatSession(chats: Chats, callId: string): (r: Chats)
    ensures r.Keys == chats.Keys - {callId}
    ensures forall k :: k in r ==> r[k] == chats[k]
  {
    chats - {callId}
  }

  /** `get_gemini_response`: send `userText` on the session of `callId`,
      opening a fresh one first when the id has none, so that afterwards the id
      always has a session. A reply is returned as is and recorded in the
      history; an exception is swallowed and answered with `Fallback`. */
  function GetGeminiResponse(chats: Chats, callId: string, userText: string, model: ModelOracle): (r: Answer)
    ensures callId in r.chats
    ensures r.chats.Keys == chats.Keys + {callId}
    ensures forall k :: k in chats && k != callId ==> r.chats[k] == chats[k]
    ensures model(HistoryOf(chats, callId), userText).Raised? ==>
              r.text == Fallback && r.chats[callId].history == HistoryOf(chats, callId)
    ensures model(HistoryOf(chats, callId), userText).Replied? ==>
              && r.text == model(HistoryOf(chats, callId), userText).text
              && r.chats[callId].history == HistoryOf(chats, callId) + Exchange(userText, r.text)
  {
    var started := StartChatSession(chats, callId);
    match model(started.session.history, userText)
    case Replied(text) =>
      Answer(started.chats[callId := ChatSession(started.session.history + Exchange(userText, text))], text)
    case Raised =>
      Answer(started.chats, Fallback)
  }

  /** Starting a session twice is the same as starting it once. */
  lemma StartIsIdempotent(chats: Chats, callId: string)
    ensures StartChatSession(StartChatSession(chats, callId).chats, callId) == StartChatSession(chats, callId)
  {
  }

  /** Ending a session just started for a new id restores the registry. */
  lemma EndUndoesStart(chats: Chats, callId: string)
    requires callId !in chats
    ensures EndChatSession(StartChatSession(chats, callId).chats, callId) == chats
  {
  }

  /** Ending an id that has no session changes nothing. */
  lemma EndUnknownIsNoOp(chats: Chats, callId: string)
    requires callId !in chats
    ensures EndChatSession(chats, callId) == chats
  {
  }

  /** The answer is empty exactly when the model itself replied with an empty
      text: the fallback for an exception is never empty. */
  lemma EmptyAnswerOnlyFromModel(chats: Chats, callId: string, userText: string, model: ModelOracle)
    ensures GetGeminiResponse(chats, callId, userText, model).text == ""
        <==> model(HistoryOf(chats, callId), userText) == Replied("")
  {
  }
}
