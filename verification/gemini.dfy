/** The language-model boundary shared by agent.py and src/agent_run.py: chat
    history entries and the model itself, seen as an oracle that either answers
    with a text or raises. */
module Gemini {

  /** The `role` of a history entry: `"user"` or `"model"`. */
  datatype Role = User | Model

  /** One history entry `{"role": …, "parts": [text]}`. */
  datatype ChatTurn = ChatTurn(role: Role, text: string)

  /** What sending a message to the model yields: the reply's text, or an exception. */
  datatype ModelOutcome = Replied(text: string) | Raised

  /** The model: its answer to a new user message given the history sent with it. */
  type ModelOracle = (seq<ChatTurn>, string) -> ModelOutcome

  /** The two entries one successful exchange adds to a history. */
  function Exchange(userText: string, reply: string): seq<ChatTurn>
  {
    [ChatTurn(User, userText), ChatTurn(Model, reply)]
  }

  /** A history made of whole exchanges: even length, user and model entries alternating. */
  predicate Alternating(history: seq<ChatTurn>)
  {
    && |history| % 2 == 0
    && forall i :: 0 <= i < |history| ==> history[i].role == (if i % 2 == 0 then User else Model)
  }
}
