/** The three socket handlers of routes.py (`start_call`, `audio_input`,
    `end_call`) as transitions over the server's per-call state: the message
    counters, the chat sessions and the call records. Each handler also returns
    the ordered trace of what it did to the outside world. */
module Routes {
  import opened Common
  import opened CallStore
  import Gemini
  import ChatAgent

  /** The three maps keyed by call id: `call_message_counters`,
      `active_chats` and the `calls` collection. */
  datatype Server = Server(counters: map<string, nat>, chats: ChatAgent.Chats, store: Store)

  /** What the handlers emit to the browser over the socket. */
  datatype Emission =
    | CallStarted(callId: string, number: string)
    | CallStartFailed(message: string)
    | StatusUpdate(message: string)
    | AgentResponse(text: string, audioUrl: string)
    | CallEnded(callId: string, reason: string)

  /** One externally visible action of a handler, in the order performed. */
  datatype Effect =
    | Emit(emission: Emission)
    | AppendLog(callId: string, speaker: Speaker, text: string)
    | AskModel(callId: string, text: string)
    | Synthesize(callId: string, text: string, index: nat)

  datatype Outcome = Outcome(server: Server, effects: seq<Effect>)

  const NumberRequired := "Phone number is required."
  const InitFailed := "Failed to initialize call."
  const MissingInput := "Error: Missing call ID or text."
  const NotActive := "Error: Call session not active."
  const Thinking := "Getting response from AI..."
  const Speaking := "Generating AI speech..."
  const SpeechFailed := "Error generating AI speech."
  const NoReply := "Error getting AI response."
  const MissingEndId := "Error: Missing call ID for ending call."
  const EndedByUser := "ended_by_user"
  const UserEnded := "User ended call"
  const AlreadyEnded := "Call already ended or invalid ID"

  /** The URL `url_for('static', filename=…)` builds for a path under the static folder. */
  function StaticUrl(fragment: string): string
  {
    "/static/" + fragment
  }

  /** Only socket emissions: no log write, no model call, no speech synthesis. */
  predicate Quiet(effects: seq<Effect>)
  {
    forall e | e in effects :: e.Emit?
  }

  /** `a` occurs in `effects` before `b`. */
  predicate Precedes(effects: seq<Effect>, a: Effect, b: Effect)
  {
    exists i, j :: 0 <= i < j < |effects| && effects[i] == a && effects[j] == b
  }

  /** The state every reachable server keeps: a call has a counter exactly when
      it has a chat session, and every counted call has a record that is still
      `initiated` and has no end time. */
  predicate Consistent(s: Server)
  {
    && s.chats.Keys == s.counters.Keys
    && s.counters.Keys <= s.store.Keys
    && forall id :: id in s.counters ==> s.store[id].status == Initiated && s.store[id].endTime == None
  }

  /** `handle_start_call`: a missing or empty number is refused; otherwise a
      record is created under the generated id `newId`, and only when that
      returns a non-empty id does the call get a zero counter and a chat
      session. (A generated uuid is never empty; an empty one would leave a
      record behind and still report failure.) */
  function HandleStartCall(s: Server, number: Option<string>, newId: string, w: DbWrite): (r: Outcome)
    ensures !Truthy(number) ==> r == Outcome(s, [Emit(CallStartFailed(NumberRequired))])
    ensures Truthy(number) && !(w.accepted && newId !in s.store) ==>
              r == Outcome(s, [Emit(CallStartFailed(InitFailed))])
    ensures Truthy(number) && w.accepted && newId !in s.store && newId == "" ==>
              && r.effects == [Emit(CallStartFailed(InitFailed))]
              && r.server.counters == s.counters && r.server.chats == s.chats
              && r.server.store.Keys == s.store.Keys + {newId}
    ensures Truthy(number) && w.accepted && newId !in s.store && newId != "" ==>
              && r.effects == [Emit(CallStarted(newId, number.value))]
              && r.server.counters == s.counters[newId := 0]
              && newId in r.server.chats
              && (newId !in s.chats ==> r.server.chats[newId].history == [])
              && (forall k :: k in s.chats ==> k in r.server.chats && r.server.chats[k] == s.chats[k])
              && r.server.store.Keys == s.store.Keys + {newId}
              && r.server.store[newId].phoneNumber == number.value
              && r.server.store[newId].conversationLog == []
    ensures Quiet(r.effects)
    ensures Grows(s.store, r.server.store)
    ensures Consistent(s) ==> Consistent(r.server)
  {
    if !Truthy(number) then
      Outcome(s, [Emit(CallStartFailed(NumberRequired))])
    else
      var created := CreateCallRecord(s.store, number.value, newId, w);
      if Truthy(created.callId) then
        var callId := created.callId.value;
        Outcome(Server(s.counters[callId := 0], ChatAgent.StartChatSession(s.chats, callId).chats, created.store),
                [Emit(CallStarted(callId, number.value))])
      else
        Outcome(s.(store := created.store), [Emit(CallStartFailed(InitFailed))])
  }

  /** The call `audio_input` accepts: both fields present and non-empty, and
      the id has a counter. */
  predicate Accepted(s: Server, callId: Option<string>, text: Option<string>)
  {
    Truthy(callId) && Truthy(text) && callId.value in s.counters
  }

  /** `handle_audio_input`: log the user's line, ask the model, and when the
      reply is non-empty log it, advance the call's counter by one and
      synthesize the reply under the new counter value. */
  function HandleAudioInput(s: Server, callId: Option<string>, text: Option<string>, model: Gemini.ModelOracle,
                            userWrite: DbWrite, agentWrite: DbWrite, ttsOk: bool): (r: Outcome)
    ensures !Truthy(callId) || !Truthy(text) ==> r == Outcome(s, [Emit(StatusUpdate(MissingInput))])
    ensures Truthy(callId) && Truthy(text) && callId.value !in s.counters ==>
              r == Outcome(s, [Emit(StatusUpdate(NotActive))])
    ensures Grows(s.store, r.server.store)
    ensures Consistent(s) ==> Consistent(r.server)
  {
    if !Truthy(callId) || !Truthy(text) then
      Outcome(s, [Emit(StatusUpdate(MissingInput))])
    else if callId.value !in s.counters then
      Outcome(s, [Emit(StatusUpdate(NotActive))])
    else
      var id, t := callId.value, text.value;
      var logged := AddMessageToLog(s.store, id, User, t, userWrite).store;
      var answer := ChatAgent.GetGeminiResponse(s.chats, id, t, model);
      var asked := [AppendLog(id, User, t), Emit(StatusUpdate(Thinking)), AskModel(id, t)];
      if answer.text != "" then
        var n := s.counters[id] + 1;
        var audio := TextToSpeech(answer.text, id, n, ttsOk);
        var told := [AppendLog(id, Agent, answer.text), Emit(StatusUpdate(Speaking))];
        var delivered := if audio.Some? then [Emit(AgentResponse(answer.text, StaticUrl(audio.value)))]
                         else [Emit(StatusUpdate(SpeechFailed))];
        var effects := asked + told + [Synthesize(id, answer.text, n)] + delivered;
        Outcome(Server(s.counters[id := n], answer.chats, AddMessageToLog(logged, id, Agent, answer.text, agentWrite).store),
                effects)
      else
        var effects := asked + [Emit(StatusUpdate(NoReply))];
        Outcome(s.(chats := answer.chats, store := logged), effects)
  }

  /** One accepted `audio_input` turn. The user's line is logged before the
      model is asked. A non-empty reply is logged after that, raises the
      call's counter by exactly one and is synthesized under the new value; an
      empty reply leaves the counter alone and logs and synthesizes nothing.
      Only the call's own record changes, and its log grows by exactly the
      entries whose writes the database performed. */
  lemma AcceptedTurn(s: Server, callId: Option<string>, text: Option<string>, model: Gemini.ModelOracle,
                     userWrite: DbWrite, agentWrite: DbWrite, ttsOk: bool)
    requires Accepted(s, callId, text)
    ensures var r := HandleAudioInput(s, callId, text, model, userWrite, agentWrite, ttsOk);
            var id, t := callId.value, text.value;
            var answer := ChatAgent.GetGeminiResponse(s.chats, id, t, model);
            && r.server.chats == answer.chats
            && Precedes(r.effects, AppendLog(id, User, t), AskModel(id, t))
            && (answer.text != "" ==>
                  && Precedes(r.effects, AskModel(id, t), AppendLog(id, Agent, answer.text))
                  && r.server.counters == s.counters[id := s.counters[id] + 1]
                  && Synthesize(id, answer.text, s.counters[id] + 1) in r.effects)
            && (answer.text == "" ==>
                  && r.server.counters == s.counters
                  && forall e | e in r.effects :: !e.Synthesize? && !(e.AppendLog? && e.speaker == Agent))
            && OnlyTouches(s.store, r.server.store, id)
            && (id in s.store ==>
                  LogOf(r.server.store, id)
                  == LogOf(s.store, id) + Kept(User, t, userWrite)
                     + (if answer.text != "" then Kept(Agent, answer.text, agentWrite) else []))
  {
    var r := HandleAudioInput(s, callId, text, model, userWrite, agentWrite, ttsOk);
    var id, t := callId.value, text.value;
    var answer := ChatAgent.GetGeminiResponse(s.chats, id, t, model);
    assert r.effects[0] == AppendLog(id, User, t) && r.effects[2] == AskModel(id, t);
    if answer.text != "" {
      assert r.effects[3] == AppendLog(id, Agent, answer.text);
      assert r.effects[5] == Synthesize(id, answer.text, s.counters[id] + 1);
    }
  }

  /** `handle_end_call`: for a call that has a counter, end its chat session,
      mark its record `ended_by_user` (which also asks for the System note to
      be logged once the record is found) and drop its counter; any other id
      changes nothing. */
  function HandleEndCall(s: Server, callId: Option<string>, w: DbWrite, logWrite: DbWrite): (r: Outcome)
    ensures !Truthy(callId) ==> r == Outcome(s, [Emit(StatusUpdate(MissingEndId))])
    ensures Truthy(callId) && callId.value !in s.counters ==>
              r == Outcome(s, [Emit(CallEnded(callId.value, AlreadyEnded))])
    ensures Truthy(callId) && callId.value in s.counters ==>
              var id := callId.value;
              && r.effects == (if w.accepted && id in s.store then [AppendLog(id, System, EndedNote(EndedByUser))] else [])
                              + [Emit(CallEnded(id, UserEnded))]
              && r.server.counters.Keys == s.counters.Keys - {id}
              && (forall k :: k in r.server.counters ==> r.server.counters[k] == s.counters[k])
              && r.server.chats.Keys == s.chats.Keys - {id}
              && (forall k :: k in r.server.chats ==> r.server.chats[k] == s.chats[k])
              && OnlyTouches(s.store, r.server.store, id)
              && (w.accepted && id in s.store ==>
                    && r.server.store[id].status == EndedByUser
                    && r.server.store[id].endTime == Some(w.now)
                    && LogOf(r.server.store, id) == LogOf(s.store, id) + Kept(System, EndedNote(EndedByUser), logWrite))
              && (!w.accepted ==> r.server.store == s.store)
    ensures forall e | e in r.effects :: !e.AskModel? && !e.Synthesize? && (e.AppendLog? ==> e.speaker == System)
    ensures Grows(s.store, r.server.store)
    ensures Consistent(s) ==> Consistent(r.server)
  {
    if !Truthy(callId) then
      Outcome(s, [Emit(StatusUpdate(MissingEndId))])
    else if callId.value in s.counters then
      var id := callId.value;
      var chats := ChatAgent.EndChatSession(s.chats, id);
      var ended := EndCallRecord(s.store, id, EndedByUser, w, logWrite);
      var noted := if ended.ok then [AppendLog(id, System, EndedNote(EndedByUser))] else [];
      Outcome(Server(s.counters - {id}, chats, ended.store), noted + [Emit(CallEnded(id, UserEnded))])
    else
      Outcome(s, [Emit(CallEnded(callId.value, AlreadyEnded))])
  }

  /** Once a call is ended, further audio for it is refused without logging
      anything or asking the model. */
  lemma AudioAfterEndIsRejected(s: Server, id: string, w: DbWrite, logWrite: DbWrite,
                                text: Option<string>, model: Gemini.ModelOracle,
                                userWrite: DbWrite, agentWrite: DbWrite, ttsOk: bool)
    requires id != "" && id in s.counters
    ensures var ended := HandleEndCall(s, Some(id), w, logWrite).server;
            var r := HandleAudioInput(ended, Some(id), text, model, userWrite, agentWrite, ttsOk);
            r.server == ended && Quiet(r.effects)
  {
  }

  /** Ending the same call twice: the second end changes nothing. */
  lemma EndTwiceIsEndOnce(s: Server, callId: Option<string>, w: DbWrite, logWrite: DbWrite, w2: DbWrite, logWrite2: DbWrite)
    ensures var once := HandleEndCall(s, callId, w, logWrite).server;
            HandleEndCall(once, callId, w2, logWrite2).server == once
  {
  }

  /** In a consistent server the chat registry's silent recovery never fires:
      every call `audio_input` accepts already has its session, so the model
      sees that call's own history. */
  lemma AcceptedAudioHasSession(s: Server, callId: Option<string>, text: Option<string>)
    requires Consistent(s) && Accepted(s, callId, text)
    ensures callId.value in s.chats
  {
  }
}
