# Per-call conversation sessions of the AI call agent, in Dafny

This project models the conversation-session core of a small phone-call agent
written in Python (Flask, Flask-SocketIO, Gemini, gTTS, MongoDB, Twilio). A
browser starts a simulated call, streams transcribed speech to the server, and
ends the call. Per call id the server keeps three things:

- a message counter (`call_message_counters`), which names the reply audio files;
- a Gemini chat session (`active_chats`);
- a MongoDB call document with an append-only `conversation_log`.

The model covers these pieces:

- `Routes` models the three socket handlers `start_call`, `audio_input` and
  `end_call`. Each is a pure transition over those three maps, and each returns
  the ordered trace of what it did: socket emissions, log writes, model calls
  and speech synthesis.
- `Lifecycle` models arbitrary sequences of these events. It proves what holds
  along every run: which audio indices are used, the invariant that ties the
  maps together, and that the log of an ended call is frozen.
- `ChatAgent` models the chat registry of agent.py.
- `CallStore` models the record operations of utils.py and the audio file
  naming of the text-to-speech helper.
- `Decimal` models the rendering of an `int` inside an f-string.
- `Telephony` models the Twilio webhooks of app.py. Each is a pure function from
  the posted fields to a list of TwiML verbs.
- `AgentRun` models the single global history of src/agent_run.py.

The environment is made of parameters:

- The language model is a function from (history, user text) to a reply text or
  an exception. For src/agent_run.py it also distinguishes a send that succeeds
  but whose reply text cannot be read.
- Each database write is a `DbWrite`: the UTC clock reading taken for it, and
  whether the server performed it.
- The generated uuid is a parameter `newId`. Mongo refuses an `_id` that is
  already taken, so a taken id makes creation fail. A uuid4 string is never
  empty; for an empty one the model still follows `if call_id:` and reports
  failure after the record was inserted.
- The speech engine and the Twilio dial are success/failure parameters. Saving
  the outbound call's record either returns an id (or `None`) or raises.

Behaviour worth knowing:

- Nothing serializes the handlers: there are no locks. Under eventlet, two
  events for one call can interleave at any database or model call. The model
  handles one event at a time; "## Left out" names what interleaving adds.
- There is no timer: a call that is never ended keeps its counter, chat session
  and `initiated` record indefinitely.
- When the model raises, `get_gemini_response` returns a non-empty fallback
  sentence. `audio_input` logs that sentence as an Agent turn, advances the
  counter and synthesizes it, like any other reply.
- `get_gemini_response` silently opens a fresh session for an id without one.
  The model keeps this behaviour. `Routes.AcceptedAudioHasSession` shows that,
  when handlers run one at a time, they never reach that branch.
- The Twilio callback answers speech with a fixed template, not a model call.

## Model

| member | source | states |
|---|---|---|
| Decimal.Show | utils.py:125 | the index in the file name is a decimal numeral: digits only, non-empty, with a leading zero only for 0 |
| Decimal.ParseShow | utils.py:125 | reading the numeral back gives the index (round trip against an independent parser) |
| Decimal.ShowInjective | utils.py:125 | distinct indices render as distinct numerals |
| CallStore.CreateCallRecord | utils.py:37-59 | a new id is returned exactly when the insert succeeds and the id was free. Its record has the phone number, an empty log, status `initiated`, no end time and `last_updated` equal to `start_time`, and no other record changes. Otherwise it returns `None` and the store is unchanged |
| CallStore.AddMessageToLog | utils.py:62-88 | succeeds exactly when the write is performed and the id is known. It then appends one `{speaker, text, timestamp}` entry at the end of that log, keeps earlier entries, status and end time, and touches no other record. An unknown id or a failed write returns false and changes nothing |
| CallStore.EndCallRecord | utils.py:91-117 | succeeds exactly when the first write is performed and the id is known. It sets status and end time, and the System entry `Call ended with status: …` is then the last log entry when its own write succeeds. An unknown id returns false and appends nothing |
| CallStore.TextToSpeech | utils.py:120-135 | returns `audio/response_{call_id}_{index}.mp3` when the engine succeeds and `None` when it fails |
| CallStore.AudioPathInjective | utils.py:125-132 | an audio path determines both the call id and the message index it was made for |
| ChatAgent.StartChatSession | agent.py:22-35 | a known id keeps its session and the registry is unchanged. A new id gets exactly one fresh session with empty history, and every other session is untouched |
| ChatAgent.EndChatSession | agent.py:37-43 | the id is removed if present, and all other ids keep their sessions |
| ChatAgent.GetGeminiResponse | agent.py:46-71 | afterwards the id always has a session, even if it had none. A model reply is returned exactly and recorded in the history. A model exception returns the fixed fallback and leaves the history as it was. Other sessions are untouched |
| ChatAgent.StartIsIdempotent | agent.py:24-28 | starting a session twice equals starting it once |
| ChatAgent.EndUndoesStart | agent.py:33-43 | ending a session just opened for a new id restores the registry |
| ChatAgent.EndUnknownIsNoOp | agent.py:39-43 | ending an id without a session changes nothing |
| ChatAgent.EmptyAnswerOnlyFromModel | agent.py:60-71 | the answer is empty exactly when the model replied with empty text, because the fallback is never empty |
| Routes.HandleStartCall | routes.py:60-86 | a missing or empty number emits an error and changes no counter, chat or record. When creation returns a non-empty id, that id has counter 0, a chat session and a record with an empty log. When it fails, or the id is empty, no counter or chat entry is added and the failure is emitted. The consistency invariant is preserved and logs only grow |
| Routes.HandleAudioInput | routes.py:88-134 | a missing id or empty text, or an id without a counter, is answered with an error and changes nothing, with no log write and no model call. The consistency invariant is preserved and logs only grow |
| Routes.AcceptedTurn | routes.py:107-134 | in an accepted turn the User line is logged before the model is asked. A non-empty reply is logged after that, raises the counter by exactly 1 and is synthesized under the new value. An empty reply leaves the counter unchanged and logs or synthesizes nothing. Only that call's record changes, by exactly the entries whose writes succeeded |
| Routes.HandleEndCall | routes.py:137-160 | for an active id: removes its counter and chat session, marks the record `ended_by_user` with an end time and a System entry, and touches nothing else. Its trace holds that System log write (when the record was found) and no chat-turn write, model call or synthesis. A missing or unknown id changes nothing. The invariant is preserved |
| Routes.AudioAfterEndIsRejected | routes.py:102-105 | after `end_call` on an active id, `audio_input` for it is rejected with no log write and no model call |
| Routes.EndTwiceIsEndOnce | routes.py:149-160 | a second `end_call` for the same id changes nothing |
| Routes.AcceptedAudioHasSession | routes.py:102-109 | in a consistent server every accepted turn already has its chat session, so, with handlers run one at a time, the silent re-creation in the chat registry never fires |
| Lifecycle.Run | routes.py:60-160 | along any run of events, no record is deleted, every log only grows, and the consistency invariant is kept |
| Lifecycle.SpokenTurnIndices | routes.py:115-119 | a turn with a non-empty reply passes exactly one index to synthesis, the call's new counter value, and none for any other call |
| Lifecycle.StepIndices | routes.py:60-160 | one event keeps, advances by one, or removes the counter of an active call. An ended call stays ended, and a new call starts at 0 |
| Lifecycle.RunIndices | routes.py:115-119 | along any run the indices synthesized for one call are `c+1, c+2, …` from its counter, and an already ended call gets none |
| Lifecycle.NewCallIndicesStartAtOne | routes.py:71-119 | a call started during a run has its replies synthesized as 1, 2, 3, … |
| Lifecycle.AudioPathsNeverRepeat | routes.py:115-119 | no two replies of one call are ever written to the same audio file |
| Lifecycle.EndedCallIsFrozen | routes.py:149-152 | with handlers run one at a time, once a call is ended no later event changes its record: no turn is logged and the status stays |
| Telephony.VoiceWebhook | app.py:84-99 | greeting Say, then a speech Gather posting to `/twilio_gather_callback`, then a Redirect to `/twilio_gather_fallback` |
| Telephony.GatherCallback | app.py:115-206 | speech first, then digits, then no input. Every branch ends with the speech Gather and the fallback Redirect and never hangs up. The speech reply contains the user's text. Digits are answered `You pressed {digits}. …`. No input is answered "I didn't hear anything." then "Are you still there?" |
| Telephony.GatherFallback | app.py:221-224 | apology and goodbye, then Hangup, with no Gather |
| Telephony.SpeechOverridesDigits | app.py:121-173 | with speech present, the digits field does not affect the answer |
| Telephony.DigitsOverrideSilence | app.py:173-196 | without speech, non-empty digits are acknowledged rather than treated as silence |
| Telephony.OnlyFallbackHangsUp | app.py:75-224 | whatever inputs are gathered, everything a call is told (greeting, each callback answer, then the fallback) contains exactly one Hangup, the last verb |
| Telephony.InitiateCall | app.py:29-71 | a missing or empty number gives 400 and places no call. Otherwise the number is dialed. The answer is 200, with the call sid and the saved id, exactly when the dial succeeds and the save does not raise. A provider error, or a save that raises after the call was placed, gives 500 with that error |
| Telephony.SaveFailureLooksLikeDialFailure | app.py:42-71 | a save that raises after the call was placed gives the same answer as a refused dial with the same error, so a 500 does not mean no call was placed |
| Telephony.SaveOnlyAfterDial | app.py:35-53 | without a number, or when the dial fails, the save's outcome cannot change the answer |
| AgentRun.InitializeAgent | src/agent_run.py:11-21 | the history is reset to empty, and a chat is opened exactly when a model is available |
| AgentRun.ProcessUserAudioText | src/agent_run.py:23-52 | missing, empty or whitespace-only input returns the re-prompt without contacting the model and without changing history. A successful turn appends exactly the user text and then the reply. Any error, in the send or in reading the reply text, leaves the history unchanged and returns the fixed apology (the corrected turn, see Findings) |
| AgentRun.ProcessUserAudioTextAsWritten | src/agent_run.py:36-52 | the turn as written: identical to the corrected turn except when the reply text cannot be read, where the user entry stays appended without a model entry |
| AgentRun.AsWrittenUnreadableTextBreaksAlternation | src/agent_run.py:40-44 | from any history of whole exchanges, an unreadable reply text leaves a history that is not made of whole exchanges |
| AgentRun.TurnKeepsAlternation | src/agent_run.py:40-44 | for the corrected turn (see Findings), one turn keeps a history of whole user/model exchanges |
| AgentRun.ConverseKeepsAlternation | src/agent_run.py:23-52 | for the corrected turn (see Findings), any number of turns keep a history of whole user/model exchanges |
| AgentRun.ResetConversationAlternates | src/agent_run.py:13-44 | for the corrected turn (see Findings), from a reset the history always has even length and alternates user and model entries |

## Left out

- `cleanup_old_audio_files` (utils.py): it works on the filesystem and wall-clock file times.
- The `connect` handler of routes.py only emits `status_update` 'Connected to server.' to the new client; `disconnect` only logs. The `/` routes only render a page. None of them touches a call.
- Logging (`print`) is left out, and so is the directory creation before each synthesis.
- Gemini, gTTS, MongoDB and Twilio are oracles, including their failures. The model does not describe what they return.
- The chat history kept inside a Gemini chat session is modelled as the library documents it: a successful send appends the user text and the reply, and a raised send appends nothing.
- ChatAgent.GetGeminiResponse: a successful `send_message` whose `response.text` raises is treated as a raised model call, so the chat history stays as it was. The Gemini library has already recorded that exchange by then, and the model does not represent that content. For src/agent_run.py the case is modelled; see Findings.
- `get_gemini_model()` returning `None` inside `process_user_audio_text` is not modelled. That call sits outside the `try`, so the error would propagate; the model assumes a model is always available there.
- `url_for('static', …)` is modelled as the Flask default prefix `/static/`.
- `request.json` being absent in `initiate_call` is not modelled, and neither are request fields that are not strings.
- `save_call_record` (src/utils.py) is not part of this model. Its outcome is a parameter of `Telephony.InitiateCall`: the inserted id, `None` for a failed insert, or an exception from opening the database connection (src/utils.py:25, src/db.py:20).
- Concurrency and eventlet scheduling are left out. Each handler is modelled as one atomic step, and `Routes.AcceptedAudioHasSession` and `Lifecycle.EndedCallIsFrozen` hold only under that assumption.
- Interleaved `audio_input` and `end_call` for one call are not modelled. `end_call` can run while `audio_input` waits on its first database write (routes.py:107), since the client keeps the End button enabled during a turn. The resumed turn then re-creates a chat session for the ended call (agent.py:48-51) and logs an Agent entry after the "Call ended" System entry (routes.py:112). It then raises `KeyError` on the removed counter (routes.py:116).
- Telephony.GatherCallback: for recognized speech the contract states only that the spoken reply contains the user's text, not the full template sentence. The branch for an empty template reply is kept as written; it can never be taken.
- CallStore.TextToSpeech: the engine's success is a parameter. gTTS's refusal of empty text is part of that parameter, not stated separately.

## Findings

| source | as written | input that shows it | evidently intended | confidence | as-written member | corrected member |
|---|---|---|---|---|---|---|
| src/agent_run.py:40-44 | the user entry is appended to the global history before `response.text` is read, so a reply whose text cannot be read leaves a user entry with no model entry, and the next turn sends that broken history | any turn where `send_message` succeeds but `response.text` raises (a response without a text part), e.g. the first turn "hello": history becomes `[user: hello]` | read the reply text first and append both entries only once it is available, so the history stays made of whole user/model exchanges | medium, not executed | AgentRun.ProcessUserAudioTextAsWritten, AgentRun.AsWrittenUnreadableTextBreaksAlternation, AgentRun.AsWrittenFirstTurnCounterexample | AgentRun.ProcessUserAudioText, AgentRun.TurnKeepsAlternation, AgentRun.ConverseKeepsAlternation, AgentRun.ResetConversationAlternates |
