/** Whole runs of the socket server: any sequence of `start_call`,
    `audio_input` and `end_call` events, each carrying the answers its oracles
    give, and what holds along every such run. */
module Lifecycle {
  import opened Common
  import opened CallStore
  import Gemini
  import opened Routes

  /** One socket event together with what the database, clock, id generator,
      model and speech engine answer while it is handled. */
  datatype Event =
    | StartCall(number: Option<string>, newId: string, write: DbWrite)
    | AudioInput(callId: Option<string>, text: Option<string>, model: Gemini.ModelOracle,
                 userWrite: DbWrite, agentWrite: DbWrite, ttsOk: bool)
    | EndCall(callId: Option<string>, write: DbWrite, logWrite: DbWrite)

  function Step(s: Server, e: Event): (r: Outcome)
    ensures Grows(s.store, r.server.store)
    ensures Consistent(s) ==> Consistent(r.server)
  {
    match e
    case StartCall(number, newId, w) => HandleStartCall(s, number, newId, w)
    case AudioInput(callId, text, model, uw, aw, ok) => HandleAudioInput(s, callId, text, model, uw, aw, ok)
    case EndCall(callId, w, lw) => HandleEndCall(s, callId, w, lw)
  }

  /** The state after handling `events` in order, and everything done on the way. */
  function Run(s: Server, events: seq<Event>): (r: Outcome)
    ensures Grows(s.store, r.server.store)
    ensures Consistent(s) ==> Consistent(r.server)
    decreases |events|
  {
    if events == [] then Outcome(s, [])
    else
      var first := Step(s, events[0]);
      var rest := Run(first.server, events[1..]);
      GrowsTransitive(s.store, first.server.store, rest.server.store);
      Outcome(rest.server, first.effects + rest.effects)
  }

  /** One step of `Run`: the first event's effects, then the rest's. */
  lemma RunUnfolds(s: Server, events: seq<Event>)
    requires events != []
    ensures Run(s, events).effects == Step(s, events[0]).effects + Run(Step(s, events[0]).server, events[1..]).effects
  {
  }

  /** The message indices passed to speech synthesis for `callId`, in order. */
  function IndicesFor(effects: seq<Effect>, callId: string): seq<nat>
  {
    if effects == [] then []
    else
      (if effects[0].Synthesize? && effects[0].callId == callId then [effects[0].index] else [])
      + IndicesFor(effects[1..], callId)
  }

  lemma {:induction false} IndicesForConcat(a: seq<Effect>, b: seq<Effect>, callId: string)
    ensures IndicesFor(a + b, callId) == IndicesFor(a, callId) + IndicesFor(b, callId)
  {
    if a == [] {
      assert a + b == b;
    } else {
      assert (a + b)[1..] == a[1..] + b;
      IndicesForConcat(a[1..], b, callId);
    }
  }

  lemma {:induction false} NoSynthesisNoIndices(effects: seq<Effect>, callId: string)
    requires forall e | e in effects :: !e.Synthesize?
    ensures IndicesFor(effects, callId) == []
  {
    if effects != [] {
      assert effects[0] in effects;
      NoSynthesisNoIndices(effects[1..], callId);
    }
  }

  /** The counter value the next index of `callId` follows. */
  function Low(s: Server, callId: string): nat
  {
    if callId in s.counters then s.counters[callId] else 0
  }

  /** What one handled event `o` did to the counter of `callId` and to the
      indices synthesized for it: an active call keeps its counter, or advances
      it by one and synthesizes exactly the new value, or is ended; an ended
      call stays ended; an unknown id can only appear with counter 0. */
  predicate IndexStep(s: Server, o: Outcome, callId: string)
  {
    var idx := IndicesFor(o.effects, callId);
    && (callId in s.counters ==>
          || (callId in o.server.counters && o.server.counters[callId] == s.counters[callId] && idx == [])
          || (callId in o.server.counters && o.server.counters[callId] == s.counters[callId] + 1
              && idx == [s.counters[callId] + 1])
          || (callId !in o.server.counters && callId in o.server.store && idx == []))
    && (callId !in s.counters && callId in s.store ==> callId !in o.server.counters && idx == [])
    && (callId !in s.store ==> idx == [] && (callId in o.server.counters ==> o.server.counters[callId] == 0))
  }

  lemma StartCallIndices(s: Server, number: Option<string>, newId: string, w: DbWrite, callId: string)
    requires Consistent(s)
    ensures IndexStep(s, HandleStartCall(s, number, newId, w), callId)
  {
    NoSynthesisNoIndices(HandleStartCall(s, number, newId, w).effects, callId);
  }

  lemma EndCallIndices(s: Server, c: Option<string>, w: DbWrite, logWrite: DbWrite, callId: string)
    requires Consistent(s)
    ensures IndexStep(s, HandleEndCall(s, c, w, logWrite), callId)
  {
    NoSynthesisNoIndices(HandleEndCall(s, c, w, logWrite).effects, callId);
  }

  /** An accepted turn with a non-empty reply synthesizes exactly the new
      counter value of its own call and nothing for any other call. */
  lemma SpokenTurnIndices(s: Server, c: Option<string>, text: Option<string>, model: Gemini.ModelOracle,
                          uw: DbWrite, aw: DbWrite, ok: bool, callId: string)
    requires Accepted(s, c, text)
    requires ChatAgent.GetGeminiResponse(s.chats, c.value, text.value, model).text != ""
    ensures IndicesFor(HandleAudioInput(s, c, text, model, uw, aw, ok).effects, callId)
            == (if callId == c.value then [s.counters[callId] + 1] else [])
  {
    var effects := HandleAudioInput(s, c, text, model, uw, aw, ok).effects;
    var spoken := effects[5];
    var pre, post := effects[..5], effects[6..];
    assert effects == pre + [spoken] + post;
    assert spoken == Synthesize(c.value, ChatAgent.GetGeminiResponse(s.chats, c.value, text.value, model).text,
                                s.counters[c.value] + 1);
    NoSynthesisNoIndices(pre, callId);
    NoSynthesisNoIndices(post, callId);
    IndicesForConcat(pre + [spoken], post, callId);
    IndicesForConcat(pre, [spoken], callId);
  }

  lemma AudioInputIndices(s: Server, c: Option<string>, text: Option<string>, model: Gemini.ModelOracle,
                          uw: DbWrite, aw: DbWrite, ok: bool, callId: string)
    requires Consistent(s)
    ensures IndexStep(s, HandleAudioInput(s, c, text, model, uw, aw, ok), callId)
  {
    var o := HandleAudioInput(s, c, text, model, uw, aw, ok);
    if !Accepted(s, c, text) {
      NoSynthesisNoIndices(o.effects, callId);
    } else {
      AcceptedTurn(s, c, text, model, uw, aw, ok);
      if ChatAgent.GetGeminiResponse(s.chats, c.value, text.value, model).text == "" {
        NoSynthesisNoIndices(o.effects, callId);
      } else {
        SpokenTurnIndices(s, c, text, model, uw, aw, ok, callId);
      }
    }
  }

  lemma StepIndices(s: Server, e: Event, callId: string)
    requires Consistent(s)
    ensures IndexStep(s, Step(s, e), callId)
  {
    match e
    case StartCall(number, newId, w) => StartCallIndices(s, number, newId, w, callId);
    case EndCall(c, w, lw) => EndCallIndices(s, c, w, lw, callId);
    case AudioInput(c, text, model, uw, aw, ok) => AudioInputIndices(s, c, text, model, uw, aw, ok, callId);
  }

  /** Along any run from a consistent state, the indices synthesized for one
      call count up by one from its counter: `c + 1, c + 2, …`; a call that
      is already ended gets none. */
  lemma {:induction false} RunIndices(s: Server, events: seq<Event>, callId: string)
    requires Consistent(s)
    ensures var idx := IndicesFor(Run(s, events).effects, callId);
            && (callId !in s.counters && callId in s.store ==> idx == [])
            && forall k :: 0 <= k < |idx| ==> idx[k] == Low(s, callId) + k + 1
    decreases |events|
  {
    if events != [] {
      var first := Step(s, events[0]);
      var rest := Run(first.server, events[1..]);
      StepIndices(s, events[0], callId);
      RunIndices(first.server, events[1..], callId);
      IndicesForConcat(first.effects, rest.effects, callId);
      RunUnfolds(s, events);
    }
  }

  /** A call started during a run has its replies synthesized as 1, 2, 3, … */
  lemma NewCallIndicesStartAtOne(s: Server, events: seq<Event>, callId: string)
    requires Consistent(s) && callId !in s.store
    ensures var idx := IndicesFor(Run(s, events).effects, callId);
            forall k :: 0 <= k < |idx| ==> idx[k] == k + 1
  {
    RunIndices(s, events, callId);
  }

  /** No two replies of one call are ever synthesized to the same audio file. */
  lemma AudioPathsNeverRepeat(s: Server, events: seq<Event>, callId: string, j: nat, k: nat)
    requires Consistent(s)
    requires j < k < |IndicesFor(Run(s, events).effects, callId)|
    ensures var idx := IndicesFor(Run(s, events).effects, callId);
            AudioPath(callId, idx[j]) != AudioPath(callId, idx[k])
  {
    var idx := IndicesFor(Run(s, events).effects, callId);
    RunIndices(s, events, callId);
    if AudioPath(callId, idx[j]) == AudioPath(callId, idx[k]) {
      AudioPathInjective(callId, idx[j], callId, idx[k]);
    }
  }

  /** One event leaves the record of an ended call exactly as it was. */
  lemma StepLeavesEndedAlone(s: Server, e: Event, callId: string)
    requires Consistent(s) && callId in s.store && callId !in s.counters
    ensures var o := Step(s, e);
            callId in o.server.store && o.server.store[callId] == s.store[callId] && callId !in o.server.counters
  {
    match e
    case StartCall(number, newId, w) =>
    case EndCall(c, w, lw) =>
    case AudioInput(c, text, model, uw, aw, ok) =>
      if Accepted(s, c, text) {
        AcceptedTurn(s, c, text, model, uw, aw, ok);
      }
  }

  /** Once a call is ended nothing more is ever written to its record: no
      turn is logged and its status is not changed again. */
  lemma {:induction false} EndedCallIsFrozen(s: Server, events: seq<Event>, callId: string)
    requires Consistent(s) && callId in s.store && callId !in s.counters
    ensures var r := Run(s, events).server;
            callId in r.store && r.store[callId] == s.store[callId]
    decreases |events|
  {
    if events != [] {
      var first := Step(s, events[0]);
      StepLeavesEndedAlone(s, events[0], callId);
      EndedCallIsFrozen(first.server, events[1..], callId);
    }
  }
}
