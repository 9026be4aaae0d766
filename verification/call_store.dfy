/** The persisted call records of utils.py: the `calls` collection of call
    documents keyed by call id, each with an append-only conversation log, and
    the file naming of the text-to-speech helper. The database, the clock, the
    id generator and the speech engine are parameters. */
module CallStore {
  import opened Common
  import Decimal

  /** Who said a logged line: `"User"`, `"Agent"` or `"System"`. */
  datatype Speaker = User | Agent | System

  /** One `conversation_log` entry; timestamps are UTC clock readings. */
  datatype Message = Message(speaker: Speaker, text: string, timestamp: int)

  /** A call document without its `_id`, which is its key in the store. */
  datatype CallRecord = CallRecord(
    phoneNumber: string,
    startTime: int,
    endTime: Option<int>,
    status: string,
    conversationLog: seq<Message>,
    lastUpdated: int)

  /** The `calls` collection: document `_id` to document. */
  type Store = map<string, CallRecord>

  /** What the environment answers to one database write: the UTC clock
      reading taken just before it, and whether the server performed it (false
      when the driver raises). */
  datatype DbWrite = DbWrite(now: int, accepted: bool)

  /** The result of an insert: the store after it, and the new id or `None`. */
  datatype Created = Created(store: Store, callId: Option<string>)

  /** The result of an update: the store after it, and the returned flag. */
  datatype Updated = Updated(store: Store, ok: bool)

  const Initiated := "initiated"

  /** The System line `end_call_record` appends. */
  function EndedNote(status: string): string
  {
    "Call ended with status: " + status
  }

  /** The log of `callId`, empty when there is no such record. */
  function LogOf(store: Store, callId: string): seq<Message>
  {
    if callId in store then store[callId].conversationLog else []
  }

  /** What one log write adds: the entry when the server performed it, nothing otherwise. */
  function Kept(speaker: Speaker, text: string, w: DbWrite): seq<Message>
  {
    if w.accepted then [Message(speaker, text, w.now)] else []
  }

  /** `a` and `b` hold the same records except, possibly, the one of `callId`. */
  predicate OnlyTouches(a: Store, b: Store, callId: string)
  {
    && a.Keys == b.Keys
    && forall k :: k in a && k != callId ==> b[k] == a[k]
  }

  /** Same records, each with the same status and end time. */
  predicate StatusKept(a: Store, b: Store)
  {
    && a.Keys == b.Keys
    && forall k :: k in a ==> b[k].status == a[k].status && b[k].endTime == a[k].endTime
  }

  /** Records are never deleted and logs are append-only: every record of `a`
      is in `b`, and its log is a prefix of its log there. */
  predicate Grows(a: Store, b: Store)
  {
    forall k :: k in a ==> k in b && a[k].conversationLog <= b[k].conversationLog
  }

  lemma GrowsTransitive(a: Store, b: Store, c: Store)
    requires Grows(a, b) && Grows(b, c)
    ensures Grows(a, c)
  {
    forall k | k in a
      ensures a[k].conversationLog <= c[k].conversationLog
    {
      var x, y, z := a[k].conversationLog, b[k].conversationLog, c[k].conversationLog;
      assert x == y[..|x|] && y == z[..|y|];
      assert x == z[..|x|];
    }
  }

  /** `create_call_record`: insert a document for the generated id `newId`.
      The insert fails, and the function returns `None` with the store as it
      was, when the server refuses it or the id is already taken. */
  function CreateCallRecord(store: Store, phoneNumber: string, newId: string, w: DbWrite): (r: Created)
    ensures r.callId.Some? <==> w.accepted && newId !in store
    ensures r.callId.None? ==> r.store == store
    ensures r.callId.Some? ==>
              && r.callId.value == newId
              && r.store.Keys == store.Keys + {newId}
              && (forall k :: k in store ==> r.store[k] == store[k])
              && r.store[newId].phoneNumber == phoneNumber
              && r.store[newId].conversationLog == []
              && r.store[newId].status == Initiated
              && r.store[newId].endTime == None
              && r.store[newId].startTime == w.now
              && r.store[newId].lastUpdated == r.store[newId].startTime
    ensures Grows(store, r.store)
  {
    if w.accepted && newId !in store then
      Created(store[newId := CallRecord(phoneNumber, w.now, None, Initiated, [], w.now)], Some(newId))
    else
      Created(store, None)
  }

  /** `add_message_to_log`: push one entry at the end of the log of `callId`
      and stamp `last_updated`. An unknown id (no document matched) or a
      failed write returns false and changes nothing. */
  function AddMessageToLog(store: Store, callId: string, speaker: Speaker, text: string, w: DbWrite): (r: Updated)
    ensures r.ok <==> w.accepted && callId in store
    ensures !r.ok ==> r.store == store
    ensures OnlyTouches(store, r.store, callId)
    ensures r.ok ==>
              && r.store[callId].conversationLog == store[callId].conversationLog + [Message(speaker, text, w.now)]
              && r.store[callId].lastUpdated == w.now
              && r.store[callId].phoneNumber == store[callId].phoneNumber
              && r.store[callId].startTime == store[callId].startTime
              && r.store[callId].endTime == store[callId].endTime
              && r.store[callId].status == store[callId].status
    ensures LogOf(r.store, callId) == LogOf(store, callId) + (if callId in store then Kept(speaker, text, w) else [])
    ensures StatusKept(store, r.store)
    ensures Grows(store, r.store)
  {
    if w.accepted && callId in store then
      var rec := store[callId];
      Updated(store[callId := rec.(conversationLog := rec.conversationLog + [Message(speaker, text, w.now)],
                                   lastUpdated := w.now)], true)
    else
      Updated(store, false)
  }

  /** `end_call_record`: set the status and end time of `callId`, then log a
      System line naming the status; that second write may fail on its own
      without changing the result. An unknown id or a failed first write
      returns false and changes nothing. */
  function EndCallRecord(store: Store, callId: string, status: string, w: DbWrite, logWrite: DbWrite): (r: Updated)
    ensures r.ok <==> w.accepted && callId in store
    ensures !r.ok ==> r.store == store
    ensures OnlyTouches(store, r.store, callId)
    ensures r.ok ==>
              && r.store[callId].status == status
              && r.store[callId].endTime == Some(w.now)
              && r.store[callId].phoneNumber == store[callId].phoneNumber
              && r.store[callId].startTime == store[callId].startTime
              && r.store[callId].conversationLog == store[callId].conversationLog + Kept(System, EndedNote(status), logWrite)
              && r.store[callId].lastUpdated == (if logWrite.accepted then logWrite.now else w.now)
    ensures r.ok && logWrite.accepted ==>
              var log := r.store[callId].conversationLog;
              log[|log| - 1] == Message(System, EndedNote(status), logWrite.now)
    ensures Grows(store, r.store)
  {
    if w.accepted && callId in store then
      var rec := store[callId];
      var marked := store[callId := rec.(status := status, endTime := Some(w.now), lastUpdated := w.now)];
      Updated(AddMessageToLog(marked, callId, System, EndedNote(status), logWrite).store, true)
    else
      Updated(store, false)
  }

  /** The file name `text_to_speech` saves under: `response_{call_id}_{message_index}.mp3`. */
  function AudioFileName(callId: string, index: nat): string
  {
    "response_" + callId + "_" + Decimal.Show(index) + ".mp3"
  }

  /** The path fragment, relative to the static folder, that `text_to_speech` returns. */
  function AudioPath(callId: string, index: nat): string
  {
    "audio/" + AudioFileName(callId, index)
  }

  /** `text_to_speech`: the path of the saved audio when the speech engine
      succeeds, `None` when it raises. */
  function TextToSpeech(text: string, callId: string, index: nat, engineOk: bool): (r: Option<string>)
    ensures r.Some? <==> engineOk
    ensures r.Some? ==> r.value == AudioPath(callId, index)
  {
    if engineOk then Some(AudioPath(callId, index)) else None
  }

  /** Removing the same prefix and suffix from equal strings leaves equal strings. */
  lemma StripAffixes(prefix: string, a: string, b: string, suffix: string)
    requires prefix + a + suffix == prefix + b + suffix
    ensures a == b
  {
    var x := prefix + a + suffix;
    var y := prefix + b + suffix;
    assert |a| == |b|;
    assert a == x[|prefix|..|prefix| + |a|];
    assert b == y[|prefix|..|prefix| + |b|];
  }

  /** A name and a numeral joined by `_` split back uniquely: the numeral has
      no `_`, so the last `_` is the separator. */
  lemma SplitAtLastSeparator(x: string, d1: string, y: string, d2: string)
    requires Decimal.AllDigits(d1) && Decimal.AllDigits(d2)
    requires x + "_" + d1 == y + "_" + d2
    ensures x == y && d1 == d2
  {
    var s := x + "_" + d1;
    var t := y + "_" + d2;
    assert s[|x|] == '_' && t[|y|] == '_';
    assert forall i :: |x| < i < |s| ==> s[i] == d1[i - |x| - 1];
    assert forall i :: |y| < i < |t| ==> t[i] == d2[i - |y| - 1];
    assert |x| == |y|;
    assert x == s[..|x|] && y == t[..|y|];
    assert d1 == s[|x| + 1..] && d2 == t[|y| + 1..];
  }

  /** Audio paths never collide: the path determines both the call id and the
      message index it was made for. */
  lemma AudioPathInjective(c1: string, i1: nat, c2: string, i2: nat)
    requires AudioPath(c1, i1) == AudioPath(c2, i2)
    ensures c1 == c2 && i1 == i2
  {
    var d1, d2 := Decimal.Show(i1), Decimal.Show(i2);
    assert AudioPath(c1, i1) == "audio/response_" + (c1 + "_" + d1) + ".mp3";
    assert AudioPath(c2, i2) == "audio/response_" + (c2 + "_" + d2) + ".mp3";
    StripAffixes("audio/response_", c1 + "_" + d1, c2 + "_" + d2, ".mp3");
    SplitAtLastSeparator(c1, d1, c2, d2);
    Decimal.ShowInjective(i1, i2);
  }
}
