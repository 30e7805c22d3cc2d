/** The voice agent: the module-level `active_conversations` registry, the
    transcription buffer that collects recognised text until an utterance is
    complete, and the conversation history.  Transcription, response
    generation (which never raises: it answers with an apology instead),
    speech synthesis and the response callback are oracles whose outcomes are
    parameters. */
module VoiceAgent {
  import opened Wrappers
  import opened Text
  import opened Json
  import opened Buffering
  import LiveKitAuth
  import LiveKit

  datatype Entry = Entry(role: string, content: string)

  /** The response callback registered for a conversation, by identity. */
  type CallbackId = string

  datatype Conversation = Conversation(
    userId: string,
    roomName: string,
    history: seq<Entry>,
    transcriptionBuffer: string,
    responseCallback: Option<CallbackId>)

  /** What `initialize_voice_agent` returns. */
  datatype AgentInfo = AgentInfo(sessionId: string, roomName: string, token: LiveKitAuth.Claims)

  /** The confidence below which a transcription is ignored. */
  const MinConfidence: real := 0.6
  /** The buffer length beyond which an utterance is processed even without
      end-of-sentence punctuation. */
  const MaxBuffer: nat := 200

  /** `"." in text or "?" in text or "!" in text`. */
  predicate EndsSentence(text: string) {
    '.' in text || '?' in text || '!' in text
  }

  /** The room name used when none is given: "voice-agent-" and the first
      eight characters of the session id. */
  function DefaultRoomName(sessionId: string): (r: string)
    ensures |r| == 12 + (if |sessionId| < 8 then |sessionId| else 8)
    ensures r[..12] == "voice-agent-" && r[12..] <= sessionId
  {
    "voice-agent-" + Prefix(sessionId, 8)
  }

  /** The conversation after an utterance has been processed. */
  function AfterUtterance(c: Conversation, respond: (string, seq<Entry>) -> string): (r: Conversation)
  {
    var query := Strip(c.transcriptionBuffer);
    if query == [] then c
    else
      var history := c.history + [Entry("user", query)];
      c.(transcriptionBuffer := "", history := history + [Entry("assistant", respond(query, history))])
  }

  /** A blank buffer changes nothing; otherwise the buffer is emptied and
      the stripped query and the response to it, given the history that
      already holds the query, are appended to the history.  The user, the
      room and the callback stay. */
  lemma AfterUtteranceSpec(c: Conversation, respond: (string, seq<Entry>) -> string)
    ensures var r := AfterUtterance(c, respond);
      && r.userId == c.userId && r.roomName == c.roomName && r.responseCallback == c.responseCallback
      && (Strip(c.transcriptionBuffer) == [] ==> r == c)
      && (Strip(c.transcriptionBuffer) != [] ==>
        var query := Strip(c.transcriptionBuffer);
        && r.transcriptionBuffer == ""
        && |r.history| == |c.history| + 2 && r.history[..|c.history|] == c.history
        && r.history[|c.history|] == Entry("user", query)
        && r.history[|c.history| + 1] == Entry("assistant", respond(query, c.history + [Entry("user", query)])))
  {
  }

  /** The conversation after recognised text has been added to its buffer. */
  function Buffered(c: Conversation, text: string): (r: Conversation)
    ensures |r.transcriptionBuffer| == |c.transcriptionBuffer| + |text| + 1
    ensures r.transcriptionBuffer[..|c.transcriptionBuffer|] == c.transcriptionBuffer
    ensures r.transcriptionBuffer[|c.transcriptionBuffer|..] == text + " "
    ensures r.history == c.history && r.responseCallback == c.responseCallback
  {
    var b := c.transcriptionBuffer + text + " ";
    assert b[|c.transcriptionBuffer|..] == text + " ";
    c.(transcriptionBuffer := b)
  }

  /** The role of the turn at position `i` of a well-formed history. */
  function TurnRole(i: nat): string {
    if i % 2 == 0 then "user" else "assistant"
  }

  /** A history made of user turns each answered by an assistant turn. */
  predicate Alternates(h: seq<Entry>) {
    |h| % 2 == 0 && forall i :: 0 <= i < |h| ==> h[i].role == TurnRole(i)
  }

  /** After an even number of turns come a user turn and an assistant turn. */
  lemma NextTurns(n: nat)
    requires n % 2 == 0
    ensures TurnRole(n) == "user" && TurnRole(n + 1) == "assistant" && (n + 2) % 2 == 0
  {
  }

  /** Processing an utterance keeps the history made of user/assistant
      pairs. */
  lemma AfterUtteranceAlternates(c: Conversation, respond: (string, seq<Entry>) -> string)
    requires Alternates(c.history)
    ensures Alternates(AfterUtterance(c, respond).history)
  {
    var h := AfterUtterance(c, respond).history;
    var n := |c.history|;
    if Strip(c.transcriptionBuffer) != [] {
      NextTurns(n);
      assert |h| == n + 2;
      forall i | 0 <= i < |h|
        ensures h[i].role == TurnRole(i)
      {
        if i < n {
          assert h[i] == h[..n][i];
        } else if i == n {
          assert h[i].role == "user";
        } else {
          assert i == n + 1 && h[i].role == "assistant";
        }
      }
    }
  }

  /** Text that does not start with whitespace (as recognised text never
      does) leaves a non-blank buffer, so when it triggers an utterance the
      buffer is emptied and the history grows by one exchange. */
  lemma BufferedTextNotBlank(c: Conversation, text: string)
    requires text != [] && !IsSpace(text[0])
    ensures Strip(Buffered(c, text).transcriptionBuffer) != []
  {
    StripEmptyIffBlank(Buffered(c, text).transcriptionBuffer);
    var b := Buffered(c, text).transcriptionBuffer;
    var n := |c.transcriptionBuffer|;
    assert b[n..][0] == text[0];
    assert b[n] == text[0];
  }

  /** A call made to a response callback: the callback, the response text,
      the audio and the session id. */
  type CallbackCall = (CallbackId, string, Bytes, string)

  /** The tail of `process_utterance` once the response is known: speech
      synthesis, then the call of the registered callback (`None` when there
      is none, which raises).  The result, and the callback log after. */
  function Deliver(
    c: Conversation, response: string, log: seq<CallbackCall>, sessionId: string,
    speech: Result<(Bytes, int)>, callbackOutcome: Result<()>)
    : (Result<()>, seq<CallbackCall>)
  {
    if speech.Failure? then (Failure(speech.error), log)
    else if c.responseCallback.None? then (Failure("TypeError: 'NoneType' object is not callable"), log)
    else
      var log' := log + [(c.responseCallback.value, response, speech.value.0, sessionId)];
      if callbackOutcome.Failure? then (Failure(callbackOutcome.error), log') else (Success(()), log')
  }

  /** What `process_utterance(session_id)` returns and leaves behind in the
      registry and the callback log. */
  function UtteranceStep(
    convs: map<string, Conversation>, log: seq<CallbackCall>, sessionId: string,
    respond: (string, seq<Entry>) -> string, speech: Result<(Bytes, int)>, callbackOutcome: Result<()>)
    : (Result<()>, map<string, Conversation>, seq<CallbackCall>)
  {
    if sessionId !in convs || Strip(convs[sessionId].transcriptionBuffer) == [] then (Success(()), convs, log)
    else
      var c := convs[sessionId];
      var after := AfterUtterance(c, respond);
      var (r, log') := Deliver(c, after.history[|after.history| - 1].content, log, sessionId, speech, callbackOutcome);
      (r, convs[sessionId := after], log')
  }

  /** An unknown session or a blank buffer changes nothing. */
  lemma UtteranceIdle(
    convs: map<string, Conversation>, log: seq<CallbackCall>, sessionId: string,
    respond: (string, seq<Entry>) -> string, speech: Result<(Bytes, int)>, callbackOutcome: Result<()>)
    requires sessionId !in convs || Strip(convs[sessionId].transcriptionBuffer) == []
    ensures UtteranceStep(convs, log, sessionId, respond, speech, callbackOutcome) == (Success(()), convs, log)
  {
  }

  /** Otherwise the conversation is replaced by the processed one, whatever
      happens after the response is generated. */
  lemma UtteranceUpdates(
    convs: map<string, Conversation>, log: seq<CallbackCall>, sessionId: string,
    respond: (string, seq<Entry>) -> string, speech: Result<(Bytes, int)>, callbackOutcome: Result<()>)
    requires sessionId in convs && Strip(convs[sessionId].transcriptionBuffer) != []
    ensures UtteranceStep(convs, log, sessionId, respond, speech, callbackOutcome).1
      == convs[sessionId := AfterUtterance(convs[sessionId], respond)]
  {
  }

  /** A processed utterance succeeds exactly when speech is synthesised, a
      callback is registered and the callback returns. */
  lemma UtteranceSucceeds(
    convs: map<string, Conversation>, log: seq<CallbackCall>, sessionId: string,
    respond: (string, seq<Entry>) -> string, speech: Result<(Bytes, int)>, callbackOutcome: Result<()>)
    requires sessionId in convs && Strip(convs[sessionId].transcriptionBuffer) != []
    ensures UtteranceStep(convs, log, sessionId, respond, speech, callbackOutcome).0.Success?
      <==> speech.Success? && convs[sessionId].responseCallback.Some? && callbackOutcome.Success?
  {
  }

  /** The callback is called, once, with the response just appended to the
      history, exactly when speech is synthesised and a callback is
      registered. */
  lemma UtteranceCallsBack(
    convs: map<string, Conversation>, log: seq<CallbackCall>, sessionId: string,
    respond: (string, seq<Entry>) -> string, speech: Result<(Bytes, int)>, callbackOutcome: Result<()>)
    requires sessionId in convs && Strip(convs[sessionId].transcriptionBuffer) != []
    ensures var c := convs[sessionId];
      var h := AfterUtterance(c, respond).history;
      UtteranceStep(convs, log, sessionId, respond, speech, callbackOutcome).2
        == if speech.Success? && c.responseCallback.Some?
           then log + [(c.responseCallback.value, h[|h| - 1].content, speech.value.0, sessionId)]
           else log
  {
  }

  /** What `handle_transcription(audio, session_id)` returns, whether it
      processed an utterance, and what it leaves behind. */
  function TranscriptionStep(
    convs: map<string, Conversation>, log: seq<CallbackCall>, sessionId: string, transcribed: Result<(string, real)>,
    respond: (string, seq<Entry>) -> string, speech: Result<(Bytes, int)>, callbackOutcome: Result<()>)
    : (Result<()>, bool, map<string, Conversation>, seq<CallbackCall>)
  {
    if sessionId !in convs then (Success(()), false, convs, log)
    else if transcribed.Failure? then (Failure(transcribed.error), false, convs, log)
    else
      var text := transcribed.value.0;
      if text == [] || transcribed.value.1 < MinConfidence then (Success(()), false, convs, log)
      else
        var grown := Buffered(convs[sessionId], text);
        var buffered := convs[sessionId := grown];
        if EndsSentence(text) || |grown.transcriptionBuffer| > MaxBuffer then
          var (r, convs', log') := UtteranceStep(buffered, log, sessionId, respond, speech, callbackOutcome);
          (r, true, convs', log')
        else (Success(()), false, buffered, log)
  }

  /** Text that cannot be transcribed, is empty or is below the confidence
      threshold, or arrives for an unknown session, changes nothing; only a
      failed transcription fails. */
  lemma TranscriptionIgnored(
    convs: map<string, Conversation>, log: seq<CallbackCall>, sessionId: string, transcribed: Result<(string, real)>,
    respond: (string, seq<Entry>) -> string, speech: Result<(Bytes, int)>, callbackOutcome: Result<()>)
    requires !(sessionId in convs && transcribed.Success? && transcribed.value.0 != [] && transcribed.value.1 >= MinConfidence)
    ensures var (r, processed, convs', log') := TranscriptionStep(convs, log, sessionId, transcribed, respond, speech, callbackOutcome);
      && !processed && convs' == convs && log' == log
      && (r.Failure? <==> sessionId in convs && transcribed.Failure?)
  {
  }

  /** Accepted text is added to the buffer followed by a space; the
      utterance is processed, on the registry holding the grown buffer,
      exactly when the text ends a sentence or the buffer has grown past 200
      characters. */
  lemma TranscriptionBuffers(
    convs: map<string, Conversation>, log: seq<CallbackCall>, sessionId: string, transcribed: Result<(string, real)>,
    respond: (string, seq<Entry>) -> string, speech: Result<(Bytes, int)>, callbackOutcome: Result<()>)
    requires sessionId in convs && transcribed.Success? && transcribed.value.0 != [] && transcribed.value.1 >= MinConfidence
    ensures var (r, processed, convs', log') := TranscriptionStep(convs, log, sessionId, transcribed, respond, speech, callbackOutcome);
      var text := transcribed.value.0;
      var grown := Buffered(convs[sessionId], text);
      && (processed <==> EndsSentence(text) || |grown.transcriptionBuffer| > MaxBuffer)
      && (!processed ==> r.Success? && log' == log && convs' == convs[sessionId := grown])
      && (processed ==> (r, convs', log') == UtteranceStep(convs[sessionId := grown], log, sessionId, respond, speech, callbackOutcome))
  {
  }

  class VoiceAgentService {
    var activeConversations: map<string, Conversation>
    /** The calls made to response callbacks: callback, response text, audio,
        session id. */
    var callbackLog: seq<CallbackCall>

    constructor ()
      ensures activeConversations == map[] && callbackLog == []
    {
      activeConversations := map[];
      callbackLog := [];
    }

    /** `process_utterance(session_id)`.  `respond` is the response generator
        applied to the query and the history (which already holds the query),
        `speech` the outcome of `text_to_speech`, `callbackOutcome` the outcome
        of the response callback.  The callback key is always present, so a
        conversation without a callback raises `TypeError` on calling `None`,
        after the history has been updated. */
    method ProcessUtterance(
      sessionId: string, respond: (string, seq<Entry>) -> string,
      speech: Result<(Bytes, int)>, callbackOutcome: Result<()>)
      returns (r: Result<()>)
      modifies this`activeConversations, this`callbackLog
      ensures (r, activeConversations, callbackLog)
        == UtteranceStep(old(activeConversations), old(callbackLog), sessionId, respond, speech, callbackOutcome)
    {
      if sessionId !in activeConversations {
        return Success(());
      }
      var c := activeConversations[sessionId];
      var transcription := Strip(c.transcriptionBuffer);
      if transcription == [] {
        return Success(());
      }
      var history := c.history + [Entry("user", transcription)];
      var response := respond(transcription, history);
      c := c.(transcriptionBuffer := "", history := history + [Entry("assistant", response)]);
      activeConversations := activeConversations[sessionId := c];
      if speech.Failure? {
        return Failure(speech.error);
      }
      if c.responseCallback.None? {
        return Failure("TypeError: 'NoneType' object is not callable");
      }
      callbackLog := callbackLog + [(c.responseCallback.value, response, speech.value.0, sessionId)];
      if callbackOutcome.Failure? {
        return Failure(callbackOutcome.error);
      }
      r := Success(());
    }

    /** `handle_transcription(audio, session_id)`, where `transcribed` is the
        outcome of transcribing the audio.  Text that is empty or below the
        confidence threshold is dropped; otherwise it is added to the buffer
        followed by a space, and the utterance is processed exactly when the
        text ends a sentence or the buffer has grown past 200 characters. */
    method HandleTranscription(
      sessionId: string, transcribed: Result<(string, real)>,
      respond: (string, seq<Entry>) -> string, speech: Result<(Bytes, int)>, callbackOutcome: Result<()>)
      returns (r: Result<()>, processed: bool)
      modifies this`activeConversations, this`callbackLog
      ensures (r, processed, activeConversations, callbackLog)
        == TranscriptionStep(old(activeConversations), old(callbackLog), sessionId, transcribed, respond, speech, callbackOutcome)
    {
      processed := false;
      if sessionId !in activeConversations {
        return Success(()), false;
      }
      if transcribed.Failure? {
        return Failure(transcribed.error), false;
      }
      var text := transcribed.value.0;
      if text == [] || transcribed.value.1 < MinConfidence {
        return Success(()), false;
      }
      var grown := Buffered(activeConversations[sessionId], text);
      activeConversations := activeConversations[sessionId := grown];
      if EndsSentence(text) || |grown.transcriptionBuffer| > MaxBuffer {
        r := ProcessUtterance(sessionId, respond, speech, callbackOutcome);
        processed := true;
      } else {
        r := Success(());
      }
    }

    /** `initialize_voice_agent(user_id, room_name, response_callback)` with
        the fresh session id `sessionId` at time `now`.  The conversation is
        stored before the audio processor is set up, and is kept whether or
        not that setup succeeds. */
    method InitializeVoiceAgent(
      lk: LiveKit.LiveKitService, userId: string, roomName: Option<string>,
      responseCallback: Option<CallbackId>, sessionId: string, now: int, connect: Result<()>)
      returns (info: AgentInfo)
      modifies this`activeConversations, lk`activeSessions
      ensures var room := if roomName.Some? && roomName.value != [] then roomName.value else DefaultRoomName(sessionId);
        && info.sessionId == sessionId && info.roomName == room
        && info.token == LiveKitAuth.CreateToken(lk.apiKey, now, userId, room, Some([("session_id", JString(sessionId))]))
        && activeConversations == old(activeConversations)[sessionId := Conversation(userId, room, [], "", responseCallback)]
        && (connect.Success? ==>
              && sessionId in lk.activeSessions && lk.activeSessions[sessionId].roomName == room
              && fresh(lk.activeSessions[sessionId].processor)
              && lk.activeSessions[sessionId].processor.room == LiveKit.Connected
              && lk.activeSessions[sessionId].processor.Valid()
              && lk.activeSessions - {sessionId} == old(lk.activeSessions) - {sessionId})
        && (connect.Failure? ==> lk.activeSessions == old(lk.activeSessions))
    {
      var room := if roomName.Some? && roomName.value != [] then roomName.value else DefaultRoomName(sessionId);
      room := lk.CreateRoom(room);
      var token := LiveKitAuth.CreateToken(lk.apiKey, now, userId, room, Some([("session_id", JString(sessionId))]));
      activeConversations := activeConversations[sessionId := Conversation(userId, room, [], "", responseCallback)];
      var _, _ := lk.SetupAudioProcessor(sessionId, room, now, connect);
      info := AgentInfo(sessionId, room, token);
    }

    /** `terminate_voice_agent(session_id)`: the LiveKit session is closed
        first; the conversation is removed, and `True` returned, only when that
        succeeded and the conversation exists. */
    method TerminateVoiceAgent(lk: LiveKit.LiveKitService, sessionId: string, disconnect: Result<()>)
      returns (ok: bool)
      requires sessionId in lk.activeSessions ==> lk.activeSessions[sessionId].processor.Valid()
      modifies this`activeConversations, lk`activeSessions,
        if sessionId in lk.activeSessions then {lk.activeSessions[sessionId].processor} else {}
      ensures lk.activeSessions == old(lk.activeSessions) - {sessionId}
      ensures ok <==> sessionId in old(lk.activeSessions) && sessionId in old(activeConversations)
      ensures activeConversations == if ok then old(activeConversations) - {sessionId} else old(activeConversations)
      ensures sessionId in old(lk.activeSessions) ==>
        var p := old(lk.activeSessions)[sessionId].processor;
        && p.Valid()
        && p.room == (if old(p.room) != LiveKit.NoRoom && disconnect.Success? then LiveKit.Disconnected else old(p.room))
        && p.audioBuffer == old(p.audioBuffer) && p.dispatched == old(p.dispatched)
        && p.received == old(p.received) && p.sent == old(p.sent)
        && p.audioTrackCreated == old(p.audioTrackCreated)
        && p.trackHandlerSet == old(p.trackHandlerSet)
        && p.trackHandlerRegistrations == old(p.trackHandlerRegistrations)
    {
      var success := lk.CloseSession(sessionId, disconnect);
      if success && sessionId in activeConversations {
        activeConversations := activeConversations - {sessionId};
        return true;
      }
      ok := false;
    }
  }

}
