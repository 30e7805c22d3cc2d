/** The LiveKit side of a voice session: the per-session `AudioProcessor`
    that buffers incoming audio and hands whole chunks to the transcription
    callback, and the module-level registry `active_sessions` of running
    processors.  Room connection, disconnection, track creation and writes
    are network calls; their outcomes are parameters. */
module LiveKit {
  import opened Wrappers
  import opened Seqs
  import opened Buffering
  import LiveKitAuth

  /** `self.room`: not created yet, created but not connected (the connect
      call raised), connected, or disconnected by `stop`. */
  datatype RoomState = NoRoom | Unconnected | Connected | Disconnected

  class AudioProcessor {
    const sessionId: string
    const chunkSize: int
    var room: RoomState
    var audioBuffer: Bytes
    /** The chunks handed to the transcription callback, in order. */
    var dispatched: seq<Bytes>
    /** Whether the `TrackSubscribed` handler has been registered. */
    var trackHandlerSet: bool
    /** How many times the handler has been registered. */
    var trackHandlerRegistrations: nat
    /** Whether the outgoing `audio_track` has been created. */
    var audioTrackCreated: bool
    /** The audio written to the room, in order. */
    var sent: seq<Bytes>
    /** Every piece of audio data received, in order. */
    ghost var received: seq<Bytes>

    ghost predicate Valid()
      reads this
    {
      && Flatten(dispatched) + audioBuffer == Flatten(received)
      && (chunkSize > 0 ==> |audioBuffer| < chunkSize)
      && trackHandlerRegistrations <= 1
      && (trackHandlerSet <==> trackHandlerRegistrations == 1)
    }

    constructor (sessionId: string, chunkSize: int)
      ensures Valid()
      ensures this.sessionId == sessionId && this.chunkSize == chunkSize
      ensures room == NoRoom && audioBuffer == [] && dispatched == [] && received == []
      ensures !trackHandlerSet && !audioTrackCreated && sent == []
    {
      this.sessionId := sessionId;
      this.chunkSize := chunkSize;
      room := NoRoom;
      audioBuffer := [];
      dispatched := [];
      trackHandlerSet := false;
      trackHandlerRegistrations := 0;
      audioTrackCreated := false;
      sent := [];
      received := [];
    }

    /** `start(room_name, token)`: the room object is created first, then
        connected; `connect` is the outcome of the connection. */
    method Start(connect: Result<()>) returns (ok: bool)
      requires Valid()
      modifies this`room
      ensures Valid()
      ensures ok <==> connect.Success?
      ensures room == if ok then Connected else Unconnected
    {
      room := Unconnected;
      if connect.Failure? {
        return false;
      }
      room := Connected;
      ok := true;
    }

    /** `stop()`: disconnects a room if there is one; a raising disconnect is
        caught and reported as `False`. */
    method Stop(disconnect: Result<()>) returns (ok: bool)
      requires Valid()
      modifies this`room
      ensures Valid()
      ensures old(room) == NoRoom ==> ok && room == NoRoom
      ensures old(room) != NoRoom ==> (ok <==> disconnect.Success?)
      ensures old(room) != NoRoom && ok ==> room == Disconnected
      ensures !ok ==> room == old(room)
    {
      if room != NoRoom {
        if disconnect.Failure? {
          return false;
        }
        room := Disconnected;
      }
      ok := true;
    }

    /** The end of `_setup_participant`: the `TrackSubscribed` handler is
        registered only the first time. */
    method EnsureTrackHandler()
      requires Valid()
      modifies this`trackHandlerSet, this`trackHandlerRegistrations
      ensures Valid() && trackHandlerSet
      ensures trackHandlerRegistrations == 1
      ensures old(trackHandlerSet) ==> trackHandlerRegistrations == old(trackHandlerRegistrations)
    {
      if !trackHandlerSet {
        trackHandlerRegistrations := trackHandlerRegistrations + 1;
        trackHandlerSet := true;
      }
    }

    /** `_process_audio_data(data)`: the data is appended to the buffer; once
        the buffer holds at least `chunk_size` bytes, all of it is handed to
        the transcription callback and the buffer is cleared. */
    method ProcessAudioData(data: Bytes)
      requires Valid()
      modifies this`audioBuffer, this`dispatched, this`received
      ensures Valid()
      ensures received == old(received) + [data]
      ensures (audioBuffer, dispatched) ==
        (Feed(old(audioBuffer), data, chunkSize).0, old(dispatched) + Emitted(Feed(old(audioBuffer), data, chunkSize).1))
      ensures |old(audioBuffer) + data| >= chunkSize ==>
        audioBuffer == [] && dispatched == old(dispatched) + [old(audioBuffer) + data]
      ensures |old(audioBuffer) + data| < chunkSize ==>
        audioBuffer == old(audioBuffer) + data && dispatched == old(dispatched)
    {
      FlattenSnoc(received, data);
      received := received + [data];
      audioBuffer := audioBuffer + data;
      if |audioBuffer| >= chunkSize {
        var copy := audioBuffer;
        audioBuffer := [];
        FlattenSnoc(dispatched, copy);
        dispatched := dispatched + [copy];
      } else {
        assert dispatched + Emitted(None) == dispatched;
      }
    }

    /** `send_audio(data)`: refused without a connected room; otherwise the
        outgoing track is created on first use and the data written.  Any
        failure of either call is caught and reported as `False`. */
    method SendAudio(data: Bytes, createTrack: Result<()>, write: Result<()>) returns (ok: bool)
      requires Valid()
      modifies this`audioTrackCreated, this`sent
      ensures Valid()
      ensures room != Connected ==> !ok && sent == old(sent) && audioTrackCreated == old(audioTrackCreated)
      ensures room == Connected ==>
        (ok <==> (old(audioTrackCreated) || createTrack.Success?) && write.Success?)
      ensures sent == if ok then old(sent) + [data] else old(sent)
      ensures audioTrackCreated == (old(audioTrackCreated) || (room == Connected && createTrack.Success?))
    {
      if room != Connected {
        return false;
      }
      if !audioTrackCreated {
        if createTrack.Failure? {
          return false;
        }
        audioTrackCreated := true;
      }
      if write.Failure? {
        return false;
      }
      sent := sent + [data];
      ok := true;
    }
  }

  datatype Session = Session(processor: AudioProcessor, roomName: string)

  /** The module-level `active_sessions` registry. */
  class LiveKitService {
    var activeSessions: map<string, Session>
    const chunkSize: int
    const apiKey: string

    constructor (chunkSize: int, apiKey: string)
      ensures activeSessions == map[] && this.chunkSize == chunkSize && this.apiKey == apiKey
    {
      activeSessions := map[];
      this.chunkSize := chunkSize;
      this.apiKey := apiKey;
    }

    /** `create_room(room_name)`: nothing is created on the server; the name
        is returned as given. */
    function CreateRoom(roomName: string): (r: string)
      ensures r == roomName
    {
      roomName
    }

    /** `setup_audio_processor(session_id, room_name, ...)` at time `now`: a
        new processor is started with an agent token, and registered (replacing
        any earlier entry for the id) only when it started. */
    method SetupAudioProcessor(sessionId: string, roomName: string, now: int, connect: Result<()>)
      returns (ok: bool, agentToken: LiveKitAuth.Claims)
      modifies this`activeSessions
      ensures ok <==> connect.Success?
      ensures agentToken == LiveKitAuth.CreateToken(apiKey, now, "agent-" + sessionId, roomName, None, true, true)
      ensures ok ==> (
        && sessionId in activeSessions && activeSessions[sessionId].roomName == roomName
        && fresh(activeSessions[sessionId].processor)
        && activeSessions[sessionId].processor.room == Connected
        && activeSessions[sessionId].processor.Valid()
        && activeSessions - {sessionId} == old(activeSessions) - {sessionId})
      ensures !ok ==> activeSessions == old(activeSessions)
    {
      agentToken := LiveKitAuth.CreateToken(apiKey, now, "agent-" + sessionId, roomName, None, true, true);
      var processor := new AudioProcessor(sessionId, chunkSize);
      var success := processor.Start(connect);
      if success {
        activeSessions := activeSessions[sessionId := Session(processor, roomName)];
        return true, agentToken;
      }
      ok := false;
    }

    /** `close_session(session_id)`: a known session is stopped and removed
        (the result of `stop` is not looked at, and `stop` catches its own
        errors); an unknown one gives `False` and changes nothing. */
    method CloseSession(sessionId: string, disconnect: Result<()>) returns (ok: bool)
      requires sessionId in activeSessions ==> activeSessions[sessionId].processor.Valid()
      modifies this`activeSessions, if sessionId in activeSessions then {activeSessions[sessionId].processor} else {}
      ensures ok <==> sessionId in old(activeSessions)
      ensures activeSessions == old(activeSessions) - {sessionId}
      ensures sessionId in old(activeSessions) ==>
        var p := old(activeSessions)[sessionId].processor;
        && p.Valid()
        && p.room == (if old(p.room) != NoRoom && disconnect.Success? then Disconnected else old(p.room))
        && p.audioBuffer == old(p.audioBuffer) && p.dispatched == old(p.dispatched)
        && p.received == old(p.received) && p.sent == old(p.sent)
        && p.audioTrackCreated == old(p.audioTrackCreated)
        && p.trackHandlerSet == old(p.trackHandlerSet)
        && p.trackHandlerRegistrations == old(p.trackHandlerRegistrations)
    {
      if sessionId !in activeSessions {
        return false;
      }
      var processor := activeSessions[sessionId].processor;
      var _ := processor.Stop(disconnect);
      activeSessions := activeSessions - {sessionId};
      ok := true;
    }

    /** `send_audio_to_room(session_id, data)`: `False` for an unknown
        session with nothing changed, otherwise the processor's `send_audio`. */
    method SendAudioToRoom(sessionId: string, data: Bytes, createTrack: Result<()>, write: Result<()>)
      returns (ok: bool)
      requires sessionId in activeSessions ==> activeSessions[sessionId].processor.Valid()
      modifies if sessionId in activeSessions then {activeSessions[sessionId].processor} else {}
      ensures sessionId !in old(activeSessions) ==> !ok
      ensures sessionId in old(activeSessions) ==>
        var p := old(activeSessions)[sessionId].processor;
        && p.Valid()
        && (old(p.room) != Connected ==> !ok)
        && (old(p.room) == Connected ==>
              (ok <==> (old(p.audioTrackCreated) || createTrack.Success?) && write.Success?))
        && p.sent == (if ok then old(p.sent) + [data] else old(p.sent))
        && p.audioTrackCreated == (old(p.audioTrackCreated) || (old(p.room) == Connected && createTrack.Success?))
        && p.room == old(p.room) && p.received == old(p.received)
        && p.audioBuffer == old(p.audioBuffer) && p.dispatched == old(p.dispatched)
        && p.trackHandlerSet == old(p.trackHandlerSet)
        && p.trackHandlerRegistrations == old(p.trackHandlerRegistrations)
      ensures activeSessions == old(activeSessions)
    {
      if sessionId !in activeSessions {
        return false;
      }
      var processor := activeSessions[sessionId].processor;
      ok := processor.SendAudio(data, createTrack, write);
    }
  }
}
