/** Speech-to-text over the Whisper model.  The model itself is an oracle:
    given the audio bytes it yields the recognised segments or raises.  The
    confidence `exp(mean(avg_logprob))` is floating-point work and is a
    parameter (`expMean`); only its "no segments gives 0.0" rule is modelled. */
module SpeechToText {
  import opened Wrappers
  import opened Text
  import opened Seqs
  import opened Buffering
  import ModelSlot

  datatype Segment = Segment(text: string, avgLogprob: real)

  /** One item yielded by `process_streaming_audio`. */
  datatype StreamResult = StreamResult(text: string, confidence: real, isFinal: bool)

  datatype WhisperModel = WhisperModel(name: string)

  function SegmentTexts(segments: seq<Segment>): (r: seq<string>)
    ensures |r| == |segments|
    ensures forall i :: 0 <= i < |segments| ==> r[i] == segments[i].text
  {
    seq(|segments|, i requires 0 <= i < |segments| => segments[i].text)
  }

  function LogProbs(segments: seq<Segment>): (r: seq<real>)
    ensures |r| == |segments|
  {
    seq(|segments|, i requires 0 <= i < |segments| => segments[i].avgLogprob)
  }

  /** What `transcribe_audio_chunk` returns once the model is loaded: the
      segment texts joined by spaces and stripped, with the confidence; any
      failure inside its `try` gives `("", 0.0)`. */
  function TranscriptionOf(segments: Result<seq<Segment>>, expMean: seq<real> -> real): (r: (string, real))
    ensures segments.Failure? ==> r == ("", 0.0)
    ensures segments.Success? && segments.value == [] ==> r == ("", 0.0)
    ensures segments.Success? ==> r.0 == Strip(Join(" ", SegmentTexts(segments.value)))
    ensures r.0 != [] ==> !IsSpace(r.0[0]) && !IsSpace(r.0[|r.0| - 1])
  {
    match segments
    case Failure(_) => ("", 0.0)
    case Success(ss) =>
      var text := Strip(Join(" ", SegmentTexts(ss)));
      (text, if ss == [] then 0.0 else expMean(LogProbs(ss)))
  }

  /** `transcribe_audio_chunk(audio)`: loading the model happens outside the
      `try`, so only a load failure raises; everything after it falls back to
      `("", 0.0)`. */
  method TranscribeAudioChunk(
    slot: ModelSlot.Slot<WhisperModel>, load: Result<WhisperModel>, audio: Bytes,
    whisper: (WhisperModel, Bytes) -> Result<seq<Segment>>, expMean: seq<real> -> real)
    returns (r: Result<(string, real)>)
    requires slot.Valid()
    modifies slot
    ensures slot.Valid()
    ensures old(slot.model).Some? ==> r == Success(TranscriptionOf(whisper(old(slot.model).value, audio), expMean))
    ensures old(slot.model).None? && load.Failure? ==> r.Failure?
    ensures old(slot.model).None? && load.Success? ==> r == Success(TranscriptionOf(whisper(load.value, audio), expMean))
  {
    var model := slot.Get(load);
    if model.Failure? {
      return Failure(model.error);
    }
    r := Success(TranscriptionOf(whisper(model.value, audio), expMean));
  }

  /** The items yielded for a list of transcribed chunks, processed in order;
      a transcription that raises ends the stream with that error.  `transcribe`
      is the outcome of `transcribe_audio_chunk` on a chunk. */
  function Yields(chunks: seq<Bytes>, transcribe: Bytes -> Result<(string, real)>): (r: (seq<StreamResult>, Option<string>))
    decreases |chunks|
  {
    if chunks == [] then ([], None)
    else
      var (ys, err) := Yields(chunks[..|chunks| - 1], transcribe);
      if err.Some? then (ys, err)
      else match transcribe(chunks[|chunks| - 1])
        case Failure(e) => (ys, Some(e))
        case Success(tc) =>
          if tc.0 != [] then (ys + [StreamResult(tc.0, tc.1, true)], None) else (ys, None)
  }

  /** Every yielded item has non-empty text, is final, and carries the text
      and confidence of some chunk's transcription. */
  lemma {:induction false} YieldsAreTranscriptions(chunks: seq<Bytes>, transcribe: Bytes -> Result<(string, real)>)
    ensures forall y :: y in Yields(chunks, transcribe).0 ==>
      y.text != [] && y.isFinal
      && exists c :: c in chunks && transcribe(c) == Success((y.text, y.confidence))
    decreases |chunks|
  {
    if chunks != [] {
      var init := chunks[..|chunks| - 1];
      YieldsAreTranscriptions(init, transcribe);
      forall y | y in Yields(chunks, transcribe).0
        ensures y.text != [] && y.isFinal
        ensures exists c :: c in chunks && transcribe(c) == Success((y.text, y.confidence))
      {
        if y in Yields(init, transcribe).0 {
          var c :| c in init && transcribe(c) == Success((y.text, y.confidence));
          assert c in chunks;
        } else {
          assert chunks[|chunks| - 1] in chunks;
        }
      }
    }
  }

  /** Once a transcription has raised, later chunks change nothing. */
  lemma {:induction false} YieldsStopAtError(chunks: seq<Bytes>, more: seq<Bytes>, transcribe: Bytes -> Result<(string, real)>)
    requires Yields(chunks, transcribe).1.Some?
    ensures Yields(chunks + more, transcribe) == Yields(chunks, transcribe)
    decreases |more|
  {
    if more != [] {
      var m := more[..|more| - 1];
      YieldsStopAtError(chunks, m, transcribe);
      assert (chunks + more)[..|chunks + more| - 1] == chunks + m;
    } else {
      assert chunks + more == chunks;
    }
  }

  /** The chunks handed on by a prefix of the stream are a prefix of those
      handed on by the whole stream. */
  lemma {:induction false} FeedAllGrows(stream: seq<Bytes>, j: nat, chunkSize: int)
    requires j <= |stream|
    ensures exists more :: FeedAll(stream, chunkSize).1 == FeedAll(stream[..j], chunkSize).1 + more
    decreases |stream| - j
  {
    if j == |stream| {
      assert stream[..j] == stream;
      assert FeedAll(stream, chunkSize).1 == FeedAll(stream[..j], chunkSize).1 + [];
    } else {
      FeedAllGrows(stream, j + 1, chunkSize);
      var more :| FeedAll(stream, chunkSize).1 == FeedAll(stream[..j + 1], chunkSize).1 + more;
      assert stream[..j + 1][..j] == stream[..j];
      var extra := Emitted(Feed(FeedAll(stream[..j], chunkSize).0, stream[j], chunkSize).1);
      assert FeedAll(stream[..j + 1], chunkSize).1 == FeedAll(stream[..j], chunkSize).1 + extra;
      assert FeedAll(stream, chunkSize).1 == FeedAll(stream[..j], chunkSize).1 + (extra + more);
    }
  }

  /** `process_streaming_audio(stream)`: the items yielded, and the error
      that ended the stream, if any.  Each piece is appended to the buffer;
      when the buffer reaches `chunkSize` bytes it is transcribed whole and
      cleared, and non-empty text is yielded. */
  method ProcessStreamingAudio(stream: seq<Bytes>, chunkSize: int, transcribe: Bytes -> Result<(string, real)>)
    returns (results: seq<StreamResult>, err: Option<string>)
    ensures (results, err) == Yields(FeedAll(stream, chunkSize).1, transcribe)
  {
    var buffer: Bytes := [];
    results, err := [], None;
    ghost var chunks: seq<Bytes> := [];
    var i := 0;
    while i < |stream| && err.None?
      invariant 0 <= i <= |stream|
      invariant (buffer, chunks) == FeedAll(stream[..i], chunkSize)
      invariant (results, err) == Yields(chunks, transcribe)
    {
      assert stream[..i + 1][..i] == stream[..i];
      ghost var fed := Feed(buffer, stream[i], chunkSize);
      assert FeedAll(stream[..i + 1], chunkSize) == (fed.0, chunks + Emitted(fed.1));
      buffer := buffer + stream[i];
      if |buffer| >= chunkSize {
        chunks := chunks + [buffer];
        var t := transcribe(buffer);
        buffer := [];
        match t
        case Failure(e) =>
          err := Some(e);
        case Success(tc) =>
          if tc.0 != [] {
            results := results + [StreamResult(tc.0, tc.1, true)];
          }
      } else {
        assert chunks + Emitted(fed.1) == chunks;
      }
      assert (buffer, chunks) == FeedAll(stream[..i + 1], chunkSize);
      i := i + 1;
    }
    FeedAllGrows(stream, i, chunkSize);
    var more :| FeedAll(stream, chunkSize).1 == FeedAll(stream[..i], chunkSize).1 + more;
    if err.Some? {
      YieldsStopAtError(chunks, more, transcribe);
    } else {
      assert stream[..i] == stream;
    }
  }
}
