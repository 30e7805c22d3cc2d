/** Text-to-speech over the Kokoro model, and the fixed-size streaming of
    the synthesised audio.  The model's `generate` (and the WAV encoding of
    its samples) is an oracle returning the audio bytes and sample rate or
    raising; the configured fallback sample rate is a parameter. */
module TextToSpeech {
  import opened Wrappers
  import opened Seqs
  import opened Buffering
  import ModelSlot

  datatype TtsModel = TtsModel(path: string)

  /** The speaker passed to `generate`: `None` for the voice id "default". */
  function Speaker(voiceId: string): (r: Option<string>)
    ensures r.None? <==> voiceId == "default"
    ensures r.Some? ==> r.value == voiceId
  {
    if voiceId != "default" then Some(voiceId) else None
  }

  /** `text_to_speech(text, voice_id)`: loading the model happens outside the
      `try` and may raise; a failure of synthesis gives empty audio with the
      configured sample rate. */
  method Synthesize(
    slot: ModelSlot.Slot<TtsModel>, load: Result<TtsModel>, text: string, voiceId: string,
    generate: (TtsModel, string, Option<string>) -> Result<(Bytes, int)>, fallbackRate: int)
    returns (r: Result<(Bytes, int)>)
    requires slot.Valid()
    modifies slot
    ensures slot.Valid()
    ensures r.Failure? <==> old(slot.model).None? && load.Failure?
    ensures r.Success? ==>
      var m := if old(slot.model).Some? then old(slot.model).value else load.value;
      var g := generate(m, text, Speaker(voiceId));
      r.value == (if g.Success? then g.value else ([], fallbackRate))
  {
    var model := slot.Get(load);
    if model.Failure? {
      return Failure(model.error);
    }
    var g := generate(model.value, text, Speaker(voiceId));
    if g.Success? {
      r := Success(g.value);
    } else {
      r := Success(([], fallbackRate));
    }
  }

  /** The chunks `stream_text_to_speech` yields for synthesised audio:
      `audio[i:i + chunk_size]` for `i in range(0, len(audio), chunk_size)`.
      A zero step makes `range` raise; a negative one yields nothing. */
  function StreamChunks(audio: Bytes, chunkSize: int): (r: Result<seq<Bytes>>)
    ensures r.Failure? <==> chunkSize == 0
    ensures chunkSize < 0 ==> r == Success([])
    ensures chunkSize > 0 ==> r == Success(Batches(audio, chunkSize))
  {
    if chunkSize == 0 then Failure("ValueError: range() arg 3 must not be zero")
    else if chunkSize < 0 then Success([])
    else Success(Batches(audio, chunkSize))
  }

  /** For a positive chunk size the chunks put back together are the audio,
      every chunk is non-empty and at most `chunkSize` bytes, all but the last
      are exactly `chunkSize` bytes, and there are `ceil(len / chunkSize)` of
      them (none for empty audio). */
  lemma StreamChunksSpec(audio: Bytes, chunkSize: int)
    requires chunkSize > 0
    ensures var cs := StreamChunks(audio, chunkSize).value;
      && Flatten(cs) == audio
      && (forall i :: 0 <= i < |cs| ==> 0 < |cs[i]| <= chunkSize)
      && (forall i :: 0 <= i < |cs| - 1 ==> |cs[i]| == chunkSize)
      && (|audio| == 0 <==> |cs| == 0)
      && (|audio| > 0 ==> (|cs| - 1) * chunkSize < |audio| <= |cs| * chunkSize)
  {
    FlattenBatches(audio, chunkSize);
    BatchSizes(audio, chunkSize);
    BatchCount(audio, chunkSize);
  }

  /** `stream_text_to_speech(text, chunk_size, voice_id)`: all the chunks it
      yields, or the exception that ends it. */
  method StreamTextToSpeech(
    slot: ModelSlot.Slot<TtsModel>, load: Result<TtsModel>, text: string, voiceId: string,
    generate: (TtsModel, string, Option<string>) -> Result<(Bytes, int)>, fallbackRate: int,
    chunkSize: int := 1024)
    returns (r: Result<seq<Bytes>>)
    requires slot.Valid()
    modifies slot
    ensures slot.Valid()
    ensures old(slot.model).None? && load.Failure? ==> r.Failure?
    ensures old(slot.model).Some? || load.Success? ==>
      var m := if old(slot.model).Some? then old(slot.model).value else load.value;
      var g := generate(m, text, Speaker(voiceId));
      r == StreamChunks(if g.Success? then g.value.0 else [], chunkSize)
  {
    var audio := Synthesize(slot, load, text, voiceId, generate, fallbackRate);
    if audio.Failure? {
      return Failure(audio.error);
    }
    r := StreamChunks(audio.value.0, chunkSize);
  }

  /** A failed synthesis streams nothing: the empty audio it returns is cut
      into no chunks.  This holds by the definition of `StreamChunks`. */
  lemma FailedSynthesisStreamsNothing(chunkSize: int)
    requires chunkSize != 0
    ensures StreamChunks([], chunkSize) == Success([])
  {
  }
}
