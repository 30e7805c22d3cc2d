/** The accumulate-then-flush byte buffer used for incoming audio: every
    piece of data is appended to the buffer, and as soon as the buffer holds
    at least `chunkSize` bytes its whole content is handed on and the buffer
    is emptied.  A non-positive `chunkSize` (the setting is not validated)
    flushes on every piece, even an empty one. */
module Buffering {
  import opened Wrappers
  import opened Seqs

  type Bytes = seq<bv8>

  /** One `buffer.extend(data)` followed by the size test: the new buffer and
      the chunk handed on, if any. */
  function Feed(buffer: Bytes, data: Bytes, chunkSize: int): (r: (Bytes, Option<Bytes>))
    ensures r.1.Some? <==> |buffer + data| >= chunkSize
    ensures r.1.Some? ==> r.1.value == buffer + data && r.0 == []
    ensures r.1.None? ==> r.0 == buffer + data
  {
    var b := buffer + data;
    if |b| >= chunkSize then ([], Some(b)) else (b, None)
  }

  /** The chunk list of an optional flush. */
  function Emitted(o: Option<Bytes>): seq<Bytes> {
    if o.Some? then [o.value] else []
  }

  /** Feeding a whole stream of pieces into an empty buffer: the final buffer
      and the chunks handed on, in order. */
  function FeedAll(stream: seq<Bytes>, chunkSize: int): (r: (Bytes, seq<Bytes>))
    decreases |stream|
  {
    if stream == [] then ([], [])
    else
      var (b, out) := FeedAll(stream[..|stream| - 1], chunkSize);
      var (b', o) := Feed(b, stream[|stream| - 1], chunkSize);
      (b', out + Emitted(o))
  }

  /** Nothing is lost, duplicated or reordered: the chunks handed on, followed
      by what is still buffered, are exactly the bytes received. */
  lemma {:induction false} FeedAllConserves(stream: seq<Bytes>, chunkSize: int)
    ensures Flatten(FeedAll(stream, chunkSize).1) + FeedAll(stream, chunkSize).0 == Flatten(stream)
    decreases |stream|
  {
    if stream != [] {
      var init := stream[..|stream| - 1];
      var last := stream[|stream| - 1];
      FeedAllConserves(init, chunkSize);
      var (b, out) := FeedAll(init, chunkSize);
      var (b', o) := Feed(b, last, chunkSize);
      assert stream == init + [last];
      FlattenSnoc(init, last);
      if o.Some? {
        FlattenSnoc(out, b + last);
      } else {
        assert out + Emitted(o) == out;
      }
    }
  }

  /** With a positive chunk size the buffer always stays below it, every
      chunk handed on is at least that long, and no chunk is empty. */
  lemma {:induction false} FeedAllBounds(stream: seq<Bytes>, chunkSize: int)
    requires chunkSize > 0
    ensures |FeedAll(stream, chunkSize).0| < chunkSize
    ensures forall i :: 0 <= i < |FeedAll(stream, chunkSize).1| ==> |FeedAll(stream, chunkSize).1[i]| >= chunkSize
    decreases |stream|
  {
    if stream != [] {
      FeedAllBounds(stream[..|stream| - 1], chunkSize);
    }
  }

  /** The chunks handed on so far are a prefix of the bytes received; only a
      tail shorter than the chunk size is still waiting. */
  lemma FeedAllPrefix(stream: seq<Bytes>, chunkSize: int)
    requires chunkSize > 0
    ensures Flatten(FeedAll(stream, chunkSize).1) <= Flatten(stream)
    ensures |Flatten(stream)| - |Flatten(FeedAll(stream, chunkSize).1)| < chunkSize
  {
    FeedAllConserves(stream, chunkSize);
    FeedAllBounds(stream, chunkSize);
  }
}
