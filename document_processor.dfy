/** `DocumentProcessor`: the files of a directory are chunked, embedded 32
    chunks at a time and upserted into the "documents" collection of the
    vector index in batches of at most 50 points; the embeddings of a file
    are cached on disk under the MD5 of its bytes, so a file seen before is
    re-stored from the cache instead of being embedded again.

    The file system is a map from path to bytes, the chunker's readings of a
    file are an input, the embedding model is an oracle from texts to
    vectors, and an upsert is an oracle from the points sent to its outcome.
    `uuid4()` is modelled as a counter: the n-th identifier issued. */
module DocumentProcessor {
  import opened Wrappers
  import opened Text
  import opened Seqs
  import opened Buffering
  import opened Chunking

  type Vector = seq<real>

  /** The MD5 digest of a file's bytes; distinct contents are taken to have
      distinct digests. */
  datatype Digest = Md5(data: Bytes)

  /** One entry of `embeddings_data`: the vector, the chunk's content and the
      metadata `source`, `page` and `type`. */
  datatype Record = Record(embedding: Vector, content: string, source: string, page: Option<nat>, kind: string)

  /** The payload of a stored point. */
  datatype Payload = Payload(content: string, source: string, page: Option<nat>, kind: string, filename: string)

  /** `str(uuid.uuid4())`: the identifier issued `serial`-th. */
  datatype Uuid = Uuid4(serial: nat)

  datatype Point = Point(id: Uuid, vector: Vector, payload: Payload)

  const EmbedBatchSize: nat := 32
  const MaxUpsertSize: nat := 50
  const ContentLimit: nat := 5000

  /** `os.path.basename(path)`. */
  function Basename(path: string): (r: string)
    ensures '/' !in r && EndsWith(path, r)
    ensures '/' !in path ==> r == path
  {
    AfterLast(path, '/')
  }

  /** `os.path.join(directory, name)`. */
  function PathJoin(directory: string, name: string): string {
    if |name| > 0 && name[0] == '/' then name
    else if directory == [] || EndsWith(directory, "/") then directory + name
    else directory + "/" + name
  }

  /** The joined path ends with the name, and is the name itself when that
      is absolute; otherwise it starts with the directory and separates the
      two by exactly one '/' added when the directory lacks it. */
  lemma PathJoinSpec(directory: string, name: string)
    ensures EndsWith(PathJoin(directory, name), name)
    ensures |name| > 0 && name[0] == '/' ==> PathJoin(directory, name) == name
    ensures !(|name| > 0 && name[0] == '/') ==>
      && StartsWith(PathJoin(directory, name), directory)
      && |PathJoin(directory, name)| == |directory| + |name| + (if directory == [] || EndsWith(directory, "/") then 0 else 1)
  {
    var r := PathJoin(directory, name);
    if !(|name| > 0 && name[0] == '/') {
      assert r[..|directory|] == directory;
    }
    assert r[|r| - |name|..] == name;
  }

  /** The payload written for a record stored from `source`. */
  function PayloadOf(rec: Record, source: string): (p: Payload)
    ensures p.content <= rec.content && |p.content| == Min(|rec.content|, ContentLimit)
    ensures p.source == source && p.filename == Basename(source)
    ensures p.page == rec.page && p.kind == rec.kind
  {
    Payload(Prefix(rec.content, ContentLimit), source, rec.page, rec.kind, Basename(source))
  }

  /** The points built for `records` when the identifier counter stands at
      `first`. */
  function Stored(records: seq<Record>, source: string, first: nat): (r: seq<Point>)
    ensures |r| == |records|
  {
    seq(|records|, i requires 0 <= i < |records| => Point(Uuid4(first + i), records[i].embedding, PayloadOf(records[i], source)))
  }

  /** What a point carries apart from its identifier. */
  function Contents(points: seq<Point>): (r: seq<(Vector, Payload)>)
    ensures |r| == |points|
  {
    seq(|points|, i requires 0 <= i < |points| => (points[i].vector, points[i].payload))
  }

  /** What storing `records` from `source` writes, identifiers aside. */
  function Entries(records: seq<Record>, source: string): (r: seq<(Vector, Payload)>)
    ensures |r| == |records|
  {
    seq(|records|, i requires 0 <= i < |records| => (records[i].embedding, PayloadOf(records[i], source)))
  }

  /** Whatever the counter, the points stored carry each record's vector and
      payload, one point per record in order. */
  lemma ContentsStored(records: seq<Record>, source: string, first: nat)
    ensures Contents(Stored(records, source, first)) == Entries(records, source)
  {
  }

  lemma StoredSlice(records: seq<Record>, source: string, first: nat, i: nat, j: nat)
    requires i <= j <= |records|
    ensures Stored(records, source, first)[i..j] == Stored(records[i..j], source, first + i)
  {
  }

  /** Upsert batch `k` of a store is the points made for the records of
      the `k`-th turn of its loop, numbered from where that turn starts. */
  lemma StoredBatchAt(records: seq<Record>, source: string, first: nat, k: nat)
    requires k < |Batches(Stored(records, source, first), MaxUpsertSize)|
    ensures k * MaxUpsertSize < |records| && (k + 1) * MaxUpsertSize == k * MaxUpsertSize + MaxUpsertSize
    ensures var lo := k * MaxUpsertSize;
      Batches(Stored(records, source, first), MaxUpsertSize)[k]
        == Stored(records[lo..Min(lo + MaxUpsertSize, |records|)], source, first + lo)
    ensures k + 1 < |Batches(Stored(records, source, first), MaxUpsertSize)| <==> k * MaxUpsertSize + MaxUpsertSize < |records|
  {
    var lo := k * MaxUpsertSize;
    BatchStep(Stored(records, source, first), MaxUpsertSize, k);
    StoredSlice(records, source, first, lo, Min(lo + MaxUpsertSize, |records|));
  }

  /** The number of upserts that succeed before the first one that fails:
      the calls after a failure are never made. */
  function Accepted(calls: seq<seq<Point>>, upsert: seq<Point> -> Result<()>): (m: nat)
    ensures m <= |calls|
    ensures forall j :: 0 <= j < m ==> upsert(calls[j]).Success?
    ensures m < |calls| ==> upsert(calls[m]).Failure?
  {
    if calls == [] || upsert(calls[0]).Failure? then 0
    else 1 + Accepted(calls[1..], upsert)
  }

  /** The count is determined by where the first failure is. */
  lemma AcceptedAt(calls: seq<seq<Point>>, upsert: seq<Point> -> Result<()>, k: nat)
    requires k <= |calls| && forall j :: 0 <= j < k ==> upsert(calls[j]).Success?
    requires k < |calls| ==> upsert(calls[k]).Failure?
    ensures Accepted(calls, upsert) == k
  {
  }

  /** Identifiers strictly increasing along `points`. */
  ghost predicate Increasing(points: seq<Point>) {
    forall i, j :: 0 <= i < j < |points| ==> points[i].id.serial < points[j].id.serial
  }

  /** Identifiers all below `bound`. */
  ghost predicate Below(points: seq<Point>, bound: nat) {
    forall i :: 0 <= i < |points| ==> points[i].id.serial < bound
  }

  lemma {:induction false} AppendFresh(log: seq<Point>, points: seq<Point>, lo: nat, hi: nat)
    requires Increasing(log) && Below(log, lo)
    requires forall i :: 0 <= i < |points| ==> points[i].id.serial == lo + i
    requires hi == lo + |points|
    ensures Increasing(log + points) && Below(log + points, hi)
  {
    var s := log + points;
    forall i, j | 0 <= i < j < |s|
      ensures s[i].id.serial < s[j].id.serial
    {
      if j < |log| {
      } else if i < |log| {
        assert s[i] == log[i] && s[j] == points[j - |log|];
      } else {
        assert s[i] == points[i - |log|] && s[j] == points[j - |log|];
      }
    }
  }

  // ---------------------------------------------------------------------
  // Records

  /** The records for one batch: embedding `idx` goes with `batch[idx]`; more
      embeddings than chunks makes `batch[idx]` raise. */
  function BatchRecords(batch: seq<Chunk>, embeddings: seq<Vector>, path: string): (r: Result<seq<Record>>)
    ensures r.Success? <==> |embeddings| <= |batch|
    ensures r.Success? ==> |r.value| == |embeddings| && forall i :: 0 <= i < |r.value| ==>
      r.value[i] == Record(embeddings[i], batch[i].content, path, batch[i].Page(), batch[i].Kind())
  {
    if |embeddings| > |batch| then Failure("IndexError: list index out of range")
    else Success(seq(|embeddings|, i requires 0 <= i < |embeddings| =>
      Record(embeddings[i], batch[i].content, path, batch[i].Page(), batch[i].Kind())))
  }

  function Texts(batch: seq<Chunk>): (r: seq<string>)
    ensures |r| == |batch| && forall i :: 0 <= i < |r| ==> r[i] == batch[i].content
  {
    seq(|batch|, i requires 0 <= i < |batch| => batch[i].content)
  }

  /** `_get_embeddings_with_retry(batch)` followed by the records built from
      its result. */
  function EncodeBatch(batch: seq<Chunk>, path: string, encode: seq<string> -> Result<seq<Vector>>)
    : Result<seq<Record>>
  {
    var embeddings :- encode(Texts(batch));
    BatchRecords(batch, embeddings, path)
  }

  /** The model returns one vector per text it is given. */
  ghost predicate EncodesEach(encode: seq<string> -> Result<seq<Vector>>) {
    forall texts :: encode(texts).Success? ==> |encode(texts).value| == |texts|
  }

  /** The record built for `chunk` read from `path`. */
  ghost predicate RecordOf(rec: Record, chunk: Chunk, path: string) {
    rec.content == chunk.content && rec.source == path && rec.page == chunk.Page() && rec.kind == chunk.Kind()
  }

  /** With a model that returns one vector per text, a batch that encodes
      gives one record per chunk, in order. */
  lemma EncodeBatchSpec(batch: seq<Chunk>, path: string, encode: seq<string> -> Result<seq<Vector>>)
    requires EncodesEach(encode)
    ensures EncodeBatch(batch, path, encode).Success? <==> encode(Texts(batch)).Success?
    ensures EncodeBatch(batch, path, encode).Success? ==>
      var r := EncodeBatch(batch, path, encode).value;
      && |r| == |batch|
      && forall i :: 0 <= i < |r| ==> RecordOf(r[i], batch[i], path)
  {
  }

  /** `embeddings_data` after the given batches in turn, or the first
      exception. */
  function EncodeRuns(batches: seq<seq<Chunk>>, path: string, encode: seq<string> -> Result<seq<Vector>>)
    : Result<seq<Record>>
  {
    if batches == [] then Success([])
    else
      var init :- EncodeRuns(batches[..|batches| - 1], path, encode);
      var last :- EncodeBatch(batches[|batches| - 1], path, encode);
      Success(init + last)
  }

  /** One more batch: its records follow those of the batches before it. */
  lemma EncodeRunsStep(batches: seq<seq<Chunk>>, k: nat, path: string, encode: seq<string> -> Result<seq<Vector>>)
    requires k < |batches|
    ensures var init := EncodeRuns(batches[..k], path, encode);
      var last := EncodeBatch(batches[k], path, encode);
      init.Success? && last.Success? ==> EncodeRuns(batches[..k + 1], path, encode) == Success(init.value + last.value)
  {
    assert batches[..k + 1][..k] == batches[..k];
  }

  /** The whole `embeddings_data` for the chunks of a file. */
  function AllRecords(chunks: seq<Chunk>, path: string, encode: seq<string> -> Result<seq<Vector>>)
    : Result<seq<Record>>
  {
    EncodeRuns(Batches(chunks, EmbedBatchSize), path, encode)
  }

  /** Running through the batches fails exactly when one of them fails to
      encode; otherwise there is one record per chunk, in chunk order. */
  lemma {:induction false} EncodeRunsSpec(batches: seq<seq<Chunk>>, path: string, encode: seq<string> -> Result<seq<Vector>>)
    requires EncodesEach(encode)
    ensures EncodeRuns(batches, path, encode).Success? <==>
      forall j :: 0 <= j < |batches| ==> EncodeBatch(batches[j], path, encode).Success?
    ensures EncodeRuns(batches, path, encode).Success? ==>
      var r := EncodeRuns(batches, path, encode).value;
      && |r| == |Flatten(batches)|
      && forall i :: 0 <= i < |r| ==> RecordOf(r[i], Flatten(batches)[i], path)
    decreases |batches|
  {
    if batches != [] {
      var init := batches[..|batches| - 1];
      var last := batches[|batches| - 1];
      assert batches == init + [last];
      EncodeRunsSpec(init, path, encode);
      EncodeBatchSpec(last, path, encode);
      FlattenSnoc(init, last);
      if EncodeRuns(batches, path, encode).Success? {
        var r := EncodeRuns(batches, path, encode).value;
        var a := EncodeRuns(init, path, encode).value;
        var b := EncodeBatch(last, path, encode).value;
        assert r == a + b;
        forall i | 0 <= i < |r|
          ensures RecordOf(r[i], Flatten(batches)[i], path)
        {
          if i < |a| {
            assert r[i] == a[i] && Flatten(batches)[i] == Flatten(init)[i];
          } else {
            assert r[i] == b[i - |a|] && Flatten(batches)[i] == last[i - |a|];
          }
        }
      } else if EncodeRuns(init, path, encode).Success? {
        assert !EncodeBatch(batches[|batches| - 1], path, encode).Success?;
      } else {
        var j :| 0 <= j < |init| && !EncodeBatch(init[j], path, encode).Success?;
        assert batches[j] == init[j];
      }
    }
  }

  /** `_process_new_file` appends exactly one record per chunk, in chunk
      order, with the file's path as source and the chunk's page and type. */
  lemma RecordsPerChunk(chunks: seq<Chunk>, path: string, encode: seq<string> -> Result<seq<Vector>>)
    requires EncodesEach(encode)
    ensures AllRecords(chunks, path, encode).Success? ==>
      var r := AllRecords(chunks, path, encode).value;
      && |r| == |chunks|
      && forall i :: 0 <= i < |r| ==> RecordOf(r[i], chunks[i], path)
  {
    EncodeRunsSpec(Batches(chunks, EmbedBatchSize), path, encode);
    FlattenBatches(chunks, EmbedBatchSize);
  }

  // ---------------------------------------------------------------------
  // What each batch step stores

  /** `embeddings_data[-32:]` once the batch with index `k` has been added. */
  function Run(records: seq<Record>, k: nat): (r: seq<Record>)
    ensures |r| <= EmbedBatchSize
  {
    LastN(records[..Min((k + 1) * EmbedBatchSize, |records|)], EmbedBatchSize)
  }

  /** As written: when a file has more than 32 chunks and the last batch is
      short, the last step stores the 32 newest records, which reach back
      into the batch before it; those records are upserted a second time. */
  lemma ShortFinalBatchRestores(records: seq<Record>)
    requires |records| > EmbedBatchSize && |records| % EmbedBatchSize != 0
    ensures var k := |records| / EmbedBatchSize;
      && Run(records, k) == records[|records| - EmbedBatchSize..]
      && Run(records, k - 1) == records[(k - 1) * EmbedBatchSize..k * EmbedBatchSize]
      && |records| - EmbedBatchSize < k * EmbedBatchSize
  {
    var n := |records|;
    var k := n / EmbedBatchSize;
    assert n == k * EmbedBatchSize + n % EmbedBatchSize;
    assert records[..n] == records;
    var prev := records[..k * EmbedBatchSize];
    assert Run(records, k - 1) == LastN(prev, EmbedBatchSize);
    assert prev[|prev| - EmbedBatchSize..] == records[(k - 1) * EmbedBatchSize..k * EmbedBatchSize];
  }

  /** The concrete case: 40 records; the second step stores records 8 to 39,
      so records 8 to 31 go out with both steps. */
  lemma FortyRecords(records: seq<Record>)
    requires |records| == 40
    ensures Run(records, 0) == records[..32] && Run(records, 1) == records[8..]
  {
    ShortFinalBatchRestores(records);
  }

  /** As intended: the records of the current batch alone. */
  function CurrentBatch(records: seq<Record>, k: nat): (r: seq<Record>)
    requires k * EmbedBatchSize <= |records|
    ensures |r| <= EmbedBatchSize
  {
    records[k * EmbedBatchSize..Min(k * EmbedBatchSize + EmbedBatchSize, |records|)]
  }

  /** Storing the current batch at each step stores every record exactly
      once, in order. */
  lemma {:induction false} CurrentBatchesStoreOnce(records: seq<Record>)
    ensures var bs := Batches(records, EmbedBatchSize);
      && (forall k :: 0 <= k < |bs| ==> k * EmbedBatchSize <= |records| && bs[k] == CurrentBatch(records, k))
      && Flatten(bs) == records
  {
    var bs := Batches(records, EmbedBatchSize);
    forall k | 0 <= k < |bs|
      ensures k * EmbedBatchSize <= |records| && bs[k] == CurrentBatch(records, k)
    {
      BatchAt(records, EmbedBatchSize, k);
    }
    FlattenBatches(records, EmbedBatchSize);
  }

  /** The written and the intended step agree on the first batch and on
      every full batch. */
  lemma RunIsCurrentBatchWhenFull(records: seq<Record>, k: nat)
    requires k == 0 || (k + 1) * EmbedBatchSize <= |records|
    ensures k * EmbedBatchSize <= |records| ==> Run(records, k) == CurrentBatch(records, k)
  {
    if k * EmbedBatchSize <= |records| {
      var upTo := records[..Min((k + 1) * EmbedBatchSize, |records|)];
      if k == 0 {
        assert upTo == CurrentBatch(records, 0);
      } else {
        assert upTo[|upTo| - EmbedBatchSize..] == CurrentBatch(records, k);
      }
    }
  }

  /** Adding records after a step leaves what that step stored unchanged. */
  lemma RunStable(records: seq<Record>, more: seq<Record>, k: nat)
    requires (k + 1) * EmbedBatchSize <= |records|
    ensures Run(records + more, k) == Run(records, k)
  {
    var upTo := (k + 1) * EmbedBatchSize;
    assert (records + more)[..upTo] == records[..upTo];
  }

  lemma RunNewest(records: seq<Record>, k: nat)
    requires |records| <= (k + 1) * EmbedBatchSize
    ensures Run(records, k) == LastN(records, EmbedBatchSize)
  {
    assert records[..|records|] == records;
  }

  /** The upsert calls of `_process_new_file`, one per batch: call `k`
      carries what storing step `k`'s records writes. */
  ghost predicate StoresRuns(calls: seq<seq<Point>>, records: seq<Record>, path: string) {
    forall k :: 0 <= k < |calls| ==> Contents(calls[k]) == Entries(Run(records, k), path)
  }

  /** One pass of the batch loop keeps the record of upsert calls: the
      calls made before the loop stay, and the new call is this step's. */
  lemma StoredBatch(base: seq<seq<Point>>, prior: seq<seq<Point>>, after: seq<seq<Point>>,
    before: seq<Record>, more: seq<Record>, k: nat, path: string)
    requires |prior| == |base| + k && prior[..|base|] == base
    requires StoresRuns(prior[|base|..], before, path)
    requires |before| == k * EmbedBatchSize && |more| <= EmbedBatchSize
    requires |after| == |prior| + 1 && after[..|prior|] == prior
    requires Contents(after[|prior|]) == Entries(LastN(before + more, EmbedBatchSize), path)
    ensures |after| == |base| + k + 1 && after[..|base|] == base
    ensures StoresRuns(after[|base|..], before + more, path)
  {
    var calls := prior[|base|..];
    var points := after[|prior|];
    assert after == prior + [points];
    assert after[|base|..] == calls + [points];
    RunNewest(before + more, k);
    StoresRunsExtend(calls, points, before, more, path);
  }

  /** One turn of the batch loop of `_process_new_file`, stated on the
      loop's own terms: with `before` the records of the first `k` batches
      and `prior` the upsert log holding one call per batch after `base`,
      embedding batch `k` and storing the newest records extends both. */
  lemma EmbedStepKeeps(chunks: seq<Chunk>, path: string, encode: seq<string> -> Result<seq<Vector>>,
    base: seq<seq<Point>>, prior: seq<seq<Point>>, after: seq<seq<Point>>,
    before: seq<Record>, extended: seq<Record>, k: nat)
    requires k < |Batches(chunks, EmbedBatchSize)| && |before| == k * EmbedBatchSize
    requires EncodeRuns(Batches(chunks, EmbedBatchSize)[..k], path, encode) == Success(before)
    requires |prior| == |base| + k && prior[..|base|] == base
    requires StoresRuns(prior[|base|..], before, path)
    requires var encoded := EncodeBatch(Batches(chunks, EmbedBatchSize)[k], path, encode);
      encoded.Success? && |encoded.value| <= EmbedBatchSize && extended == before + encoded.value
    requires |after| == |prior| + 1 && after[..|prior|] == prior
    requires Contents(after[|prior|]) == Entries(LastN(extended, EmbedBatchSize), path)
    ensures EncodeRuns(Batches(chunks, EmbedBatchSize)[..k + 1], path, encode) == Success(extended)
    ensures |after| == |base| + k + 1 && after[..|base|] == base
    ensures StoresRuns(after[|base|..], extended, path)
  {
    var batches := Batches(chunks, EmbedBatchSize);
    EncodeRunsStep(batches, k, path, encode);
    StoredBatch(base, prior, after, before, EncodeBatch(batches[k], path, encode).value, k, path);
  }

  /** Records added after the steps already stored leave those steps' calls
      as they were. */
  lemma StoresRunsStable(calls: seq<seq<Point>>, records: seq<Record>, more: seq<Record>, path: string)
    requires StoresRuns(calls, records, path) && |calls| * EmbedBatchSize <= |records|
    ensures StoresRuns(calls, records + more, path)
  {
    forall k | 0 <= k < |calls|
      ensures Contents(calls[k]) == Entries(Run(records + more, k), path)
    {
      RunStable(records, more, k);
    }
  }

  lemma StoresRunsExtend(calls: seq<seq<Point>>, points: seq<Point>, records: seq<Record>, more: seq<Record>, path: string)
    requires StoresRuns(calls, records, path) && |calls| * EmbedBatchSize <= |records|
    requires Contents(points) == Entries(Run(records + more, |calls|), path)
    ensures StoresRuns(calls + [points], records + more, path)
  {
    StoresRunsStable(calls, records, more, path);
    forall k | 0 <= k < |calls| + 1
      ensures Contents((calls + [points])[k]) == Entries(Run(records + more, k), path)
    {
      if k < |calls| {
        assert (calls + [points])[k] == calls[k];
      }
    }
  }

  // ---------------------------------------------------------------------
  // The on-disk embedding cache

  function NoSuchFile(path: string): string {
    "[Errno 2] No such file or directory: '" + path + "'"
  }

  /** `EmbeddingCache`: one pickle file per digest of file contents. */
  class EmbeddingCache {
    var entries: map<Digest, seq<Record>>

    constructor ()
      ensures entries == map[]
    {
      entries := map[];
    }

    /** `exists(file_path)`: reading the file raises when it is missing. */
    function Exists(disk: map<string, Bytes>, path: string): (r: Result<bool>)
      reads this
      ensures r.Failure? <==> path !in disk
      ensures r.Success? ==> (r.value <==> Md5(disk[path]) in entries)
    {
      if path !in disk then Failure(NoSuchFile(path))
      else Success(Md5(disk[path]) in entries)
    }

    /** `load(file_path)`: the entry for the file's current contents. */
    function Load(disk: map<string, Bytes>, path: string): (r: Result<seq<Record>>)
      reads this
      ensures r.Success? <==> path in disk && Md5(disk[path]) in entries
      ensures r.Success? ==> r.value == entries[Md5(disk[path])]
    {
      if path !in disk then Failure(NoSuchFile(path))
      else if Md5(disk[path]) !in entries then Failure(NoSuchFile("cache/embeddings/<md5>.pkl"))
      else Success(entries[Md5(disk[path])])
    }

    /** `save(file_path, embeddings_data)`: the entry for the file's contents
        is written (replacing an older one); other entries stay. */
    method Save(disk: map<string, Bytes>, path: string, data: seq<Record>) returns (r: Result<()>)
      modifies this`entries
      ensures r.Success? <==> path in disk
      ensures entries == if path in disk then old(entries)[Md5(disk[path]) := data] else old(entries)
      ensures r.Success? ==> Exists(disk, path) == Success(true) && Load(disk, path) == Success(data)
    {
      if path !in disk {
        return Failure(NoSuchFile(path));
      }
      entries := entries[Md5(disk[path]) := data];
      r := Success(());
    }
  }

  /** Files with identical bytes share one cache entry; a file whose bytes
      differ from the saved file's still sees its own entry. */
  lemma SaveAffectsOnlyItsContents(before: map<Digest, seq<Record>>, disk: map<string, Bytes>, p: string, q: string, data: seq<Record>)
    requires p in disk && q in disk
    ensures var after := before[Md5(disk[p]) := data];
      && (disk[p] == disk[q] ==> Md5(disk[q]) in after && after[Md5(disk[q])] == data)
      && (disk[p] != disk[q] ==> (Md5(disk[q]) in after <==> Md5(disk[q]) in before))
      && (disk[p] != disk[q] && Md5(disk[q]) in before ==> after[Md5(disk[q])] == before[Md5(disk[q])])
  {
  }

  /** Appending the first `m` upsert batches of a store whose identifiers
      start at `first` keeps every identifier distinct. */
  lemma StoredStaysFresh(before: seq<seq<Point>>, records: seq<Record>, source: string, first: nat, m: nat, hi: nat)
    requires Increasing(Flatten(before)) && Below(Flatten(before), first)
    requires m <= |Batches(Stored(records, source, first), MaxUpsertSize)|
    requires hi >= first + Min(m * MaxUpsertSize, |records|)
    ensures var after := before + Batches(Stored(records, source, first), MaxUpsertSize)[..m];
      Increasing(Flatten(after)) && Below(Flatten(after), hi)
  {
    var all := Stored(records, source, first);
    var calls := Batches(all, MaxUpsertSize);
    FlattenConcat(before, calls[..m]);
    FlattenBatchesPrefix(all, MaxUpsertSize, m);
    var p := Min(m * MaxUpsertSize, |records|);
    AppendFresh(Flatten(before), all[..p], first, first + p);
  }

  /** What handling one listed file does, given the cache `entries` and the
      identifier counter `issued` before it: `added` are the upsert batches
      it makes, `entries'` the cache after it.  A missing file raises and
      changes nothing.  A file whose contents are cached has the cached
      records stored again under fresh identifiers, and the cache stays.  A
      new file that goes through has one upsert per chunk batch, carrying
      that step's records, and its records saved under its contents.  A
      failure never changes the cache. */
  ghost predicate FileOutcome(path: string, readings: Readings, disk: map<string, Bytes>,
    encode: seq<string> -> Result<seq<Vector>>, upsert: seq<Point> -> Result<()>,
    entries: map<Digest, seq<Record>>, issued: nat,
    r: Result<()>, added: seq<seq<Point>>, entries': map<Digest, seq<Record>>)
  {
    && (r.Failure? ==> entries' == entries)
    && (path !in disk ==> r.Failure? && added == [])
    && (path in disk && Md5(disk[path]) in entries ==>
          var calls := Batches(Stored(entries[Md5(disk[path])], path, issued), MaxUpsertSize);
          && entries' == entries
          && added == calls[..Accepted(calls, upsert)]
          && (r.Success? <==> Accepted(calls, upsert) == |calls|))
    && (path in disk && Md5(disk[path]) !in entries && r.Success? ==>
          var chunks := DocumentChunks(path, readings);
          var records := AllRecords(chunks, path, encode);
          && records.Success?
          && entries' == entries[Md5(disk[path]) := records.value]
          && |added| == |Batches(chunks, EmbedBatchSize)|
          && StoresRuns(added, records.value, path))
  }

  /** `tried`, `added`, `caches` and `counters` record, for each of the
      first `n` names of a listing, the path tried and the outcome of
      handling it from the state the previous name left. */
  ghost predicate Walked(directory: string, names: seq<string>, disk: map<string, Bytes>,
    readings: string -> Readings, encode: seq<string> -> Result<seq<Vector>>, upsert: seq<Point> -> Result<()>,
    tried: seq<(string, Result<()>)>, added: seq<seq<seq<Point>>>,
    caches: seq<map<Digest, seq<Record>>>, counters: seq<nat>, n: nat)
  {
    && n <= |names| && |tried| == |added| == n && |caches| == |counters| == n + 1
    && forall j :: 0 <= j < n ==>
         && tried[j].0 == PathJoin(directory, names[j])
         && FileOutcome(tried[j].0, readings(tried[j].0), disk, encode, upsert,
              caches[j], counters[j], tried[j].1, added[j], caches[j + 1])
  }

  /** The walk extends by one name. */
  lemma WalkedStep(directory: string, names: seq<string>, disk: map<string, Bytes>,
    readings: string -> Readings, encode: seq<string> -> Result<seq<Vector>>, upsert: seq<Point> -> Result<()>,
    tried: seq<(string, Result<()>)>, added: seq<seq<seq<Point>>>,
    caches: seq<map<Digest, seq<Record>>>, counters: seq<nat>, n: nat,
    r: Result<()>, made: seq<seq<Point>>, entries: map<Digest, seq<Record>>, issued: nat)
    requires Walked(directory, names, disk, readings, encode, upsert, tried, added, caches, counters, n)
    requires n < |names|
    requires var path := PathJoin(directory, names[n]);
      FileOutcome(path, readings(path), disk, encode, upsert, caches[n], counters[n], r, made, entries)
    ensures Walked(directory, names, disk, readings, encode, upsert,
      tried + [(PathJoin(directory, names[n]), r)], added + [made], caches + [entries], counters + [issued], n + 1)
  {
    var tried', added' := tried + [(PathJoin(directory, names[n]), r)], added + [made];
    var caches', counters' := caches + [entries], counters + [issued];
    forall j | 0 <= j < n + 1
      ensures && tried'[j].0 == PathJoin(directory, names[j])
              && FileOutcome(tried'[j].0, readings(tried'[j].0), disk, encode, upsert,
                   caches'[j], counters'[j], tried'[j].1, added'[j], caches'[j + 1])
    {
      if j < n {
        assert tried'[j] == tried[j] && added'[j] == added[j];
        assert caches'[j] == caches[j] && caches'[j + 1] == caches[j + 1] && counters'[j] == counters[j];
      } else {
        assert tried'[j] == (PathJoin(directory, names[n]), r) && added'[j] == made;
        assert caches'[j] == caches[n] && caches'[j + 1] == entries && counters'[j] == counters[n];
      }
    }
  }

  // ---------------------------------------------------------------------
  // The processor

  class DocumentProcessor {
    const cache: EmbeddingCache
    /** The point batches upserted into the "documents" collection, in order. */
    var upserts: seq<seq<Point>>
    /** How many identifiers `uuid4()` has issued. */
    var issued: nat

    /** Every point ever upserted carries an identifier of its own. */
    ghost predicate Valid()
      reads this
    {
      Increasing(Flatten(upserts)) && Below(Flatten(upserts), issued)
    }

    constructor (cache: EmbeddingCache)
      ensures Valid() && this.cache == cache && upserts == [] && issued == 0
    {
      this.cache := cache;
      upserts := [];
      issued := 0;
    }

    /** `for embedding in batch`: one point per record, each with a new
        identifier. */
    method MakePoints(batch: seq<Record>, source: string) returns (points: seq<Point>)
      modifies this`issued
      ensures points == Stored(batch, source, old(issued)) && issued == old(issued) + |batch|
    {
      points := [];
      var j := 0;
      while j < |batch|
        invariant 0 <= j <= |batch| && issued == old(issued) + j
        invariant points == Stored(batch[..j], source, old(issued))
      {
        points := points + [Point(Uuid4(issued), batch[j].embedding, PayloadOf(batch[j], source))];
        issued := issued + 1;
        j := j + 1;
      }
      assert batch[..j] == batch;
    }

    /** One turn of the upsert loop of `_store_embeddings_with_retry`: the
        points for records `k*50` to `k*50 + 50` are built with fresh
        identifiers and sent; a successful upsert is recorded. */
    method UpsertTurn(records: seq<Record>, source: string, upsert: seq<Point> -> Result<()>,
      ghost first: nat, k: nat) returns (outcome: Result<()>)
      requires k < |Batches(Stored(records, source, first), MaxUpsertSize)|
      requires issued == first + k * MaxUpsertSize
      modifies this`upserts, this`issued
      ensures var calls := Batches(Stored(records, source, first), MaxUpsertSize);
        && outcome == upsert(calls[k])
        && upserts == old(upserts) + (if outcome.Success? then [calls[k]] else [])
      ensures issued == first + Min(k * MaxUpsertSize + MaxUpsertSize, |records|)
    {
      StoredBatchAt(records, source, first, k);
      var lo := k * MaxUpsertSize;
      var hi := if lo + MaxUpsertSize <= |records| then lo + MaxUpsertSize else |records|;
      var points := MakePoints(records[lo..hi], source);
      outcome := upsert(points);
      if outcome.Success? {
        upserts := upserts + [points];
      }
    }

    /** The upsert loop of `_store_embeddings_with_retry`: batches are sent
        in order until one fails; `k` is the number that went through. */
    method UpsertAll(records: seq<Record>, source: string, upsert: seq<Point> -> Result<()>)
      returns (r: Result<()>, k: nat)
      modifies this`upserts, this`issued
      ensures var calls := Batches(Stored(records, source, old(issued)), MaxUpsertSize);
        && k <= |calls|
        && upserts == old(upserts) + calls[..k]
        && issued == old(issued) + Min((if r.Success? then k else k + 1) * MaxUpsertSize, |records|)
        && (forall j :: 0 <= j < k ==> upsert(calls[j]).Success?)
        && (r.Success? ==> k == |calls|)
        && (r.Failure? ==> k < |calls| && upsert(calls[k]).Failure? && r == Failure(upsert(calls[k]).error))
    {
      ghost var first := issued;
      ghost var calls := Batches(Stored(records, source, first), MaxUpsertSize);
      var i := 0;
      k := 0;
      while i < |records|
        invariant k <= |calls| && i == k * MaxUpsertSize
        invariant k < |calls| <==> i < |records|
        invariant issued == first + Min(i, |records|)
        invariant upserts == old(upserts) + calls[..k]
        invariant forall j :: 0 <= j < k ==> upsert(calls[j]).Success?
      {
        StoredBatchAt(records, source, first, k);
        var outcome := UpsertTurn(records, source, upsert, first, k);
        if outcome.Failure? {
          return Failure(outcome.error), k;
        }
        assert calls[..k + 1] == calls[..k] + [calls[k]];
        i := i + MaxUpsertSize;
        k := k + 1;
      }
      assert calls[..k] == calls;
      r := Success(());
    }

    /** `_store_embeddings_with_retry(embeddings, source_file)`: the points
        for the records, cut into consecutive batches of at most 50, one
        upsert per batch; the first failing upsert ends the call with its
        error. */
    method StoreEmbeddings(records: seq<Record>, source: string, upsert: seq<Point> -> Result<()>)
      returns (r: Result<()>)
      requires Valid()
      modifies this`upserts, this`issued
      ensures Valid()
      ensures issued >= old(issued)
      ensures var calls := Batches(Stored(records, source, old(issued)), MaxUpsertSize);
        var m := Accepted(calls, upsert);
        && upserts == old(upserts) + calls[..m]
        && (r.Success? <==> m == |calls|)
        && (r.Failure? ==> r == Failure(upsert(calls[m]).error))
    {
      ghost var first := issued;
      ghost var calls := Batches(Stored(records, source, first), MaxUpsertSize);
      var k;
      r, k := UpsertAll(records, source, upsert);
      AcceptedAt(calls, upsert, k);
      StoredStaysFresh(old(upserts), records, source, first, k, issued);
    }

    /** `_store_embeddings_with_retry(embeddings_data[-32:], file_path)`:
        at most 32 records fit in a single upsert. */
    method StoreNewest(data: seq<Record>, path: string, upsert: seq<Point> -> Result<()>)
      returns (r: Result<()>)
      requires Valid() && |data| > 0
      modifies this`upserts, this`issued
      ensures Valid()
      ensures r.Failure? ==> upserts == old(upserts)
      ensures r.Success? ==>
        && |upserts| == |old(upserts)| + 1 && upserts[..|old(upserts)|] == old(upserts)
        && Contents(upserts[|old(upserts)|]) == Entries(LastN(data, EmbedBatchSize), path)
    {
      var run := LastN(data, EmbedBatchSize);
      ghost var stored := Stored(run, path, issued);
      ContentsStored(run, path, issued);
      r := StoreEmbeddings(run, path, upsert);
      assert Batches(stored, MaxUpsertSize) == [stored];
    }

    /** One pass of the batch loop: the batch is embedded, its records
        appended to `data`, and the newest 32 records stored. */
    method EmbedBatch(batch: seq<Chunk>, data: seq<Record>, path: string,
      encode: seq<string> -> Result<seq<Vector>>, upsert: seq<Point> -> Result<()>)
      returns (r: Result<seq<Record>>)
      requires Valid() && EncodesEach(encode) && |batch| > 0
      modifies this`upserts, this`issued
      ensures Valid()
      ensures r.Failure? ==> upserts == old(upserts)
      ensures r.Success? ==> (
        && EncodeBatch(batch, path, encode).Success?
        && r.value == data + EncodeBatch(batch, path, encode).value
        && |r.value| == |data| + |batch|
        && |upserts| == |old(upserts)| + 1 && upserts[..|old(upserts)|] == old(upserts)
        && Contents(upserts[|old(upserts)|]) == Entries(LastN(r.value, EmbedBatchSize), path))
    {
      var encoded := EncodeBatch(batch, path, encode);
      if encoded.Failure? {
        return Failure(encoded.error);
      }
      EncodeBatchSpec(batch, path, encode);
      var extended := data + encoded.value;
      var outcome := StoreNewest(extended, path, upsert);
      if outcome.Failure? {
        return Failure(outcome.error);
      }
      r := Success(extended);
    }

    /** The batch loop of `_process_new_file`: the chunks are embedded 32 at
        a time, and after each batch the newest 32 records are stored.  The
        result is the whole `embeddings_data`, or the first exception. */
    method EmbedAndStore(path: string, chunks: seq<Chunk>,
      encode: seq<string> -> Result<seq<Vector>>, upsert: seq<Point> -> Result<()>)
      returns (r: Result<seq<Record>>)
      requires Valid() && EncodesEach(encode)
      modifies this`upserts, this`issued
      ensures Valid()
      ensures |old(upserts)| <= |upserts| && upserts[..|old(upserts)|] == old(upserts)
      ensures r.Success? ==> (
        && AllRecords(chunks, path, encode) == r
        && |upserts| == |old(upserts)| + |Batches(chunks, EmbedBatchSize)|
        && StoresRuns(upserts[|old(upserts)|..], r.value, path))
    {
      ghost var batches := Batches(chunks, EmbedBatchSize);
      var data: seq<Record> := [];
      var i := 0;
      ghost var k := 0;
      while i < |chunks|
        invariant k <= |batches| && i == k * EmbedBatchSize
        invariant k < |batches| <==> i < |chunks|
        invariant EncodeRuns(batches[..k], path, encode) == Success(data)
        invariant i < |chunks| ==> |data| == i
        invariant Valid()
        invariant |upserts| == |old(upserts)| + k && upserts[..|old(upserts)|] == old(upserts)
        invariant StoresRuns(upserts[|old(upserts)|..], data, path)
      {
        BatchStep(chunks, EmbedBatchSize, k);
        var end := if i + EmbedBatchSize <= |chunks| then i + EmbedBatchSize else |chunks|;
        var batch := chunks[i..end];
        ghost var before := data;
        ghost var prior := upserts;
        var extended := EmbedBatch(batch, data, path, encode, upsert);
        if extended.Failure? {
          return Failure(extended.error);
        }
        data := extended.value;
        EmbedStepKeeps(chunks, path, encode, old(upserts), prior, upserts, before, data, k);
        i := i + EmbedBatchSize;
        k := k + 1;
      }
      assert batches[..k] == batches;
      r := Success(data);
    }

    /** `_process_new_file(file_path)`: the file is chunked, embedded and
        stored batch by batch, and once every batch has gone through the
        whole list is saved to the cache.  An exception anywhere ends the
        call with nothing saved. */
    method ProcessNewFile(path: string, readings: Readings, disk: map<string, Bytes>,
      encode: seq<string> -> Result<seq<Vector>>, upsert: seq<Point> -> Result<()>)
      returns (r: Result<()>)
      requires Valid() && EncodesEach(encode)
      modifies this`upserts, this`issued, cache`entries
      ensures Valid()
      ensures |old(upserts)| <= |upserts| && upserts[..|old(upserts)|] == old(upserts)
      ensures r.Failure? ==> cache.entries == old(cache.entries)
      ensures var chunks := DocumentChunks(path, readings);
        var records := AllRecords(chunks, path, encode);
        r.Success? ==> (
          && records.Success? && path in disk
          && cache.entries == old(cache.entries)[Md5(disk[path]) := records.value]
          && |upserts| == |old(upserts)| + |Batches(chunks, EmbedBatchSize)|
          && StoresRuns(upserts[|old(upserts)|..], records.value, path))
    {
      var chunks := ProcessDocument(path, readings);
      var data := EmbedAndStore(path, chunks, encode, upsert);
      if data.Failure? {
        return Failure(data.error);
      }
      r := cache.Save(disk, path, data.value);
    }

    /** One iteration of `process_directory`: a file whose contents have a
        cache entry has the cached records stored again (under new
        identifiers, with this path as source); any other file is processed
        as new.  Hashing a missing file raises. */
    method ProcessFile(path: string, readings: Readings, disk: map<string, Bytes>,
      encode: seq<string> -> Result<seq<Vector>>, upsert: seq<Point> -> Result<()>)
      returns (r: Result<()>)
      requires Valid() && EncodesEach(encode)
      modifies this`upserts, this`issued, cache`entries
      ensures Valid()
      ensures |old(upserts)| <= |upserts| && upserts[..|old(upserts)|] == old(upserts)
      ensures FileOutcome(path, readings, disk, encode, upsert, old(cache.entries), old(issued),
        r, upserts[|old(upserts)|..], cache.entries)
    {
      var cached := cache.Exists(disk, path);
      if cached.Failure? {
        assert upserts[|old(upserts)|..] == [];
        return Failure(cached.error);
      }
      if cached.value {
        var data := cache.Load(disk, path);
        r := StoreEmbeddings(data.value, path, upsert);
      } else {
        r := ProcessNewFile(path, readings, disk, encode, upsert);
      }
    }

    /** The `try` around one file: the exception is caught and logged, so
        the file's outcome is exactly that of `ProcessFile`, and the loop
        goes on whatever it was. */
    method ProcessListedFile(path: string, readings: Readings, disk: map<string, Bytes>,
      encode: seq<string> -> Result<seq<Vector>>, upsert: seq<Point> -> Result<()>)
      returns (r: Result<()>)
      requires Valid() && EncodesEach(encode)
      modifies this`upserts, this`issued, cache`entries
      ensures Valid()
      ensures |old(upserts)| <= |upserts| && upserts[..|old(upserts)|] == old(upserts)
      ensures FileOutcome(path, readings, disk, encode, upsert, old(cache.entries), old(issued),
        r, upserts[|old(upserts)|..], cache.entries)
    {
      r := ProcessFile(path, readings, disk, encode, upsert);
    }

    /** `process_directory(docs_dir)`: nothing happens when the directory is
        missing (`listing` is `None`); otherwise every regular file it lists
        is processed in turn, and a file that fails is skipped.  The ghost
        results are, for each name, the path tried and its outcome, the
        upsert batches it made, and the cache and identifier counter before
        it (`caches` and `counters` have one more entry: the state after the
        last file). */
    method ProcessDirectory(directory: string, listing: Option<seq<string>>, disk: map<string, Bytes>,
      readings: string -> Readings, encode: seq<string> -> Result<seq<Vector>>, upsert: seq<Point> -> Result<()>)
      returns (ghost tried: seq<(string, Result<()>)>, ghost added: seq<seq<seq<Point>>>,
        ghost caches: seq<map<Digest, seq<Record>>>, ghost counters: seq<nat>)
      requires Valid() && EncodesEach(encode)
      modifies this`upserts, this`issued, cache`entries
      ensures Valid()
      ensures listing.None? ==>
        tried == [] && upserts == old(upserts) && issued == old(issued) && cache.entries == old(cache.entries)
      ensures listing.Some? ==> (
        && |tried| == |added| == |listing.value|
        && |caches| == |counters| == |listing.value| + 1
        && caches[0] == old(cache.entries) && counters[0] == old(issued)
        && caches[|listing.value|] == cache.entries
        && upserts == old(upserts) + Flatten(added)
        && Walked(directory, listing.value, disk, readings, encode, upsert, tried, added, caches, counters, |listing.value|))
    {
      tried, added, caches, counters := [], [], [cache.entries], [issued];
      if listing.None? {
        return;
      }
      var names := listing.value;
      var idx := 0;
      while idx < |names|
        invariant 0 <= idx <= |names| && |tried| == |added| == idx
        invariant |caches| == |counters| == idx + 1
        invariant caches[0] == old(cache.entries) && counters[0] == old(issued)
        invariant caches[idx] == cache.entries && counters[idx] == issued
        invariant upserts == old(upserts) + Flatten(added)
        invariant Walked(directory, names, disk, readings, encode, upsert, tried, added, caches, counters, idx)
        invariant Valid()
      {
        var path := PathJoin(directory, names[idx]);
        ghost var prior := upserts;
        var outcome := ProcessListedFile(path, readings(path), disk, encode, upsert);
        ghost var made := upserts[|prior|..];
        assert upserts == prior + made;
        FlattenSnocAfter(old(upserts), added, made);
        WalkedStep(directory, names, disk, readings, encode, upsert, tried, added, caches, counters, idx,
          outcome, made, cache.entries, issued);
        tried, added := tried + [(path, outcome)], added + [made];
        caches, counters := caches + [cache.entries], counters + [issued];
        idx := idx + 1;
      }
    }
  }
}
