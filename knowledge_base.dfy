/** `KnowledgeBaseService`: a user's uploaded document becomes a knowledge
    base, a collection of the vector index named after the user and the
    title, filled with one point per chunk of the document.

    The vector index is a class over its collections; every call to it that
    can fail takes its outcome as a parameter.  The embedding model is an
    oracle from texts to vectors and `uuid4()` a counter, as for the
    document processor. */
module KnowledgeBase {
  import opened Wrappers
  import opened Text
  import opened Seqs
  import opened Chunking
  import DocumentProcessor

  type Vector = DocumentProcessor.Vector

  const BatchSize: nat := 32
  const NameLimit: nat := 50
  const ContentLimit: nat := 5000

  // ---------------------------------------------------------------------
  // Collection names

  /** The characters a sanitised title may hold. */
  predicate NameChar(c: char) {
    ('a' <= c <= 'z') || ('0' <= c <= '9') || c == '_'
  }

  /** `c if c.isalnum() else '_'` on one character of the lowered title. */
  function SanitizeChar(c: char): (r: char)
    ensures IsAlnum(c) ==> r == c
    ensures !IsAlnum(c) ==> r == '_'
  {
    if IsAlnum(c) then c else '_'
  }

  /** `_sanitize_collection_name(name)`: lowered, every character that is
      not a letter or digit replaced by '_', cut to 50 characters. */
  function Sanitize(name: string): (r: string)
    ensures |r| == Min(|name|, NameLimit)
    ensures forall i :: 0 <= i < |r| ==> NameChar(r[i])
    ensures forall i :: 0 <= i < |r| ==> r[i] == SanitizeChar(LowerChar(name[i]))
  {
    var lowered := Lower(name);
    var replaced := seq(|lowered|, i requires 0 <= i < |lowered| => SanitizeChar(lowered[i]));
    if |replaced| > NameLimit then replaced[..NameLimit] else replaced
  }

  /** Sanitising a sanitised name changes nothing. */
  lemma SanitizeIdempotent(name: string)
    ensures Sanitize(Sanitize(name)) == Sanitize(name)
  {
    var once := Sanitize(name);
    var twice := Sanitize(once);
    forall i | 0 <= i < |once|
      ensures twice[i] == once[i]
    {
      assert NameChar(once[i]);
    }
  }

  /** The collection for a knowledge base: "kb_" + user + "_" + the
      sanitised title. */
  function CollectionName(userUuid: string, title: string): (r: string)
    ensures StartsWith(r, "kb_" + userUuid + "_")
    ensures |r| == 4 + |userUuid| + Min(|title|, NameLimit)
  {
    var head := "kb_" + userUuid + "_";
    var name := head + Sanitize(title);
    assert name[..|head|] == head;
    name
  }

  /** The rest of the name after the prefix is the sanitised title. */
  lemma CollectionNameTail(userUuid: string, title: string)
    ensures var r := CollectionName(userUuid, title);
      r[4 + |userUuid|..] == Sanitize(title)
  {
  }

  /** Two titles that differ only in case and punctuation name the same
      collection: a request for the second targets the first one's
      collection and, as `create_knowledge_base` is written, replaces it. */
  lemma TitlesCollide(userUuid: string)
    ensures CollectionName(userUuid, "Q 3") == CollectionName(userUuid, "q-3")
  {
    assert Sanitize("Q 3") == "q_3";
    assert Sanitize("q-3") == "q_3";
  }

  // ---------------------------------------------------------------------
  // Points

  /** The payload of a knowledge-base point: the file's base name, the
      content cut to 5000 characters, and the chunk's page and type. */
  datatype KbPayload = KbPayload(source: string, content: string, page: Option<nat>, kind: string)

  datatype KbPoint = KbPoint(id: DocumentProcessor.Uuid, vector: Vector, payload: KbPayload)

  function PayloadOf(chunk: Chunk, path: string): (p: KbPayload)
    ensures p.source == DocumentProcessor.Basename(path) && '/' !in p.source
    ensures p.content <= chunk.content && |p.content| == Min(|chunk.content|, ContentLimit)
    ensures p.page == chunk.Page() && p.kind == chunk.Kind()
  {
    KbPayload(DocumentProcessor.Basename(path), Prefix(chunk.content, ContentLimit), chunk.Page(), chunk.Kind())
  }

  /** The vectors and payloads for one batch: embedding `idx` goes with
      `batch[idx]`, and more embeddings than chunks makes that raise. */
  function BatchValues(batch: seq<Chunk>, path: string, encode: seq<string> -> Result<seq<Vector>>)
    : Result<seq<(Vector, KbPayload)>>
  {
    var embeddings :- encode(DocumentProcessor.Texts(batch));
    if |embeddings| > |batch| then Failure("IndexError: list index out of range")
    else Success(seq(|embeddings|, i requires 0 <= i < |embeddings| => (embeddings[i], PayloadOf(batch[i], path))))
  }

  lemma BatchValuesSpec(batch: seq<Chunk>, path: string, encode: seq<string> -> Result<seq<Vector>>)
    ensures var r := BatchValues(batch, path, encode);
      encode(DocumentProcessor.Texts(batch)).Failure? ==> r.Failure?
    ensures var r := BatchValues(batch, path, encode);
      encode(DocumentProcessor.Texts(batch)).Success? ==>
      var embeddings := encode(DocumentProcessor.Texts(batch)).value;
      && (r.Success? <==> |embeddings| <= |batch|)
      && (r.Success? ==> |r.value| == |embeddings| && forall i :: 0 <= i < |r.value| ==>
            r.value[i] == (embeddings[i], PayloadOf(batch[i], path)))
  {
  }

  /** Everything written for the batches in turn, or the first exception. */
  function Embedded(batches: seq<seq<Chunk>>, path: string, encode: seq<string> -> Result<seq<Vector>>)
    : Result<seq<(Vector, KbPayload)>>
  {
    if batches == [] then Success([])
    else
      var init :- Embedded(batches[..|batches| - 1], path, encode);
      var last :- BatchValues(batches[|batches| - 1], path, encode);
      Success(init + last)
  }

  lemma EmbeddedStep(batches: seq<seq<Chunk>>, k: nat, path: string, encode: seq<string> -> Result<seq<Vector>>,
    init: seq<(Vector, KbPayload)>, last: seq<(Vector, KbPayload)>)
    requires k < |batches|
    requires Embedded(batches[..k], path, encode) == Success(init)
    requires BatchValues(batches[k], path, encode) == Success(last)
    ensures Embedded(batches[..k + 1], path, encode) == Success(init + last)
  {
    assert batches[..k + 1][..k] == batches[..k];
  }

  /** With a model that returns one vector per text, what is written is one
      payload per chunk, in chunk order. */
  lemma {:induction false} EmbeddedSpec(batches: seq<seq<Chunk>>, path: string, encode: seq<string> -> Result<seq<Vector>>)
    requires DocumentProcessor.EncodesEach(encode)
    ensures Embedded(batches, path, encode).Success? ==>
      var r := Embedded(batches, path, encode).value;
      && |r| == |Flatten(batches)|
      && forall i :: 0 <= i < |r| ==> r[i].1 == PayloadOf(Flatten(batches)[i], path)
    decreases |batches|
  {
    if batches != [] && Embedded(batches, path, encode).Success? {
      var init := batches[..|batches| - 1];
      var last := batches[|batches| - 1];
      assert batches == init + [last];
      EmbeddedSpec(init, path, encode);
      FlattenSnoc(init, last);
      var r := Embedded(batches, path, encode).value;
      var a := Embedded(init, path, encode).value;
      var b := BatchValues(last, path, encode).value;
      assert r == a + b;
      BatchValuesSpec(last, path, encode);
      forall i | 0 <= i < |r|
        ensures r[i].1 == PayloadOf(Flatten(batches)[i], path)
      {
        if i < |a| {
          assert r[i] == a[i] && Flatten(batches)[i] == Flatten(init)[i];
        } else {
          assert r[i] == b[i - |a|] && Flatten(batches)[i] == last[i - |a|];
        }
      }
    }
  }

  /** One point per chunk of the document, in order, each carrying the
      file's base name, the chunk's truncated content, page and type. */
  lemma PointsPerChunk(chunks: seq<Chunk>, path: string, encode: seq<string> -> Result<seq<Vector>>)
    requires DocumentProcessor.EncodesEach(encode)
    ensures Embedded(Batches(chunks, BatchSize), path, encode).Success? ==>
      var r := Embedded(Batches(chunks, BatchSize), path, encode).value;
      && |r| == |chunks|
      && forall i :: 0 <= i < |r| ==> r[i].1 == PayloadOf(chunks[i], path)
  {
    EmbeddedSpec(Batches(chunks, BatchSize), path, encode);
    FlattenBatches(chunks, BatchSize);
  }

  /** The points built for `values` when the identifier counter stands at
      `first`. */
  function KbStored(values: seq<(Vector, KbPayload)>, first: nat): (r: seq<KbPoint>)
    ensures |r| == |values|
  {
    seq(|values|, i requires 0 <= i < |values| => KbPoint(DocumentProcessor.Uuid4(first + i), values[i].0, values[i].1))
  }

  lemma KbStoredConcat(a: seq<(Vector, KbPayload)>, b: seq<(Vector, KbPayload)>, first: nat)
    ensures KbStored(a + b, first) == KbStored(a, first) + KbStored(b, first + |a|)
  {
  }

  /** The two maps agree on every collection but `name`. */
  ghost predicate SameExcept(a: map<string, seq<KbPoint>>, b: map<string, seq<KbPoint>>, name: string) {
    forall n :: n != name ==> (n in a <==> n in b) && (n in a ==> a[n] == b[n])
  }

  lemma AppendTwice(before: map<string, seq<KbPoint>>, mid: map<string, seq<KbPoint>>, after: map<string, seq<KbPoint>>,
    name: string, a: seq<KbPoint>, b: seq<KbPoint>)
    requires name in before && mid == before[name := before[name] + a] && after == mid[name := mid[name] + b]
    ensures after == before[name := before[name] + (a + b)]
  {
    assert before[name] + a + b == before[name] + (a + b);
  }

  lemma NothingAdded(m: map<string, seq<KbPoint>>, name: string)
    ensures name in m ==> m == m[name := m[name] + []]
  {
    if name in m {
      assert m[name] + [] == m[name];
    }
  }

  /** A model that always answers, with one vector per text. */
  ghost predicate AlwaysEncodes(encode: seq<string> -> Result<seq<Vector>>) {
    forall texts :: encode(texts).Success? && |encode(texts).value| == |texts|
  }

  /** An index that accepts every upsert request. */
  ghost predicate Accepting(upsert: seq<KbPoint> -> Result<()>) {
    forall points :: upsert(points).Success?
  }

  /** Appending to one collection, or nothing, leaves the others alone. */
  lemma KeepsOthers(before: map<string, seq<KbPoint>>, after: map<string, seq<KbPoint>>, name: string, added: seq<KbPoint>)
    requires name in before ==> after == before[name := before[name] + added]
    requires name !in before ==> after == before
    ensures SameExcept(after, before, name)
    ensures name in after <==> name in before
  {
  }

  // ---------------------------------------------------------------------
  // The vector index

  class VectorIndex {
    /** Each collection's points, in the order they were upserted. */
    var collections: map<string, seq<KbPoint>>
    /** How many upsert requests have been accepted. */
    var upserts: nat

    constructor ()
      ensures collections == map[] && upserts == 0
    {
      collections := map[];
      upserts := 0;
    }

    /** `create_collection(name)`: a new, empty collection. */
    method CreateCollection(name: string, outcome: Result<()>) returns (r: Result<()>)
      modifies this`collections
      ensures r.Success? <==> name !in old(collections) && outcome.Success?
      ensures collections == if r.Success? then old(collections)[name := []] else old(collections)
    {
      if name in collections {
        return Failure("Collection `" + name + "` already exists!");
      }
      if outcome.Failure? {
        return Failure(outcome.error);
      }
      collections := collections[name := []];
      r := Success(());
    }

    /** `delete_collection(name)`. */
    method DeleteCollection(name: string, outcome: Result<()>) returns (r: Result<()>)
      modifies this`collections
      ensures r == outcome
      ensures collections == if r.Success? then old(collections) - {name} else old(collections)
    {
      r := outcome;
      if r.Success? {
        collections := collections - {name};
      }
    }

    /** `upsert(collection_name, points)`: the points are added to an
        existing collection. */
    method Upsert(name: string, points: seq<KbPoint>, outcome: Result<()>) returns (r: Result<()>)
      modifies this`collections, this`upserts
      ensures r.Success? <==> name in old(collections) && outcome.Success?
      ensures r.Success? ==> (
        && collections == old(collections)[name := old(collections)[name] + points]
        && upserts == old(upserts) + 1)
      ensures r.Failure? ==> collections == old(collections) && upserts == old(upserts)
    {
      if name !in collections {
        return Failure("Not found: Collection `" + name + "` doesn't exist!");
      }
      if outcome.Failure? {
        return Failure(outcome.error);
      }
      collections := collections[name := collections[name] + points];
      upserts := upserts + 1;
      r := Success(());
    }
  }

  // ---------------------------------------------------------------------
  // The service

  datatype Response = Response(
    uuid: string, title: string, description: string, status: string,
    collectionName: string, documentCount: nat)

  /** What one call of `create_knowledge_base` ends with: the response,
      or the `HTTPException` it raises. */
  datatype Attempt = Created(response: Response) | HttpError(status: nat, detail: string)

  /** What the request ends with once the retry decorator is done: the
      response, an exception let through, or tenacity's `RetryError`
      carrying the last attempt's exception. */
  datatype Outcome =
    | Returned(response: Response)
    | Raised(status: nat, detail: string)
    | RetryError(status: nat, detail: string)

  /** An exception inside the `try` of `create_knowledge_base`. */
  datatype Exception = HttpException(code: nat, message: string) | OtherError(text: string)

  datatype Tried = Done(response: Response) | Threw(exception: Exception)

  /** The outcomes of one attempt's index calls and of writing its
      temporary file. */
  datatype Faults = Faults(
    list: Result<()>, create: Result<()>, save: Result<()>, cleanupList: Result<()>, delete: Result<()>)

  const MaxAttempts: nat := 3

  function Conflict(title: string): string {
    "Knowledge base with title '" + title + "' already exists for this user"
  }

  const FailurePrefix := "Failed to create knowledge base: "

  /** The exception the `except` handler raises for `e`: an
      `HTTPException` as it is, anything else as a 500. */
  function Surfaced(e: Exception): (a: Attempt)
    ensures a.HttpError?
    ensures e.HttpException? ==> a.status == e.code && a.detail == e.message
    ensures e.OtherError? ==>
      a.status == 500 && StartsWith(a.detail, FailurePrefix) && a.detail[|FailurePrefix|..] == e.text
  {
    match e
    case HttpException(code, message) => HttpError(code, message)
    case OtherError(text) =>
      var detail := FailurePrefix + text;
      assert detail[..|FailurePrefix|] == FailurePrefix;
      HttpError(500, detail)
  }

  /** The points the document at `path` gives, one batch after another. */
  function DocumentValues(path: string, readings: Readings, encode: seq<string> -> Result<seq<Vector>>)
    : Result<seq<(Vector, KbPayload)>>
  {
    Embedded(Batches(DocumentChunks(path, readings), BatchSize), path, encode)
  }

  /** Collection `name` holds exactly the document's points, numbered from
      `first`. */
  ghost predicate Holds(collections: map<string, seq<KbPoint>>, name: string, path: string, readings: Readings,
    encode: seq<string> -> Result<seq<Vector>>, first: nat)
  {
    && name in collections
    && DocumentValues(path, readings, encode).Success?
    && collections[name] == KbStored(DocumentValues(path, readings, encode).value, first)
  }

  /** The response of a completed request. */
  function Completed(userUuid: string, title: string, description: string, name: string, path: string,
    readings: Readings): Response
  {
    Response(userUuid, title, description, "completed", name, |DocumentChunks(path, readings)|)
  }

  lemma SameExceptTrans(a: map<string, seq<KbPoint>>, b: map<string, seq<KbPoint>>, c: map<string, seq<KbPoint>>, name: string)
    requires SameExcept(a, b, name) && SameExcept(b, c, name)
    ensures SameExcept(a, c, name)
  {
  }

  class KnowledgeBaseService {
    const index: VectorIndex
    /** How many identifiers `uuid4()` has issued. */
    var issued: nat

    constructor (index: VectorIndex)
      ensures this.index == index && issued == 0
    {
      this.index := index;
      issued := 0;
    }

    /** One pass of the batch loop: the batch is embedded, one point built
        per embedding, and the points upserted in one request. */
    method StoreBatch(batch: seq<Chunk>, path: string, collection: string,
      encode: seq<string> -> Result<seq<Vector>>, upsert: seq<KbPoint> -> Result<()>)
      returns (r: Result<seq<(Vector, KbPayload)>>)
      modifies this`issued, index`collections, index`upserts
      ensures r.Success? ==> (
        && BatchValues(batch, path, encode) == r
        && collection in old(index.collections)
        && index.collections == old(index.collections)[collection :=
             old(index.collections)[collection] + KbStored(r.value, old(issued))]
        && index.upserts == old(index.upserts) + 1
        && issued == old(issued) + |r.value|)
      ensures r.Failure? ==> index.collections == old(index.collections) && index.upserts == old(index.upserts)
      ensures collection in old(index.collections) && AlwaysEncodes(encode) && Accepting(upsert) ==> r.Success?
    {
      BatchValuesSpec(batch, path, encode);
      var values := BatchValues(batch, path, encode);
      if values.Failure? {
        return values;
      }
      var points: seq<KbPoint> := [];
      var j := 0;
      while j < |values.value|
        invariant 0 <= j <= |values.value| && issued == old(issued) + j
        invariant index.collections == old(index.collections) && index.upserts == old(index.upserts)
        invariant points == KbStored(values.value[..j], old(issued))
      {
        points := points + [KbPoint(DocumentProcessor.Uuid4(issued), values.value[j].0, values.value[j].1)];
        issued := issued + 1;
        j := j + 1;
      }
      assert values.value[..j] == values.value;
      var stored := index.Upsert(collection, points, upsert(points));
      if stored.Failure? {
        return Failure(stored.error);
      }
      r := values;
    }

    /** The `k`th pass of the batch loop, with what the passes before it
        wrote: on success the document's points so far grow by this batch. */
    method StoreNext(chunks: seq<Chunk>, k: nat, ghost values: seq<(Vector, KbPayload)>,
      ghost before: map<string, seq<KbPoint>>, ghost first: nat, path: string, collection: string,
      encode: seq<string> -> Result<seq<Vector>>, upsert: seq<KbPoint> -> Result<()>)
      returns (stored: Result<seq<(Vector, KbPayload)>>, size: nat)
      requires k < |Batches(chunks, BatchSize)|
      requires Embedded(Batches(chunks, BatchSize)[..k], path, encode) == Success(values)
      requires issued == first + |values|
      requires collection in before ==>
        index.collections == before[collection := before[collection] + KbStored(values, first)]
      requires collection !in before ==> k == 0 && index.collections == before
      modifies this`issued, index`collections, index`upserts
      ensures k * BatchSize + size == Min(k * BatchSize + BatchSize, |chunks|)
      ensures stored.Success? ==> (
        && Embedded(Batches(chunks, BatchSize)[..k + 1], path, encode) == Success(values + stored.value)
        && issued == first + |values + stored.value|
        && index.upserts == old(index.upserts) + 1
        && collection in before
        && index.collections == before[collection := before[collection] + KbStored(values + stored.value, first)])
      ensures stored.Failure? ==> index.collections == old(index.collections) && index.upserts == old(index.upserts)
      ensures collection in before && AlwaysEncodes(encode) && Accepting(upsert) ==> stored.Success?
    {
      var batches := Batches(chunks, BatchSize);
      BatchAt(chunks, BatchSize, k);
      var start := k * BatchSize;
      var end := if start + BatchSize <= |chunks| then start + BatchSize else |chunks|;
      var batch := chunks[start..end];
      size := |batch|;
      ghost var mid := index.collections;
      stored := StoreBatch(batch, path, collection, encode, upsert);
      if stored.Success? {
        EmbeddedStep(batches, k, path, encode, values, stored.value);
        KbStoredConcat(values, stored.value, first);
        AppendTwice(before, mid, index.collections, collection,
          KbStored(values, first), KbStored(stored.value, first + |values|));
      }
    }

    /** The batch loop of `_process_document` over the document's chunks:
        32 at a time, each batch embedded and upserted in one request; the
        result is the number of chunks. */
    method StoreChunks(chunks: seq<Chunk>, path: string, collection: string,
      encode: seq<string> -> Result<seq<Vector>>, upsert: seq<KbPoint> -> Result<()>)
      returns (r: Result<nat>)
      modifies this`issued, index`collections, index`upserts
      ensures var values := Embedded(Batches(chunks, BatchSize), path, encode);
        r.Success? ==> (
          && values.Success? && r.value == |chunks|
          && index.upserts == old(index.upserts) + |Batches(chunks, BatchSize)|
          && (collection in old(index.collections) ==>
                index.collections == old(index.collections)[collection :=
                  old(index.collections)[collection] + KbStored(values.value, old(issued))])
          && (collection !in old(index.collections) ==> chunks == [] && index.collections == old(index.collections)))
      ensures SameExcept(index.collections, old(index.collections), collection)
      ensures collection in index.collections <==> collection in old(index.collections)
      ensures collection in old(index.collections) && AlwaysEncodes(encode) && Accepting(upsert) ==> r.Success?
    {
      ghost var batches := Batches(chunks, BatchSize);
      ghost var before := index.collections;
      ghost var first := issued;
      ghost var values: seq<(Vector, KbPayload)> := [];
      var processed := 0;
      var i := 0;
      var k := 0;
      assert batches[..0] == [];
      NothingAdded(index.collections, collection);
      while i < |chunks|
        invariant k <= |batches| && i == k * BatchSize
        invariant k < |batches| <==> i < |chunks|
        invariant processed == Min(i, |chunks|)
        invariant Embedded(batches[..k], path, encode) == Success(values)
        invariant issued == first + |values|
        invariant index.upserts == old(index.upserts) + k
        invariant collection in before ==>
          index.collections == before[collection := before[collection] + KbStored(values, first)]
        invariant collection !in before ==> k == 0 && index.collections == before
      {
        BatchIndex(chunks, BatchSize, k);
        var stored, size := StoreNext(chunks, k, values, before, first, path, collection, encode, upsert);
        if stored.Failure? {
          KeepsOthers(before, index.collections, collection, KbStored(values, first));
          return Failure(stored.error);
        }
        values := values + stored.value;
        processed := processed + size;
        i := i + BatchSize;
        k := k + 1;
        BatchIndex(chunks, BatchSize, k);
      }
      assert batches[..k] == batches;
      BatchCount(chunks, BatchSize);
      KeepsOthers(before, index.collections, collection, KbStored(values, first));
      r := Success(processed);
    }

    /** `_process_document(file_path, collection_name)`: the document's
        chunks stored into the collection, batch by batch. */
    method ProcessDocument(path: string, collection: string, readings: Readings,
      encode: seq<string> -> Result<seq<Vector>>, upsert: seq<KbPoint> -> Result<()>)
      returns (r: Result<nat>)
      modifies this`issued, index`collections, index`upserts
      ensures var chunks := DocumentChunks(path, readings);
        var values := Embedded(Batches(chunks, BatchSize), path, encode);
        r.Success? ==> (
          && values.Success? && r.value == |chunks|
          && (collection in old(index.collections) ==>
                index.collections == old(index.collections)[collection :=
                  old(index.collections)[collection] + KbStored(values.value, old(issued))]))
      ensures SameExcept(index.collections, old(index.collections), collection)
      ensures collection in index.collections <==> collection in old(index.collections)
      ensures collection in old(index.collections) && AlwaysEncodes(encode) && Accepting(upsert) ==> r.Success?
    {
      var chunks := Chunking.ProcessDocument(path, readings);
      r := StoreChunks(chunks, path, collection, encode, upsert);
    }

    /** The `try` block of `create_knowledge_base` for the collection
        `name`: the existence check, the new collection, the uploaded file
        written under `tempDir`, and the document stored.  `created` tells
        whether this call created the collection. */
    method TryCreate(name: string, userUuid: string, title: string, description: string, tempDir: string,
      filename: string, readings: Readings, encode: seq<string> -> Result<seq<Vector>>,
      upsert: seq<KbPoint> -> Result<()>, f: Faults)
      returns (t: Tried, created: bool)
      modifies this`issued, index`collections, index`upserts
      ensures created <==> f.list.Success? && name !in old(index.collections) && f.create.Success?
      ensures f.list.Failure? ==> t == Threw(OtherError(f.list.error))
      ensures f.list.Success? && name in old(index.collections) ==> t == Threw(HttpException(409, Conflict(title)))
      ensures t.Threw? && t.exception.HttpException? ==>
        t.exception == HttpException(409, Conflict(title)) && name in old(index.collections)
      ensures !created ==> index.collections == old(index.collections)
      ensures created ==> name in index.collections
      ensures SameExcept(index.collections, old(index.collections), name)
      ensures var path := DocumentProcessor.PathJoin(tempDir, filename);
        t.Done? ==> (
          && created && t.response == Completed(userUuid, title, description, name, path, readings)
          && Holds(index.collections, name, path, readings, encode, old(issued)))
      ensures created && f.save.Success? && AlwaysEncodes(encode) && Accepting(upsert) ==> t.Done?
    {
      if f.list.Failure? {
        return Threw(OtherError(f.list.error)), false;
      }
      if name in index.collections {
        return Threw(HttpException(409, Conflict(title))), false;
      }
      var made := index.CreateCollection(name, f.create);
      if made.Failure? {
        return Threw(OtherError(made.error)), false;
      }
      created := true;
      if f.save.Failure? {
        return Threw(OtherError(f.save.error)), true;
      }
      ghost var empty := index.collections;
      var path := DocumentProcessor.PathJoin(tempDir, filename);
      var count := ProcessDocument(path, name, readings, encode, upsert);
      SameExceptTrans(index.collections, empty, old(index.collections), name);
      if count.Failure? {
        return Threw(OtherError(count.error)), true;
      }
      assert empty[name] == [];
      t := Done(Response(userUuid, title, description, "completed", name, count.value));
    }

    /** The cleanup at the head of the `except` handler: if the listing
        succeeds and a collection of that name exists, it is deleted; a
        failure here is only logged. */
    method Cleanup(name: string, f: Faults)
      modifies index`collections
      ensures f.cleanupList.Success? && f.delete.Success? ==> index.collections == old(index.collections) - {name}
      ensures !(f.cleanupList.Success? && f.delete.Success?) ==> index.collections == old(index.collections)
    {
      if f.cleanupList.Success? && name in index.collections {
        var _ := index.DeleteCollection(name, f.delete);
      }
    }

    /** One call of `create_knowledge_base` for the collection `name`, as
        written: whatever the `try` raises, the handler deletes any
        collection of that name, including one that existed before the
        call. */
    method CreateOnce(name: string, userUuid: string, title: string, description: string, tempDir: string,
      filename: string, readings: Readings, encode: seq<string> -> Result<seq<Vector>>,
      upsert: seq<KbPoint> -> Result<()>, f: Faults)
      returns (a: Attempt)
      modifies this`issued, index`collections, index`upserts
      ensures var path := DocumentProcessor.PathJoin(tempDir, filename);
        a.Created? ==> (
          && name !in old(index.collections)
          && a.response == Completed(userUuid, title, description, name, path, readings)
          && Holds(index.collections, name, path, readings, encode, old(issued)))
      ensures a.HttpError? ==>
        (a == HttpError(409, Conflict(title)) && name in old(index.collections))
        || (a.status == 500 && StartsWith(a.detail, FailurePrefix))
      ensures f.list.Success? && name in old(index.collections) ==> a == HttpError(409, Conflict(title))
      ensures a.HttpError? && f.cleanupList.Success? && f.delete.Success? ==> name !in index.collections
      ensures (
        && name !in old(index.collections) && f.list.Success? && f.create.Success? && f.save.Success?
        && AlwaysEncodes(encode) && Accepting(upsert)) ==> a.Created?
      ensures SameExcept(index.collections, old(index.collections), name)
    {
      var t, created := TryCreate(name, userUuid, title, description, tempDir, filename, readings, encode, upsert, f);
      if t.Done? {
        return Created(t.response);
      }
      ghost var mid := index.collections;
      Cleanup(name, f);
      SameExceptTrans(index.collections, mid, old(index.collections), name);
      a := Surfaced(t.exception);
    }

    /** `create_knowledge_base` under its retry decorator, as written: up to
        three attempts, each with its own faults, any exception retried, and
        the last one wrapped in a `RetryError`.  For a title whose collection
        already exists, the first attempt raises 409 and its cleanup deletes
        that collection, so the second attempt creates the collection anew
        from the uploaded document and the request succeeds. */
    method CreateKnowledgeBase(userUuid: string, title: string, description: string, tempDir: string, filename: string,
      readings: Readings, encode: seq<string> -> Result<seq<Vector>>, upsert: seq<KbPoint> -> Result<()>,
      faults: seq<Faults>)
      returns (r: Outcome, ghost first: nat)
      requires |faults| == MaxAttempts
      modifies this`issued, index`collections, index`upserts
      ensures var name := CollectionName(userUuid, title);
        var path := DocumentProcessor.PathJoin(tempDir, filename);
        r.Returned? ==> (
          && r.response == Completed(userUuid, title, description, name, path, readings)
          && Holds(index.collections, name, path, readings, encode, first))
      ensures !r.Raised?
      ensures r.RetryError? ==>
        (r.status == 409 && r.detail == Conflict(title)) || (r.status == 500 && StartsWith(r.detail, FailurePrefix))
      ensures SameExcept(index.collections, old(index.collections), CollectionName(userUuid, title))
      ensures (
        && CollectionName(userUuid, title) in old(index.collections)
        && faults[0].list.Success? && faults[0].cleanupList.Success? && faults[0].delete.Success?
        && faults[1].list.Success? && faults[1].create.Success? && faults[1].save.Success?
        && AlwaysEncodes(encode) && Accepting(upsert)) ==> r.Returned?
    {
      var name := CollectionName(userUuid, title);
      ghost var replaced := name in old(index.collections)
        && faults[0].list.Success? && faults[0].cleanupList.Success? && faults[0].delete.Success?
        && faults[1].list.Success? && faults[1].create.Success? && faults[1].save.Success?
        && AlwaysEncodes(encode) && Accepting(upsert);
      var attempt := 0;
      var last := HttpError(500, FailurePrefix);
      first := issued;
      assert StartsWith(last.detail, FailurePrefix);
      while attempt < MaxAttempts
        invariant attempt <= MaxAttempts
        invariant SameExcept(index.collections, old(index.collections), name)
        invariant last.HttpError? && (
          || (last.status == 409 && last.detail == Conflict(title))
          || (last.status == 500 && StartsWith(last.detail, FailurePrefix)))
        invariant replaced ==> attempt <= 1
        invariant replaced && attempt == 1 ==> name !in index.collections
      {
        ghost var before := index.collections;
        first := issued;
        var a := CreateOnce(name, userUuid, title, description, tempDir, filename, readings, encode, upsert, faults[attempt]);
        SameExceptTrans(index.collections, before, old(index.collections), name);
        if a.Created? {
          return Returned(a.response), first;
        }
        last := a;
        attempt := attempt + 1;
      }
      r := RetryError(last.status, last.detail);
    }

    /** One call of `create_knowledge_base` with the cleanup limited to a
        collection this call created. */
    method CreateOnceChecked(name: string, userUuid: string, title: string, description: string, tempDir: string,
      filename: string, readings: Readings, encode: seq<string> -> Result<seq<Vector>>,
      upsert: seq<KbPoint> -> Result<()>, f: Faults)
      returns (a: Attempt)
      modifies this`issued, index`collections, index`upserts
      ensures var path := DocumentProcessor.PathJoin(tempDir, filename);
        a.Created? ==> (
          && name !in old(index.collections)
          && a.response == Completed(userUuid, title, description, name, path, readings)
          && Holds(index.collections, name, path, readings, encode, old(issued)))
      ensures a.HttpError? && a.status == 409 ==>
        a.detail == Conflict(title) && name in old(index.collections) && index.collections == old(index.collections)
      ensures a.HttpError? && a.status != 409 ==> a.status == 500 && StartsWith(a.detail, FailurePrefix)
      ensures f.list.Success? && name in old(index.collections) ==> a == HttpError(409, Conflict(title))
      ensures a.HttpError? && name in old(index.collections) ==> index.collections == old(index.collections)
      ensures a.HttpError? && f.cleanupList.Success? && f.delete.Success? ==>
        index.collections == old(index.collections)
      ensures (
        && name !in old(index.collections) && f.list.Success? && f.create.Success? && f.save.Success?
        && AlwaysEncodes(encode) && Accepting(upsert)) ==> a.Created?
      ensures SameExcept(index.collections, old(index.collections), name)
    {
      var t, created := TryCreate(name, userUuid, title, description, tempDir, filename, readings, encode, upsert, f);
      if t.Done? {
        return Created(t.response);
      }
      if created {
        ghost var mid := index.collections;
        Cleanup(name, f);
        SameExceptTrans(index.collections, mid, old(index.collections), name);
      }
      a := Surfaced(t.exception);
    }

    /** `create_knowledge_base` as evidently intended: a title that is
        already taken is answered with 409 at once and its knowledge base
        is left as it was; other failures are retried as before. */
    method CreateKnowledgeBaseChecked(userUuid: string, title: string, description: string, tempDir: string,
      filename: string, readings: Readings, encode: seq<string> -> Result<seq<Vector>>,
      upsert: seq<KbPoint> -> Result<()>, faults: seq<Faults>)
      returns (r: Outcome, ghost first: nat)
      requires |faults| == MaxAttempts
      modifies this`issued, index`collections, index`upserts
      ensures var name := CollectionName(userUuid, title);
        var path := DocumentProcessor.PathJoin(tempDir, filename);
        r.Returned? ==> (
          && name !in old(index.collections)
          && r.response == Completed(userUuid, title, description, name, path, readings)
          && Holds(index.collections, name, path, readings, encode, first))
      ensures r.Raised? ==> r == Raised(409, Conflict(title))
      ensures r.RetryError? ==> r.status == 500 && StartsWith(r.detail, FailurePrefix)
      ensures CollectionName(userUuid, title) in old(index.collections) && faults[0].list.Success? ==>
        r == Raised(409, Conflict(title)) && index.collections == old(index.collections)
      ensures SameExcept(index.collections, old(index.collections), CollectionName(userUuid, title))
    {
      var name := CollectionName(userUuid, title);
      var attempt := 0;
      var last := HttpError(500, FailurePrefix);
      first := issued;
      assert StartsWith(last.detail, FailurePrefix);
      while attempt < MaxAttempts
        invariant attempt <= MaxAttempts
        invariant SameExcept(index.collections, old(index.collections), name)
        invariant last.HttpError? && last.status == 500 && StartsWith(last.detail, FailurePrefix)
        invariant attempt > 0 ==> name !in old(index.collections) || faults[0].list.Failure?
        invariant name in old(index.collections) ==> index.collections == old(index.collections)
      {
        ghost var before := index.collections;
        first := issued;
        var a := CreateOnceChecked(name, userUuid, title, description, tempDir, filename, readings, encode, upsert,
          faults[attempt]);
        SameExceptTrans(index.collections, before, old(index.collections), name);
        if a.Created? {
          return Returned(a.response), first;
        }
        if a.status == 409 {
          return Raised(a.status, a.detail), first;
        }
        last := a;
        attempt := attempt + 1;
      }
      r := RetryError(last.status, last.detail);
    }
  }
}
