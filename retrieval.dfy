/** What the two retrieval services share: the `must` filter built from a
    condition map, the mapping of index hits to `SearchResult`s, the JSON form
    results are cached in, and the request sent to the vector index. */
module Retrieval {
  import opened Wrappers
  import opened Json

  // ---------------------------------------------------------------------
  // Filters

  /** A `FieldCondition`: an equality match on `key`, or a range whose
      bounds are the condition's own "range" object. */
  datatype Condition =
    | MatchCondition(key: string, value: Json)
    | RangeCondition(key: string, bounds: Json)

  /** `Filter(must=...)`: every condition must hold. */
  datatype Filter = Filter(must: seq<Condition>)

  /** The condition emitted for one entry of the condition map: a dict with
      "range" gives a range (even when it also has "match"), a dict with only
      "match" an equality on that value, any other dict nothing, and a
      non-dict value an equality on the value itself.  The range is built by
      `Range(**value["range"])`, which raises `TypeError` when that value is
      not a mapping. */
  function ConditionFor(key: string, value: Json): (r: Result<Option<Condition>>)
    ensures r.Success? && r.value.Some? ==> r.value.value.key == key
    ensures r.Failure? <==>
      value.JObject? && Get(value.members, "range").Some? && !Get(value.members, "range").value.JObject?
    ensures !value.JObject? ==> r == Success(Some(MatchCondition(key, value)))
    ensures value.JObject? && r.Success? ==>
      (r.value.None? <==> "range" !in Keys(value.members) && "match" !in Keys(value.members))
    ensures value.JObject? && r.Success? && "range" in Keys(value.members) ==>
      r.value.Some? && r.value.value.RangeCondition? && r.value.value.bounds.JObject?
      && ("range", r.value.value.bounds) in value.members
    ensures value.JObject? && "range" !in Keys(value.members) && "match" in Keys(value.members) ==>
      r.Success? && r.value.Some? && r.value.value.MatchCondition? && ("match", r.value.value.value) in value.members
  {
    match value
    case JObject(ms) =>
      GetSpec(ms, "range");
      GetSpec(ms, "match");
      if Get(ms, "range").Some? then
        var bounds := Get(ms, "range").value;
        if bounds.JObject? then Success(Some(RangeCondition(key, bounds)))
        else Failure("TypeError: Range() argument after ** must be a mapping, not " + TypeName(bounds))
      else if Get(ms, "match").Some? then Success(Some(MatchCondition(key, Get(ms, "match").value)))
      else Success(None)
    case _ => Success(Some(MatchCondition(key, value)))
  }

  /** The conditions for a whole map, in the map's key order; the first
      entry whose condition raises makes the whole build raise. */
  function FilterOf(conditions: seq<(string, Json)>): Result<seq<Condition>> {
    if conditions == [] then Success([])
    else
      var last := conditions[|conditions| - 1];
      var init :- FilterOf(conditions[..|conditions| - 1]);
      var c :- ConditionFor(last.0, last.1);
      Success(init + (if c.Some? then [c.value] else []))
  }

  /** One step of `FilterOf`: the map without its last entry, then that
      entry. */
  lemma FilterOfStep(conditions: seq<(string, Json)>)
    requires conditions != []
    ensures var init := conditions[..|conditions| - 1];
      var last := conditions[|conditions| - 1];
      var c := ConditionFor(last.0, last.1);
      FilterOf(conditions) ==
        if FilterOf(init).Failure? then FilterOf(init)
        else if c.Failure? then Failure(c.error)
        else Success(FilterOf(init).value + (if c.value.Some? then [c.value.value] else []))
  {
  }

  /** The conditions of two consecutive parts of the map are those of the
      first part followed by those of the second: nothing is reordered, and
      a failure in the first part wins over one in the second. */
  lemma {:induction false} FilterOfConcat(a: seq<(string, Json)>, b: seq<(string, Json)>)
    ensures FilterOf(a).Failure? ==> FilterOf(a + b) == FilterOf(a)
    ensures FilterOf(a).Success? && FilterOf(b).Failure? ==> FilterOf(a + b) == FilterOf(b)
    ensures FilterOf(a).Success? && FilterOf(b).Success? ==>
      FilterOf(a + b) == Success(FilterOf(a).value + FilterOf(b).value)
    decreases |b|
  {
    if b == [] {
      assert a + b == a;
      if FilterOf(a).Success? {
        assert FilterOf(a).value + [] == FilterOf(a).value;
      }
    } else {
      var init := b[..|b| - 1];
      var last := b[|b| - 1];
      assert (a + b)[..|a + b| - 1] == a + init;
      assert (a + b)[|a + b| - 1] == last;
      FilterOfConcat(a, init);
      FilterOfStep(a + b);
      FilterOfStep(b);
      var c := ConditionFor(last.0, last.1);
      if FilterOf(a).Success? && FilterOf(init).Success? && c.Success? {
        var kept := if c.value.Some? then [c.value.value] else [];
        assert (FilterOf(a).value + FilterOf(init).value) + kept == FilterOf(a).value + (FilterOf(init).value + kept);
      }
    }
  }

  /** Entry `i` is the first whose condition raises. */
  predicate FirstRaising(conditions: seq<(string, Json)>, i: int) {
    && 0 <= i < |conditions|
    && ConditionFor(conditions[i].0, conditions[i].1).Failure?
    && forall j :: 0 <= j < i ==> ConditionFor(conditions[j].0, conditions[j].1).Success?
  }

  /** The build raises exactly when some entry's condition raises. */
  lemma {:induction false} FilterOfRaises(conditions: seq<(string, Json)>)
    ensures FilterOf(conditions).Failure? <==>
      exists i :: 0 <= i < |conditions| && ConditionFor(conditions[i].0, conditions[i].1).Failure?
    decreases |conditions|
  {
    if conditions != [] {
      var n := |conditions| - 1;
      var init := conditions[..n];
      FilterOfRaises(init);
      FilterOfStep(conditions);
      if FilterOf(init).Failure? {
        var i :| 0 <= i < |init| && ConditionFor(init[i].0, init[i].1).Failure?;
        assert conditions[i] == init[i];
      } else {
        forall i | 0 <= i < n
          ensures ConditionFor(conditions[i].0, conditions[i].1).Success?
        {
          assert conditions[i] == init[i];
        }
      }
    }
  }

  /** A range whose value is a number is refused: `{"price": {"range": 5}}`
      makes the build raise before any request is sent. */
  lemma NonMappingRangeRaises()
    ensures FilterOf([("price", JObject([("range", JInt(5))]))]).Failure?
  {
    var conditions := [("price", JObject([("range", JInt(5))]))];
    assert conditions[..0] == [];
    assert ConditionFor("price", JObject([("range", JInt(5))])).Failure?;
  }

  /** Every entry of the map yields a condition. */
  predicate NoneDropped(conditions: seq<(string, Json)>) {
    forall i :: 0 <= i < |conditions| ==>
      ConditionFor(conditions[i].0, conditions[i].1).Success? && ConditionFor(conditions[i].0, conditions[i].1).value.Some?
  }

  /** At most one condition per entry. */
  lemma {:induction false} FilterOfLength(conditions: seq<(string, Json)>)
    ensures FilterOf(conditions).Success? ==> |FilterOf(conditions).value| <= |conditions|
    decreases |conditions|
  {
    if conditions != [] {
      FilterOfLength(conditions[..|conditions| - 1]);
    }
  }

  /** When no entry raises or is dropped, exactly one condition per entry,
      in the map's key order. */
  lemma {:induction false} FilterOfKeys(conditions: seq<(string, Json)>)
    requires NoneDropped(conditions)
    ensures FilterOf(conditions).Success?
    ensures |FilterOf(conditions).value| == |conditions|
    ensures forall i :: 0 <= i < |conditions| ==>
      FilterOf(conditions).value[i] == ConditionFor(conditions[i].0, conditions[i].1).value.value
    decreases |conditions|
  {
    if conditions != [] {
      var init := conditions[..|conditions| - 1];
      assert forall i :: 0 <= i < |init| ==> init[i] == conditions[i];
      FilterOfKeys(init);
    }
  }

  /** The walk over the first `i + 1` entries, given that over the first
      `i`: the entry's condition is appended, or its error raised. */
  lemma FilterOfPrefixStep(conditions: seq<(string, Json)>, i: int, must: seq<Condition>)
    requires 0 <= i < |conditions| && FilterOf(conditions[..i]) == Success(must)
    ensures var c := ConditionFor(conditions[i].0, conditions[i].1);
      FilterOf(conditions[..i + 1]) ==
        if c.Failure? then Failure(c.error)
        else Success(must + (if c.value.Some? then [c.value.value] else []))
  {
    assert conditions[..i + 1][..i] == conditions[..i];
    assert conditions[..i + 1][i] == conditions[i];
    FilterOfStep(conditions[..i + 1]);
  }

  /** Once a prefix of the map raises, the whole map raises with its error. */
  lemma FilterOfPrefixRaises(conditions: seq<(string, Json)>, i: int)
    requires 0 <= i <= |conditions| && FilterOf(conditions[..i]).Failure?
    ensures FilterOf(conditions) == FilterOf(conditions[..i])
  {
    FilterOfConcat(conditions[..i], conditions[i..]);
    assert conditions[..i] + conditions[i..] == conditions;
  }

  /** When the build raises, it is with the error of the first entry whose
      condition raises: the entries after it are never looked at. */
  lemma FilterOfFirstError(conditions: seq<(string, Json)>, i: int)
    requires FirstRaising(conditions, i)
    ensures FilterOf(conditions) == Failure(ConditionFor(conditions[i].0, conditions[i].1).error)
  {
    var init := conditions[..i];
    forall j | 0 <= j < i
      ensures ConditionFor(init[j].0, init[j].1).Success?
    {
      assert init[j] == conditions[j];
    }
    FilterOfRaises(init);
    FilterOfPrefixStep(conditions, i, FilterOf(init).value);
    FilterOfPrefixRaises(conditions, i + 1);
  }

  /** `_build_filter(conditions)`: walks the map in key order, appending the
      condition of each entry that yields one; the first `Range(**...)` that
      raises ends the walk with its error. */
  method BuildFilter(conditions: seq<(string, Json)>) returns (r: Result<Filter>)
    ensures r.Success? <==> FilterOf(conditions).Success?
    ensures r.Success? ==> r.value.must == FilterOf(conditions).value
    ensures r.Failure? ==> r.error == FilterOf(conditions).error
  {
    var must: seq<Condition> := [];
    var i := 0;
    while i < |conditions|
      invariant 0 <= i <= |conditions|
      invariant FilterOf(conditions[..i]) == Success(must)
    {
      var (key, value) := conditions[i];
      FilterOfPrefixStep(conditions, i, must);
      match value {
        case JObject(ms) =>
          if Get(ms, "range").Some? {
            var bounds := Get(ms, "range").value;
            if !bounds.JObject? {
              r := Failure("TypeError: Range() argument after ** must be a mapping, not " + TypeName(bounds));
              FilterOfPrefixRaises(conditions, i + 1);
              return;
            }
            must := must + [RangeCondition(key, bounds)];
          } else if Get(ms, "match").Some? {
            must := must + [MatchCondition(key, Get(ms, "match").value)];
          } else {
            assert must + [] == must;
          }
        case _ =>
          must := must + [MatchCondition(key, value)];
      }
      i := i + 1;
    }
    assert conditions[..i] == conditions;
    r := Success(Filter(must));
  }

  // ---------------------------------------------------------------------
  // Results

  /** A point the index returned: its payload and similarity score. */
  datatype Hit = Hit(payload: seq<(string, Json)>, score: real)

  /** `SearchResult(content, metadata, score, source)`.  The dataclass does
      not check its field types, so each field holds whatever JSON value was
      given. */
  datatype SearchResult = SearchResult(content: Json, metadata: Json, score: Json, source: Json)

  /** The result for one hit: the payload's "content", "metadata" and
      "source", defaulting to "", {} and "unknown". */
  function ResultOf(hit: Hit): SearchResult {
    SearchResult(
      GetOr(hit.payload, "content", JString("")),
      GetOr(hit.payload, "metadata", JObject([])),
      JReal(hit.score),
      GetOr(hit.payload, "source", JString("unknown")))
  }

  /** Each field of a result is the payload's value under that name when
      the payload has one, and the default otherwise; the score is the
      hit's. */
  lemma ResultOfSpec(hit: Hit)
    ensures var r := ResultOf(hit);
      && r.score == JReal(hit.score)
      && ("content" in Keys(hit.payload) ==> ("content", r.content) in hit.payload)
      && ("content" !in Keys(hit.payload) ==> r.content == JString(""))
      && ("metadata" in Keys(hit.payload) ==> ("metadata", r.metadata) in hit.payload)
      && ("metadata" !in Keys(hit.payload) ==> r.metadata == JObject([]))
      && ("source" in Keys(hit.payload) ==> ("source", r.source) in hit.payload)
      && ("source" !in Keys(hit.payload) ==> r.source == JString("unknown"))
  {
    GetSpec(hit.payload, "content");
    GetSpec(hit.payload, "metadata");
    GetSpec(hit.payload, "source");
  }

  /** A hit whose payload is empty gets every default. */
  lemma EmptyPayloadDefaults(score: real)
    ensures ResultOf(Hit([], score)) == SearchResult(JString(""), JObject([]), JReal(score), JString("unknown"))
  {
  }

  /** `_process_results(results)`: one result per hit, in the index's
      order. */
  function ProcessResults(hits: seq<Hit>): (r: seq<SearchResult>)
    ensures |r| == |hits|
    ensures forall i :: 0 <= i < |hits| ==> r[i] == ResultOf(hits[i])
  {
    seq(|hits|, i requires 0 <= i < |hits| => ResultOf(hits[i]))
  }

  /** The mapping is taken hit by hit: results of consecutive hit lists
      concatenate. */
  lemma ProcessResultsConcat(a: seq<Hit>, b: seq<Hit>)
    ensures ProcessResults(a + b) == ProcessResults(a) + ProcessResults(b)
  {
    assert forall i :: 0 <= i < |a| ==> (a + b)[i] == a[i];
    assert forall i :: |a| <= i < |a + b| ==> (a + b)[i] == b[i - |a|];
  }

  /** The dict a result is serialised as. */
  function ResultJson(r: SearchResult): Json {
    JObject([("content", r.content), ("metadata", r.metadata), ("score", r.score), ("source", r.source)])
  }

  /** `serializable_results`: the results as a JSON list of dicts. */
  function ResultsJson(results: seq<SearchResult>): (j: Json)
    ensures j.JArray? && |j.items| == |results|
  {
    JArray(seq(|results|, i requires 0 <= i < |results| => ResultJson(results[i])))
  }

  /** `SearchResult(**item)`: a dict whose keys are exactly the four
      fields (a dict never repeats a key, so four keys that include all four
      fields are exactly those); anything else raises `TypeError`. */
  function ResultFromJson(item: Json): (r: Result<SearchResult>)
    ensures r.Success? ==> item.JObject?
  {
    match item
    case JObject(ms) =>
      var content, metadata, score, source :=
        Get(ms, "content"), Get(ms, "metadata"), Get(ms, "score"), Get(ms, "source");
      if |ms| == 4 && content.Some? && metadata.Some? && score.Some? && source.Some?
      then Success(SearchResult(content.value, metadata.value, score.value, source.value))
      else Failure("TypeError: SearchResult.__init__() got an unexpected or missing keyword argument")
    case _ => Failure("TypeError: argument after ** must be a mapping")
  }

  /** The items of a list in turn, stopping at the first that raises. */
  function ResultsFromItems(items: seq<Json>): Result<seq<SearchResult>> {
    if items == [] then Success([])
    else
      var init :- ResultsFromItems(items[..|items| - 1]);
      var last :- ResultFromJson(items[|items| - 1]);
      Success(init + [last])
  }

  /** `[SearchResult(**r) for r in data]`: iterating an empty dict or string
      gives nothing, a non-empty one gives keys or characters, which raise;
      other scalars are not iterable. */
  function ResultsFromJson(data: Json): Result<seq<SearchResult>> {
    match data
    case JArray(items) => ResultsFromItems(items)
    case JObject(ms) =>
      if ms == [] then Success([]) else Failure("TypeError: argument after ** must be a mapping, not str")
    case JString(s) =>
      if s == [] then Success([]) else Failure("TypeError: argument after ** must be a mapping, not str")
    case JEncoded(_) => Failure("TypeError: argument after ** must be a mapping, not str")
    case _ => Failure("TypeError: '" + TypeName(data) + "' object is not iterable")
  }

  /** The text a result list is cached as. */
  function Serialize(results: seq<SearchResult>): JsonText {
    Dumps(ResultsJson(results), false)
  }

  /** The results read back from a cached text. */
  function Deserialize(text: JsonText): Result<seq<SearchResult>> {
    var data :- Loads(text);
    ResultsFromJson(data)
  }

  /** The four field names have four different lengths, so each lookup in
      a serialised result finds its own field. */
  lemma FieldLookups(r: SearchResult)
    ensures var ms := ResultJson(r).members;
      && Get(ms, "content") == Some(r.content)
      && Get(ms, "metadata") == Some(r.metadata)
      && Get(ms, "score") == Some(r.score)
      && Get(ms, "source") == Some(r.source)
  {
    var ms := ResultJson(r).members;
    assert |"content"| == 7 && |"metadata"| == 8 && |"score"| == 5 && |"source"| == 6;
    assert Get(ms[3..], "source") == Some(r.source);
    assert Get(ms[2..], "source") == Get(ms[3..], "source");
    assert Get(ms[1..], "source") == Get(ms[2..], "source");
    assert Get(ms[2..], "score") == Some(r.score);
    assert Get(ms[1..], "score") == Get(ms[2..], "score");
    assert Get(ms[1..], "metadata") == Some(r.metadata);
  }

  lemma ResultRoundTrip(r: SearchResult)
    ensures ResultFromJson(ResultJson(r)) == Success(r)
  {
    FieldLookups(r);
    FromFields(ResultJson(r).members, r);
  }

  lemma FromFields(ms: seq<(string, Json)>, r: SearchResult)
    requires |ms| == 4
    requires Get(ms, "content") == Some(r.content) && Get(ms, "metadata") == Some(r.metadata)
    requires Get(ms, "score") == Some(r.score) && Get(ms, "source") == Some(r.source)
    ensures ResultFromJson(JObject(ms)) == Success(r)
  {
  }

  /** Deserialising what was serialised gives the same results back, field
      by field and in order. */
  lemma {:induction false} SerializeRoundTrip(results: seq<SearchResult>)
    ensures Deserialize(Serialize(results)) == Success(results)
  {
    ItemsRoundTrip(results);
  }

  lemma {:induction false} ItemsRoundTrip(results: seq<SearchResult>)
    ensures ResultsFromItems(ResultsJson(results).items) == Success(results)
    decreases |results|
  {
    if results != [] {
      var init := results[..|results| - 1];
      var items := ResultsJson(results).items;
      assert items[..|items| - 1] == ResultsJson(init).items;
      ItemsRoundTrip(init);
      ResultRoundTrip(results[|results| - 1]);
      assert init + [results[|results| - 1]] == results;
    }
  }

  /** The empty string, which a cache lookup may hand to `json.loads`, never
      deserialises. */
  lemma DeserializeEmpty()
    ensures Deserialize(EmptyText).Failure?
  {
  }

  // ---------------------------------------------------------------------
  // Requests

  /** `SearchParams(hnsw_ef=128, exact=False, quantization=...)`. */
  datatype SearchParams = SearchParams(hnswEf: nat, exact: bool, ignore: bool, rescore: bool, oversampling: real)

  const DefaultParams := SearchParams(128, false, false, true, 2.0)
  const DefaultLimit: int := 5
  const DefaultThreshold: real := 0.5

  /** The keyword arguments of `qdrant_client.search`. */
  datatype SearchRequest = SearchRequest(
    collection: string, vector: Json, limit: int, threshold: real,
    params: SearchParams, withPayload: bool, filter: Option<Filter>)

  /** A condition map counts as given when it is present and non-empty. */
  predicate FilterGiven(conditions: Option<seq<(string, Json)>>) {
    conditions.Some? && conditions.value != []
  }

  /** The request `search` sends: the caller's collection, limit and
      threshold unchanged, the default parameters, payloads included, and a
      filter only when conditions are given.  Building that filter can raise,
      and then no request is sent. */
  function RequestFor(collection: string, vector: Json, limit: int, threshold: real,
    conditions: Option<seq<(string, Json)>>): (r: Result<SearchRequest>)
    ensures r.Failure? <==> FilterGiven(conditions) && FilterOf(conditions.value).Failure?
    ensures r.Failure? ==> r.error == FilterOf(conditions.value).error
    ensures r.Success? ==>
      var q := r.value;
      && q.collection == collection && q.vector == vector && q.limit == limit && q.threshold == threshold
      && q.params == DefaultParams && q.params.hnswEf == 128 && !q.params.exact && q.withPayload
      && (q.filter.Some? <==> FilterGiven(conditions))
      && (q.filter.Some? ==> q.filter.value.must == FilterOf(conditions.value).value)
  {
    var base := SearchRequest(collection, vector, limit, threshold, DefaultParams, true, None);
    if !FilterGiven(conditions) then Success(base)
    else
      var must :- FilterOf(conditions.value);
      Success(base.(filter := Some(Filter(must))))
  }

  /** The embedding vector as the JSON list it is sent and cached as. */
  function VectorJson(v: seq<real>): (j: Json)
    ensures j.JArray? && |j.items| == |v|
  {
    JArray(seq(|v|, i requires 0 <= i < |v| => JReal(v[i])))
  }
}
