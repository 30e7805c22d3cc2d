/** `QdrantSearch` (app/utils/search.py): semantic search over a vector
    index with three in-process `lru_cache`s, one for cache keys, one for
    query embeddings and one for deserialised result lists.

    The embedding model and the index are the oracles `encode` and `index`;
    SHA-256 is modelled as an injective digest of the serialised key. */
module Search {
  import opened Wrappers
  import opened Json
  import opened Retrieval
  import Lru

  /** `hashlib.sha256(text.encode()).hexdigest()`, injective. */
  datatype Digest = Sha256(text: JsonText)

  const KeyCacheSize: nat := 1000
  const EmbeddingCacheSize: nat := 10000
  const ResultCacheSize: nat := 1000

  // ---------------------------------------------------------------------
  // Cache keys

  /** The arguments of `_generate_cache_key`, which its `lru_cache` is
      keyed on: the filter arrives already serialised (or `None`). */
  datatype KeyArgs = KeyArgs(query: string, collection: string, limit: int, threshold: real, filterText: Json)

  /** The keys of `cache_data`, in insertion order. */
  const FieldNames: seq<string> := ["query", "collection", "limit", "score_threshold", "filter_conditions"]

  /** `cache_data`: the query and collection followed by the keyword
      parameters. */
  function KeyData(query: string, collection: string, limit: int, threshold: real, filter: Json): seq<(string, Json)> {
    [("query", JString(query)), ("collection", JString(collection)), ("limit", JInt(limit)),
     ("score_threshold", JReal(threshold)), ("filter_conditions", filter)]
  }

  /** `json.dumps(filter_conditions) if filter_conditions else None`: the
      filter is serialised on its own, without `sort_keys`. */
  function FilterText(conditions: Option<seq<(string, Json)>>): Json {
    if FilterGiven(conditions) then JEncoded(Dumps(JObject(conditions.value), false)) else JNull
  }

  function ArgsFor(query: string, collection: string, limit: int, threshold: real,
    conditions: Option<seq<(string, Json)>>): KeyArgs
  {
    KeyArgs(query, collection, limit, threshold, FilterText(conditions))
  }

  /** `_generate_cache_key`: the digest of `cache_data` serialised with
      sorted keys. */
  function KeyDigest(args: KeyArgs): Digest {
    Sha256(Dumps(JObject(KeyData(args.query, args.collection, args.limit, args.threshold, args.filterText)), true))
  }

  /** The key function as the `lru_cache` wraps it: it never raises. */
  function KeyCompute(args: KeyArgs): Result<Digest> {
    Success(KeyDigest(args))
  }

  /** The key `search` uses for a request. */
  function CacheKey(query: string, collection: string, limit: int, threshold: real,
    conditions: Option<seq<(string, Json)>>): Digest
  {
    KeyDigest(ArgsFor(query, collection, limit, threshold, conditions))
  }

  /** The five keys of `cache_data` are pairwise different. */
  lemma KeyDataDistinct(query: string, collection: string, limit: int, threshold: real, filter: Json)
    ensures DistinctKeys(KeyData(query, collection, limit, threshold, filter))
    ensures Keys(KeyData(query, collection, limit, threshold, filter)) == FieldNames
  {
    var ms := KeyData(query, collection, limit, threshold, filter);
    assert |"query"| == 5 && |"collection"| == 10 && |"limit"| == 5;
    assert |"score_threshold"| == 15 && |"filter_conditions"| == 17;
    assert "query"[0] == 'q' && "limit"[0] == 'l';
    forall i, j | 0 <= i < |ms| && 0 <= j < |ms| && ms[i].0 == ms[j].0
      ensures i == j
    {
    }
  }

  /** The value `sort_keys` leaves at position `i` of a dict: the member's
      own value, key-sorted. */
  lemma SortValuesAt(ms: seq<(string, Json)>, i: nat)
    requires i < |ms|
    ensures SortValues(ms, JObject(ms))[i] == (ms[i].0, SortKeys(ms[i].1))
  {
    assert SortKeysOf(ms[i], JObject(ms)) == SortKeys(ms[i].1);
  }

  /** Two dicts with the same keys in the same order serialise to the same
      sorted text exactly when their values do, position by position. */
  lemma {:induction false} SortedDictsAgree(a: seq<(string, Json)>, b: seq<(string, Json)>)
    requires DistinctKeys(a) && Keys(a) == Keys(b)
    ensures SortKeys(JObject(a)) == SortKeys(JObject(b)) <==>
      forall i :: 0 <= i < |a| ==> SortKeys(a[i].1) == SortKeys(b[i].1)
  {
    var sa := SortValues(a, JObject(a));
    var sb := SortValues(b, JObject(b));
    assert |a| == |Keys(a)| == |b|;
    forall i | 0 <= i < |a|
      ensures sa[i] == (a[i].0, SortKeys(a[i].1)) && sb[i] == (b[i].0, SortKeys(b[i].1))
      ensures a[i].0 == b[i].0
    {
      SortValuesAt(a, i);
      SortValuesAt(b, i);
      assert Keys(a)[i] == Keys(b)[i];
    }
    if forall i :: 0 <= i < |a| ==> SortKeys(a[i].1) == SortKeys(b[i].1) {
      assert sa == sb;
    }
    if SortKeys(JObject(a)) == SortKeys(JObject(b)) {
      assert DistinctKeys(sa);
      assert DistinctKeys(sb);
      SortMembersSpec(sa);
      SortMembersSpec(sb);
      assert SortMembers(sa) == SortMembers(sb);
      forall i | 0 <= i < |a|
        ensures SortKeys(a[i].1) == SortKeys(b[i].1)
      {
        assert sa[i] in SortMembers(sa);
        var j :| 0 <= j < |sb| && sb[j] == sa[i];
        assert a[j].0 == a[i].0;
      }
    }
  }

  /** Two five-member dicts agree value by value, after key sorting. */
  lemma FiveValuesAgree(a: seq<(string, Json)>, b: seq<(string, Json)>)
    requires |a| == 5 && |b| == 5
    ensures (forall i :: 0 <= i < |a| ==> SortKeys(a[i].1) == SortKeys(b[i].1)) <==>
      && SortKeys(a[0].1) == SortKeys(b[0].1) && SortKeys(a[1].1) == SortKeys(b[1].1)
      && SortKeys(a[2].1) == SortKeys(b[2].1) && SortKeys(a[3].1) == SortKeys(b[3].1)
      && SortKeys(a[4].1) == SortKeys(b[4].1)
  {
  }

  /** `_generate_cache_key` is injective: equal keys come from equal
      arguments (and equal arguments give equal keys). */
  lemma KeyDigestInjective(a: KeyArgs, b: KeyArgs)
    requires !a.filterText.JArray? && !a.filterText.JObject?
    requires !b.filterText.JArray? && !b.filterText.JObject?
    ensures KeyDigest(a) == KeyDigest(b) <==> a == b
  {
    var da := KeyData(a.query, a.collection, a.limit, a.threshold, a.filterText);
    var db := KeyData(b.query, b.collection, b.limit, b.threshold, b.filterText);
    if KeyDigest(a) == KeyDigest(b) {
      KeyDataDistinct(a.query, a.collection, a.limit, a.threshold, a.filterText);
      KeyDataDistinct(b.query, b.collection, b.limit, b.threshold, b.filterText);
      SortedDictsAgree(da, db);
      FiveValuesAgree(da, db);
    }
  }

  /** The filter is serialised before the keys are sorted, so its own key
      order is kept: two filters that differ in any way, including the same
      dict written in another key order, give different cache keys. */
  lemma FilterOrderChangesKey(query: string, collection: string, limit: int, threshold: real,
    a: seq<(string, Json)>, b: seq<(string, Json)>)
    requires a != [] && b != [] && a != b
    ensures CacheKey(query, collection, limit, threshold, Some(a)) != CacheKey(query, collection, limit, threshold, Some(b))
  {
    KeyDigestInjective(ArgsFor(query, collection, limit, threshold, Some(a)), ArgsFor(query, collection, limit, threshold, Some(b)));
  }

  /** `{"page": 1, "type": "pdf"}` and `{"type": "pdf", "page": 1}` are the
      same dict but get different cache keys. */
  lemma SameFilterTwoKeys(query: string, collection: string)
    ensures var a := [("page", JInt(1)), ("type", JString("pdf"))];
      var b := [("type", JString("pdf")), ("page", JInt(1))];
      && (forall x :: x in a <==> x in b)
      && CacheKey(query, collection, DefaultLimit, DefaultThreshold, Some(a)) !=
         CacheKey(query, collection, DefaultLimit, DefaultThreshold, Some(b))
  {
    var a := [("page", JInt(1)), ("type", JString("pdf"))];
    var b := [("type", JString("pdf")), ("page", JInt(1))];
    assert a[0] != b[0] by {
      assert |a[0].0| == 4 && |b[0].0| == 4;
      assert a[0].1 != b[0].1;
    }
    FilterOrderChangesKey(query, collection, DefaultLimit, DefaultThreshold, a, b);
  }

  /** The filter as the key should carry it: the dict itself, so that
      `sort_keys` orders its keys too. */
  function CanonicalFilter(conditions: Option<seq<(string, Json)>>): Json {
    if FilterGiven(conditions) then JObject(conditions.value) else JNull
  }

  /** The corrected key: the raw filter dict inside `cache_data`. */
  function CanonicalKey(query: string, collection: string, limit: int, threshold: real,
    conditions: Option<seq<(string, Json)>>): Digest
  {
    Sha256(Dumps(JObject(KeyData(query, collection, limit, threshold, CanonicalFilter(conditions))), true))
  }

  /** Two requests get the same corrected key exactly when their query,
      collection, limit and threshold are equal and their filters serialise
      to the same sorted text. */
  lemma CanonicalKeyExact(q1: string, c1: string, l1: int, t1: real, f1: Option<seq<(string, Json)>>,
    q2: string, c2: string, l2: int, t2: real, f2: Option<seq<(string, Json)>>)
    ensures CanonicalKey(q1, c1, l1, t1, f1) == CanonicalKey(q2, c2, l2, t2, f2) <==>
      && q1 == q2 && c1 == c2 && l1 == l2 && t1 == t2
      && Dumps(CanonicalFilter(f1), true) == Dumps(CanonicalFilter(f2), true)
  {
    var da := KeyData(q1, c1, l1, t1, CanonicalFilter(f1));
    var db := KeyData(q2, c2, l2, t2, CanonicalFilter(f2));
    KeyDataDistinct(q1, c1, l1, t1, CanonicalFilter(f1));
    KeyDataDistinct(q2, c2, l2, t2, CanonicalFilter(f2));
    SortedDictsAgree(da, db);
    FiveValuesAgree(da, db);
  }

  /** With the corrected key the same filter gives the same key whatever
      order its keys were inserted in. */
  lemma CanonicalKeyOrderFree(query: string, collection: string, limit: int, threshold: real,
    a: seq<(string, Json)>, b: seq<(string, Json)>)
    requires DistinctKeys(a) && DistinctKeys(b)
    requires forall x :: x in a <==> x in b
    ensures CanonicalKey(query, collection, limit, threshold, Some(a)) == CanonicalKey(query, collection, limit, threshold, Some(b))
  {
    DumpsSortedOrderFree(a, b);
    CanonicalKeyExact(query, collection, limit, threshold, Some(a), query, collection, limit, threshold, Some(b));
  }

  // ---------------------------------------------------------------------
  // Searching

  /** What a search returns when nothing is cached: the query's embedding,
      the index's hits for the request built from it, mapped to results.
      Either oracle raising makes the search raise. */
  function Computed(encode: string -> Result<seq<real>>, index: SearchRequest -> Result<seq<Hit>>,
    query: string, collection: string, limit: int, threshold: real,
    conditions: Option<seq<(string, Json)>>): Result<seq<SearchResult>>
  {
    var embedding :- encode(query);
    var request :- RequestFor(collection, VectorJson(embedding), limit, threshold, conditions);
    var hits :- index(request);
    Success(ProcessResults(hits))
  }

  /** `_cache_search_results` as the `lru_cache` wraps it: the argument
      pair is the cache key and a text, and the result is the text
      deserialised. */
  function LoadResults(k: (Digest, JsonText)): Result<seq<SearchResult>> {
    Deserialize(k.1)
  }

  /** The lookup `search` makes, `_cache_search_results(cache_key, "")`,
      never succeeds, whatever the cache holds. */
  lemma LookupNeverHits(m: Lru.Memo<(Digest, JsonText), seq<SearchResult>>, key: Digest)
    requires Lru.Agrees(m, LoadResults)
    ensures Lru.Call(m, (key, EmptyText), LoadResults).0.Failure?
    ensures Lru.Call(m, (key, EmptyText), LoadResults).1 == m
  {
    Lru.CallTransparent(m, (key, EmptyText), LoadResults);
    DeserializeEmpty();
  }

  /** The corrected search as a memoised function: a result list per
      corrected key, computed on a miss. */
  function Answer(encode: string -> Result<seq<real>>, index: SearchRequest -> Result<seq<Hit>>,
    query: string, collection: string, limit: int, threshold: real,
    conditions: Option<seq<(string, Json)>>): Digest -> Result<seq<SearchResult>>
  {
    _ => Computed(encode, index, query, collection, limit, threshold, conditions)
  }

  class QdrantSearch {
    /** The embedding model: a query's vector, or the error it raises. */
    const encode: string -> Result<seq<real>>
    /** The `lru_cache` of `_generate_cache_key`. */
    var keyCache: Lru.Memo<KeyArgs, Digest>
    /** The `lru_cache` of `_get_embedding_cached`. */
    var embeddingCache: Lru.Memo<string, seq<real>>
    /** The `lru_cache` of `_cache_search_results`. */
    var resultCache: Lru.Memo<(Digest, JsonText), seq<SearchResult>>
    /** The per-key result cache the corrected search keeps instead. */
    var resultStore: Lru.Memo<Digest, seq<SearchResult>>

    /** Each cache is within its bound, holds each argument once, and (for
        the three `lru_cache`s) holds only what its function returns. */
    ghost predicate Valid()
      reads this
    {
      && Lru.Valid(keyCache) && keyCache.maxSize == KeyCacheSize && Lru.Agrees(keyCache, KeyCompute)
      && Lru.Valid(embeddingCache) && embeddingCache.maxSize == EmbeddingCacheSize && Lru.Agrees(embeddingCache, encode)
      && Lru.Valid(resultCache) && resultCache.maxSize == ResultCacheSize && Lru.Agrees(resultCache, LoadResults)
      && Lru.Valid(resultStore) && resultStore.maxSize == ResultCacheSize
    }

    constructor(encode: string -> Result<seq<real>>)
      ensures Valid() && this.encode == encode
      ensures keyCache.entries == [] && embeddingCache.entries == [] && resultCache.entries == []
      ensures resultStore.entries == []
    {
      this.encode := encode;
      keyCache := Lru.Empty(KeyCacheSize);
      embeddingCache := Lru.Empty(EmbeddingCacheSize);
      resultCache := Lru.Empty(ResultCacheSize);
      resultStore := Lru.Empty(ResultCacheSize);
    }

    /** `_generate_cache_key(query, collection_name, **params)`. */
    method GenerateCacheKey(args: KeyArgs) returns (d: Digest)
      requires Valid()
      modifies this
      ensures Valid()
      ensures d == KeyDigest(args)
      ensures keyCache == Lru.Call(old(keyCache), args, KeyCompute).1
      ensures embeddingCache == old(embeddingCache) && resultCache == old(resultCache)
      ensures resultStore == old(resultStore)
    {
      Lru.CallTransparent(keyCache, args, KeyCompute);
      Lru.CallValid(keyCache, args, KeyCompute);
      var (res, next) := Lru.Call(keyCache, args, KeyCompute);
      keyCache := next;
      d := res.value;
    }

    /** `_get_embedding(text)`: the model's vector for `text`, through the
        embedding cache; an error of the model is re-raised. */
    method GetEmbedding(text: string) returns (r: Result<seq<real>>)
      requires Valid()
      modifies this
      ensures Valid()
      ensures r == encode(text)
      ensures embeddingCache == Lru.Call(old(embeddingCache), text, encode).1
      ensures keyCache == old(keyCache) && resultCache == old(resultCache)
      ensures resultStore == old(resultStore)
    {
      Lru.CallTransparent(embeddingCache, text, encode);
      Lru.CallValid(embeddingCache, text, encode);
      var (res, next) := Lru.Call(embeddingCache, text, encode);
      embeddingCache := next;
      r := res;
    }

    /** `_cache_search_results(cache_key, results_str)`: the text
        deserialised, through the result cache; a text that does not
        deserialise raises and caches nothing. */
    method CacheSearchResults(key: Digest, text: JsonText) returns (r: Result<seq<SearchResult>>)
      requires Valid()
      modifies this
      ensures Valid()
      ensures r == Deserialize(text)
      ensures resultCache == Lru.Call(old(resultCache), (key, text), LoadResults).1
      ensures r.Failure? ==> resultCache == old(resultCache)
      ensures keyCache == old(keyCache) && embeddingCache == old(embeddingCache)
      ensures resultStore == old(resultStore)
    {
      Lru.CallTransparent(resultCache, (key, text), LoadResults);
      Lru.CallValid(resultCache, (key, text), LoadResults);
      var (res, next) := Lru.Call(resultCache, (key, text), LoadResults);
      if res.Failure? {
        Lru.CallFailureUnchanged(resultCache, (key, text), LoadResults);
      }
      resultCache := next;
      r := res;
    }

    /** The uncached part of `search`: embed the query, send the request
        (with a filter only when conditions are given) and map the hits;
        an error of the model or the index is re-raised. */
    method Fetch(query: string, collection: string, limit: int, threshold: real,
      conditions: Option<seq<(string, Json)>>,
      index: SearchRequest -> Result<seq<Hit>>) returns (r: Result<seq<SearchResult>>)
      requires Valid()
      modifies this
      ensures Valid()
      ensures r == Computed(encode, index, query, collection, limit, threshold, conditions)
      ensures embeddingCache == Lru.Call(old(embeddingCache), query, encode).1
      ensures keyCache == old(keyCache) && resultCache == old(resultCache)
      ensures resultStore == old(resultStore)
    {
      var embedding := GetEmbedding(query);
      if embedding.Failure? {
        r := Failure(embedding.error);
        return;
      }
      var request := SearchRequest(collection, VectorJson(embedding.value), limit, threshold, DefaultParams, true, None);
      if FilterGiven(conditions) {
        var filter := BuildFilter(conditions.value);
        if filter.Failure? {
          r := Failure(filter.error);
          return;
        }
        request := request.(filter := Some(filter.value));
      }
      var hits := index(request);
      if hits.Failure? {
        r := Failure(hits.error);
        return;
      }
      r := Success(ProcessResults(hits.value));
    }

    /** The store at the end of a cached search: `cache_clear()`, then
        `_cache_search_results(cache_key, json.dumps(...))`, which reads the
        text back and caches it as the only entry. */
    method StoreResults(key: Digest, results: seq<SearchResult>)
      requires Valid()
      modifies this
      ensures Valid()
      ensures resultCache.entries == [((key, Serialize(results)), results)]
      ensures keyCache == old(keyCache) && embeddingCache == old(embeddingCache)
      ensures resultStore == old(resultStore)
    {
      resultCache := Lru.Clear(resultCache);
      SerializeRoundTrip(results);
      var stored := CacheSearchResults(key, Serialize(results));
    }

    /** `search(...)`.  Whatever the caches hold, the result is the one
        computed afresh: the lookup pairs the key with "", which no store
        ever caches and which does not deserialise, so it always raises and
        is swallowed.  After a cached search the result cache holds exactly
        one entry, the one just stored, because storing starts with
        `cache_clear()`. */
    method Search(query: string, collection: string, limit: int, threshold: real,
      conditions: Option<seq<(string, Json)>>, useCache: bool,
      index: SearchRequest -> Result<seq<Hit>>) returns (r: Result<seq<SearchResult>>)
      requires Valid()
      modifies this
      ensures Valid()
      ensures r == Computed(encode, index, query, collection, limit, threshold, conditions)
      ensures embeddingCache == Lru.Call(old(embeddingCache), query, encode).1
      ensures useCache ==> keyCache == Lru.Call(old(keyCache), ArgsFor(query, collection, limit, threshold, conditions), KeyCompute).1
      ensures !useCache ==> keyCache == old(keyCache) && resultCache == old(resultCache)
      ensures useCache && r.Success? ==>
        resultCache.entries == [((CacheKey(query, collection, limit, threshold, conditions), Serialize(r.value)), r.value)]
      ensures r.Failure? ==> resultCache == old(resultCache)
      ensures resultStore == old(resultStore)
    {
      var key := Sha256(EmptyText);
      if useCache {
        key := GenerateCacheKey(ArgsFor(query, collection, limit, threshold, conditions));
        var cached := CacheSearchResults(key, EmptyText);
        // A hit would return `cached` here; the lookup text "" never
        // deserialises, so the search always goes on.
        assert cached.Failure? by {
          DeserializeEmpty();
        }
      }
      r := Fetch(query, collection, limit, threshold, conditions, index);
      if r.Success? && useCache {
        StoreResults(key, r.value);
      }
    }

    /** The corrected search: a result cache keyed by the corrected key
        alone, consulted before any embedding is computed, and a store that
        keeps the other entries.  It is the memoised `Answer`: a hit returns
        the cached list without calling the model or the index, and a miss
        computes, returns and caches the result. */
    method SearchChecked(query: string, collection: string, limit: int, threshold: real,
      conditions: Option<seq<(string, Json)>>,
      index: SearchRequest -> Result<seq<Hit>>) returns (r: Result<seq<SearchResult>>)
      requires Valid()
      modifies this
      ensures Valid()
      ensures var key := CanonicalKey(query, collection, limit, threshold, conditions);
        var answer := Answer(encode, index, query, collection, limit, threshold, conditions);
        && r == Lru.Call(old(resultStore), key, answer).0
        && resultStore == Lru.Call(old(resultStore), key, answer).1
      ensures Lru.Lookup(old(resultStore), CanonicalKey(query, collection, limit, threshold, conditions)).Some? ==>
        embeddingCache == old(embeddingCache)
      ensures Lru.Lookup(old(resultStore), CanonicalKey(query, collection, limit, threshold, conditions)).None? ==>
        embeddingCache == Lru.Call(old(embeddingCache), query, encode).1
      ensures keyCache == old(keyCache) && resultCache == old(resultCache)
    {
      var key := CanonicalKey(query, collection, limit, threshold, conditions);
      var answer := Answer(encode, index, query, collection, limit, threshold, conditions);
      Lru.CallValid(resultStore, key, answer);
      match Lru.Lookup(resultStore, key)
      case Some(cached) =>
        r := Success(cached);
        resultStore := Lru.Touch(resultStore, key, cached);
      case None =>
        r := Fetch(query, collection, limit, threshold, conditions, index);
        if r.Success? {
          resultStore := Lru.Insert(resultStore, key, r.value);
        }
    }
  }
}
