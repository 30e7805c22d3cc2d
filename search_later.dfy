/** The Redis-backed variant of `QdrantSearch` (app/utils/search_later.py):
    query embeddings are cached under "emb:" + SHA-256(text) for 86400 s and
    result lists under "search:" + SHA-256(key JSON) for 3600 s.

    Redis is a map from key to value and expiry time, read and written at
    an explicit clock `now`; each Redis call's connection outcome is a
    parameter.  The model, the index and SHA-256 are as in `Search`. */
module SearchLater {
  import opened Wrappers
  import opened Json
  import opened Retrieval
  import Search

  const EmbeddingTtl: int := 86400
  const ResultTtl: int := 3600

  /** `hashlib.sha256(text.encode())` of a query, injective. */
  datatype TextDigest = Sha256Of(text: string)

  /** The two kinds of Redis key the service writes. */
  datatype RedisKey =
    | EmbKey(textDigest: TextDigest)       // f"emb:{sha256(text)}"
    | SearchKey(digest: Search.Digest) // f"search:{sha256(cache_str)}"

  /** A stored string and the time at which it expires. */
  datatype Entry = Entry(value: JsonText, expiresAt: int)

  type Entries = map<RedisKey, Entry>

  /** `redis.get(key)` at time `now`: the value while it has not expired,
      `None` otherwise. */
  function Live(entries: Entries, key: RedisKey, now: int): (r: Option<JsonText>)
    ensures r.Some? <==> key in entries && now < entries[key].expiresAt
    ensures r.Some? ==> r.value == entries[key].value
  {
    if key in entries && now < entries[key].expiresAt then Some(entries[key].value) else None
  }

  /** The connection outcome of each Redis call a search may make. */
  datatype Faults = Faults(resultGet: Result<()>, embeddingGet: Result<()>, embeddingSet: Result<()>, resultSet: Result<()>)

  /** No Redis call fails. */
  predicate Up(f: Faults) {
    f.resultGet.Success? && f.embeddingGet.Success? && f.embeddingSet.Success? && f.resultSet.Success?
  }

  const Unhashable := "TypeError: unhashable type: 'dict'"

  // ---------------------------------------------------------------------
  // Specification of one call, as a function of the Redis state before it

  /** `_get_embedding(text)`: a stored value (even one that does not parse)
      is parsed and returned; otherwise the model's vector is stored for a
      day and returned.  Every error is re-raised. */
  function EmbeddingStep(encode: string -> Result<seq<real>>, entries: Entries, text: string, now: int, f: Faults): (Result<Json>, Entries) {
    if f.embeddingGet.Failure? then (Failure(f.embeddingGet.error), entries)
    else match Live(entries, EmbKey(Sha256Of(text)), now)
      case Some(cached) => (Loads(cached), entries)
      case None =>
        match encode(text)
        case Failure(e) => (Failure(e), entries)
        case Success(v) =>
          if f.embeddingSet.Failure? then (Failure(f.embeddingSet.error), entries)
          else (Success(VectorJson(v)),
                entries[EmbKey(Sha256Of(text)) := Entry(Dumps(VectorJson(v), false), now + EmbeddingTtl)])
  }

  /** Embed the query, query the index and map the hits. */
  function FetchStep(encode: string -> Result<seq<real>>, index: SearchRequest -> Result<seq<Hit>>,
    entries: Entries, query: string, collection: string, limit: int, threshold: real,
    conditions: Option<seq<(string, Json)>>, now: int, f: Faults): (Result<seq<SearchResult>>, Entries)
  {
    var (embedding, after) := EmbeddingStep(encode, entries, query, now, f);
    if embedding.Failure? then (Failure(embedding.error), after)
    else match RequestFor(collection, embedding.value, limit, threshold, conditions)
      case Failure(e) => (Failure(e), after)
      case Success(request) =>
        match index(request)
        case Failure(e) => (Failure(e), after)
        case Success(hits) => (Success(ProcessResults(hits)), after)
  }

  /** The cached path of `search` under result key `key`: a stored
      non-empty string is deserialised and returned; otherwise the results
      are fetched, stored for an hour and returned. */
  function CachedStep(encode: string -> Result<seq<real>>, index: SearchRequest -> Result<seq<Hit>>,
    entries: Entries, key: RedisKey, query: string, collection: string, limit: int, threshold: real,
    conditions: Option<seq<(string, Json)>>, now: int, f: Faults): (Result<seq<SearchResult>>, Entries)
  {
    if f.resultGet.Failure? then (Failure(f.resultGet.error), entries)
    else
      var cached := Live(entries, key, now);
      if cached.Some? && cached.value != EmptyText then (Deserialize(cached.value), entries)
      else
        var (r, after) := FetchStep(encode, index, entries, query, collection, limit, threshold, conditions, now, f);
        if r.Failure? then (r, after)
        else if f.resultSet.Failure? then (Failure(f.resultSet.error), after)
        else (r, after[key := Entry(Serialize(r.value), now + ResultTtl)])
  }

  /** `_generate_cache_key(query, collection_name, limit=..., score_threshold=...,
      filter_conditions=...)`: the `lru_cache` hashes its arguments first, so
      a dict filter, even an empty one, raises. */
  function ResultKey(query: string, collection: string, limit: int, threshold: real,
    conditions: Option<seq<(string, Json)>>): (r: Result<RedisKey>)
    ensures r.Failure? <==> conditions.Some?
  {
    if conditions.Some? then Failure(Unhashable)
    else Success(SearchKey(Search.KeyDigest(Search.KeyArgs(query, collection, limit, threshold, JNull))))
  }

  /** `search(...)` as written. */
  function SearchStep(encode: string -> Result<seq<real>>, index: SearchRequest -> Result<seq<Hit>>,
    entries: Entries, query: string, collection: string, limit: int, threshold: real,
    conditions: Option<seq<(string, Json)>>, useCache: bool, now: int, f: Faults): (Result<seq<SearchResult>>, Entries)
  {
    if !useCache then FetchStep(encode, index, entries, query, collection, limit, threshold, conditions, now, f)
    else match ResultKey(query, collection, limit, threshold, conditions)
      case Failure(e) => (Failure(e), entries)
      case Success(key) => CachedStep(encode, index, entries, key, query, collection, limit, threshold, conditions, now, f)
  }

  /** The corrected result key: the filter dict inside the key JSON, whose
      keys `sort_keys` then orders. */
  function CheckedKey(query: string, collection: string, limit: int, threshold: real,
    conditions: Option<seq<(string, Json)>>): RedisKey
  {
    SearchKey(Search.CanonicalKey(query, collection, limit, threshold, conditions))
  }

  /** The corrected `search`: every filter can be cached. */
  function SearchCheckedStep(encode: string -> Result<seq<real>>, index: SearchRequest -> Result<seq<Hit>>,
    entries: Entries, query: string, collection: string, limit: int, threshold: real,
    conditions: Option<seq<(string, Json)>>, useCache: bool, now: int, f: Faults): (Result<seq<SearchResult>>, Entries)
  {
    if !useCache then FetchStep(encode, index, entries, query, collection, limit, threshold, conditions, now, f)
    else CachedStep(encode, index, entries, CheckedKey(query, collection, limit, threshold, conditions),
      query, collection, limit, threshold, conditions, now, f)
  }

  // ---------------------------------------------------------------------
  // Properties

  /** A stored embedding is answered from Redis: the model is not
      consulted, so any two models give the same outcome, and Redis is not
      written. */
  lemma EmbeddingHitSkipsModel(e1: string -> Result<seq<real>>, e2: string -> Result<seq<real>>,
    entries: Entries, text: string, now: int, f: Faults)
    requires f.embeddingGet.Success? && Live(entries, EmbKey(Sha256Of(text)), now).Some?
    ensures EmbeddingStep(e1, entries, text, now, f) == EmbeddingStep(e2, entries, text, now, f)
    ensures EmbeddingStep(e1, entries, text, now, f) ==
      (Loads(entries[EmbKey(Sha256Of(text))].value), entries)
  {
  }

  /** A computed embedding is stored for a day: until it expires a lookup
      of the same text finds a value that parses back to the returned
      vector, and from then on nothing; no other key is touched. */
  lemma EmbeddingStored(encode: string -> Result<seq<real>>, entries: Entries, text: string,
    now: int, later: int, f: Faults)
    requires Up(f) && Live(entries, EmbKey(Sha256Of(text)), now).None? && encode(text).Success?
    ensures var (r, after) := EmbeddingStep(encode, entries, text, now, f);
      && r == Success(VectorJson(encode(text).value))
      && (now <= later < now + EmbeddingTtl ==>
            Live(after, EmbKey(Sha256Of(text)), later).Some?
            && Loads(Live(after, EmbKey(Sha256Of(text)), later).value) == r)
      && (later >= now + EmbeddingTtl ==> Live(after, EmbKey(Sha256Of(text)), later).None?)
      && forall k :: k != EmbKey(Sha256Of(text)) ==> Live(after, k, later) == Live(entries, k, later)
  {
    LoadsDumps(VectorJson(encode(text).value));
  }

  /** A result list found under the key is returned as stored: neither the
      model nor the index is consulted and Redis is not written.  Any
      non-empty string counts, including "[]". */
  lemma ResultHitSkipsIndex(e1: string -> Result<seq<real>>, i1: SearchRequest -> Result<seq<Hit>>,
    e2: string -> Result<seq<real>>, i2: SearchRequest -> Result<seq<Hit>>,
    entries: Entries, key: RedisKey, query: string, collection: string, limit: int, threshold: real,
    conditions: Option<seq<(string, Json)>>, now: int, f: Faults)
    requires f.resultGet.Success?
    requires Live(entries, key, now).Some? && Live(entries, key, now).value != EmptyText
    ensures CachedStep(e1, i1, entries, key, query, collection, limit, threshold, conditions, now, f) ==
      (Deserialize(entries[key].value), entries)
    ensures CachedStep(e1, i1, entries, key, query, collection, limit, threshold, conditions, now, f) ==
      CachedStep(e2, i2, entries, key, query, collection, limit, threshold, conditions, now, f)
  {
  }

  /** On a miss the fetched results are stored under the key for an hour,
      and a later search with the same key within that hour returns the
      same list, whatever the model and the index would now give. */
  lemma ResultStored(encode: string -> Result<seq<real>>, index: SearchRequest -> Result<seq<Hit>>,
    e2: string -> Result<seq<real>>, i2: SearchRequest -> Result<seq<Hit>>,
    entries: Entries, key: RedisKey, query: string, collection: string, limit: int, threshold: real,
    conditions: Option<seq<(string, Json)>>, now: int, later: int, f: Faults)
    requires Up(f) && Live(entries, key, now).None?
    requires CachedStep(encode, index, entries, key, query, collection, limit, threshold, conditions, now, f).0.Success?
    requires now <= later < now + ResultTtl
    ensures var (r, after) := CachedStep(encode, index, entries, key, query, collection, limit, threshold, conditions, now, f);
      && r == FetchStep(encode, index, entries, query, collection, limit, threshold, conditions, now, f).0
      && key in after && after[key] == Entry(Serialize(r.value), now + ResultTtl)
      && CachedStep(e2, i2, after, key, query, collection, limit, threshold, conditions, later, f) == (r, after)
  {
    var (r, after) := CachedStep(encode, index, entries, key, query, collection, limit, threshold, conditions, now, f);
    SerializeRoundTrip(r.value);
    assert Live(after, key, later) == Some(Serialize(r.value));
  }

  /** Cache failures are not absorbed: when storing the results fails the
      search raises, although the results were computed. */
  lemma StoreFailureFailsSearch(encode: string -> Result<seq<real>>, index: SearchRequest -> Result<seq<Hit>>,
    entries: Entries, key: RedisKey, query: string, collection: string, limit: int, threshold: real,
    conditions: Option<seq<(string, Json)>>, now: int, f: Faults)
    requires f.resultGet.Success? && f.resultSet.Failure? && Live(entries, key, now).None?
    requires FetchStep(encode, index, entries, query, collection, limit, threshold, conditions, now, f).0.Success?
    ensures CachedStep(encode, index, entries, key, query, collection, limit, threshold, conditions, now, f).0 ==
      Failure(f.resultSet.error)
  {
  }

  /** Without the cache, and with the embedding not stored yet, the search
      computes what the in-process variant computes. */
  lemma UncachedAgrees(encode: string -> Result<seq<real>>, index: SearchRequest -> Result<seq<Hit>>,
    entries: Entries, query: string, collection: string, limit: int, threshold: real,
    conditions: Option<seq<(string, Json)>>, now: int, f: Faults)
    requires Up(f) && Live(entries, EmbKey(Sha256Of(query)), now).None?
    ensures SearchStep(encode, index, entries, query, collection, limit, threshold, conditions, false, now, f).0 ==
      Search.Computed(encode, index, query, collection, limit, threshold, conditions)
  {
  }

  /** With the cache on, any dict filter, even `{}`, makes the search
      raise before Redis, the model or the index is reached. */
  lemma DictFilterRaises(encode: string -> Result<seq<real>>, index: SearchRequest -> Result<seq<Hit>>,
    entries: Entries, query: string, collection: string, limit: int, threshold: real,
    conditions: seq<(string, Json)>, now: int, f: Faults)
    ensures SearchStep(encode, index, entries, query, collection, limit, threshold, Some(conditions), true, now, f) ==
      (Failure(Unhashable), entries)
  {
  }

  /** With the corrected key a filtered search is cached, and a later
      search with the same filter in another key order finds it. */
  lemma CheckedFilterShared(encode: string -> Result<seq<real>>, index: SearchRequest -> Result<seq<Hit>>,
    entries: Entries, query: string, collection: string, limit: int, threshold: real,
    a: seq<(string, Json)>, b: seq<(string, Json)>, now: int, later: int, f: Faults)
    requires DistinctKeys(a) && DistinctKeys(b) && forall x :: x in a <==> x in b
    requires Up(f) && Live(entries, CheckedKey(query, collection, limit, threshold, Some(a)), now).None?
    requires SearchCheckedStep(encode, index, entries, query, collection, limit, threshold, Some(a), true, now, f).0.Success?
    requires now <= later < now + ResultTtl
    ensures var (r, after) := SearchCheckedStep(encode, index, entries, query, collection, limit, threshold, Some(a), true, now, f);
      SearchCheckedStep(encode, index, after, query, collection, limit, threshold, Some(b), true, later, f).0 == r
  {
    var key := CheckedKey(query, collection, limit, threshold, Some(a));
    Search.CanonicalKeyOrderFree(query, collection, limit, threshold, a, b);
    ResultStored(encode, index, encode, index, entries, key, query, collection, limit, threshold, Some(a), now, later, f);
  }

  // ---------------------------------------------------------------------
  // The service

  /** The Redis client: its keys with their values and expiry times. */
  class RedisStore {
    var entries: Entries

    constructor()
      ensures entries == map[]
    {
      entries := map[];
    }

    /** `get(key)`; `outcome` is the connection's. */
    method Get(key: RedisKey, now: int, outcome: Result<()>) returns (r: Result<Option<JsonText>>)
      ensures outcome.Failure? ==> r == Failure(outcome.error)
      ensures outcome.Success? ==> r == Success(Live(entries, key, now))
    {
      if outcome.Failure? {
        r := Failure(outcome.error);
      } else {
        r := Success(Live(entries, key, now));
      }
    }

    /** `set(key, value, ttl)`: the third positional argument of redis-py's
        `set` is the expiry in seconds. */
    method Set(key: RedisKey, value: JsonText, ttl: int, now: int, outcome: Result<()>) returns (r: Result<()>)
      modifies this
      ensures r == outcome
      ensures outcome.Success? ==> entries == old(entries)[key := Entry(value, now + ttl)]
      ensures outcome.Failure? ==> entries == old(entries)
    {
      r := outcome;
      if outcome.Success? {
        entries := entries[key := Entry(value, now + ttl)];
      }
    }
  }

  class QdrantSearch {
    /** The embedding model: a query's vector, or the error it raises. */
    const encode: string -> Result<seq<real>>
    const redis: RedisStore

    constructor(encode: string -> Result<seq<real>>, redis: RedisStore)
      ensures this.encode == encode && this.redis == redis
    {
      this.encode := encode;
      this.redis := redis;
    }

    /** `_get_embedding(text)`. */
    method GetEmbedding(text: string, now: int, f: Faults) returns (r: Result<Json>)
      modifies redis
      ensures (r, redis.entries) == EmbeddingStep(encode, old(redis.entries), text, now, f)
    {
      var key := EmbKey(Sha256Of(text));
      var cached := redis.Get(key, now, f.embeddingGet);
      if cached.Failure? {
        r := Failure(cached.error);
        return;
      }
      if cached.value.Some? {
        r := Loads(cached.value.value);
        return;
      }
      var embedding := encode(text);
      if embedding.Failure? {
        r := Failure(embedding.error);
        return;
      }
      var stored := redis.Set(key, Dumps(VectorJson(embedding.value), false), EmbeddingTtl, now, f.embeddingSet);
      if stored.Failure? {
        r := Failure(stored.error);
        return;
      }
      r := Success(VectorJson(embedding.value));
    }

    /** Embedding, index query and mapping, shared by both paths of
        `search`. */
    method Fetch(query: string, collection: string, limit: int, threshold: real,
      conditions: Option<seq<(string, Json)>>, index: SearchRequest -> Result<seq<Hit>>,
      now: int, f: Faults) returns (r: Result<seq<SearchResult>>)
      modifies redis
      ensures (r, redis.entries) ==
        FetchStep(encode, index, old(redis.entries), query, collection, limit, threshold, conditions, now, f)
    {
      var embedding := GetEmbedding(query, now, f);
      if embedding.Failure? {
        r := Failure(embedding.error);
        return;
      }
      var request := SearchRequest(collection, embedding.value, limit, threshold, DefaultParams, true, None);
      if FilterGiven(conditions) {
        var filter := BuildFilter(conditions.value);
        if filter.Failure? {
          r := Failure(filter.error);
          return;
        }
        request := request.(filter := Some(filter.value));
      }
      var hits := index(request);
      if hits.Failure? {
        r := Failure(hits.error);
        return;
      }
      r := Success(ProcessResults(hits.value));
    }

    /** The cached path of `search` under `key`. */
    method SearchCached(key: RedisKey, query: string, collection: string, limit: int, threshold: real,
      conditions: Option<seq<(string, Json)>>, index: SearchRequest -> Result<seq<Hit>>,
      now: int, f: Faults) returns (r: Result<seq<SearchResult>>)
      modifies redis
      ensures (r, redis.entries) ==
        CachedStep(encode, index, old(redis.entries), key, query, collection, limit, threshold, conditions, now, f)
    {
      var cached := redis.Get(key, now, f.resultGet);
      if cached.Failure? {
        r := Failure(cached.error);
        return;
      }
      if cached.value.Some? && cached.value.value != EmptyText {
        r := Deserialize(cached.value.value);
        return;
      }
      r := Fetch(query, collection, limit, threshold, conditions, index, now, f);
      if r.Failure? {
        return;
      }
      var stored := redis.Set(key, Serialize(r.value), ResultTtl, now, f.resultSet);
      if stored.Failure? {
        r := Failure(stored.error);
      }
    }

    /** `search(...)`. */
    method Search(query: string, collection: string, limit: int, threshold: real,
      conditions: Option<seq<(string, Json)>>, useCache: bool,
      index: SearchRequest -> Result<seq<Hit>>, now: int, f: Faults) returns (r: Result<seq<SearchResult>>)
      modifies redis
      ensures (r, redis.entries) ==
        SearchStep(encode, index, old(redis.entries), query, collection, limit, threshold, conditions, useCache, now, f)
    {
      if !useCache {
        r := Fetch(query, collection, limit, threshold, conditions, index, now, f);
        return;
      }
      var key := ResultKey(query, collection, limit, threshold, conditions);
      if key.Failure? {
        r := Failure(key.error);
        return;
      }
      r := SearchCached(key.value, query, collection, limit, threshold, conditions, index, now, f);
    }

    /** The corrected `search`, keyed by `CheckedKey`. */
    method SearchChecked(query: string, collection: string, limit: int, threshold: real,
      conditions: Option<seq<(string, Json)>>, useCache: bool,
      index: SearchRequest -> Result<seq<Hit>>, now: int, f: Faults) returns (r: Result<seq<SearchResult>>)
      modifies redis
      ensures (r, redis.entries) ==
        SearchCheckedStep(encode, index, old(redis.entries), query, collection, limit, threshold, conditions, useCache, now, f)
    {
      if !useCache {
        r := Fetch(query, collection, limit, threshold, conditions, index, now, f);
        return;
      }
      r := SearchCached(CheckedKey(query, collection, limit, threshold, conditions),
        query, collection, limit, threshold, conditions, index, now, f);
    }
  }
}
