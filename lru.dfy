/** The state of a `functools.lru_cache(maxsize=n)` wrapper, as a value:
    the cached argument/result pairs from least to most recently used.
    A call on a cached argument returns the cached result and makes it the
    most recent; a call on a new argument runs the wrapped function and, when
    it returns, caches the result, evicting the least recent entry once the
    cache is full.  A call that raises caches nothing.  `cache_clear()`
    empties the cache. */
module Lru {
  import opened Wrappers

  datatype Memo<K, V> = Memo(entries: seq<(K, V)>, maxSize: nat)

  function Empty<K, V>(maxSize: nat): (m: Memo<K, V>)
    ensures Valid(m) && m.entries == []
  {
    Memo([], maxSize)
  }

  function Keys<K, V>(m: Memo<K, V>): (r: seq<K>)
    ensures |r| == |m.entries|
    ensures forall i :: 0 <= i < |r| ==> r[i] == m.entries[i].0
  {
    seq(|m.entries|, i requires 0 <= i < |m.entries| => m.entries[i].0)
  }

  /** No argument occurs in two entries. */
  ghost predicate Distinct<K, V>(es: seq<(K, V)>) {
    forall i, j :: 0 <= i < j < |es| ==> es[i].0 != es[j].0
  }

  /** No argument is cached twice, and the cache never exceeds its bound. */
  ghost predicate Valid<K, V>(m: Memo<K, V>) {
    |m.entries| <= m.maxSize && Distinct(m.entries)
  }

  /** The cached result for `k`, if any. */
  function Lookup<K(==), V>(m: Memo<K, V>, k: K): (r: Option<V>)
    ensures r.None? <==> k !in Keys(m)
    ensures r.Some? ==> (k, r.value) in m.entries
    decreases |m.entries|
  {
    if m.entries == [] then None
    else if m.entries[0].0 == k then Some(m.entries[0].1)
    else Lookup(Memo(m.entries[1..], m.maxSize), k)
  }

  /** The entries without the one for `k`. */
  function Remove<K(==), V>(es: seq<(K, V)>, k: K): (r: seq<(K, V)>)
    ensures |r| <= |es|
    ensures forall i :: 0 <= i < |r| ==> r[i] in es && r[i].0 != k
    ensures forall i :: 0 <= i < |es| && es[i].0 != k ==> es[i] in r
    decreases |es|
  {
    if es == [] then []
    else if es[0].0 == k then Remove(es[1..], k)
    else [es[0]] + Remove(es[1..], k)
  }

  /** Moves the entry for `k` to the most recent position. */
  function Touch<K(==), V>(m: Memo<K, V>, k: K, v: V): Memo<K, V> {
    Memo(Remove(m.entries, k) + [(k, v)], m.maxSize)
  }

  /** Caches `v` for an argument that is not cached yet. */
  function Insert<K(==), V>(m: Memo<K, V>, k: K, v: V): Memo<K, V> {
    if m.maxSize == 0 then m
    else if |m.entries| >= m.maxSize then Memo(m.entries[1..] + [(k, v)], m.maxSize)
    else Memo(m.entries + [(k, v)], m.maxSize)
  }

  /** `f.cache_clear()`. */
  function Clear<K, V>(m: Memo<K, V>): (r: Memo<K, V>)
    ensures Valid(r) && r.entries == [] && r.maxSize == m.maxSize
  {
    Memo([], m.maxSize)
  }

  /** One call of the wrapped function on `k`: the result and the new cache
      state.  `compute` is the wrapped function itself. */
  function Call<K(==), V>(m: Memo<K, V>, k: K, compute: K -> Result<V>): (Result<V>, Memo<K, V>) {
    match Lookup(m, k)
    case Some(v) => (Success(v), Touch(m, k, v))
    case None =>
      match compute(k)
      case Failure(e) => (Failure(e), m)
      case Success(v) => (Success(v), Insert(m, k, v))
  }

  /** Every cached result is what the wrapped function returns for its
      argument. */
  ghost predicate Agrees<K, V>(m: Memo<K, V>, compute: K -> Result<V>) {
    forall i :: 0 <= i < |m.entries| ==> compute(m.entries[i].0) == Success(m.entries[i].1)
  }

  /** The entries after the first hold no argument of the first. */
  lemma DistinctTail<K, V>(es: seq<(K, V)>)
    requires Distinct(es) && es != []
    ensures Distinct(es[1..])
    ensures forall x :: x in es[1..] ==> x.0 != es[0].0
  {
    forall x | x in es[1..]
      ensures x.0 != es[0].0
    {
      var p :| 0 <= p < |es[1..]| && es[1..][p] == x;
      assert es[p + 1] == x;
    }
  }

  /** An entry for a new argument may be put in front. */
  lemma DistinctCons<K, V>(e: (K, V), es: seq<(K, V)>)
    requires Distinct(es) && forall x :: x in es ==> x.0 != e.0
    ensures Distinct([e] + es)
  {
    var r := [e] + es;
    forall i, j | 0 <= i < j < |r|
      ensures r[i].0 != r[j].0
    {
      assert r[j] == es[j - 1];
      if i > 0 {
        assert r[i] == es[i - 1];
      }
    }
  }

  /** An entry for a new argument may be appended. */
  lemma DistinctSnoc<K, V>(es: seq<(K, V)>, e: (K, V))
    requires Distinct(es) && forall x :: x in es ==> x.0 != e.0
    ensures Distinct(es + [e])
  {
    var r := es + [e];
    forall i, j | 0 <= i < j < |r|
      ensures r[i].0 != r[j].0
    {
      assert r[i] == es[i];
      if j < |es| {
        assert r[j] == es[j];
      }
    }
  }

  /** Removing an argument keeps the others distinct. */
  lemma {:induction false} RemoveDistinct<K, V>(es: seq<(K, V)>, k: K)
    requires Distinct(es)
    ensures Distinct(Remove(es, k))
    decreases |es|
  {
    if es != [] {
      DistinctTail(es);
      RemoveDistinct(es[1..], k);
      if es[0].0 != k {
        var rest := Remove(es[1..], k);
        forall x | x in rest
          ensures x.0 != es[0].0
        {
          var p :| 0 <= p < |rest| && rest[p] == x;
        }
        DistinctCons(es[0], rest);
      }
    }
  }

  /** An argument the cache does not hold occurs in no entry. */
  lemma NotCached<K, V>(m: Memo<K, V>, k: K)
    requires Lookup(m, k).None?
    ensures forall x :: x in m.entries ==> x.0 != k
  {
    forall x | x in m.entries
      ensures x.0 != k
    {
      var p :| 0 <= p < |m.entries| && m.entries[p] == x;
      assert Keys(m)[p] == x.0;
    }
  }

  /** A call keeps the cache valid and its bound unchanged. */
  lemma {:induction false} CallValid<K, V>(m: Memo<K, V>, k: K, compute: K -> Result<V>)
    requires Valid(m)
    ensures Valid(Call(m, k, compute).1)
    ensures Call(m, k, compute).1.maxSize == m.maxSize
  {
    match Lookup(m, k)
    case Some(v) =>
      RemoveDistinct(m.entries, k);
      var r := Remove(m.entries, k);
      forall x | x in r
        ensures x.0 != k
      {
        var p :| 0 <= p < |r| && r[p] == x;
      }
      DistinctSnoc(r, (k, v));
      var p :| 0 <= p < |m.entries| && m.entries[p] == (k, v);
      RemoveShrinks(m.entries, k, p);
    case None =>
      match compute(k)
      case Failure(_) =>
      case Success(v) =>
        NotCached(m, k);
        if m.maxSize > 0 {
          if |m.entries| >= m.maxSize {
            DistinctTail(m.entries);
            DistinctSnoc(m.entries[1..], (k, v));
          } else {
            DistinctSnoc(m.entries, (k, v));
          }
        }
  }

  /** Removing a key that is present shortens the entry list. */
  lemma {:induction false} RemoveShrinks<K, V>(es: seq<(K, V)>, k: K, p: nat)
    requires p < |es| && es[p].0 == k
    ensures |Remove(es, k)| < |es|
    decreases |es|
  {
    if es[0].0 != k {
      RemoveShrinks(es[1..], k, p - 1);
    }
  }

  /** Memoisation is transparent: while the cache agrees with the wrapped
      function, every call returns what the function returns, and the cache
      still agrees afterwards. */
  lemma {:induction false} CallTransparent<K, V>(m: Memo<K, V>, k: K, compute: K -> Result<V>)
    requires Agrees(m, compute)
    ensures Call(m, k, compute).0 == compute(k)
    ensures Agrees(Call(m, k, compute).1, compute)
  {
    match Lookup(m, k)
    case Some(v) =>
      assert (k, v) in m.entries;
      var r := Remove(m.entries, k);
      forall e | e in Touch(m, k, v).entries
        ensures compute(e.0) == Success(e.1)
      {
        if e != (k, v) {
          assert e in r;
        }
      }
    case None =>
      match compute(k)
      case Failure(_) =>
      case Success(v) =>
        var m' := Insert(m, k, v);
        forall e | e in m'.entries
          ensures compute(e.0) == Success(e.1)
        {
          if e != (k, v) && m.maxSize > 0 && |m.entries| >= m.maxSize {
            assert e in m.entries[1..];
            var p :| 0 <= p < |m.entries[1..]| && m.entries[1..][p] == e;
            assert m.entries[p + 1] == e;
          }
        }
  }

  /** A cached argument is answered from the cache: the wrapped function is
      not consulted, so any two functions give the same outcome. */
  lemma CallHitIgnoresCompute<K, V>(m: Memo<K, V>, k: K, f: K -> Result<V>, g: K -> Result<V>)
    requires Lookup(m, k).Some?
    ensures Call(m, k, f) == Call(m, k, g)
    ensures Call(m, k, f).0 == Success(Lookup(m, k).value)
  {
  }

  /** A call that raises leaves the cache as it was. */
  lemma CallFailureUnchanged<K, V>(m: Memo<K, V>, k: K, compute: K -> Result<V>)
    requires Call(m, k, compute).0.Failure?
    ensures Call(m, k, compute).1 == m
    ensures Lookup(m, k).None? && compute(k).Failure?
  {
  }

  /** After a successful call with a non-zero bound the argument is cached,
      as the most recently used entry. */
  lemma CallCaches<K, V>(m: Memo<K, V>, k: K, compute: K -> Result<V>)
    requires m.maxSize > 0 && Call(m, k, compute).0.Success?
    ensures var m' := Call(m, k, compute).1;
      m'.entries != [] && m'.entries[|m'.entries| - 1] == (k, Call(m, k, compute).0.value)
  {
  }

  /** In a valid cache an entry is what a lookup of its argument finds. */
  lemma LookupMember<K, V>(m: Memo<K, V>, k: K, v: V)
    requires Valid(m) && (k, v) in m.entries
    ensures Lookup(m, k) == Some(v)
  {
    var i :| 0 <= i < |m.entries| && m.entries[i] == (k, v);
    var j :| 0 <= j < |m.entries| && m.entries[j] == (k, Lookup(m, k).value);
    assert !(i < j) && !(j < i);
  }

  /** After a successful call with a non-zero bound, looking the argument
      up finds the result the call returned. */
  lemma CallFinds<K, V>(m: Memo<K, V>, k: K, compute: K -> Result<V>)
    requires Valid(m) && m.maxSize > 0 && Call(m, k, compute).0.Success?
    ensures Lookup(Call(m, k, compute).1, k) == Some(Call(m, k, compute).0.value)
  {
    CallValid(m, k, compute);
    CallCaches(m, k, compute);
    var m' := Call(m, k, compute).1;
    LookupMember(m', k, Call(m, k, compute).0.value);
  }

  /** While the cache is below its bound, a call evicts nothing: every
      entry cached before the call is still cached after it. */
  lemma CallKeeps<K, V>(m: Memo<K, V>, k: K, compute: K -> Result<V>, e: (K, V))
    requires Valid(m) && |m.entries| < m.maxSize && e in m.entries
    ensures e in Call(m, k, compute).1.entries
  {
    match Lookup(m, k)
    case Some(v) =>
      if e.0 == k {
        LookupMember(m, e.0, e.1);
      }
    case None =>
  }

  /** A miss on a full cache evicts the least recent entry: the new result
      is appended after the remaining entries, and the evicted argument is
      no longer found. */
  lemma CallEvictsOldest<K, V>(m: Memo<K, V>, k: K, compute: K -> Result<V>)
    requires Valid(m) && 0 < |m.entries| == m.maxSize
    requires Lookup(m, k).None? && compute(k).Success?
    ensures Call(m, k, compute).1.entries == m.entries[1..] + [(k, compute(k).value)]
    ensures Lookup(Call(m, k, compute).1, m.entries[0].0).None?
  {
    var oldest := m.entries[0].0;
    var es := m.entries[1..] + [(k, compute(k).value)];
    assert oldest != k by {
      assert oldest == Keys(m)[0];
    }
    DistinctTail(m.entries);
    forall i | 0 <= i < |es|
      ensures es[i].0 != oldest
    {
      if i < |es| - 1 {
        assert es[i] in m.entries[1..];
      }
    }
  }
}
