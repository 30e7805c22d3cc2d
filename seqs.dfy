/** Sequence partitioning shared by the ingestion pipeline and the audio
    streaming code: concatenation of a list of pieces, the fixed-size batches
    produced by `for i in range(0, len(s), n): s[i:i + n]`, and Python's
    negative-index slice `s[-n:]`. */
module Seqs {

  /** The pieces joined end to end (`b"".join(pieces)`, `list.extend` in a loop). */
  function Flatten<T>(ss: seq<seq<T>>): (r: seq<T>)
    decreases |ss|
  {
    if ss == [] then [] else ss[0] + Flatten(ss[1..])
  }

  lemma {:induction false} FlattenConcat<T>(a: seq<seq<T>>, b: seq<seq<T>>)
    ensures Flatten(a + b) == Flatten(a) + Flatten(b)
    decreases |a|
  {
    if a != [] {
      assert (a + b)[0] == a[0];
      assert (a + b)[1..] == a[1..] + b;
      FlattenConcat(a[1..], b);
    } else {
      assert a + b == b;
    }
  }

  lemma FlattenSnoc<T>(a: seq<seq<T>>, x: seq<T>)
    ensures Flatten(a + [x]) == Flatten(a) + x
  {
    FlattenConcat(a, [x]);
    assert Flatten([x]) == x + Flatten([x][1..]);
  }

  /** A log that holds `base` followed by the flattened `a` grows by `x`
      when `x` is appended to `a`. */
  lemma FlattenSnocAfter<T>(base: seq<T>, a: seq<seq<T>>, x: seq<T>)
    ensures base + Flatten(a + [x]) == (base + Flatten(a)) + x
  {
    FlattenSnoc(a, x);
  }

  /** `min(a, b)` on naturals. */
  function Min(a: nat, b: nat): nat {
    if a <= b then a else b
  }

  /** `[s[i:i + n] for i in range(0, len(s), n)]` for a positive `n`. */
  function Batches<T>(s: seq<T>, n: nat): (r: seq<seq<T>>)
    requires n > 0
    decreases |s|
  {
    if |s| == 0 then []
    else if |s| <= n then [s]
    else [s[..n]] + Batches(s[n..], n)
  }

  /** Batching loses nothing and reorders nothing. */
  lemma {:induction false} FlattenBatches<T>(s: seq<T>, n: nat)
    requires n > 0
    ensures Flatten(Batches(s, n)) == s
    decreases |s|
  {
    if |s| == 0 {
    } else if |s| <= n {
      assert Flatten([s]) == s + Flatten([s][1..]);
    } else {
      FlattenBatches(s[n..], n);
      var rest := Batches(s[n..], n);
      assert ([s[..n]] + rest)[1..] == rest;
      assert s == s[..n] + s[n..];
    }
  }

  /** Every batch is non-empty and at most `n` long, and every batch but the
      last is exactly `n` long. */
  lemma {:induction false} BatchSizes<T>(s: seq<T>, n: nat)
    requires n > 0
    ensures forall i :: 0 <= i < |Batches(s, n)| ==> 0 < |Batches(s, n)[i]| <= n
    ensures forall i :: 0 <= i < |Batches(s, n)| - 1 ==> |Batches(s, n)[i]| == n
    decreases |s|
  {
    if |s| > n {
      BatchSizes(s[n..], n);
      var rest := Batches(s[n..], n);
      assert Batches(s, n) == [s[..n]] + rest;
      forall i | 1 <= i < |Batches(s, n)|
        ensures Batches(s, n)[i] == rest[i - 1]
      {
      }
    }
  }

  /** There are `ceil(len(s) / n)` batches: none for an empty input, and
      otherwise `c` batches with `(c - 1) * n < len(s) <= c * n`. */
  lemma {:induction false} BatchCount<T>(s: seq<T>, n: nat)
    requires n > 0
    ensures |s| == 0 <==> |Batches(s, n)| == 0
    ensures |s| > 0 ==> (|Batches(s, n)| - 1) * n < |s| <= |Batches(s, n)| * n
    decreases |s|
  {
    if |s| > n {
      BatchCount(s[n..], n);
      var c := |Batches(s[n..], n)|;
      assert |Batches(s, n)| == c + 1;
      MulPred(c + 1, n);
    }
  }

  /** Batch `k` is exactly the slice `s[k*n : k*n + n]` that Python's
      `range(0, len(s), n)` loop takes on its `k`-th iteration. */
  lemma {:induction false} BatchAt<T>(s: seq<T>, n: nat, k: nat)
    requires n > 0 && k < |Batches(s, n)|
    ensures k * n < |s|
    ensures Batches(s, n)[k] == s[k * n..Min(k * n + n, |s|)]
    decreases k
  {
    if k > 0 {
      var t := s[n..];
      assert Batches(s, n)[k] == Batches(t, n)[k - 1];
      BatchAt(t, n, k - 1);
      var m := (k - 1) * n;
      assert m + n == k * n by {
        MulPred(k, n);
      }
      var hi := Min(m + n, |t|);
      assert hi + n == Min(k * n + n, |s|);
      assert t[m..hi] == s[m + n..hi + n] by {
        forall i | 0 <= i < hi - m
          ensures t[m..hi][i] == s[m + n..hi + n][i]
        {
        }
      }
    }
  }

  /** The first `k` batches together are the first `k * n` elements. */
  lemma {:induction false} FlattenBatchesPrefix<T>(s: seq<T>, n: nat, k: nat)
    requires n > 0 && k <= |Batches(s, n)|
    ensures Flatten(Batches(s, n)[..k]) == s[..Min(k * n, |s|)]
    decreases k
  {
    var bs := Batches(s, n);
    if k == 0 {
      assert bs[..0] == [];
    } else {
      FlattenBatchesPrefix(s, n, k - 1);
      BatchAt(s, n, k - 1);
      assert bs[..k] == bs[..k - 1] + [bs[k - 1]];
      FlattenSnoc(bs[..k - 1], bs[k - 1]);
      MulPred(k, n);
    }
  }

  /** Batch `k` exists exactly when it would start inside the sequence. */
  lemma BatchIndex<T>(s: seq<T>, n: nat, k: nat)
    requires n > 0
    ensures k < |Batches(s, n)| <==> k * n < |s|
  {
    var bs := Batches(s, n);
    if k < |bs| {
      BatchAt(s, n, k);
    } else {
      BatchCount(s, n);
      MulMono(|bs|, k, n);
    }
  }

  /** One turn of the `range(0, len(s), n)` loop: batch `k` is the slice it
      takes, and the next start `k*n + n` is inside `s` exactly when there
      is a batch `k + 1`. */
  lemma BatchStep<T>(s: seq<T>, n: nat, k: nat)
    requires n > 0 && k < |Batches(s, n)|
    ensures k * n < |s| && (k + 1) * n == k * n + n
    ensures Batches(s, n)[k] == s[k * n..Min(k * n + n, |s|)]
    ensures k + 1 < |Batches(s, n)| <==> k * n + n < |s|
  {
    BatchAt(s, n, k);
    BatchIndex(s, n, k + 1);
    MulPred(k + 1, n);
  }

  lemma MulMono(a: nat, b: nat, n: nat)
    requires a <= b
    ensures a * n <= b * n
  {
    assert b * n == a * n + (b - a) * n;
  }

  lemma MulPred(k: nat, n: nat)
    requires k > 0
    ensures (k - 1) * n + n == k * n
  {
  }

  /** The batches of a sequence, peeled one at a time: the invariant the
      `range(0, len(s), n)` loops keep. */
  lemma BatchesUnfold<T>(s: seq<T>, n: nat)
    requires n > 0 && |s| > 0
    ensures Batches(s, n) == [s[..Min(n, |s|)]] + Batches(s[Min(n, |s|)..], n)
  {
    if |s| <= n {
      assert s[..|s|] == s;
      assert s[|s|..] == [];
    }
  }

  /** A partition of `s` into consecutive non-empty pieces of length `n`,
      the last possibly shorter. */
  ghost predicate IsBatching<T>(s: seq<T>, n: nat, bs: seq<seq<T>>) {
    && Flatten(bs) == s
    && (forall i :: 0 <= i < |bs| ==> 0 < |bs[i]| <= n)
    && (forall i :: 0 <= i < |bs| - 1 ==> |bs[i]| == n)
  }

  /** `Batches` is such a partition, and the only one. */
  lemma {:induction false} BatchingUnique<T>(s: seq<T>, n: nat, bs: seq<seq<T>>)
    requires n > 0
    ensures IsBatching(s, n, Batches(s, n))
    ensures IsBatching(s, n, bs) ==> bs == Batches(s, n)
    decreases |s|
  {
    FlattenBatches(s, n);
    BatchSizes(s, n);
    if IsBatching(s, n, bs) && bs != [] {
      var b := bs[0];
      var tail := bs[1..];
      assert bs == [b] + tail;
      assert s == b + Flatten(tail);
      if tail == [] {
        assert Flatten(tail) == [];
        assert s == b;
        assert Batches(s, n) == [s];
      } else {
        assert |b| == n;
        assert s[..n] == b;
        assert s[n..] == Flatten(tail);
        assert IsBatching(s[n..], n, tail) by {
          forall i | 0 <= i < |tail| ensures 0 < |tail[i]| <= n {
            assert tail[i] == bs[i + 1];
          }
          forall i | 0 <= i < |tail| - 1 ensures |tail[i]| == n {
            assert tail[i] == bs[i + 1];
          }
        }
        BatchingUnique(s[n..], n, tail);
        assert |Flatten(tail)| > 0;
      }
    }
  }

  /** Python's `s[-n:]` for `n > 0`: the last `n` elements, or all of `s`
      when it is shorter. */
  function LastN<T>(s: seq<T>, n: nat): (r: seq<T>)
    ensures |r| == Min(n, |s|)
    ensures s == s[..|s| - |r|] + r
  {
    if |s| <= n then s else s[|s| - n..]
  }
}
