/** JSON values as the Python code builds them (dicts keep insertion order),
    and the two stdlib calls the core uses: `json.dumps(v, sort_keys=...)` and
    `json.loads(text)`.

    The character-level encoding is abstract: a serialised document is the
    value itself wrapped in `Text`, so `loads(dumps(v))` gives `v` back and
    equal texts come from equal values.  `EmptyText` is the empty string `""`,
    which `json.dumps` never produces and which `json.loads` rejects.

    A Python `str` is either `JString` or, when its characters are a
    serialised document that the code later hands to `json.loads`,
    `JEncoded`; both stand for the same kind of value (`TypeName` says "str"
    for each), and the model never compares one with the other. */
module Json {
  import opened Wrappers

  datatype Json =
    | JNull
    | JBool(b: bool)
    | JInt(i: int)
    | JReal(r: real)
    | JString(s: string)
      /** A JSON string whose characters are a serialised JSON document. */
    | JEncoded(text: JsonText)
    | JArray(items: seq<Json>)
    | JObject(members: seq<(string, Json)>)

  datatype JsonText = EmptyText | Text(doc: Json)

  /** Python's truthiness: `None`, `False`, `0`, `0.0`, `""`, `[]` and `{}`
      are false. */
  predicate Truthy(j: Json) {
    match j
    case JNull => false
    case JBool(b) => b
    case JInt(i) => i != 0
    case JReal(r) => r != 0.0
    case JString(s) => s != []
    case JEncoded(t) => t != EmptyText
    case JArray(items) => items != []
    case JObject(ms) => ms != []
  }

  /** A value as `json.loads` gives it: no string inside is modelled as an
      encoded document. */
  predicate Plain(j: Json) {
    match j
    case JEncoded(_) => false
    case JArray(items) => forall i :: 0 <= i < |items| ==> Plain(items[i])
    case JObject(ms) => forall i :: 0 <= i < |ms| ==> var m := ms[i]; Plain(m.1)
    case _ => true
  }

  /** `type(v).__name__`. */
  function TypeName(j: Json): string {
    match j
    case JNull => "NoneType"
    case JBool(_) => "bool"
    case JInt(_) => "int"
    case JReal(_) => "float"
    case JString(_) => "str"
    case JEncoded(_) => "str"
    case JArray(_) => "list"
    case JObject(_) => "dict"
  }

  /** The keys of an object, in insertion order. */
  function Keys(ms: seq<(string, Json)>): (r: seq<string>)
    ensures |r| == |ms|
    ensures forall i :: 0 <= i < |ms| ==> r[i] == ms[i].0
  {
    seq(|ms|, i requires 0 <= i < |ms| => ms[i].0)
  }

  /** A Python dict never holds a key twice. */
  predicate DistinctKeys(ms: seq<(string, Json)>) {
    forall i, j :: 0 <= i < |ms| && 0 <= j < |ms| && ms[i].0 == ms[j].0 ==> i == j
  }

  /** `d.get(key)`: the value stored under the first occurrence of `key`. */
  function Get(ms: seq<(string, Json)>, key: string): Option<Json> {
    if ms == [] then None
    else if ms[0].0 == key then Some(ms[0].1)
    else Get(ms[1..], key)
  }

  /** A key is found exactly when the dict holds it, and what is found is
      stored under it. */
  lemma {:induction false} GetSpec(ms: seq<(string, Json)>, key: string)
    ensures Get(ms, key).None? <==> key !in Keys(ms)
    ensures Get(ms, key).Some? ==> (key, Get(ms, key).value) in ms
  {
    if ms != [] && ms[0].0 != key {
      GetSpec(ms[1..], key);
      assert Keys(ms) == [ms[0].0] + Keys(ms[1..]);
    }
  }

  /** `d.get(key, default)`. */
  function GetOr(ms: seq<(string, Json)>, key: string, default: Json): Json {
    Get(ms, key).GetOr(default)
  }

  /** Python's `<` on `str`: lexicographic by code point. */
  predicate StrLess(a: string, b: string)
    decreases |a|
  {
    if a == [] then b != []
    else if b == [] then false
    else if a[0] != b[0] then a[0] < b[0]
    else StrLess(a[1..], b[1..])
  }

  lemma StrLessIrreflexive(a: string)
    ensures !StrLess(a, a)
  {
  }

  lemma {:induction false} StrLessTransitive(a: string, b: string, c: string)
    requires StrLess(a, b) && StrLess(b, c)
    ensures StrLess(a, c)
    decreases |a|
  {
    if a != [] && a[0] == b[0] && b[0] == c[0] {
      StrLessTransitive(a[1..], b[1..], c[1..]);
    }
  }

  lemma {:induction false} StrLessTotal(a: string, b: string)
    ensures a == b || StrLess(a, b) || StrLess(b, a)
    ensures !(StrLess(a, b) && StrLess(b, a))
    decreases |a|
  {
    if a != [] && b != [] && a[0] == b[0] {
      StrLessTotal(a[1..], b[1..]);
      if a[1..] == b[1..] {
        assert a == [a[0]] + a[1..] && b == [b[0]] + b[1..];
      }
    }
  }

  /** Members in strictly increasing key order: what `sort_keys=True` emits
      for a dict. */
  predicate StrictlySorted(ms: seq<(string, Json)>) {
    forall i, j :: 0 <= i < j < |ms| ==> StrLess(ms[i].0, ms[j].0)
  }

  /** One insertion step of the key sort. */
  function InsertMember(m: (string, Json), ms: seq<(string, Json)>): (r: seq<(string, Json)>)
    decreases |ms|
  {
    if ms == [] then [m]
    else if StrLess(ms[0].0, m.0) then [ms[0]] + InsertMember(m, ms[1..])
    else [m] + ms
  }

  lemma {:induction false} InsertMemberSorted(m: (string, Json), ms: seq<(string, Json)>)
    requires StrictlySorted(ms) && m.0 !in Keys(ms)
    ensures StrictlySorted(InsertMember(m, ms))
    ensures |InsertMember(m, ms)| == |ms| + 1
    ensures forall x :: x in InsertMember(m, ms) <==> x == m || x in ms
    ensures forall k :: k in Keys(InsertMember(m, ms)) <==> k == m.0 || k in Keys(ms)
    decreases |ms|
  {
    var r := InsertMember(m, ms);
    if ms == [] {
      assert Keys(r) == [m.0];
    } else if StrLess(ms[0].0, m.0) {
      var tail := ms[1..];
      assert StrictlySorted(tail);
      assert m.0 !in Keys(tail) by {
        assert forall k :: k in Keys(tail) ==> k in Keys(ms);
      }
      InsertMemberSorted(m, tail);
      var rest := InsertMember(m, tail);
      assert r == [ms[0]] + rest;
      forall j | 0 < j < |r|
        ensures StrLess(r[0].0, r[j].0)
      {
        assert r[j] in rest;
        if r[j] != m {
          var p :| 0 <= p < |tail| && tail[p] == r[j];
          assert ms[p + 1] == r[j];
        }
      }
      assert ms == [ms[0]] + tail;
      assert Keys(r) == [ms[0].0] + Keys(rest);
      assert Keys(ms) == [ms[0].0] + Keys(tail);
    } else {
      assert r == [m] + ms;
      forall j | 0 < j < |r|
        ensures StrLess(m.0, r[j].0)
      {
        StrLessTotal(m.0, ms[0].0);
        assert m.0 != ms[0].0;
        if j > 1 {
          StrLessTransitive(m.0, ms[0].0, ms[j - 1].0);
        }
      }
      assert Keys(r) == [m.0] + Keys(ms);
    }
  }

  /** `sorted(d.items())` for the keys of a dict (insertion sort). */
  function SortMembers(ms: seq<(string, Json)>): (r: seq<(string, Json)>)
    decreases |ms|
  {
    if ms == [] then [] else InsertMember(ms[0], SortMembers(ms[1..]))
  }

  /** Sorting the members of a dict yields the same members, in strictly
      increasing key order. */
  lemma {:induction false} SortMembersSpec(ms: seq<(string, Json)>)
    requires DistinctKeys(ms)
    ensures StrictlySorted(SortMembers(ms))
    ensures |SortMembers(ms)| == |ms|
    ensures forall x :: x in SortMembers(ms) <==> x in ms
    ensures forall k :: k in Keys(SortMembers(ms)) <==> k in Keys(ms)
    decreases |ms|
  {
    if ms != [] {
      var tail := ms[1..];
      assert DistinctKeys(tail) by {
        forall i, j | 0 <= i < |tail| && 0 <= j < |tail| && tail[i].0 == tail[j].0
          ensures i == j
        {
          assert ms[i + 1].0 == ms[j + 1].0;
        }
      }
      SortMembersSpec(tail);
      forall p | 0 <= p < |tail|
        ensures tail[p].0 != ms[0].0
      {
        assert ms[p + 1] == tail[p];
      }
      assert ms[0].0 !in Keys(tail);
      assert ms[0].0 !in Keys(SortMembers(tail));
      InsertMemberSorted(ms[0], SortMembers(tail));
      assert ms == [ms[0]] + tail;
      assert Keys(ms) == [ms[0].0] + Keys(tail);
    }
  }

  /** Two strictly sorted member lists holding the same members are equal. */
  lemma {:induction false} StrictlySortedUnique(a: seq<(string, Json)>, b: seq<(string, Json)>)
    requires StrictlySorted(a) && StrictlySorted(b)
    requires forall x :: x in a <==> x in b
    ensures a == b
    decreases |a|
  {
    if a == [] {
      HeadIsMember(b);
    } else {
      assert a[0] in b;
      assert b != [];
      assert b[0] in a;
      if a[0] != b[0] {
        var i :| 0 <= i < |a| && a[i] == b[0];
        var j :| 0 <= j < |b| && b[j] == a[0];
        assert i > 0 && j > 0;
        assert StrLess(a[0].0, b[0].0);
        assert StrLess(b[0].0, a[0].0);
        StrLessTotal(a[0].0, b[0].0);
      }
      SortedTail(a);
      SortedTail(b);
      StrictlySortedUnique(a[1..], b[1..]);
      assert a == [a[0]] + a[1..] && b == [b[0]] + b[1..];
    }
  }

  lemma HeadIsMember(b: seq<(string, Json)>)
    ensures b == [] || b[0] in b
  {
  }

  /** The tail of a strictly sorted list holds every member but the head. */
  lemma SortedTail(a: seq<(string, Json)>)
    requires StrictlySorted(a) && a != []
    ensures StrictlySorted(a[1..])
    ensures forall x :: x in a[1..] <==> x in a && x != a[0]
  {
    forall x | x in a[1..]
      ensures x != a[0]
    {
      var i :| 1 <= i < |a| && a[i] == x;
      StrLessIrreflexive(a[0].0);
    }
    forall x | x in a && x != a[0]
      ensures x in a[1..]
    {
      var i :| 0 <= i < |a| && a[i] == x;
      assert a[1..][i - 1] == x;
    }
  }

  /** `json.dumps(..., sort_keys=True)` orders the keys of every object,
      at every depth. */
  function SortKeys(j: Json): Json
    decreases j, 2
  {
    match j
    case JArray(items) =>
      JArray(seq(|items|, i requires 0 <= i < |items| => SortKeys(items[i])))
    case JObject(ms) =>
      JObject(SortMembers(SortValues(ms, j)))
    case _ => j
  }

  /** The members of `parent` with every value key-sorted. */
  function SortValues(ms: seq<(string, Json)>, ghost parent: Json): (r: seq<(string, Json)>)
    requires parent.JObject? && ms == parent.members
    ensures |r| == |ms|
    ensures forall i :: 0 <= i < |ms| ==> r[i].0 == ms[i].0
    decreases parent, 1
  {
    seq(|ms|, i requires 0 <= i < |ms| => (ms[i].0, SortKeysOf(ms[i], parent)))
  }

  function SortKeysOf(m: (string, Json), ghost parent: Json): Json
    requires parent.JObject? && m in parent.members
    decreases parent, 0
  {
    assert m.1 < parent;
    SortKeys(m.1)
  }

  /** `json.dumps(v, sort_keys=...)`: never the empty string. */
  function Dumps(j: Json, sortKeys: bool): (r: JsonText)
    ensures r != EmptyText
  {
    Text(if sortKeys then SortKeys(j) else j)
  }

  /** `json.loads(text)`: the empty string is rejected. */
  function Loads(t: JsonText): (r: Result<Json>)
    ensures r.Failure? <==> t == EmptyText
  {
    match t
    case EmptyText => Failure("JSONDecodeError: Expecting value: line 1 column 1 (char 0)")
    case Text(doc) => Success(doc)
  }

  /** `json.loads(json.dumps(v)) == v`.  With the encoding abstract this holds
      by construction; it is stated once so that the callers that depend on
      the round trip name it. */
  lemma LoadsDumps(j: Json)
    ensures Loads(Dumps(j, false)) == Success(j)
  {
  }

  /** With `sort_keys=True` the serialisation of a dict does not depend on
      the order its keys were inserted in. */
  lemma {:induction false} DumpsSortedOrderFree(a: seq<(string, Json)>, b: seq<(string, Json)>)
    requires DistinctKeys(a) && DistinctKeys(b)
    requires forall x :: x in a <==> x in b
    ensures Dumps(JObject(a), true) == Dumps(JObject(b), true)
  {
    var sa := SortValues(a, JObject(a));
    var sb := SortValues(b, JObject(b));
    assert DistinctKeys(sa);
    assert DistinctKeys(sb);
    forall x
      ensures x in sa <==> x in sb
    {
      if x in sa {
        var i :| 0 <= i < |sa| && sa[i] == x;
        assert a[i] in b;
        var j :| 0 <= j < |b| && b[j] == a[i];
        assert SortKeysOf(b[j], JObject(b)) == SortKeys(b[j].1);
        assert SortKeysOf(a[i], JObject(a)) == SortKeys(a[i].1);
        assert sb[j] == x;
      }
      if x in sb {
        var j :| 0 <= j < |sb| && sb[j] == x;
        assert b[j] in a;
        var i :| 0 <= i < |a| && a[i] == b[j];
        assert SortKeysOf(b[j], JObject(b)) == SortKeys(b[j].1);
        assert SortKeysOf(a[i], JObject(a)) == SortKeys(a[i].1);
        assert sa[i] == x;
      }
    }
    SortMembersSpec(sa);
    SortMembersSpec(sb);
    StrictlySortedUnique(SortMembers(sa), SortMembers(sb));
  }

  /** Without `sort_keys` the same dict inserted in two orders serialises to
      two different texts.  The abstract encoding keeps member order, so this
      holds by construction; it records the contrast with
      `DumpsSortedOrderFree`. */
  lemma DumpsUnsortedOrderMatters(a: seq<(string, Json)>, b: seq<(string, Json)>)
    requires a != b
    ensures Dumps(JObject(a), false) != Dumps(JObject(b), false)
  {
  }
}
