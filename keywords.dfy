/** The keyword classifiers of the two diagram services: a chain of
    `if any(word in query for word in words): return result` tests tried in
    order, with a default when none matches. */
module Keywords {
  import opened Text

  /** `any(word in s for word in words)`. */
  predicate ContainsAny(s: string, words: seq<string>) {
    exists i :: 0 <= i < |words| && Contains(s, words[i])
  }

  datatype Rule<T> = Rule(words: seq<string>, result: T)

  /** The index of the first rule from `from` on with a word in `s`, or
      `|rules|` when there is none. */
  function FirstRule<T>(s: string, rules: seq<Rule<T>>, from: nat): (k: nat)
    requires from <= |rules|
    ensures from <= k <= |rules|
    ensures forall j :: from <= j < k ==> !ContainsAny(s, rules[j].words)
    ensures k < |rules| ==> ContainsAny(s, rules[k].words)
    decreases |rules| - from
  {
    if from == |rules| then from
    else if ContainsAny(s, rules[from].words) then from
    else FirstRule(s, rules, from + 1)
  }

  /** The result of the first rule with a word in `s`; `default` when no
      rule matches. */
  function Classify<T>(s: string, rules: seq<Rule<T>>, default: T): (r: T)
    ensures (forall j :: 0 <= j < |rules| ==> !ContainsAny(s, rules[j].words)) ==> r == default
    ensures forall k ::
      (0 <= k < |rules| && ContainsAny(s, rules[k].words)
       && forall j :: 0 <= j < k ==> !ContainsAny(s, rules[j].words)) ==> r == rules[k].result
    ensures r == default || exists k :: 0 <= k < |rules| && r == rules[k].result
  {
    var k := FirstRule(s, rules, 0);
    if k < |rules| then rules[k].result else default
  }
}
