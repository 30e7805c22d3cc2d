/** The research engine's record builders: the finding and result records
    of `research_topic`, and the cache key of `_generate_cache_key`.  The
    Groq completion is an oracle from the prompt to the analysis or an
    error message; the ISO timestamp is a parameter. */
module ResearchEngine {
  import opened Wrappers
  import opened Json

  datatype ResearchResult = ResearchResult(
    topic: string,
    findings: seq<seq<(string, Json)>>,
    sources: seq<string>,
    confidenceScore: real,
    metadata: seq<(string, Json)>)

  /** Python truthiness of an optional string. */
  predicate Truthy(context: Option<string>) {
    context.Some? && context.value != []
  }

  const Indent: string := "                "

  /** The deep-research prompt, naming the query and the context (or "No
      additional context"). */
  function ResearchPrompt(query: string, context: Option<string>): (p: string)
  {
    "Conduct a deep analysis on this topic:\n"
    + Indent + "Query: " + query + "\n"
    + Indent + "Context: " + (if Truthy(context) then context.value else "No additional context") + "\n"
    + Indent + "\n"
    + Indent + "Provide:\n"
    + Indent + "1. Comprehensive analysis\n"
    + Indent + "2. Multiple perspectives\n"
    + Indent + "3. Potential implications\n"
    + Indent + "4. Related concepts\n"
    + Indent + "5. Supporting evidence"
  }

  /** `[context] if context else []`. */
  function Details(context: Option<string>): (r: Json)
    ensures r.JArray? && (|r.items| == 1 <==> Truthy(context)) && (|r.items| == 0 <==> !Truthy(context))
    ensures Truthy(context) ==> r.items == [JString(context.value)]
  {
    if Truthy(context) then JArray([JString(context.value)]) else JArray([])
  }

  /** The single finding: the analysis from the model on the deep path, the
      fixed "Context-based research" summary otherwise. */
  function Finding(query: string, context: Option<string>, summary: string, source: string): (f: seq<(string, Json)>)
    ensures Get(f, "summary") == Some(JString(summary)) && Get(f, "source") == Some(JString(source))
    ensures Get(f, "details") == Some(Details(context))
  {
    var f := [("topic", JString(query)), ("summary", JString(summary)), ("details", Details(context)),
              ("source", JString(source)), ("relevance", JReal(1.0))];
    assert f[1..][1..] == [("details", Details(context)), ("source", JString(source)), ("relevance", JReal(1.0))];
    assert f[1..][1..][1..] == [("source", JString(source)), ("relevance", JReal(1.0))];
    assert Get(f[1..][1..][1..], "source") == Some(JString(source));
    assert Get(f[1..][1..], "source") == Get(f[1..][1..][1..], "source");
    assert "summary"[0] == 's' && "details"[0] == 'd' && |"topic"| == 5 && |"details"| == 7;
    assert Get(f[1..][1..], "details") == Some(Details(context));
    assert Get(f[1..], "details") == Get(f[1..][1..], "details");
    f
  }

  /** `research_topic(query, context, deep_research)`.  Only the deep path
      asks the model; its failure is caught and reported in a result with
      confidence 0.0, no sources and one error finding. */
  function ResearchTopic(query: string, context: Option<string>, deepResearch: bool,
                         complete: string -> Result<string>, timestamp: string): (r: ResearchResult)
    ensures r.topic == query && |r.findings| == 1
    ensures !deepResearch ==>
      && r.findings[0] == Finding(query, context, "Context-based research", "context-analysis")
      && r.sources == ["context-based-analysis"] && r.confidenceScore == 1.0
      && Get(r.metadata, "research_type") == Some(JString("context_based"))
    ensures deepResearch && complete(ResearchPrompt(query, context)).Success? ==>
      && r.findings[0] == Finding(query, context, complete(ResearchPrompt(query, context)).value, "deep-research-analysis")
      && r.sources == ["deep-research"] && r.confidenceScore == 1.0
      && Get(r.metadata, "research_type") == Some(JString("deep_research"))
    ensures deepResearch && complete(ResearchPrompt(query, context)).Failure? ==>
      var e := complete(ResearchPrompt(query, context)).error;
      && r.findings[0] == [("error", JString(e)), ("summary", JString("Research failed"))]
      && r.sources == [] && r.confidenceScore == 0.0
      && r.metadata == [("error", JString(e))]
    ensures r.confidenceScore == 1.0 <==> r.sources != []
  {
    var summary := if deepResearch then complete(ResearchPrompt(query, context)) else Success("Context-based research");
    match summary
    case Failure(e) =>
      ResearchResult(query, [[("error", JString(e)), ("summary", JString("Research failed"))]], [], 0.0, [("error", JString(e))])
    case Success(s) =>
      var finding := Finding(query, context, s, if deepResearch then "deep-research-analysis" else "context-analysis");
      ResearchResult(query, [finding], [if deepResearch then "deep-research" else "context-based-analysis"], 1.0,
        [("context", if context.Some? then JString(context.value) else JNull),
         ("research_type", JString(if deepResearch then "deep_research" else "context_based")),
         ("timestamp", JString(timestamp))])
  }

  /** `_generate_cache_key(query, context)`: the query, followed by ":" and
      the context when the context is truthy. */
  function CacheKey(query: string, context: Option<string>): (k: string)
    ensures !Truthy(context) ==> k == query
    ensures Truthy(context) ==>
      && |k| == |query| + 1 + |context.value| && k[..|query|] == query
      && k[|query|] == ':' && k[|query| + 1..] == context.value
  {
    if Truthy(context) then query + ":" + context.value else query
  }

  /** The key is not injective: a query holding ":" collides with a
      query/context pair. */
  lemma CacheKeyCollides()
    ensures CacheKey("a:b", None) == CacheKey("a", Some("b"))
  {
  }

  /** Without ":" in queries the key does tell inputs apart, up to the
      truthiness of the context. */
  lemma CacheKeyInjectiveWithoutColon(q1: string, c1: Option<string>, q2: string, c2: Option<string>)
    requires ':' !in q1 && ':' !in q2
    requires CacheKey(q1, c1) == CacheKey(q2, c2)
    ensures q1 == q2
    ensures Truthy(c1) == Truthy(c2) && (Truthy(c1) ==> c1.value == c2.value)
  {
    var k := CacheKey(q1, c1);
    assert q1 == k[..|q1|] == q2;
  }
}
