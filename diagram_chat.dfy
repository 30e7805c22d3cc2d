/** The diagram chatbot: the priority-ordered keyword classifier that picks a
    diagram type, the serialiser that turns an architecture description (as
    parsed from the model's JSON) into Mermaid flowchart text, and the chat
    session handling.  Python's `str()` of a non-string value placed in an
    f-string is the parameter `show`; the Groq completion is an oracle. */
module DiagramChat {
  import opened Wrappers
  import opened Text
  import opened Seqs
  import opened Json
  import opened Keywords
  import opened ChatModels

  datatype DiagramType =
    | Flowchart | Sequence | State | Class | ER | Gantt | Mindmap | AiArchitecture | SoftwareArchitecture
  {
    function Value(): string {
      match this
      case Flowchart => "flowchart"
      case Sequence => "sequenceDiagram"
      case State => "stateDiagram-v2"
      case Class => "classDiagram"
      case ER => "erDiagram"
      case Gantt => "gantt"
      case Mindmap => "mindmap"
      case AiArchitecture => "ai_architecture"
      case SoftwareArchitecture => "software_architecture"
    }
  }

  // ---------------------------------------------------------------------
  // Diagram type detection
  // ---------------------------------------------------------------------

  const SoftwarePhrases: seq<string> := [
    "software architecture", "system architecture", "application architecture",
    "high-level design", "system design", "component diagram", "deployment diagram",
    "architectural pattern", "solution architecture", "technical architecture",
    "microservice", "microservices", "distributed system", "service-oriented",
    "api gateway", "cloud architecture", "serverless", "event-driven",
    "domain-driven", "layered architecture", "hexagonal architecture",
    "onion architecture", "clean architecture", "cqrs", "event sourcing",
    "mvc", "model-view-controller", "mvvm", "spa architecture", "monolith",
    "broker pattern", "circuit breaker", "saga pattern", "bulkhead pattern",
    "strangler pattern", "backends for frontends", "bff pattern", "sidecar pattern",
    "ambassador pattern", "n-tier", "pipeline architecture",
    "cloud-native", "multi-cloud", "hybrid cloud", "container orchestration",
    "kubernetes architecture", "docker architecture", "service mesh", "istio",
    "data pipeline", "etl architecture", "data lake", "data warehouse",
    "data mesh", "lambda architecture", "kappa architecture",
    "integration architecture", "message queue", "broker", "enterprise service bus",
    "api management", "webhook architecture", "pub-sub", "publisher-subscriber"]

  const AiPhrases: seq<string> := [
    "ai architecture", "rag architecture", "agent workflow",
    "llm architecture", "ai system", "agent based",
    "rag system", "rag app", "ai app architecture",
    "llm system", "language model architecture", "embedding architecture",
    "conversational ai", "chatbot architecture", "cognitive architecture",
    "machine learning pipeline", "ai assistants", "agent system",
    "multi-agent system", "fine-tuning architecture", "neural architecture"]

  const SequenceWords: seq<string> := ["sequence", "interaction", "communication", "message", "api call"]

  /** The groups tried in order; the first with a phrase in the query wins. */
  const Rules: seq<Rule<DiagramType>> := [
    Rule(SoftwarePhrases, SoftwareArchitecture),
    Rule(AiPhrases, AiArchitecture),
    Rule(["flow", "process", "workflow", "steps", "algorithm"], Flowchart),
    Rule(SequenceWords, Sequence),
    Rule(["state", "status", "transition", "lifecycle", "phase"], State),
    Rule(["class", "object", "inheritance", "method", "attribute", "oop"], Class),
    Rule(["entity", "database", "er", "table", "relationship", "schema"], ER),
    Rule(["timeline", "schedule", "gantt", "project", "task"], Gantt),
    Rule(["mind", "concept", "brainstorm", "idea", "map", "hierarchy"], Mindmap)]

  /** `_detect_diagram_type(query)`: substring tests on the lowercased query,
      group by group; software architecture when nothing matches. */
  function DetectDiagramType(query: string): (t: DiagramType)
    ensures ContainsAny(Lower(query), SoftwarePhrases) ==> t == SoftwareArchitecture
    ensures !ContainsAny(Lower(query), SoftwarePhrases) && ContainsAny(Lower(query), AiPhrases) ==> t == AiArchitecture
    ensures forall k ::
      (0 <= k < |Rules| && ContainsAny(Lower(query), Rules[k].words)
       && forall j :: 0 <= j < k ==> !ContainsAny(Lower(query), Rules[j].words)) ==> t == Rules[k].result
    ensures (forall k :: 0 <= k < |Rules| ==> !ContainsAny(Lower(query), Rules[k].words)) ==> t == SoftwareArchitecture
  {
    assert Rules[0].words == SoftwarePhrases && Rules[1].words == AiPhrases;
    Classify(Lower(query), Rules, SoftwareArchitecture)
  }

  /** Upper and lower case are not told apart. */
  lemma DetectIgnoresCase(query: string)
    ensures DetectDiagramType(Lower(query)) == DetectDiagramType(query)
  {
    LowerIdempotent(query);
  }

  /** A software-architecture phrase overrides the generic keyword it
      contains: "message queue" holds the sequence keyword "message" and is
      still a software architecture. */
  lemma MessageQueueIsSoftware()
    ensures Contains(Lower("message queue"), "message")
    ensures DetectDiagramType("message queue") == SoftwareArchitecture
  {
    MessageQueueIsLower();
    ContainsInfix([], "message", " queue");
    assert [] + "message" + " queue" == "message queue";
    MessageQueuePhrase();
  }

  lemma MessageQueueIsLower()
    ensures Lower("message queue") == "message queue"
  {
  }

  lemma MessageQueuePhrase()
    ensures ContainsAny("message queue", SoftwarePhrases)
  {
    assert SoftwarePhrases[57] == "message queue";
    ContainsInfix([], "message queue", []);
    assert [] + "message queue" + [] == "message queue";
  }

  // ---------------------------------------------------------------------
  // Python operations on parsed JSON values
  // ---------------------------------------------------------------------

  /** The message of the AttributeError raised by `v.<attribute>` on a value
      that lacks it. */
  function NoAttribute(j: Json, attribute: string): string {
    "'" + TypeName(j) + "' object has no attribute '" + attribute + "'"
  }

  /** `v.get(key, default)`: only a dict has `get`. */
  function DictGet(j: Json, key: string, default: Json): (r: Result<Json>)
    ensures r.Success? <==> j.JObject?
    ensures r.Success? ==> r.value == GetOr(j.members, key, default)
  {
    if j.JObject? then Success(GetOr(j.members, key, default)) else Failure(NoAttribute(j, "get"))
  }

  /** `v.replace("-", "_")` on an id: only a string has `replace`. */
  function NormaliseId(j: Json): (r: Result<string>)
    ensures r.Success? <==> j.JString?
    ensures r.Success? ==> |r.value| == |j.s| && '-' !in r.value
    ensures r.Success? ==> forall i :: 0 <= i < |j.s| && j.s[i] != '-' ==> r.value[i] == j.s[i]
  {
    if j.JString? then Success(ReplaceChar(j.s, '-', '_')) else Failure(NoAttribute(j, "replace"))
  }

  /** `v.lower()`: only a string has `lower`. */
  function LowerOf(j: Json): (r: Result<string>)
    ensures r.Success? <==> j.JString?
    ensures r.Success? ==> r.value == Lower(j.s)
  {
    if j.JString? then Success(Lower(j.s)) else Failure(NoAttribute(j, "lower"))
  }

  /** A value placed in an f-string. */
  function Format(j: Json, show: Json -> string): (r: string)
    ensures j.JString? ==> r == j.s
  {
    if j.JString? then j.s else show(j)
  }

  /** `for x in v`: a list gives its items, a string its characters, a dict
      its keys; anything else is not iterable. */
  function Iterate(j: Json): (r: Result<seq<Json>>)
    ensures r.Failure? <==> !(j.JArray? || j.JString? || j.JObject?)
    ensures j.JArray? ==> r == Success(j.items)
  {
    match j
    case JArray(items) => Success(items)
    case JString(s) => Success(seq(|s|, i requires 0 <= i < |s| => JString([s[i]])))
    case JObject(ms) => Success(seq(|ms|, i requires 0 <= i < |ms| => JString(ms[i].0)))
    case _ => Failure("'" + TypeName(j) + "' object is not iterable")
  }

  // ---------------------------------------------------------------------
  // Sections of the diagram text
  // ---------------------------------------------------------------------

  /** The text of `for x in items: mermaid += line(x)`; the first item whose
      line raises ends it with that error. */
  function Lines<T, C>(items: seq<T>, line: (T, C) -> Result<string>, ctx: C): (r: Result<string>)
    decreases |items|
  {
    if items == [] then Success("")
    else
      var init :- Lines(items[..|items| - 1], line, ctx);
      var last :- line(items[|items| - 1], ctx);
      Success(init + last)
  }

  /** The line of every item, once all of them succeed. */
  function Outputs<T, C>(items: seq<T>, line: (T, C) -> Result<string>, ctx: C): (r: seq<string>)
    requires forall i :: 0 <= i < |items| ==> line(items[i], ctx).Success?
    ensures |r| == |items| && forall i :: 0 <= i < |items| ==> r[i] == line(items[i], ctx).value
  {
    seq(|items|, i requires 0 <= i < |items| && line(items[i], ctx).Success? => line(items[i], ctx).value)
  }

  /** `Lines` succeeds exactly when every item's line does. */
  lemma {:induction false} LinesSucceeds<T, C>(items: seq<T>, line: (T, C) -> Result<string>, ctx: C)
    ensures Lines(items, line, ctx).Success? <==> forall i :: 0 <= i < |items| ==> line(items[i], ctx).Success?
    decreases |items|
  {
    if items != [] {
      var init := items[..|items| - 1];
      LinesSucceeds(init, line, ctx);
      assert forall j :: 0 <= j < |init| ==> line(items[j], ctx) == line(init[j], ctx);
    }
  }

  /** A successful `Lines` is the items' lines in item order, one per item. */
  lemma {:induction false} LinesValue<T, C>(items: seq<T>, line: (T, C) -> Result<string>, ctx: C)
    requires forall i :: 0 <= i < |items| ==> line(items[i], ctx).Success?
    ensures Lines(items, line, ctx) == Success(Flatten(Outputs(items, line, ctx)))
    decreases |items|
  {
    if items != [] {
      var init := items[..|items| - 1];
      assert forall j :: 0 <= j < |init| ==> line(init[j], ctx) == line(items[j], ctx);
      LinesValue(init, line, ctx);
      assert Outputs(items, line, ctx) == Outputs(init, line, ctx) + [line(items[|items| - 1], ctx).value];
      FlattenSnoc(Outputs(init, line, ctx), line(items[|items| - 1], ctx).value);
    }
  }

  /** A failing `Lines` carries the error of the first item whose line fails. */
  lemma {:induction false} LinesFirstFailure<T, C>(items: seq<T>, line: (T, C) -> Result<string>, ctx: C)
    requires Lines(items, line, ctx).Failure?
    ensures exists k :: (0 <= k < |items| && line(items[k], ctx) == Failure(Lines(items, line, ctx).error)
      && forall j :: 0 <= j < k ==> line(items[j], ctx).Success?)
    decreases |items|
  {
    var init := items[..|items| - 1];
    if Lines(init, line, ctx).Success? {
      LinesSucceeds(init, line, ctx);
      assert forall j :: 0 <= j < |init| ==> line(items[j], ctx) == line(init[j], ctx);
      assert line(items[|init|], ctx) == Failure(Lines(items, line, ctx).error);
    } else {
      LinesFirstFailure(init, line, ctx);
      var k :| 0 <= k < |init| && line(init[k], ctx) == Failure(Lines(init, line, ctx).error)
        && forall j :: 0 <= j < k ==> line(init[j], ctx).Success?;
      assert line(items[k], ctx) == line(init[k], ctx);
      assert forall j :: 0 <= j < k ==> line(items[j], ctx) == line(init[j], ctx);
    }
  }

  /** Once an item has failed, later items change nothing. */
  lemma {:induction false} LinesStopAtFailure<T, C>(items: seq<T>, k: nat, line: (T, C) -> Result<string>, ctx: C)
    requires k <= |items| && Lines(items[..k], line, ctx).Failure?
    ensures Lines(items, line, ctx) == Lines(items[..k], line, ctx)
    decreases |items| - k
  {
    if k < |items| {
      assert items[..|items| - 1][..k] == items[..k];
      LinesStopAtFailure(items[..|items| - 1], k, line, ctx);
    } else {
      assert items[..k] == items;
    }
  }

  /** `for x in items: mermaid += line(x)`, raising at the first failing
      item. */
  method AppendLines<T, C>(items: seq<T>, line: (T, C) -> Result<string>, ctx: C) returns (r: Result<string>)
    ensures r == Lines(items, line, ctx)
  {
    var text := "";
    var i := 0;
    while i < |items|
      invariant 0 <= i <= |items|
      invariant Lines(items[..i], line, ctx) == Success(text)
    {
      assert items[..i + 1][..i] == items[..i];
      var l := line(items[i], ctx);
      if l.Failure? {
        LinesStopAtFailure(items, i + 1, line, ctx);
        return Failure(l.error);
      }
      text := text + l.value;
      i := i + 1;
    }
    assert items[..i] == items;
    r := Success(text);
  }

  /** One id line inside a subgraph. */
  function MemberLine(nodeId: Json, show: Json -> string): (r: Result<string>)
    ensures r.Success? <==> nodeId.JString?
    ensures r.Success? ==> r.value == "        " + NormaliseId(nodeId).value + "\n"
  {
    var id :- NormaliseId(nodeId);
    Success("        " + id + "\n")
  }

  /** The header line of a subgraph. */
  function SubgraphHeader(id: string, caption: Json, show: Json -> string): string {
    "    subgraph " + id + "[\"" + Format(caption, show) + "\"]\n"
  }

  /** A cluster: the subgraph header, one line per member id, and `end`. */
  function ClusterText(cluster: Json, show: Json -> string): (r: Result<string>)
    ensures r.Success? <==>
      && cluster.JObject?
      && NormaliseId(GetOr(cluster.members, "id", JString(""))).Success?
      && Iterate(GetOr(cluster.members, "nodes", JArray([]))).Success?
      && Lines(Iterate(GetOr(cluster.members, "nodes", JArray([]))).value, MemberLine, show).Success?
    ensures r.Success? ==> (
      var id := NormaliseId(GetOr(cluster.members, "id", JString(""))).value;
      var members := Iterate(GetOr(cluster.members, "nodes", JArray([]))).value;
      r.value == SubgraphHeader(id, GetOr(cluster.members, "label", JString("")), show)
        + Lines(members, MemberLine, show).value + "    end\n")
  {
    var rawId :- DictGet(cluster, "id", JString(""));
    var id :- NormaliseId(rawId);
    var caption := GetOr(cluster.members, "label", JString(""));
    var members :- Iterate(GetOr(cluster.members, "nodes", JArray([])));
    var body :- Lines(members, MemberLine, show);
    Success(SubgraphHeader(id, caption, show) + body + "    end\n")
  }

  datatype Shape = Rectangle | Cylinder | Braces | Subroutine

  const CylinderTypes: seq<string> :=
    ["database", "db", "data_store", "storage", "persistence", "vector_db", "vector_database", "document_store"]
  const BraceTypes: seq<string> := ["agent", "worker", "processor", "consumer", "daemon"]
  const SubroutineTypes: seq<string> := ["processing", "function", "compute", "lambda", "serverless"]

  /** The bracket shape chosen by a node's lowercased type.  The source
      tests further lists (ui, api, llm, queue, cache, ...) that all give the
      rectangle, as does an unknown type; the lists are disjoint, so only
      these three matter. */
  function ShapeOf(nodeType: string): (s: Shape)
    ensures s == Cylinder <==> nodeType in CylinderTypes
    ensures s == Braces <==> nodeType in BraceTypes
    ensures s == Subroutine <==> nodeType in SubroutineTypes
  {
    if nodeType in CylinderTypes then Cylinder
    else if nodeType in BraceTypes then Braces
    else if nodeType in SubroutineTypes then Subroutine
    else Rectangle
  }

  function ShapedLine(id: string, caption: string, shape: Shape): string {
    match shape
    case Rectangle => "    " + id + "[\"" + caption + "\"]\n"
    case Cylinder => "    " + id + "[(\"" + caption + "\")]\n"
    case Braces => "    " + id + "{\"" + caption + "\"}\n"
    case Subroutine => "    " + id + "[[\"" + caption + "\"]]\n"
  }

  /** A node's label with its technology: `if technology and not
      label.endswith(f"({technology})")` the technology is appended in
      parentheses. */
  function WithTechnology(caption: Json, technology: Json, show: Json -> string): (r: Result<string>)
    ensures !Truthy(technology) ==> r == Success(Format(caption, show))
    ensures Truthy(technology) ==> (r.Success? <==> caption.JString?)
    ensures Truthy(technology) && caption.JString? ==>
      var tag := "(" + Format(technology, show) + ")";
      EndsWith(r.value, tag) && (r.value == caption.s || r.value == caption.s + " " + tag)
  {
    if !Truthy(technology) then Success(Format(caption, show))
    else if !caption.JString? then Failure(NoAttribute(caption, "endswith"))
    else
      var tag := "(" + Format(technology, show) + ")";
      if EndsWith(caption.s, tag) then Success(caption.s)
      else
        var r := caption.s + " " + tag;
        assert r[|r| - |tag|..] == tag;
        Success(r)
  }

  /** The technology is appended at most once: doing it again changes
      nothing. */
  lemma TechnologyAppendedOnce(caption: string, technology: Json, show: Json -> string)
    requires Truthy(technology)
    ensures var once := WithTechnology(JString(caption), technology, show).value;
      WithTechnology(JString(once), technology, show) == Success(once)
  {
  }

  /** One node: its normalised id, its label (with the technology) and the
      shape chosen by its lowercased type. */
  function NodeLine(node: Json, show: Json -> string): (r: Result<string>)
    ensures r.Success? <==>
      && node.JObject?
      && GetOr(node.members, "id", JString("")).JString?
      && GetOr(node.members, "type", JString("")).JString?
      && WithTechnology(GetOr(node.members, "label", JString("")),
                        GetOr(node.members, "technology", JString("")), show).Success?
    ensures r.Success? ==>
      r.value == ShapedLine(NormaliseId(GetOr(node.members, "id", JString(""))).value,
                            WithTechnology(GetOr(node.members, "label", JString("")),
                                           GetOr(node.members, "technology", JString("")), show).value,
                            ShapeOf(Lower(GetOr(node.members, "type", JString("")).s)))
  {
    var rawId :- DictGet(node, "id", JString(""));
    var id :- NormaliseId(rawId);
    var caption := GetOr(node.members, "label", JString(""));
    var nodeType :- LowerOf(GetOr(node.members, "type", JString("")));
    var technology := GetOr(node.members, "technology", JString(""));
    var text :- WithTechnology(caption, technology, show);
    Success(ShapedLine(id, text, ShapeOf(nodeType)))
  }

  const DottedTypes: seq<string> := ["response", "return", "callback", "data_flow", "etl", "stream", "batch"]

  /** A connection's label with its protocol: unless the label already ends
      with it, the protocol is appended in parentheses, or stands alone when
      the label is empty.  It is computed and never emitted; only the
      `endswith` call on a non-string label can raise. */
  function WithProtocol(caption: Json, protocol: Json, show: Json -> string): (r: Result<string>)
    ensures r.Failure? <==> Truthy(protocol) && !caption.JString?
    ensures !Truthy(protocol) ==> r == Success(Format(caption, show))
    ensures Truthy(protocol) && caption.JString? && caption.s != [] ==>
      var tag := "(" + Format(protocol, show) + ")";
      EndsWith(r.value, tag) && (r.value == caption.s || r.value == caption.s + " " + tag)
    ensures Truthy(protocol) && caption == JString([]) ==> r == Success(Format(protocol, show))
  {
    if !Truthy(protocol) then Success(Format(caption, show))
    else if !caption.JString? then Failure(NoAttribute(caption, "endswith"))
    else
      var tag := "(" + Format(protocol, show) + ")";
      if EndsWith(caption.s, tag) then Success(caption.s)
      else if caption.s != [] then
        var r := caption.s + " " + tag;
        assert r[|r| - |tag|..] == tag;
        Success(r)
      else Success(Format(protocol, show))
  }

  /** For a non-empty label the protocol is appended at most once: doing it
      again changes nothing.  (An empty label becomes the bare protocol, to
      which a second pass does append the parenthesised protocol.) */
  lemma ProtocolAppendedOnce(caption: string, protocol: Json, show: Json -> string)
    requires Truthy(protocol) && caption != []
    ensures var once := WithProtocol(JString(caption), protocol, show).value;
      WithProtocol(JString(once), protocol, show) == Success(once)
  {
  }

  /** One connection: a dotted arrow for the flow-like types, a solid one
      otherwise, and never a label. */
  function EdgeLine(connection: Json, show: Json -> string): (r: Result<string>)
    ensures r.Success? <==>
      && connection.JObject?
      && NormaliseId(GetOr(connection.members, "from", JString(""))).Success?
      && NormaliseId(GetOr(connection.members, "to", JString(""))).Success?
      && GetOr(connection.members, "type", JString("")).JString?
      && WithProtocol(GetOr(connection.members, "label", JString("")),
                      GetOr(connection.members, "protocol", JString("")), show).Success?
    ensures r.Success? ==> (
      var source := NormaliseId(GetOr(connection.members, "from", JString(""))).value;
      var target := NormaliseId(GetOr(connection.members, "to", JString(""))).value;
      var connType := Lower(GetOr(connection.members, "type", JString("")).s);
      r.value == "    " + source + (if connType in DottedTypes then " -.-> " else " --> ") + target + "\n")
  {
    var rawSource :- DictGet(connection, "from", JString(""));
    var source :- NormaliseId(rawSource);
    var target :- NormaliseId(GetOr(connection.members, "to", JString("")));
    var caption := GetOr(connection.members, "label", JString(""));
    var connType :- LowerOf(GetOr(connection.members, "type", JString("")));
    var protocol := GetOr(connection.members, "protocol", JString(""));
    var _ :- WithProtocol(caption, protocol, show);
    Success("    " + source + (if connType in DottedTypes then " -.-> " else " --> ") + target + "\n")
  }

  /** One entry of `styles`: fill and stroke with white and black as
      defaults. */
  function StyleLine(entry: (string, Json), show: Json -> string): (r: Result<string>)
    ensures r.Success? <==> entry.1.JObject?
    ensures r.Success? ==>
      r.value == "    style " + ReplaceChar(entry.0, '-', '_')
        + " fill:" + Format(GetOr(entry.1.members, "color", JString("#FFFFFF")), show)
        + ",stroke:" + Format(GetOr(entry.1.members, "border", JString("#000000")), show) + "\n"
  {
    var color :- DictGet(entry.1, "color", JString("#FFFFFF"));
    var border := GetOr(entry.1.members, "border", JString("#000000"));
    Success("    style " + ReplaceChar(entry.0, '-', '_') + " fill:" + Format(color, show)
            + ",stroke:" + Format(border, show) + "\n")
  }

  /** The `styles` section: nothing without the key; the key must hold a
      dict (it is iterated with `.items()`). */
  function StylesText(data: seq<(string, Json)>, show: Json -> string): (r: Result<string>)
    ensures Get(data, "styles").None? ==> r == Success("")
    ensures Get(data, "styles").Some? && !Get(data, "styles").value.JObject? ==> r.Failure?
    ensures Get(data, "styles").Some? && Get(data, "styles").value.JObject? ==>
      r == Lines(Get(data, "styles").value.members, StyleLine, show)
  {
    match Get(data, "styles")
    case None => Success("")
    case Some(styles) =>
      if styles.JObject? then Lines(styles.members, StyleLine, show)
      else Failure(NoAttribute(styles, "items"))
  }

  /** The fill and stroke given by default to a node type, if any. */
  function DefaultColours(nodeType: string): Option<(string, string)> {
    if nodeType in ["ui", "frontend", "client", "web", "mobile"] then Some(("#D4F1F9", "#1E90FF"))
    else if nodeType in ["database", "db", "data_store", "persistence"] then Some(("#E1D5E7", "#9673A6"))
    else if nodeType in ["vector_db", "vector_database"] then Some(("#DAE8FC", "#6C8EBF"))
    else if nodeType in ["api", "service", "microservice"] then Some(("#F5F5F5", "#666666"))
    else if nodeType in ["llm", "model", "ml_model"] then Some(("#FFE6CC", "#D79B00"))
    else if nodeType in ["queue", "message_broker", "event_bus"] then Some(("#FFF2CC", "#D6B656"))
    else if nodeType in ["auth", "security"] then Some(("#F8CECC", "#B85450"))
    else if nodeType in ["cache"] then Some(("#D5E8D4", "#82B366"))
    else if nodeType in ["external", "third_party"] then Some(("#F5F5F5", "#666666"))
    else None
  }

  /** `"styles" in diagram_data and node_id in diagram_data["styles"]`: the
      normalised id is looked up among the keys as written. */
  predicate Styled(id: string, data: seq<(string, Json)>) {
    match Get(data, "styles")
    case None => false
    case Some(styles) => styles.JObject? && id in Keys(styles.members)
  }

  /** The default style line of one node: only for a node that is not
      styled and whose type has default colours. */
  function DefaultStyleLine(node: Json, data: seq<(string, Json)>): (r: Result<string>)
    ensures r.Success? <==>
      node.JObject? && GetOr(node.members, "id", JString("")).JString?
      && GetOr(node.members, "type", JString("")).JString?
    ensures r.Success? ==>
      var id := NormaliseId(GetOr(node.members, "id", JString(""))).value;
      var colours := DefaultColours(Lower(GetOr(node.members, "type", JString("")).s));
      && (Styled(id, data) || colours.None? ==> r.value == "")
      && (!Styled(id, data) && colours.Some? ==>
            r.value == "    style " + id + " fill:" + colours.value.0 + ",stroke:" + colours.value.1 + "\n")
  {
    var rawId :- DictGet(node, "id", JString(""));
    var id :- NormaliseId(rawId);
    var nodeType :- LowerOf(GetOr(node.members, "type", JString("")));
    if Styled(id, data) then Success("")
    else match DefaultColours(nodeType)
      case None => Success("")
      case Some(colours) => Success("    style " + id + " fill:" + colours.0 + ",stroke:" + colours.1 + "\n")
  }

  /** A node whose id holds '-' and whose id is the key of `styles` still
      gets its default style line (after the line of its own style), since
      the normalised id is looked up among the keys as written. */
  lemma HyphenatedStyledNodeKeepsDefault(id: string, nodeType: string, data: seq<(string, Json)>, style: Json)
    requires '-' in id
    requires Get(data, "styles") == Some(JObject([(id, style)]))
    requires DefaultColours(Lower(nodeType)).Some?
    ensures var node := JObject([("id", JString(id)), ("type", JString(nodeType))]);
      DefaultStyleLine(node, data).Success? && DefaultStyleLine(node, data).value != ""
  {
    var node := JObject([("id", JString(id)), ("type", JString(nodeType))]);
    var normalised := NormaliseId(JString(id)).value;
    assert normalised != id;
    assert Keys([(id, style)]) == [id];
    assert !Styled(normalised, data);
    assert node.members[1..] == [("type", JString(nodeType))];
    assert node.members[0].0 != "type";
    assert Get(node.members[1..], "type") == Some(JString(nodeType));
    assert GetOr(node.members, "id", JString("")) == JString(id);
    assert GetOr(node.members, "type", JString("")) == JString(nodeType);
    var line := DefaultStyleLine(node, data).value;
    assert line == "    style " + normalised + " fill:" + DefaultColours(Lower(nodeType)).value.0
      + ",stroke:" + DefaultColours(Lower(nodeType)).value.1 + "\n";
    assert line[0] == ' ';
  }

  // ---------------------------------------------------------------------
  // The whole conversion
  // ---------------------------------------------------------------------

  const TitleStyle: string := "    style title fill:#FFFFFF,stroke:#FFFFFF,color:#000000,font-size:16px\n"

  const NotSupported: string :=
    "flowchart TD\n    A[\"Diagram data received but conversion not supported\"]\n    style A fill:#F5F5F5,stroke:#666666\n"

  function TitleLine(data: seq<(string, Json)>, show: Json -> string): string {
    "    title[\"" + Format(GetOr(data, "title", JString("Architecture Diagram")), show) + "\"]\n"
  }

  /** The diagram returned when the conversion raises, with the first 50
      characters of the error. */
  function Fallback(error: string): (r: string)
    ensures StartsWith(r, "flowchart TD\n") && EndsWith(r, "    style A fill:#F8CECC,stroke:#B85450\n")
  {
    var r := "flowchart TD\n"
      + "    title[\"Architecture Diagram - Error in Conversion\"]\n"
      + "    A[\"Error converting diagram: " + Prefix(error, 50) + "...\"]\n"
      + TitleStyle
      + "    style A fill:#F8CECC,stroke:#B85450\n";
    assert r[..13] == "flowchart TD\n";
    r
  }

  predicate IsArchitecture(data: seq<(string, Json)>) {
    Get(data, "type") == Some(JString("ai_architecture")) || Get(data, "type") == Some(JString("software_architecture"))
  }

  /** The sections built inside the inner `try` between the title line and
      the title style, or the error that ends it. */
  function ArchitectureSections(data: seq<(string, Json)>, show: Json -> string): (r: Result<string>)
  {
    var clusters :- Iterate(GetOr(data, "clusters", JArray([])));
    var clusterText :- Lines(clusters, ClusterText, show);
    var nodes :- Iterate(GetOr(data, "nodes", JArray([])));
    var nodeText :- Lines(nodes, NodeLine, show);
    var connections :- Iterate(GetOr(data, "connections", JArray([])));
    var edgeText :- Lines(connections, EdgeLine, show);
    var styleText :- StylesText(data, show);
    var defaultText :- Lines(nodes, DefaultStyleLine, data);
    Success(clusterText + nodeText + edgeText + styleText + defaultText)
  }

  /** `_convert_ai_architecture_to_diagram(diagram_data)`: the text for an
      architecture description opens with the flowchart header and the title
      and closes with the title style; a raised error gives the fallback
      diagram; any other description is not supported. */
  function ArchitectureDiagram(data: seq<(string, Json)>, show: Json -> string): (r: string)
    ensures !IsArchitecture(data) ==> r == NotSupported
    ensures IsArchitecture(data) ==> StartsWith(r, "flowchart TD\n")
    ensures IsArchitecture(data) && ArchitectureSections(data, show).Success? ==>
      r == "flowchart TD\n" + TitleLine(data, show) + ArchitectureSections(data, show).value + TitleStyle
      && EndsWith(r, TitleStyle)
    ensures IsArchitecture(data) && ArchitectureSections(data, show).Failure? ==>
      r == Fallback(ArchitectureSections(data, show).error)
  {
    if !IsArchitecture(data) then NotSupported
    else match ArchitectureSections(data, show)
      case Failure(e) => Fallback(e)
      case Success(sections) =>
        Framed("flowchart TD\n", TitleLine(data, show) + sections, TitleStyle);
        "flowchart TD\n" + (TitleLine(data, show) + sections) + TitleStyle
  }

  /** The diagram returned by the outer handler, with the first 100
      characters of the error. */
  function UnexpectedError(error: string): (r: string)
    ensures StartsWith(r, "flowchart TD\n    A[\"Error: ") && EndsWith(r, "\"]")
  {
    var r := "flowchart TD\n    A[\"Error: " + Prefix(error, 100) + "\"]";
    Framed("flowchart TD\n    A[\"Error: ", Prefix(error, 100), "\"]");
    r
  }

  /** `_convert_ai_architecture_to_diagram(diagram_data)` for whatever
      `json.loads` produced from the model's reply: a dict is converted; any
      other value has no `get`, so the outer handler answers with the
      `AttributeError`. */
  function ConvertedDiagram(data: Json, show: Json -> string): (r: string)
    ensures data.JObject? ==> r == ArchitectureDiagram(data.members, show)
    ensures !data.JObject? ==> r == UnexpectedError(NoAttribute(data, "get"))
  {
    if data.JObject? then ArchitectureDiagram(data.members, show)
    else UnexpectedError(NoAttribute(data, "get"))
  }

  /** A reply that parses to a list, such as `[1]`, is answered by the outer
      handler with the `AttributeError` of a list, not by the not-supported
      diagram. */
  lemma ListReplyReachesOuterHandler(show: Json -> string)
    ensures var d := JArray([JInt(1)]);
      && TypeName(d) == "list"
      && ConvertedDiagram(d, show) == UnexpectedError(NoAttribute(d, "get"))
      && StartsWith(ConvertedDiagram(d, show), "flowchart TD\n    A[\"Error: ")
  {
  }

  /** Every edge line of a successful conversion: one per connection, in
      order, and the whole edge section is those lines. */
  lemma EdgesOnePerConnection(connections: seq<Json>, show: Json -> string)
    requires Lines(connections, EdgeLine, show).Success?
    ensures forall i :: 0 <= i < |connections| ==> EdgeLine(connections[i], show).Success?
    ensures Lines(connections, EdgeLine, show).value == Flatten(Outputs(connections, EdgeLine, show))
  {
    LinesSucceeds(connections, EdgeLine, show);
    LinesValue(connections, EdgeLine, show);
  }

  /** The subgraph section, built by the nested cluster loop. */
  method AppendClusters(clusters: seq<Json>, show: Json -> string) returns (r: Result<string>)
    ensures r == Lines(clusters, ClusterText, show)
  {
    var text := "";
    var i := 0;
    while i < |clusters|
      invariant 0 <= i <= |clusters|
      invariant Lines(clusters[..i], ClusterText, show) == Success(text)
    {
      assert clusters[..i + 1][..i] == clusters[..i];
      var cluster := clusters[i];
      var block: Result<string>;
      if !cluster.JObject? {
        block := Failure(NoAttribute(cluster, "get"));
      } else {
        var id := NormaliseId(GetOr(cluster.members, "id", JString("")));
        if id.Failure? {
          block := Failure(id.error);
        } else {
          var header := SubgraphHeader(id.value, GetOr(cluster.members, "label", JString("")), show);
          var members := Iterate(GetOr(cluster.members, "nodes", JArray([])));
          if members.Failure? {
            block := Failure(members.error);
          } else {
            var body := AppendLines(members.value, MemberLine, show);
            block := if body.Failure? then Failure(body.error) else Success(header + body.value + "    end\n");
          }
        }
      }
      assert block == ClusterText(cluster, show);
      if block.Failure? {
        LinesStopAtFailure(clusters, i + 1, ClusterText, show);
        return Failure(block.error);
      }
      text := text + block.value;
      i := i + 1;
    }
    assert clusters[..i] == clusters;
    r := Success(text);
  }

  /** The sections as the source builds them, appending to the text
      section by section and stopping at the first error. */
  method AppendSections(data: seq<(string, Json)>, show: Json -> string) returns (r: Result<string>)
    ensures r == ArchitectureSections(data, show)
  {
    var clusters := Iterate(GetOr(data, "clusters", JArray([])));
    if clusters.Failure? {
      return Failure(clusters.error);
    }
    var text := AppendClusters(clusters.value, show);
    if text.Failure? {
      return text;
    }
    var nodes := Iterate(GetOr(data, "nodes", JArray([])));
    if nodes.Failure? {
      return Failure(nodes.error);
    }
    var nodeText := AppendLines(nodes.value, NodeLine, show);
    if nodeText.Failure? {
      return Failure(nodeText.error);
    }
    var connections := Iterate(GetOr(data, "connections", JArray([])));
    if connections.Failure? {
      return Failure(connections.error);
    }
    var edgeText := AppendLines(connections.value, EdgeLine, show);
    if edgeText.Failure? {
      return Failure(edgeText.error);
    }
    var styleText := Success("");
    if Get(data, "styles").Some? {
      var styles := Get(data, "styles").value;
      if !styles.JObject? {
        return Failure(NoAttribute(styles, "items"));
      }
      styleText := AppendLines(styles.members, StyleLine, show);
      if styleText.Failure? {
        return styleText;
      }
    }
    var defaultText := AppendLines(nodes.value, DefaultStyleLine, data);
    if defaultText.Failure? {
      return defaultText;
    }
    r := Success(text.value + nodeText.value + edgeText.value + styleText.value + defaultText.value);
  }

  /** The conversion as the source does it: a reply that is not an object goes
      to the outer handler; otherwise header and title, the sections,
      the title style; the first error gives the fallback diagram. */
  method ConvertArchitectureToDiagram(diagramData: Json, show: Json -> string) returns (mermaid: string)
    ensures mermaid == ConvertedDiagram(diagramData, show)
  {
    if !diagramData.JObject? {
      return UnexpectedError(NoAttribute(diagramData, "get"));
    }
    var data := diagramData.members;
    if !IsArchitecture(data) {
      return NotSupported;
    }
    mermaid := "flowchart TD\n";
    mermaid := mermaid + TitleLine(data, show);
    var sections := AppendSections(data, show);
    if sections.Failure? {
      return Fallback(sections.error);
    }
    mermaid := mermaid + sections.value;
    mermaid := mermaid + TitleStyle;
  }

  // ---------------------------------------------------------------------
  // Chat sessions
  // ---------------------------------------------------------------------

  datatype DiagramResponse = DiagramResponse(
    diagramType: string, syntax: string, description: string, metadata: Option<seq<(string, Json)>>)

  /** What `process_message` returns. */
  datatype Reply = SessionReply(session: ChatSession) | DiagramReply(diagram: DiagramResponse)

  /** The messages sent to the model: the whole session, in order. */
  function Transcript(messages: seq<Message>): (p: seq<(string, string)>)
    ensures |p| == |messages|
    ensures forall i :: 0 <= i < |messages| ==> p[i] == (messages[i].role, messages[i].content)
  {
    seq(|messages|, i requires 0 <= i < |messages| => (messages[i].role, messages[i].content))
  }

  class DiagramChatbot {
    var sessions: map<Uuid, ChatSession>
    const defaults: Defaults

    ghost predicate Valid()
      reads this
    {
      KeyedById(sessions)
    }

    constructor (defaults: Defaults)
      ensures Valid() && sessions == map[] && this.defaults == defaults
    {
      sessions := map[];
      this.defaults := defaults;
    }

    /** `process_message(user_id, message, session_id, generate_diagram)`.
        A diagram request is handed to `generate_diagram` (whose outcome is
        `diagram`) and touches no session.  Otherwise the session is found or
        created, the user message appended, and the whole session sent to the
        model; on failure the user message stays and the error is raised
        wrapped. */
    method ProcessMessage(
      userId: string, message: string, sessionId: Option<Uuid>, generateDiagram: bool,
      diagram: Result<DiagramResponse>, complete: seq<(string, string)> -> Result<string>)
      returns (r: Result<Reply>)
      requires Valid()
      modifies this`sessions
      ensures Valid()
      ensures generateDiagram ==>
        sessions == old(sessions)
        && r == (if diagram.Success? then Success(DiagramReply(diagram.value)) else Failure(diagram.error))
      ensures !generateDiagram ==>
        var (s, m) := Start(old(sessions), sessionId, NewSession(defaults, userId));
        var asked := s.messages + [NewMessage(defaults, message, "user")];
        match complete(Transcript(asked))
        case Failure(e) =>
          && r == Failure("Error processing message: " + e)
          && sessions == m[s.id := s.(messages := asked)]
        case Success(answer) =>
          var answered := s.(messages := asked + [NewMessage(defaults, answer, "assistant")]);
          r == Success(SessionReply(answered)) && sessions == m[s.id := answered]
    {
      if generateDiagram {
        if diagram.Failure? {
          return Failure(diagram.error);
        }
        return Success(DiagramReply(diagram.value));
      }
      var (session, registry) := Start(sessions, sessionId, NewSession(defaults, userId));
      sessions := registry;
      session := session.(messages := session.messages + [NewMessage(defaults, message, "user")]);
      sessions := sessions[session.id := session];
      var response := complete(Transcript(session.messages));
      if response.Failure? {
        return Failure("Error processing message: " + response.error);
      }
      session := session.(messages := session.messages + [NewMessage(defaults, response.value, "assistant")]);
      sessions := sessions[session.id := session];
      r := Success(SessionReply(session));
    }
  }
}
