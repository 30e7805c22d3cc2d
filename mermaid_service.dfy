/** The standalone Mermaid prompt builder: a three-way keyword classifier
    and the prompt text sent to the model. */
module MermaidService {
  import opened Text
  import opened Keywords

  datatype DiagramType = Flowchart | Sequence | Class | State | ER | Gantt
  {
    function Value(): string {
      match this
      case Flowchart => "flowchart"
      case Sequence => "sequenceDiagram"
      case Class => "classDiagram"
      case State => "stateDiagram-v2"
      case ER => "erDiagram"
      case Gantt => "gantt"
    }
  }

  const FlowWords: seq<string> := ["flow", "process", "steps", "workflow"]
  const SequenceWords: seq<string> := ["sequence", "interaction", "communication"]
  const StateWords: seq<string> := ["state", "status", "transition"]

  const Rules: seq<Rule<DiagramType>> :=
    [Rule(FlowWords, Flowchart), Rule(SequenceWords, Sequence), Rule(StateWords, State)]

  /** `_detect_diagram_type(query)` on the lowercased query. */
  function DetectDiagramType(query: string): (t: DiagramType)
    ensures t == Flowchart || t == Sequence || t == State
    ensures ContainsAny(Lower(query), FlowWords) ==> t == Flowchart
    ensures t == Sequence <==> !ContainsAny(Lower(query), FlowWords) && ContainsAny(Lower(query), SequenceWords)
    ensures t == State <==>
      !ContainsAny(Lower(query), FlowWords) && !ContainsAny(Lower(query), SequenceWords)
      && ContainsAny(Lower(query), StateWords)
  {
    var q := Lower(query);
    assert Rules[0].words == FlowWords && Rules[1].words == SequenceWords && Rules[2].words == StateWords;
    Classify(q, Rules, Flowchart)
  }

  /** Upper and lower case are not told apart. */
  lemma DetectIgnoresCase(query: string)
    ensures DetectDiagramType(Lower(query)) == DetectDiagramType(query)
  {
    LowerIdempotent(query);
  }

  const Indent: string := "                  "
  const PromptHead: string := "Based on this description, generate valid Mermaid diagram syntax:\n" + Indent + "Description: "

  const RequirementsHead: string := "\n" + Indent + "\n" + Indent + "Requirements:\n" + Indent
  const PromptTail: string :=
    "\n"
    + Indent + "2. Include only valid Mermaid syntax\n"
    + Indent + "3. Make the diagram clear and readable\n"
    + Indent + "4. Add appropriate labels and descriptions\n"
    + Indent + "5. Use proper indentation\n"
    + Indent + "\n"
    + Indent + "Generate only the Mermaid syntax without any additional text or explanations."

  /** `_format_diagram_prompt(query, diagram_type)`.  The per-type system
      prompt it looks up is never used, so the text depends only on the query
      and the type's value. */
  function FormatDiagramPrompt(query: string, diagramType: DiagramType): (p: string)
    ensures |p| == |PromptHead| + |query| + |RequirementsHead| + |diagramType.Value()| + 14 + |PromptTail|
    ensures p[..|PromptHead|] == PromptHead
    ensures p[|PromptHead|..][..|query|] == query
    ensures Contains(p, "1. Use " + diagramType.Value() + " syntax")
  {
    var use := "1. Use " + diagramType.Value() + " syntax";
    Embedded(PromptHead, query, RequirementsHead, use, PromptTail);
    PromptHead + query + RequirementsHead + use + PromptTail
  }

  lemma Embedded(head: string, query: string, mid: string, use: string, tail: string)
    ensures var p := head + query + mid + use + tail;
      |p| == |head| + |query| + |mid| + |use| + |tail| && p[..|head|] == head && p[|head|..][..|query|] == query && Contains(p, use)
  {
    var p := head + query + mid + use + tail;
    assert p == (head + query + mid) + use + tail;
    ContainsInfix(head + query + mid, use, tail);
    assert p[|head|..][..|query|] == query;
  }

  /** Different queries give different prompts for the same type. */
  lemma FormatDiagramPromptInjective(q1: string, q2: string, t: DiagramType)
    requires FormatDiagramPrompt(q1, t) == FormatDiagramPrompt(q2, t)
    ensures q1 == q2
  {
    var p := FormatDiagramPrompt(q1, t);
    assert |q1| == |q2|;
    assert q1 == p[|PromptHead|..][..|q1|];
  }
}
