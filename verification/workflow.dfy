/** The conversation graph: every turn starts at the classifier, whose intent
    picks exactly one handler through a routing table, and every handler
    leads to the end. The handlers themselves are opaque names here, apart
    from the small ones defined next to the graph. */
module Workflow {
  import opened Wrappers
  import opened Text
  import opened Json
  import Dict
  import opened Intent

  datatype Node = Classify | ListVulns | AnalyzeVuln | JiraCreate | FetchJira | Helper | Ssh

  /** A position in a run of the graph. */
  datatype Point = Start | At(node: Node) | End

  /** The intents the routing table knows, in the table's order. */
  const LABELS: seq<string> := ["LIST_VULNS", "ANALYZE_VULN", "CREATE_JIRA_STORY", "FETCH_JIRA_STORY", "HELP", "OTHER"]

  /** The label each handler is routed from. */
  function Label(n: Node): string
    requires n != Classify
  {
    match n
    case ListVulns => "LIST_VULNS"
    case AnalyzeVuln => "ANALYZE_VULN"
    case JiraCreate => "CREATE_JIRA_STORY"
    case FetchJira => "FETCH_JIRA_STORY"
    case Helper => "HELP"
    case Ssh => "OTHER"
  }

  /** The conditional edges out of the classifier, applied to
      `state.get("intent")`; `None` where the table has no entry, which the
      graph runtime reports as an error. */
  function Route(intent: Json): (r: Option<Node>)
    ensures r.Some? ==> r.value != Classify && intent == JStr(Label(r.value))
    ensures r.Some? <==> intent.JStr? && intent.s in LABELS
  {
    match intent
    case JStr(s) =>
      if s == "LIST_VULNS" then Some(ListVulns)
      else if s == "ANALYZE_VULN" then Some(AnalyzeVuln)
      else if s == "CREATE_JIRA_STORY" then Some(JiraCreate)
      else if s == "FETCH_JIRA_STORY" then Some(FetchJira)
      else if s == "HELP" then Some(Helper)
      else if s == "OTHER" then Some(Ssh)
      else None
    case _ => None
  }

  /** Every handler is reached from its own label, so distinct labels lead to
      distinct handlers. */
  lemma RouteOfLabel(n: Node)
    requires n != Classify
    ensures Route(JStr(Label(n))) == Some(n)
  {
  }

  lemma RouteInjective(a: Json, b: Json)
    requires Route(a).Some? && Route(a) == Route(b)
    ensures a == b
  {
  }

  /** The classifier's prompt offers RESOLVE_VULN, but no edge leaves the
      classifier for it. */
  lemma ResolveHasNoRoute()
    ensures Route(JStr("RESOLVE_VULN")).None?
  {
    assert "RESOLVE_VULN"[0] == 'R';
    assert forall l :: l in LABELS ==> l[0] != 'R';
  }

  /** The edges of the graph; the classifier's successor depends on the state
      it left behind. */
  function Successor(p: Point, state: Json): (r: Option<Point>)
    requires state.JObj?
    ensures p == Start ==> r == Some(At(Classify))
    ensures p.At? && p.node != Classify ==> r == Some(End)
    ensures p == End ==> r.None?
  {
    match p
    case Start => Some(At(Classify))
    case At(n) =>
      if n == Classify then
        match Route(Get(state, "intent"))
        case Some(h) => Some(At(h))
        case None => None
      else Some(End)
    case End => None
  }

  /** `classify_intent_node`: the classification copied into the state under
      `intent` and `intent_data`, and nothing else. */
  function ClassifyIntentNode(classified: Json): (r: seq<(string, Json)>)
    requires classified.JObj?
    ensures Dict.Keys(r) == ["intent", "intent_data"]
    ensures Dict.Lookup(r, "intent") == Some(Get(classified, "intent"))
    ensures Dict.Lookup(r, "intent_data") == Some(Get(classified, "data"))
  {
    var r := [("intent", Get(classified, "intent")), ("intent_data", Get(classified, "data"))];
    assert "intent"[6..] == [] && |"intent_data"| == 11;
    assert r[1..] == [("intent_data", Get(classified, "data"))];
    r
  }

  /** One turn, once the classifier has answered `classified`: the points
      visited, from the start. */
  function TurnFrom(state: Json, classified: Json): (path: seq<Point>)
    requires state.JObj? && classified.JObj?
    ensures |path| >= 2 && path[0] == Start && path[1] == At(Classify)
    ensures |path| == 2 || |path| == 4
    ensures |path| == 4 <==> Get(classified, "intent").JStr? && Get(classified, "intent").s in LABELS
    ensures |path| == 4 ==> path[2].At? && path[2].node != Classify && path[3] == End
  {
    match Route(IntentAfterClassify(state, classified))
    case Some(h) => [Start, At(Classify), At(h), End]
    case None => [Start, At(Classify)]
  }

  /** One turn, with the model's answer to the classifier prompt as `reply`. */
  function Turn(state: Json, reply: Reply, decode: Decoder): (path: seq<Point>)
    requires state.JObj?
    ensures |path| == 4 <==> Get(ClassifyIntent(reply, decode), "intent").s in LABELS
  {
    TurnFrom(state, ClassifyIntent(reply, decode))
  }

  /** The intent the router reads once the classifier's update is applied. */
  function IntentAfterClassify(state: Json, classified: Json): (r: Json)
    requires state.JObj? && classified.JObj?
    ensures r == Get(classified, "intent")
  {
    var update := ClassifyIntentNode(classified);
    Dict.UpdateLookup(state.fields, update, "intent");
    Get(JObj(Dict.Update(state.fields, update)), "intent")
  }

  /** A turn walks the edges: each point is the successor of the one before,
      in the state the classifier leaves, and the last has none. */
  lemma TurnFollowsEdges(state: Json, reply: Reply, decode: Decoder)
    requires state.JObj?
    ensures var path := Turn(state, reply, decode);
      var after := JObj(Dict.Update(state.fields, ClassifyIntentNode(ClassifyIntent(reply, decode))));
      && (forall i :: 0 <= i < |path| - 1 ==> Successor(path[i], after) == Some(path[i + 1]))
      && Successor(path[|path| - 1], after).None?
  {
    var classified := ClassifyIntent(reply, decode);
    var after := JObj(Dict.Update(state.fields, ClassifyIntentNode(classified)));
    assert Get(after, "intent") == IntentAfterClassify(state, classified);
    WalkFollowsEdges(TurnFrom(state, classified), after);
  }

  /** The two shapes a turn can take both follow the edges. */
  lemma WalkFollowsEdges(path: seq<Point>, after: Json)
    requires after.JObj?
    requires match Route(Get(after, "intent"))
      case Some(h) => path == [Start, At(Classify), At(h), End]
      case None => path == [Start, At(Classify)]
    ensures forall i :: 0 <= i < |path| - 1 ==> Successor(path[i], after) == Some(path[i + 1])
    ensures Successor(path[|path| - 1], after).None?
  {
    match Route(Get(after, "intent"))
    case Some(h) =>
      assert Successor(path[0], after) == Some(path[1]);
      assert Successor(path[1], after) == Some(path[2]);
      assert Successor(path[2], after) == Some(path[3]);
    case None =>
      assert Successor(path[0], after) == Some(path[1]);
  }

  /** `fetch_jira_node`: a fixed message. */
  const FETCH_JIRA_MESSAGE: string := "Fetching JIRA story, sub-task details and its status/progress."

  /** The numbered list of capabilities `helper_node` shows. */
  const CAPABILITIES: seq<string> := [
    "list vulnerabilities",
    "Analyze vulnerability by ID (example: `Analyze Vuln ID 241573`)",
    "Create JIRA story for resolution progress (example: `Create JIRA story for this vulnerability.`)",
    "fetch jira story, sub-task details and its status/progress (example: `Fetch JIRA story status`)",
    "Query GraphDB (Gremlin API)",
    "Generate Plan for fixing the vulnerability",
    "Verify vulnerability existance",
    "Patch the vulnerability",
    "Verify if patching is done successfully or not.",
    "Generate report of how the patching is done and save it to a markdown file."
  ]

  /** Item `i` of the list as shown, numbered from 1. */
  function NumberedItems(items: seq<string>, first: nat): (r: seq<string>)
    ensures |r| == |items|
    ensures forall i :: 0 <= i < |items| ==> r[i] == NatToString(first + i) + ". " + items[i]
  {
    if items == [] then [] else [NatToString(first) + ". " + items[0]] + NumberedItems(items[1..], first + 1)
  }

  const HELP_INTRO: string := "This chat app can do the following."

  const SEP: string := "\n\n"

  /** `helper_node(state)`: the introduction and the numbered capabilities,
      separated by blank lines, whatever the state. */
  function HelperNode(state: Json): (r: seq<(string, Json)>)
    ensures Dict.Keys(r) == ["output"] && r[0].1.JStr?
    ensures StartsWith(r[0].1.s, HELP_INTRO + SEP)
    ensures r[0].1.s == HELP_INTRO + SEP + Join(NumberedItems(CAPABILITIES, 1), SEP)
  {
    var items := NumberedItems(CAPABILITIES, 1);
    var out := Join([HELP_INTRO] + items, SEP);
    assert ([HELP_INTRO] + items)[1..] == items;
    assert out == HELP_INTRO + SEP + Join(items, SEP);
    [("output", JStr(out))]
  }

  const LIST_HEADER: string := "Vuln ID — Vuln Name"
  const LIST_PROMPT: string := "Which Vuln ID shall we resolve.?\nsample input: `Analyze Vuln ID 241573`"

  /** `list_vulns_node`, with the sampled rows as `items`: the header, the
      rows one per line, and the prompt. */
  function ListVulnsNode(items: seq<string>): (r: seq<(string, Json)>)
    ensures Dict.Keys(r) == ["output"] && r[0].1.JStr?
    ensures var out := r[0].1.s;
      && |out| >= |LIST_HEADER| + 1 + |LIST_PROMPT| + 1
      && out[..|LIST_HEADER| + 1] == LIST_HEADER + "\n"
      && out[|out| - |LIST_PROMPT| - 1..] == "\n" + LIST_PROMPT
      && out[|LIST_HEADER| + 1..|out| - |LIST_PROMPT| - 1] == Join(items, "\n")
  {
    var out := LIST_HEADER + "\n" + Join(items, "\n") + "\n" + LIST_PROMPT;
    assert out == (LIST_HEADER + "\n") + Join(items, "\n") + ("\n" + LIST_PROMPT);
    [("output", JStr(out))]
  }

  /** The guards at the top of `planner_node`: the message returned before any
      planning when the state lacks vulnerability data, or lacks both CVE and
      CSAF data; `None` when planning goes ahead. */
  function PlannerGuard(state: Json): (r: Option<string>)
    requires state.JObj?
    ensures r.None? <==> Truthy(Get(state, "vuln_data")) && (Truthy(Get(state, "cve_data")) || Truthy(Get(state, "csaf_data")))
    ensures !Truthy(Get(state, "vuln_data")) ==> r == Some(NO_VULN_DATA)
  {
    if !Truthy(Get(state, "vuln_data")) then Some(NO_VULN_DATA)
    else if !Truthy(Get(state, "cve_data")) && !Truthy(Get(state, "csaf_data")) then Some(NO_CVE_DATA)
    else None
  }

  const NO_VULN_DATA: string := "No vulnerability data found. Please analyze the vulnerability first.\nExample: `Analyze Vuln ID 241573`"
  const NO_CVE_DATA: string := "No CVE or CSAF data available. Please analyze the vulnerability first to fetch CVE/CSAF data."
}
