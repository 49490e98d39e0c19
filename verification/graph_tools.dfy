/** The graph-database tool of the assistant: a language-model reply names an
    operation and its parameters, the operation runs against the database
    client (module GraphClient), and the result is rendered as Markdown. */
module GraphTools {
  import opened Wrappers
  import opened Text
  import opened Json
  import Dict
  import Fence
  import GraphClient

  /** `s.replace('_', ' ').title()`: the heading of a key or operation. */
  function Heading(key: string): string {
    Title(ReplaceAll(key, "_", " "))
  }

  /** The longest prefix of `xs` with at most `cap` items, and how many items
      it leaves out. */
  function Truncate(xs: seq<string>, cap: nat): (r: (seq<string>, nat))
    ensures |r.0| <= cap && |r.0| <= |xs| && r.0 == xs[..|r.0|]
    ensures |r.0| + r.1 == |xs|
    ensures r.1 > 0 ==> |r.0| == cap
  {
    var shown := Take(xs, cap);
    (shown, |xs| - |shown|)
  }

  /** `", ".join(xs[:cap])`, then " (and N more)" when items were left out. */
  function Listing(xs: seq<string>, cap: nat): (r: string)
    ensures |xs| <= cap ==> r == Join(xs, ", ")
    ensures |xs| > cap ==> r == Join(xs[..cap], ", ") + " (and " + NatToString(|xs| - cap) + " more)"
  {
    var (shown, hidden) := Truncate(xs, cap);
    Join(shown, ", ") + (if hidden > 0 then " (and " + NatToString(hidden) + " more)" else "")
  }

  /** A list within the cap is listed in full. */
  lemma ListingShort(xs: seq<string>, cap: nat)
    requires |xs| <= cap
    ensures Listing(xs, cap) == Join(xs, ", ")
  {
  }

  /** The id categories, in the order they are listed. */
  const CATEGORIES: seq<string> := ["packages", "hosts", "applications", "services", "downstream_services", "systems"]
  const TEAMS_SHOWN: nat := 10
  const IDS_SHOWN: nat := 20

  /** What the formatter can render without raising: the counts and the
      summary are objects, and the teams and the non-empty categories are
      lists of strings. */
  predicate Formattable(result: Json)
    requires result.JObj?
  {
    && (Has(result, "counts") ==> Get(result, "counts").JObj?)
    && (Has(result, "summary") ==> Get(result, "summary").JObj? && TeamsListable(Get(result, "summary")))
    && forall k :: k in CATEGORIES ==> CategoryListable(result, k)
  }

  predicate TeamsListable(summary: Json)
    requires summary.JObj?
  {
    Truthy(Get(summary, "unique_teams")) ==> IsStringList(Get(summary, "unique_teams"))
  }

  predicate CategoryListable(result: Json, key: string)
    requires result.JObj?
  {
    Has(result, key) && Truthy(Get(result, key)) ==> IsStringList(Get(result, key))
  }

  /** One line per count, in the order of the counts. */
  function CountLines(counts: seq<(string, Json)>): (r: seq<string>)
    ensures |r| == |counts|
    ensures forall i :: 0 <= i < |counts| ==> r[i] == "- " + Heading(counts[i].0) + ": " + Show(counts[i].1) + "\n"
  {
    if counts == [] then [] else ["- " + Heading(counts[0].0) + ": " + Show(counts[0].1) + "\n"] + CountLines(counts[1..])
  }

  /** The three totals of the summary block, 0 when absent. */
  function Totals(summary: Json): string
    requires summary.JObj?
  {
    "**Summary:**\n"
    + "- Total Affected Hosts: " + Show(GetOr(summary, "total_affected_hosts", JInt(0))) + "\n"
    + "- Total Affected Apps: " + Show(GetOr(summary, "total_affected_apps", JInt(0))) + "\n"
    + "- Total Responsible Teams: " + Show(GetOr(summary, "total_responsible_teams", JInt(0))) + "\n"
  }

  /** The summary block: the three totals, then the teams line when there
      are teams, which names at most ten of them. */
  function SummaryBlock(summary: Json): (r: string)
    requires summary.JObj? && TeamsListable(summary)
    ensures StartsWith(r, Totals(summary))
    ensures !Truthy(Get(summary, "unique_teams")) ==> r == Totals(summary)
    ensures Truthy(Get(summary, "unique_teams")) ==>
      r[|Totals(summary)|..] == "- Unique Teams: " + Listing(Strings(Get(summary, "unique_teams").items), TEAMS_SHOWN) + "\n"
  {
    var teams := Get(summary, "unique_teams");
    var head := Totals(summary);
    var tail := if Truthy(teams) then "- Unique Teams: " + Listing(Strings(teams.items), TEAMS_SHOWN) + "\n" else "";
    assert (head + tail)[..|head|] == head && (head + tail)[|head|..] == tail;
    head + tail
  }

  /** At most ten teams are named; more are counted. */
  lemma TeamsCapped(teams: seq<string>)
    ensures |teams| <= TEAMS_SHOWN ==> Listing(teams, TEAMS_SHOWN) == Join(teams, ", ")
    ensures |teams| > TEAMS_SHOWN ==>
      Listing(teams, TEAMS_SHOWN) == Join(teams[..10], ", ") + " (and " + NatToString(|teams| - 10) + " more)"
  {
  }

  /** The blocks of the categories present and non-empty, in order. */
  function CategoryBlocks(result: Json, keys: seq<string>): (r: seq<string>)
    requires result.JObj?
    requires forall k :: k in keys ==> CategoryListable(result, k)
    ensures |r| <= |keys|
  {
    if keys == [] then []
    else
      var k := keys[0];
      assert k in keys && CategoryListable(result, k);
      var listable := Has(result, k) && Truthy(Get(result, k));
      assert listable ==> IsStringList(Get(result, k));
      var block := if listable
        then ["\n**" + Heading(k) + ":**\n" + Listing(Strings(Get(result, k).items), IDS_SHOWN) + "\n"]
        else [];
      block + CategoryBlocks(result, keys[1..])
  }

  /** The first line of a rendered result. */
  function Header(operation: string): string {
    "**" + operation + " Results:**\n"
  }

  /** The counts block: a heading, one line per count in the order of the
      counts, and a blank line. */
  function CountsBlock(counts: Json): string
    requires counts.JObj?
  {
    "**Counts:**\n" + Concat(CountLines(counts.fields)) + "\n"
  }

  /** The rendering after the header and CVE line: the counts block, the
      summary block and the category blocks, each only when present. */
  function Body(result: Json): (r: string)
    requires result.JObj? && Formattable(result)
    ensures Has(result, "counts") ==> StartsWith(r, CountsBlock(Get(result, "counts")))
    ensures !Has(result, "counts") && Has(result, "summary") ==> StartsWith(r, SummaryBlock(Get(result, "summary")))
    ensures !Has(result, "counts") && !Has(result, "summary") ==> r == Concat(CategoryBlocks(result, CATEGORIES))
  {
    var counts := if Has(result, "counts") then CountsBlock(Get(result, "counts")) else "";
    var summary := if Has(result, "summary") then SummaryBlock(Get(result, "summary")) else "";
    var rest := summary + Concat(CategoryBlocks(result, CATEGORIES));
    assert (counts + rest)[..|counts|] == counts;
    assert rest[..|summary|] == summary;
    counts + rest
  }

  /** The CVE line, when the result names a CVE id. */
  function CveLine(result: Json): (r: string)
    requires result.JObj?
    ensures Has(result, "cve_id") ==> r == "CVE ID: " + Show(Get(result, "cve_id")) + "\n\n"
    ensures !Has(result, "cve_id") ==> r == ""
  {
    if Has(result, "cve_id") then "CVE ID: " + Show(Get(result, "cve_id")) + "\n\n" else ""
  }

  /** `format_gremlin_result(result, operation)`. An error entry replaces the
      whole rendering; otherwise the header comes first, followed by the CVE
      line when there is a CVE id. Raises on values it cannot render. */
  function FormatResult(result: Json, operation: string): (r: Result<string>)
    requires result.JObj?
    ensures Has(result, "error") ==> r == Ok("Error: " + Show(Get(result, "error")))
    ensures !Has(result, "error") ==> (r.Ok? <==> Formattable(result))
    ensures r.Ok? && !Has(result, "error") ==> StartsWith(r.value, Header(operation))
    ensures r.Ok? && !Has(result, "error") ==> r.value == Header(operation) + CveLine(result) + Body(result)
  {
    if Has(result, "error") then Ok("Error: " + Show(Get(result, "error")))
    else if !Formattable(result) then Raised("the result cannot be rendered")
    else
      var head := Header(operation);
      var text := head + CveLine(result) + Body(result);
      assert text[..|head|] == head;
      Ok(text)
  }

  /** The operations the tool offers. */
  const OPERATIONS: seq<string> := ["analyze_vulnerability_impact", "blast_radius_hosts", "blast_radius_apps", "blast_radius_cve", "responsible_teams_host", "responsible_teams_app", "comprehensive_analysis"]

  /** The parameters read from the model's reply. */
  datatype Request = Request(operation: Json, cve: string, hostIds: Json, appIds: Json, hops: int)

  /** `int(s)` for text: surrounding whitespace, an optional sign, digits. */
  function IntOfText(s: string): Option<int> {
    var t := Strip(s);
    var negative := t != [] && t[0] == '-';
    var digits := if t != [] && (t[0] == '-' || t[0] == '+') then t[1..] else t;
    if digits != [] && forall i :: 0 <= i < |digits| ==> IsDigit(digits[i]) then
      var v: int := DigitsValue(digits);
      Some(if negative then -v else v)
    else None
  }

  /** Reading back a rendered integer gives the integer. */
  lemma IntOfTextRoundTrip(n: int)
    ensures IntOfText(IntToString(n)) == Some(n)
  {
    var s := IntToString(n);
    var m: nat := if n < 0 then -n else n;
    var digits := NatToString(m);
    NatToStringValue(m);
    StripDigits(s, n < 0);
    if n < 0 {
      assert s[1..] == digits;
    } else {
      assert s == digits;
    }
  }

  /** A rendered integer has no surrounding whitespace. */
  lemma StripDigits(s: string, signed: bool)
    requires s != []
    requires signed ==> s[0] == '-'
    requires forall i :: (if signed then 1 else 0) <= i < |s| ==> IsDigit(s[i])
    requires signed ==> |s| >= 2
    ensures Strip(s) == s
  {
    assert !IsSpace(s[0]) && !IsSpace(s[|s| - 1]);
    StripPadded("", s, "");
    assert "" + s + "" == s;
  }

  /** `int(j)`: integers as they are, booleans as 0 or 1, text as parsed. */
  function IntOf(j: Json): Option<int> {
    match j
    case JInt(n) => Some(n)
    case JBool(b) => Some(if b then 1 else 0)
    case JStr(s) => IntOfText(s)
    case _ => None
  }

  /** The request in the decoded reply, with its defaults: the impact
      analysis, no CVE id, no ids and 3 hops. `None` where reading a field
      raises: a CVE id that is not text, or hops that are not a number. */
  function ParseRequest(obj: Json): (r: Option<Request>)
    requires obj.JObj?
    ensures r.Some? <==> GetOr(obj, "cve_id", JStr("")).JStr? && IntOf(GetOr(obj, "hops", JInt(3))).Some?
    ensures !Has(obj, "operation") && r.Some? ==> r.value.operation == JStr(OPERATIONS[0])
    ensures !Has(obj, "hops") && r.Some? ==> r.value.hops == 3
    ensures r.Some? ==> r.value.cve == Strip(GetOr(obj, "cve_id", JStr("")).s)
  {
    var cve := GetOr(obj, "cve_id", JStr(""));
    var hops := IntOf(GetOr(obj, "hops", JInt(3)));
    if cve.JStr? && hops.Some? then
      Some(Request(GetOr(obj, "operation", JStr(OPERATIONS[0])), Strip(cve.s),
        GetOr(obj, "host_ids", JList([])), GetOr(obj, "app_ids", JList([])), hops.value))
    else None
  }

  /** `list(ids)`: a list's items, or a text's characters; `None` for values
      the model does not iterate. */
  function IdList(ids: Json): (r: Option<seq<Json>>)
    ensures r.Some? && Truthy(ids) ==> r.value != []
  {
    match ids
    case JList(xs) => Some(xs)
    case JStr(s) => Some(seq(|s|, i requires 0 <= i < |s| => JStr([s[i]])))
    case _ => None
  }

  /** What running a request gives: a message without touching the
      database, or the value the client returned (or the error it raised). */
  datatype Outcome = Refused(message: string) | Queried(data: Result<Json>)

  const NEEDS_CVE_IMPACT: string := "CVE ID is required for vulnerability impact analysis."
  const NEEDS_HOSTS_BLAST: string := "Host IDs are required for blast radius calculation."
  const NEEDS_APPS_BLAST: string := "App IDs are required for blast radius calculation."
  const NEEDS_CVE_BLAST: string := "CVE ID is required for blast radius calculation."
  const NEEDS_HOST_TEAMS: string := "Host ID is required to get responsible teams."
  const NEEDS_APP_TEAMS: string := "App ID is required to get responsible teams."
  const NEEDS_CVE_ANALYSIS: string := "CVE ID is required for comprehensive analysis."
  const NOT_ITERABLE: string := "the ids are not iterable"

  /** A blast radius over ids that must be iterable. */
  function Blast(ids: Json, run: seq<Json> -> Result<Json>): Result<Json> {
    match IdList(ids)
    case None => Raised(NOT_ITERABLE)
    case Some(xs) => run(xs)
  }

  /** The teams a query found, recorded with the ids and their number; the
      query's error when it raised. */
  function Recorded(hosts: bool, ids: Json, teams: Result<seq<string>>): (r: Result<Json>)
    ensures r.Raised? <==> teams.Raised?
    ensures r.Raised? ==> r.message == teams.message
    ensures r.Ok? ==> r.value.JObj? && Dict.Keys(r.value.fields) == [if hosts then "host_ids" else "app_ids", "teams", "count"]
    ensures r.Ok? ==> r.value.fields[0].1 == ids && r.value.fields[1].1 == JList(StrList(teams.value))
    ensures r.Ok? ==> r.value.fields[2].1 == JInt(|teams.value|)
  {
    match teams
    case Raised(m) => Raised(m)
    case Ok(ts) =>
      var idsKey := if hosts then "host_ids" else "app_ids";
      var fields := [(idsKey, ids), ("teams", JList(StrList(ts))), ("count", JInt(|ts|))];
      assert Dict.Keys(fields) == [idsKey, "teams", "count"];
      Ok(JObj(fields))
  }

  /** The teams of one id by the single-id query, or of several ids by one
      query over the list, recorded with the ids and their number. */
  function TeamsOf(graph: GraphClient.Graph, hosts: bool, ids: Json): (r: Result<Json>)
    requires Truthy(ids)
    ensures IdList(ids).None? ==> r == Raised(NOT_ITERABLE)
    ensures IdList(ids).Some? && |IdList(ids).value| == 1 ==>
      var x := IdList(ids).value[0];
      r == Recorded(hosts, ids, GraphClient.Teams(graph, if hosts then GraphClient.HostTeamQuery(x) else GraphClient.AppTeamQuery(x)))
    ensures IdList(ids).Some? && |IdList(ids).value| > 1 ==>
      var xs := IdList(ids).value;
      r == Recorded(hosts, ids, GraphClient.Teams(graph, if hosts then GraphClient.HostsTeamsQuery(xs) else GraphClient.AppsTeamsQuery(xs)))
  {
    match IdList(ids)
    case None => Raised(NOT_ITERABLE)
    case Some(xs) =>
      var query :=
        if hosts then (if |xs| > 1 then GraphClient.HostsTeamsQuery(xs) else GraphClient.HostTeamQuery(xs[0]))
        else (if |xs| > 1 then GraphClient.AppsTeamsQuery(xs) else GraphClient.AppTeamQuery(xs[0]));
      Recorded(hosts, ids, GraphClient.Teams(graph, query))
  }

  /** The dispatch of `gremlin_node` on the operation: a missing parameter
      or an unknown operation gives a message, a known operation runs. */
  function Perform(req: Request, graph: GraphClient.Graph): (r: Outcome)
    ensures r.Queried? ==> req.operation.JStr? && req.operation.s in OPERATIONS
    ensures r.Queried? && r.data.Ok? ==> r.data.value.JObj?
    ensures (req.operation.JStr? && req.operation.s in OPERATIONS) || r == Refused("Unknown operation: " + Show(req.operation))
    ensures req.operation == JStr("analyze_vulnerability_impact") ==> (r == Refused(NEEDS_CVE_IMPACT) <==> req.cve == [])
    ensures req.operation == JStr("blast_radius_hosts") ==> (r == Refused(NEEDS_HOSTS_BLAST) <==> !Truthy(req.hostIds))
    ensures req.operation == JStr("blast_radius_apps") ==> (r == Refused(NEEDS_APPS_BLAST) <==> !Truthy(req.appIds))
    ensures req.operation == JStr("blast_radius_cve") ==> (r == Refused(NEEDS_CVE_BLAST) <==> req.cve == [])
    ensures req.operation == JStr("responsible_teams_host") ==> (r == Refused(NEEDS_HOST_TEAMS) <==> !Truthy(req.hostIds))
    ensures req.operation == JStr("responsible_teams_app") ==> (r == Refused(NEEDS_APP_TEAMS) <==> !Truthy(req.appIds))
    ensures req.operation == JStr("comprehensive_analysis") ==> (r == Refused(NEEDS_CVE_ANALYSIS) <==> req.cve == [])
    ensures req.operation == JStr("analyze_vulnerability_impact") && r.Queried? ==> r.data == GraphClient.AnalyzeImpact(graph, req.cve, req.hops)
    ensures req.operation == JStr("blast_radius_hosts") && r.Queried? ==>
      r.data == if IdList(req.hostIds).Some? then GraphClient.BlastByHosts(graph, IdList(req.hostIds).value, req.hops) else Raised(NOT_ITERABLE)
    ensures req.operation == JStr("blast_radius_apps") && r.Queried? ==>
      r.data == if IdList(req.appIds).Some? then GraphClient.BlastByApps(graph, IdList(req.appIds).value, req.hops) else Raised(NOT_ITERABLE)
    ensures req.operation == JStr("blast_radius_cve") && r.Queried? ==> r.data == GraphClient.BlastByCve(graph, req.cve, req.hops)
    ensures req.operation == JStr("responsible_teams_host") && r.Queried? ==> r.data == TeamsOf(graph, true, req.hostIds)
    ensures req.operation == JStr("responsible_teams_app") && r.Queried? ==> r.data == TeamsOf(graph, false, req.appIds)
    ensures req.operation == JStr("comprehensive_analysis") && r.Queried? ==> r.data == Ok(GraphClient.ComprehensiveAnalysis(graph, req.cve, req.hops))
  {
    var hops := req.hops;
    if req.operation == JStr("analyze_vulnerability_impact") then
      if req.cve == [] then Refused(NEEDS_CVE_IMPACT)
      else Queried(GraphClient.AnalyzeImpact(graph, req.cve, hops))
    else if req.operation == JStr("blast_radius_hosts") then
      if !Truthy(req.hostIds) then Refused(NEEDS_HOSTS_BLAST)
      else Queried(Blast(req.hostIds, xs => GraphClient.BlastByHosts(graph, xs, hops)))
    else if req.operation == JStr("blast_radius_apps") then
      if !Truthy(req.appIds) then Refused(NEEDS_APPS_BLAST)
      else Queried(Blast(req.appIds, xs => GraphClient.BlastByApps(graph, xs, hops)))
    else if req.operation == JStr("blast_radius_cve") then
      if req.cve == [] then Refused(NEEDS_CVE_BLAST)
      else Queried(GraphClient.BlastByCve(graph, req.cve, hops))
    else if req.operation == JStr("responsible_teams_host") then
      if !Truthy(req.hostIds) then Refused(NEEDS_HOST_TEAMS)
      else Queried(TeamsOf(graph, true, req.hostIds))
    else if req.operation == JStr("responsible_teams_app") then
      if !Truthy(req.appIds) then Refused(NEEDS_APP_TEAMS)
      else Queried(TeamsOf(graph, false, req.appIds))
    else if req.operation == JStr("comprehensive_analysis") then
      if req.cve == [] then Refused(NEEDS_CVE_ANALYSIS)
      else Queried(Ok(GraphClient.ComprehensiveAnalysis(graph, req.cve, hops)))
    else Refused("Unknown operation: " + Show(req.operation))
  }

  /** A refusal does not depend on the database: the parameter checks and
      the operation check come before any query. */
  lemma RefusalNeedsNoQuery(req: Request, g1: GraphClient.Graph, g2: GraphClient.Graph)
    requires Perform(req, g1).Refused?
    ensures Perform(req, g2) == Perform(req, g1)
  {
  }

  /** Each operation reads only its own input: the host operations the host
      ids, the application operations the application ids, the others the
      CVE id. Two requests that agree on it get the same answer. */
  lemma DispatchReadsItsInput(req: Request, other: Request, graph: GraphClient.Graph)
    requires req.operation == other.operation && req.hops == other.hops
    ensures req.operation in {JStr("blast_radius_hosts"), JStr("responsible_teams_host")} && req.hostIds == other.hostIds
      ==> Perform(req, graph) == Perform(other, graph)
    ensures req.operation in {JStr("blast_radius_apps"), JStr("responsible_teams_app")} && req.appIds == other.appIds
      ==> Perform(req, graph) == Perform(other, graph)
    ensures req.operation in {JStr("analyze_vulnerability_impact"), JStr("blast_radius_cve"), JStr("comprehensive_analysis")} && req.cve == other.cve
      ==> Perform(req, graph) == Perform(other, graph)
  {
  }

  const PARSE_ERROR: string := "Error parsing request: "
  const CONFIG_ERROR: string := "Configuration error: "
  const EXEC_ERROR: string := "Error executing Gremlin operation: "
  const MISSING_CONFIG: string := "Missing Gremlin configuration. Please set GREMLIN_ENDPOINT, GREMLIN_DB, GREMLIN_GRAPH_NAME, and GREMLIN_PRIMARY_KEY"

  function Out(text: string): Json {
    JObj([("output", JStr(text))])
  }

  /** The node's answer to a request that was read: configuration first,
      then the dispatch, then the rendering of what the client returned. */
  function Answer(req: Request, configured: bool, graph: GraphClient.Graph): (r: Json)
    ensures r.JObj? && |r.fields| >= 1 && r.fields[0].0 == "output"
    ensures !configured ==> r == Out(CONFIG_ERROR + MISSING_CONFIG)
    ensures configured && Perform(req, graph).Refused? ==> r == Out(Perform(req, graph).message)
    ensures configured && Perform(req, graph).Queried? && Perform(req, graph).data.Raised? ==>
      r == Out(EXEC_ERROR + Perform(req, graph).data.message)
    ensures |r.fields| == 2 ==> configured && Perform(req, graph).Queried? && r.fields[1] == ("gremlin_result", Perform(req, graph).data.value)
  {
    if !configured then Out(CONFIG_ERROR + MISSING_CONFIG)
    else
      match Perform(req, graph)
      case Refused(m) => Out(m)
      case Queried(Raised(m)) => Out(EXEC_ERROR + m)
      case Queried(Ok(data)) =>
        match FormatResult(data, Heading(req.operation.s))
        case Raised(m) => Out(EXEC_ERROR + m)
        case Ok(text) => JObj([("output", JStr(text)), ("gremlin_result", data)])
  }

  /** `gremlin_node(state)`: the model's reply (`reply`, read with `decode`)
      gives the request; whether the connection settings are present is
      `configured`; the database is `graph`. */
  function GremlinNode(reply: Reply, decode: Decoder, configured: bool, graph: GraphClient.Graph): (r: Json)
    ensures r.JObj? && |r.fields| >= 1 && r.fields[0].0 == "output"
    ensures Fence.InterpretObject(reply, decode).None? ==> r.fields == [("output", JStr(PARSE_ERROR + "the reply is not a JSON object"))]
    ensures Fence.InterpretObject(reply, decode).Some? ==>
      var obj := Fence.InterpretObject(reply, decode).value;
      && (ParseRequest(obj).None? ==> r.fields[0].1.JStr? && StartsWith(r.fields[0].1.s, PARSE_ERROR))
      && (ParseRequest(obj).Some? ==> r == Answer(ParseRequest(obj).value, configured, graph))
  {
    match Fence.InterpretObject(reply, decode)
    case None => Out(PARSE_ERROR + "the reply is not a JSON object")
    case Some(obj) =>
      match ParseRequest(obj)
      case None => Out(PARSE_ERROR + "a request field has the wrong type")
      case Some(req) => Answer(req, configured, graph)
  }
}
