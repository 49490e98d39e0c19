/** The result shaping of the graph-database client: each query's raw rows
    (an answer of the database, a parameter here) become a dictionary of id
    lists with their counts, and the comprehensive analysis combines the
    impact of a CVE with a blast radius and the responsible teams for every
    affected host and application, recording per-item failures. */
module GraphClient {
  import opened Wrappers
  import opened Text
  import opened Json
  import Dict
  import CveIds

  /** The queries the client sends; `hops` bounds the dependency walk. */
  datatype Query =
    | ImpactQuery(cve: string, hops: int)
    | HostsBlastQuery(hostIds: seq<Json>, hops: int)
    | AppsBlastQuery(appIds: seq<Json>, hops: int)
    | HostTeamQuery(hostId: Json)
    | AppTeamQuery(appId: Json)
    | HostsTeamsQuery(hostIds: seq<Json>)
    | AppsTeamsQuery(appIds: seq<Json>)

  /** The database: the rows a query returns, or the error it raises. */
  type Graph = Query -> Result<seq<Json>>

  /** `_ids`: every element shown as text, in order. */
  function Ids(xs: seq<Json>): (r: seq<string>)
    ensures |r| == |xs| && forall i :: 0 <= i < |xs| ==> r[i] == Show(xs[i])
  {
    if xs == [] then [] else [Show(xs[0])] + Ids(xs[1..])
  }

  /** Output keys and the row keys they are read from. */
  const IMPACT_KEYS: seq<(string, string)> := [("packages", "pkgs"), ("hosts", "hosts"), ("applications", "apps"), ("services", "svcs"), ("downstream_services", "down")]
  const HOSTS_BLAST_KEYS: seq<(string, string)> := [("hosts", "hosts"), ("applications", "apps"), ("services", "svcs"), ("downstream_services", "down"), ("systems", "systems")]
  const APPS_BLAST_KEYS: seq<(string, string)> := [("applications", "apps"), ("services", "svcs"), ("downstream_services", "down")]

  /** The output entries read from the first row: `r[rowKey]` for each key,
      which raises when the row lacks it. */
  function Columns(row: Json, keys: seq<(string, string)>): (r: Result<seq<(string, Json)>>)
    requires row.JObj?
    ensures r.Ok? ==> |r.value| == |keys| && forall i :: 0 <= i < |keys| ==> r.value[i] == (keys[i].0, Get(row, keys[i].1))
    ensures r.Ok? <==> forall i :: 0 <= i < |keys| ==> Has(row, keys[i].1)
  {
    if keys == [] then Ok([])
    else if !Has(row, keys[0].1) then Raised("'" + keys[0].1 + "'")
    else
      match Columns(row, keys[1..])
      case Raised(m) => Raised(m)
      case Ok(rest) => Ok([(keys[0].0, Get(row, keys[0].1))] + rest)
  }

  /** `{k: len(out[k]) for k in ...}` over the entries read. */
  function Counts(cols: seq<(string, Json)>): (r: Result<seq<(string, Json)>>)
    ensures r.Ok? <==> forall i :: 0 <= i < |cols| ==> Len(cols[i].1).Ok?
    ensures r.Ok? ==> |r.value| == |cols| && forall i :: 0 <= i < |cols| ==> r.value[i] == (cols[i].0, JInt(Len(cols[i].1).value))
  {
    if cols == [] then Ok([])
    else
      match Len(cols[0].1)
      case Raised(m) => Raised(m)
      case Ok(n) =>
        match Counts(cols[1..])
        case Raised(m) => Raised(m)
        case Ok(rest) => Ok([(cols[0].0, JInt(n))] + rest)
  }

  /** Empty id lists under every output key. */
  function EmptyColumns(keys: seq<(string, string)>): (r: seq<(string, Json)>)
    ensures |r| == |keys| && forall i :: 0 <= i < |keys| ==> r[i] == (keys[i].0, JList([]))
  {
    if keys == [] then [] else [(keys[0].0, JList([]))] + EmptyColumns(keys[1..])
  }

  /** The shape shared by the impact and blast-radius results: `head`, then
      the id lists, then their counts; all lists empty and no counts when the
      query returns no row. */
  function Shaped(head: seq<(string, Json)>, rows: seq<Json>, keys: seq<(string, string)>): (r: Result<Json>)
    ensures rows == [] ==> r == Ok(JObj(head + EmptyColumns(keys) + [("counts", EmptyObj())]))
    ensures r.Ok? <==> rows == [] || (rows[0].JObj? && Columns(rows[0], keys).Ok? && Counts(Columns(rows[0], keys).value).Ok?)
    ensures r.Ok? && rows != [] ==>
      var cols := Columns(rows[0], keys).value;
      r.value == JObj(head + cols + [("counts", JObj(Counts(cols).value))])
  {
    if rows == [] then Ok(JObj(head + EmptyColumns(keys) + [("counts", EmptyObj())]))
    else if !rows[0].JObj? then Raised("list indices must be integers or slices, not str")
    else
      match Columns(rows[0], keys)
      case Raised(m) => Raised(m)
      case Ok(cols) =>
        match Counts(cols)
        case Raised(m) => Raised(m)
        case Ok(counts) => Ok(JObj(head + cols + [("counts", JObj(counts))]))
  }

  /** Every count is the length of the list it counts. */
  lemma CountsAreLengths(head: seq<(string, Json)>, rows: seq<Json>, keys: seq<(string, string)>, i: nat)
    requires Shaped(head, rows, keys).Ok? && rows != [] && i < |keys|
    ensures var out := Shaped(head, rows, keys).value.fields;
      var counts := out[|out| - 1].1;
      && out[|head| + i].0 == keys[i].0
      && counts.JObj? && counts.fields[i] == (keys[i].0, JInt(Len(out[|head| + i].1).value))
  {
    var cols := Columns(rows[0], keys).value;
    var out := head + cols + [("counts", JObj(Counts(cols).value))];
    assert out[|head| + i] == cols[i];
  }

  /** Raising a query's error. */
  function Then<T>(q: Result<seq<Json>>, f: seq<Json> -> Result<T>): Result<T> {
    match q
    case Raised(m) => Raised(m)
    case Ok(rows) => f(rows)
  }

  /** `analyze_vulnerability_impact(cve, hops)`. */
  function AnalyzeImpact(graph: Graph, cve: string, hops: int): (r: Result<Json>)
    ensures graph(ImpactQuery(cve, hops)).Ok? ==> r == Shaped([("cve_id", JStr(cve))], graph(ImpactQuery(cve, hops)).value, IMPACT_KEYS)
    ensures graph(ImpactQuery(cve, hops)).Raised? ==> r.Raised?
  {
    Then(graph(ImpactQuery(cve, hops)), rows => Shaped([("cve_id", JStr(cve))], rows, IMPACT_KEYS))
  }

  /** `blast_radius_by_hosts(ids, hops)`. */
  function BlastByHosts(graph: Graph, ids: seq<Json>, hops: int): (r: Result<Json>)
    ensures graph(HostsBlastQuery(ids, hops)).Ok? ==> r == Shaped([], graph(HostsBlastQuery(ids, hops)).value, HOSTS_BLAST_KEYS)
    ensures graph(HostsBlastQuery(ids, hops)).Raised? ==> r.Raised?
  {
    Then(graph(HostsBlastQuery(ids, hops)), rows => Shaped([], rows, HOSTS_BLAST_KEYS))
  }

  /** `blast_radius_by_apps(ids, hops)`. */
  function BlastByApps(graph: Graph, ids: seq<Json>, hops: int): (r: Result<Json>)
    ensures graph(AppsBlastQuery(ids, hops)).Ok? ==> r == Shaped([], graph(AppsBlastQuery(ids, hops)).value, APPS_BLAST_KEYS)
    ensures graph(AppsBlastQuery(ids, hops)).Raised? ==> r.Raised?
  {
    Then(graph(AppsBlastQuery(ids, hops)), rows => Shaped([], rows, APPS_BLAST_KEYS))
  }

  /** `blast_radius_by_cve`: the impact analysis under another name. */
  function BlastByCve(graph: Graph, cve: string, hops: int): (r: Result<Json>)
    ensures r == AnalyzeImpact(graph, cve, hops)
  {
    AnalyzeImpact(graph, cve, hops)
  }

  /** The team queries: the ids of the teams found. */
  function Teams(graph: Graph, q: Query): (r: Result<seq<string>>)
    ensures graph(q).Ok? ==> r == Ok(Ids(graph(q).value))
    ensures graph(q).Raised? ==> r.Raised?
  {
    match graph(q)
    case Raised(m) => Raised(m)
    case Ok(rows) => Ok(Ids(rows))
  }

  /** The per-item record: the value, or `{"error": message}`. */
  function Recorded(r: Result<Json>): Json {
    match r
    case Ok(v) => v
    case Raised(m) => JObj([("error", JStr(m))])
  }

  /** The per-item loops: `out[id] = item(id)` for every id in order. */
  function PerItem(ids: seq<string>, item: string -> Json): (m: seq<(string, Json)>)
    ensures Dict.UniqueKeys(m)
    ensures forall k :: k in ids ==> Dict.Lookup(m, k) == Some(item(k))
    ensures forall k :: k !in ids ==> !Dict.HasKey(m, k)
    decreases |ids|
  {
    if ids == [] then []
    else
      var prior := ids[..|ids| - 1];
      var k := ids[|ids| - 1];
      assert ids == prior + [k];
      var m := PerItem(prior, item);
      Dict.PutUnique(m, k, item(k));
      forall k' ensures Dict.Lookup(Dict.Put(m, k, item(k)), k') == if k' == k then Some(item(k)) else Dict.Lookup(m, k') {
        Dict.PutLookup(m, k, item(k), k');
      }
      Dict.Put(m, k, item(k))
  }

  /** The teams of the lookups that succeed, in order. */
  function FoundTeams(ids: seq<string>, teams: string -> Result<seq<string>>): (r: seq<string>)
    ensures forall t :: t in r <==> exists i :: 0 <= i < |ids| && teams(ids[i]).Ok? && t in teams(ids[i]).value
  {
    if ids == [] then []
    else
      var rest := FoundTeams(ids[1..], teams);
      assert forall i :: 1 <= i < |ids| ==> ids[i] == ids[1..][i - 1];
      (match teams(ids[0]) case Ok(ts) => ts case Raised(_) => []) + rest
  }

  /** The text ids of a list, when it is a list of strings. */
  function IdTexts(j: Json): Option<seq<string>> {
    if IsStringList(j) then Some(Strings(j.items)) else None
  }

  /** The summary: the two totals, the number of teams and the teams. */
  function Summary(hosts: nat, apps: nat, teams: seq<string>): Json {
    JObj([("total_affected_hosts", JInt(hosts)), ("total_affected_apps", JInt(apps)),
          ("total_responsible_teams", JInt(|teams|)), ("unique_teams", JList(StrList(teams)))])
  }

  /** The parts of a comprehensive analysis, before they are laid out. */
  datatype Analysis = Analysis(
    impact: Json,
    hostBlast: seq<(string, Json)>,
    appBlast: seq<(string, Json)>,
    hostTeams: seq<(string, Json)>,
    appTeams: seq<(string, Json)>,
    hosts: nat,
    apps: nat,
    teams: seq<string>)

  /** The analysis before any step has run. */
  const INITIAL: Analysis := Analysis(EmptyObj(), [], [], [], [], 0, 0, [])

  /** A team lookup, as recorded in a team mapping. */
  function TeamRecord(r: Result<seq<string>>): Json {
    match r
    case Ok(ts) => JList(StrList(ts))
    case Raised(m) => JObj([("error", JStr(m))])
  }

  function HostBlast(graph: Graph, hops: int, h: string): Json {
    Recorded(BlastByHosts(graph, [JStr(h)], hops))
  }

  function AppBlast(graph: Graph, hops: int, a: string): Json {
    Recorded(BlastByApps(graph, [JStr(a)], hops))
  }

  function HostTeams(graph: Graph, h: string): Result<seq<string>> {
    Teams(graph, HostTeamQuery(JStr(h)))
  }

  function AppTeams(graph: Graph, a: string): Result<seq<string>> {
    Teams(graph, AppTeamQuery(JStr(a)))
  }

  /** Steps 2 to 5 and the summary, for the affected hosts and apps. */
  function Breakdown(graph: Graph, hops: int, impact: Json, hosts: seq<string>, apps: seq<string>): Analysis {
    Analysis(
      impact,
      PerItem(hosts, h => HostBlast(graph, hops, h)),
      PerItem(apps, a => AppBlast(graph, hops, a)),
      PerItem(hosts, h => TeamRecord(HostTeams(graph, h))),
      PerItem(apps, a => TeamRecord(AppTeams(graph, a))),
      |hosts|, |apps|,
      CveIds.SortedSet(FoundTeams(hosts, h => HostTeams(graph, h)) + FoundTeams(apps, a => AppTeams(graph, a))))
  }

  /** What the breakdown holds: one blast radius and one team record per
      affected host and app (a failure recorded in place, the others kept),
      nothing for other ids, the totals, and the teams of every successful
      lookup, sorted and without duplicates. */
  lemma BreakdownContents(graph: Graph, hops: int, impact: Json, hosts: seq<string>, apps: seq<string>)
    ensures var b := Breakdown(graph, hops, impact, hosts, apps);
      && b.impact == impact && b.hosts == |hosts| && b.apps == |apps|
      && (forall h :: h in hosts ==> Dict.Lookup(b.hostBlast, h) == Some(Recorded(BlastByHosts(graph, [JStr(h)], hops))))
      && (forall h :: h in hosts ==> Dict.Lookup(b.hostTeams, h) == Some(TeamRecord(Teams(graph, HostTeamQuery(JStr(h))))))
      && (forall h :: h !in hosts ==> !Dict.HasKey(b.hostBlast, h) && !Dict.HasKey(b.hostTeams, h))
      && (forall a :: a in apps ==> Dict.Lookup(b.appBlast, a) == Some(Recorded(BlastByApps(graph, [JStr(a)], hops))))
      && (forall a :: a in apps ==> Dict.Lookup(b.appTeams, a) == Some(TeamRecord(Teams(graph, AppTeamQuery(JStr(a))))))
      && (forall a :: a !in apps ==> !Dict.HasKey(b.appBlast, a) && !Dict.HasKey(b.appTeams, a))
  {
  }

  /** A team is found exactly when some id's lookup succeeds with it. */
  lemma FoundTeamsMember(ids: seq<string>, teams: string -> Result<seq<string>>, t: string)
    ensures t in FoundTeams(ids, teams) <==> exists h :: h in ids && teams(h).Ok? && t in teams(h).value
  {
    if t in FoundTeams(ids, teams) {
      var i :| 0 <= i < |ids| && teams(ids[i]).Ok? && t in teams(ids[i]).value;
      assert ids[i] in ids;
    }
    if exists h :: h in ids && teams(h).Ok? && t in teams(h).value {
      var h :| h in ids && teams(h).Ok? && t in teams(h).value;
      var i :| 0 <= i < |ids| && ids[i] == h;
    }
  }

  /** `unique_teams`: exactly the teams some successful host or app lookup
      returned, in ascending order and without duplicates. */
  lemma UniqueTeams(graph: Graph, hops: int, impact: Json, hosts: seq<string>, apps: seq<string>, t: string)
    ensures var teams := Breakdown(graph, hops, impact, hosts, apps).teams;
      && CveIds.Ascending(teams)
      && (t in teams <==>
            (exists h :: h in hosts && HostTeams(graph, h).Ok? && t in HostTeams(graph, h).value) ||
            (exists a :: a in apps && AppTeams(graph, a).Ok? && t in AppTeams(graph, a).value))
  {
    var ht := h => HostTeams(graph, h);
    var at := a => AppTeams(graph, a);
    FoundTeamsMember(hosts, ht, t);
    FoundTeamsMember(apps, at, t);
    var fh := FoundTeams(hosts, ht);
    var fa := FoundTeams(apps, at);
    assert t in fh + fa <==> t in fh || t in fa;
  }

  /** Steps 1 to 5 of `comprehensive_cve_analysis`, with the error that ends
      them early, if any. A failing impact query leaves the initial analysis;
      affected ids that are not a list of strings keep only the impact. */
  function Analyse(graph: Graph, cve: string, hops: int): (r: (Analysis, Option<string>))
    ensures AnalyzeImpact(graph, cve, hops).Raised? ==> r == (INITIAL, Some(AnalyzeImpact(graph, cve, hops).message))
    ensures r.1.None? <==>
      && AnalyzeImpact(graph, cve, hops).Ok?
      && IdTexts(GetOr(AnalyzeImpact(graph, cve, hops).value, "hosts", JList([]))).Some?
      && IdTexts(GetOr(AnalyzeImpact(graph, cve, hops).value, "applications", JList([]))).Some?
    ensures r.1.None? ==>
      var impact := AnalyzeImpact(graph, cve, hops).value;
      r.0 == Breakdown(graph, hops, impact, IdTexts(GetOr(impact, "hosts", JList([]))).value, IdTexts(GetOr(impact, "applications", JList([]))).value)
  {
    match AnalyzeImpact(graph, cve, hops)
    case Raised(m) => (INITIAL, Some(m))
    case Ok(impact) =>
      match (IdTexts(GetOr(impact, "hosts", JList([]))), IdTexts(GetOr(impact, "applications", JList([]))))
      case (Some(hosts), Some(apps)) => (Breakdown(graph, hops, impact, hosts, apps), None)
      case _ => (INITIAL.(impact := impact), Some("affected ids are not a list of strings"))
  }

  /** `comprehensive_cve_analysis(cve, hops)`: the analysis laid out as a
      dictionary, with `error` added when a step outside the per-item loops
      fails; a failure inside those loops is recorded for its item only. */
  function ComprehensiveAnalysis(graph: Graph, cve: string, hops: int): (r: Json)
    ensures r.JObj?
    ensures Dict.HasKey(r.fields, "error") <==> Analyse(graph, cve, hops).1.Some?
    ensures Dict.Lookup(r.fields, "summary") == Some(Summary(Analyse(graph, cve, hops).0.hosts, Analyse(graph, cve, hops).0.apps, Analyse(graph, cve, hops).0.teams))
  {
    var (a, error) := Analyse(graph, cve, hops);
    Laid(cve, a, error)
  }

  /** The dictionary of an analysis, with the error last when there is one. */
  function Laid(cve: string, a: Analysis, error: Option<string>): (r: Json)
    ensures r.JObj?
    ensures Dict.HasKey(r.fields, "error") <==> error.Some?
    ensures Dict.Lookup(r.fields, "summary") == Some(Summary(a.hosts, a.apps, a.teams))
  {
    var fields := AnalysisFields(cve, a);
    AnalysisFieldsKeys(cve, a);
    match error
    case None => JObj(fields)
    case Some(m) =>
      Dict.PutNew(fields, "error", JStr(m));
      Dict.PutLookup(fields, "error", JStr(m), "summary");
      Dict.PutLookup(fields, "error", JStr(m), "error");
      JObj(fields + [("error", JStr(m))])
  }

  /** The eight entries every analysis has, in the order they are set. */
  function AnalysisFields(cve: string, a: Analysis): seq<(string, Json)> {
    [ ("cve_id", JStr(cve)),
      ("analysis_timestamp", JNull),
      ("vulnerability_impact", a.impact),
      ("host_blast_radius", JObj(a.hostBlast)),
      ("app_blast_radius", JObj(a.appBlast)),
      ("host_team_mapping", JObj(a.hostTeams)),
      ("app_team_mapping", JObj(a.appTeams)),
      ("summary", Summary(a.hosts, a.apps, a.teams))]
  }

  lemma AnalysisFieldsKeys(cve: string, a: Analysis)
    ensures !Dict.HasKey(AnalysisFields(cve, a), "error")
    ensures Dict.Lookup(AnalysisFields(cve, a), "summary") == Some(Summary(a.hosts, a.apps, a.teams))
  {
    var fields := AnalysisFields(cve, a);
    assert !Dict.HasKey(fields, "error") by {
      assert forall i :: 0 <= i < |fields| ==> Dict.Keys(fields)[i][0] != 'e';
    }
    assert forall j :: 0 <= j < 7 ==> fields[j].0[0] != 's';
    Dict.LookupFirst(fields, 7);
  }
}
