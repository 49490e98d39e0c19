/** `cve_data_tool_node`: where the CVE data of the conversation comes from.
    An advisory (RHSA) id takes priority and fetches CVE and CSAF data from
    the vendor's service; otherwise a list of CVE ids is looked up in the
    local database. The fetchers are parameters. */
module CveData {
  import opened Wrappers
  import opened Json
  import Dict

  /** The fetchers: CVE records and extracted CVE ids for an advisory, the
      CSAF document of an advisory, and the local records of a list of ids. */
  datatype Sources = Sources(
    byAdvisory: Json -> Result<(Json, Json)>,
    csafOf: Json -> Result<Json>,
    local: Json -> Result<Json>)

  const NO_SOURCE: string := "Cannot fetch CVE data: No RHSA ID or CVE IDs found in state."

  function Out(text: string): (r: Json)
    ensures r.JObj? && Dict.HasKey(r.fields, "output")
  {
    var fields := [("output", JStr(text))];
    assert Dict.Keys(fields)[0] == "output";
    JObj(fields)
  }

  /** `x or None`. */
  function OrNone(x: Json): (r: Json)
    ensures Truthy(x) ==> r == x
    ensures !Truthy(x) ==> r == JNull
  {
    if Truthy(x) then x else JNull
  }

  /** The advisory path: both fetches, or the message of the one that raised. */
  function FromAdvisory(advisory: Json, ids: Json, sources: Sources): (r: Json)
    ensures r.JObj? && Dict.HasKey(r.fields, "output")
    ensures (sources.byAdvisory(advisory).Raised? || sources.csafOf(advisory).Raised?) <==> Dict.Keys(r.fields) == ["output"]
    ensures Dict.Keys(r.fields) != ["output"] ==>
      var (records, extracted) := sources.byAdvisory(advisory).value;
      && Dict.Keys(r.fields) == ["cve_data", "csaf_data", "cve_ids", "output"]
      && r.fields[0].1 == OrNone(records)
      && r.fields[1].1 == OrNone(sources.csafOf(advisory).value)
      && r.fields[2].1 == (if Truthy(extracted) then extracted else ids)
  {
    match sources.byAdvisory(advisory)
    case Raised(m) => Out("Error fetching CVE/CSAF data for RHSA ID " + Show(advisory) + ": " + m)
    case Ok((records, extracted)) =>
      match sources.csafOf(advisory)
      case Raised(m) => Out("Error fetching CVE/CSAF data for RHSA ID " + Show(advisory) + ": " + m)
      case Ok(csaf) =>
        var fields := [
          ("cve_data", OrNone(records)),
          ("csaf_data", OrNone(csaf)),
          ("cve_ids", if Truthy(extracted) then extracted else ids),
          ("output", JStr("Successfully fetched CVE and CSAF data for RHSA ID: " + Show(advisory)))];
        assert Dict.Keys(fields) == ["cve_data", "csaf_data", "cve_ids", "output"];
        assert Dict.Keys(fields)[3] == "output";
        JObj(fields)
  }

  /** The local path: the records of the listed ids, with their number. */
  function FromLocal(ids: Json, sources: Sources): (r: Json)
    ensures r.JObj? && Dict.HasKey(r.fields, "output")
    ensures sources.local(ids).Ok? && Truthy(sources.local(ids).value) && Len(sources.local(ids).value).Ok? <==>
      Dict.Keys(r.fields) == ["cve_data", "output"]
    ensures Dict.Keys(r.fields) == ["cve_data", "output"] ==>
      r.fields[0].1 == sources.local(ids).value
      && r.fields[1].1 == JStr("Successfully loaded " + Text.NatToString(Len(sources.local(ids).value).value) + " CVE record(s) from local database")
    ensures sources.local(ids).Ok? && !Truthy(sources.local(ids).value) ==>
      r == Out("No CVE data found in local database for CVE IDs: " + Show(ids))
  {
    match sources.local(ids)
    case Raised(m) => Out("Error fetching CVE data from local database: " + m)
    case Ok(records) =>
      if !Truthy(records) then Out("No CVE data found in local database for CVE IDs: " + Show(ids))
      else
        match Len(records)
        case Raised(m) => Out("Error fetching CVE data from local database: " + m)
        case Ok(n) =>
          var fields := [("cve_data", records), ("output", JStr("Successfully loaded " + Text.NatToString(n) + " CVE record(s) from local database"))];
          assert Dict.Keys(fields) == ["cve_data", "output"];
          assert Dict.Keys(fields)[1] == "output";
          JObj(fields)
  }

  /** `cve_data_tool_node(state)`. */
  function CveDataNode(state: Json, sources: Sources): (r: Json)
    requires state.JObj?
    ensures r.JObj? && Dict.HasKey(r.fields, "output")
    ensures Truthy(Get(state, "rhsa_id")) ==> r == FromAdvisory(Get(state, "rhsa_id"), Get(state, "cve_ids"), sources)
    ensures !Truthy(Get(state, "rhsa_id")) && Truthy(Get(state, "cve_ids")) && Get(state, "cve_ids").JList? ==>
      r == FromLocal(Get(state, "cve_ids"), sources)
    ensures !Truthy(Get(state, "rhsa_id")) && !(Truthy(Get(state, "cve_ids")) && Get(state, "cve_ids").JList?) ==>
      r == Out(NO_SOURCE)
  {
    var advisory := Get(state, "rhsa_id");
    var ids := Get(state, "cve_ids");
    var r :=
      if Truthy(advisory) then FromAdvisory(advisory, ids, sources)
      else if Truthy(ids) && ids.JList? then FromLocal(ids, sources)
      else Out(NO_SOURCE);
    r
  }

  /** An advisory id takes priority: the local database is not consulted. */
  lemma AdvisoryFirst(state: Json, sources: Sources, local: Json -> Result<Json>)
    requires state.JObj? && Truthy(Get(state, "rhsa_id"))
    ensures CveDataNode(state, sources.(local := local)) == CveDataNode(state, sources)
  {
  }

  /** Without an advisory id, `cve_ids` that are not a list count as absent. */
  lemma IdsMustBeAList(state: Json, sources: Sources)
    requires state.JObj? && !Truthy(Get(state, "rhsa_id")) && !Get(state, "cve_ids").JList?
    ensures CveDataNode(state, sources) == Out(NO_SOURCE)
  {
  }
}
