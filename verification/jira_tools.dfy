/** The Jira step of the workflow: find or create the application's epic,
    create the vulnerability's story with its custom fields unless the state
    already names one, and report both keys. The Jira server's answers are
    parameters; the requests the step makes are part of its result. */
module JiraTools {
  import opened Wrappers
  import opened Text
  import opened Json
  import Dict
  import opened Fence
  import opened JiraFields

  /** An epic as `list_epics` returns it: a dictionary whose summary, if
      present, is a string. */
  predicate EpicShaped(e: Json) {
    e.JObj? && GetOr(e, "summary", JStr("")).JStr?
  }

  /** The upper-cased summary of an epic. */
  function SummaryOf(e: Json): string
    requires EpicShaped(e)
  {
    Upper(GetOr(e, "summary", JStr("")).s)
  }

  /** The epic's upper-cased summary contains the upper-cased code. */
  predicate MatchesCode(e: Json, code: string) {
    EpicShaped(e) && Contains(SummaryOf(e), Upper(code))
  }

  /** The position of the first epic whose upper-cased summary contains the
      upper-cased application code. */
  function FirstEpicFor(epics: seq<Json>, code: string): (r: Option<nat>)
    ensures r.Some? ==> r.value < |epics| && MatchesCode(epics[r.value], code)
    ensures r.Some? ==> forall i :: 0 <= i < r.value ==> !MatchesCode(epics[i], code)
    ensures r.None? ==> forall i :: 0 <= i < |epics| ==> !MatchesCode(epics[i], code)
  {
    FirstWhere(epics, e => MatchesCode(e, code))
  }

  /** `find_epic_by_app_code(code)` over the listed epics: the key of the
      first matching epic, or `None`. */
  function FindEpicByAppCode(epics: seq<Json>, code: string): (r: Json)
    requires forall i :: 0 <= i < |epics| ==> EpicShaped(epics[i])
    ensures FirstEpicFor(epics, code).None? ==> r == JNull
    ensures FirstEpicFor(epics, code).Some? ==> r == Get(epics[FirstEpicFor(epics, code).value], "key")
  {
    match FirstEpicFor(epics, code)
    case Some(i) => Get(epics[i], "key")
    case None => JNull
  }

  /** The search ignores case on both sides. */
  lemma FindEpicIgnoresCase(epics: seq<Json>, code: string)
    requires forall i :: 0 <= i < |epics| ==> EpicShaped(epics[i])
    ensures FindEpicByAppCode(epics, Upper(code)) == FindEpicByAppCode(epics, code)
  {
    UpperNoLower(code);
    UpperFixed(Upper(code));
  }

  const MISSING_CODE: string := "\nWarning: APP_CODE not found in vulnerability data."

  /** The epic summary: the code and the name, or the code alone. */
  function EpicSummary(code: string, name: string): (r: string)
    ensures name == [] ==> r == code
    ensures name != [] ==> r == code + " - " + name
  {
    if name != [] then code + " - " + name else code
  }

  /** A story creation request: the epic, the summary and the custom fields. */
  datatype StoryRequest = StoryRequest(epic: Json, summary: string, custom: seq<(string, Json)>)

  /** What the step asks of Jira and what it returns to the state. */
  datatype JiraStep = JiraStep(
    epicRequest: Option<(string, string)>,
    storyRequest: Option<StoryRequest>,
    rhsaUpdate: Option<(string, Json)>,
    update: seq<(string, Json)>)

  /** The answers of the Jira server the step consults. */
  datatype JiraAnswers = JiraAnswers(
    epics: seq<Json>,
    createdEpic: Json,
    meta: Option<seq<(string, Json)>>,
    mappingReply: Reply,
    decode: Decoder,
    createdStory: Json)

  predicate AnswersShaped(a: JiraAnswers) {
    && (forall i :: 0 <= i < |a.epics| ==> EpicShaped(a.epics[i]))
    && a.createdEpic.JObj? && a.createdStory.JObj?
    && (a.meta.Some? ==> MetaShaped(a.meta.value))
  }

  /** `str(record.get(key, default)).strip()`. */
  function TextField(record: Json, key: string, default: string): string
    requires record.JObj?
  {
    Strip(Show(GetOr(record, key, JStr(default))))
  }

  /** Whether a field's lower-cased name mentions "rhsa". */
  predicate MentionsRhsa(fd: Json)
    requires FieldShaped(fd)
  {
    Contains(Lower(GetOr(fd, "name", JStr("")).s), "rhsa")
  }

  /** The position of the first field whose name mentions "rhsa". */
  function RhsaAt(meta: seq<(string, Json)>): (r: Option<nat>)
    requires MetaShaped(meta)
    ensures r.Some? ==> r.value < |meta| && MentionsRhsa(meta[r.value].1)
    ensures r.Some? ==> forall i :: 0 <= i < r.value ==> !MentionsRhsa(meta[i].1)
    ensures r.None? ==> forall i :: 0 <= i < |meta| ==> !MentionsRhsa(meta[i].1)
  {
    FirstWhere(meta, (f: (string, Json)) => FieldShaped(f.1) && MentionsRhsa(f.1))
  }

  /** The closing line of the step's output. */
  function ReadyLine(epicKey: Json, storyKey: Json): string {
    "\nJIRA: Epic " + Show(epicKey) + ", Story " + Show(storyKey) + " ready."
  }

  /** The state's output so far, which the step extends. */
  predicate OutputShaped(state: Json) {
    state.JObj? && GetOr(state, "output", JStr("")).JStr?
  }

  /** `jira_update_node(state)`; it raises where preparing the custom fields
      does. */
  function JiraUpdateNode(state: Json, answers: JiraAnswers): (r: Result<JiraStep>)
    requires OutputShaped(state) && AnswersShaped(answers)
    requires Truthy(Get(state, "vuln_data")) ==> Get(state, "vuln_data").JObj?
    ensures !Truthy(Get(state, "vuln_data")) ==> r == Ok(JiraStep(None, None, None, [("output", GetOr(state, "output", JStr("")))]))
    ensures Truthy(Get(state, "vuln_data")) && TextField(Get(state, "vuln_data"), "App Code", "") == [] ==>
      r == Ok(JiraStep(None, None, None, [("output", JStr(GetOr(state, "output", JStr("")).s + MISSING_CODE))]))
    ensures Truthy(Get(state, "vuln_data")) && TextField(Get(state, "vuln_data"), "App Code", "") != [] ==>
      r == MainStep(state, answers, Get(state, "vuln_data"))
  {
    var out := GetOr(state, "output", JStr("")).s;
    var vuln := Get(state, "vuln_data");
    if !Truthy(vuln) then Ok(JiraStep(None, None, None, [("output", JStr(out))]))
    else if TextField(vuln, "App Code", "") == [] then Ok(JiraStep(None, None, None, [("output", JStr(out + MISSING_CODE))]))
    else MainStep(state, answers, vuln)
  }

  /** The step for a record with an application code: the epic, the story,
      and the three state entries. */
  function MainStep(state: Json, answers: JiraAnswers, vuln: Json): (r: Result<JiraStep>)
    requires OutputShaped(state) && AnswersShaped(answers) && vuln.JObj?
    ensures r.Ok? ==>
      && Dict.Keys(r.value.update) == ["epic_key", "story_key", "output"]
      && r.value.update[2].1 == JStr(GetOr(state, "output", JStr("")).s + ReadyLine(r.value.update[0].1, r.value.update[1].1))
      && (Truthy(Get(state, "epic_key")) ==> r.value.epicRequest.None? && r.value.update[0].1 == Get(state, "epic_key"))
      && (Truthy(Get(state, "story_key")) ==> r.value.storyRequest.None? && r.value.update[1].1 == Get(state, "story_key"))
      && (r.value.storyRequest.Some? ==> r.value.storyRequest.value.epic == r.value.update[0].1)
    ensures r.Raised? ==> !Truthy(Get(state, "story_key"))
  {
    var out := GetOr(state, "output", JStr("")).s;
    var code := TextField(vuln, "App Code", "");
    var name := TextField(vuln, "App Name", "");
    var (epicRequest, epicKey) := EpicStep(state, answers, code, name);
    match StoryStep(state, answers, vuln, epicKey)
    case Raised(m) => Raised(m)
    case Ok((storyRequest, rhsa, storyKey)) =>
      Ok(JiraStep(epicRequest, storyRequest, rhsa, KeysUpdate(epicKey, storyKey, out)))
  }

  /** The three entries the step returns. */
  function KeysUpdate(epicKey: Json, storyKey: Json, out: string): (r: seq<(string, Json)>)
    ensures Dict.Keys(r) == ["epic_key", "story_key", "output"]
    ensures r[0].1 == epicKey && r[1].1 == storyKey && r[2].1 == JStr(out + ReadyLine(epicKey, storyKey))
  {
    [("epic_key", epicKey), ("story_key", storyKey), ("output", JStr(out + ReadyLine(epicKey, storyKey)))]
  }

  /** Steps 1 to 3: the epic named by the state, else the first listed epic
      for the code, else a new epic. */
  function EpicStep(state: Json, answers: JiraAnswers, code: string, name: string): (r: (Option<(string, string)>, Json))
    requires state.JObj? && AnswersShaped(answers)
    ensures Truthy(Get(state, "epic_key")) ==> r == (None, Get(state, "epic_key"))
    ensures r.0.Some? <==> !Truthy(Get(state, "epic_key")) && !Truthy(FindEpicByAppCode(answers.epics, code))
    ensures r.0.Some? ==> r.0.value == (EpicSummary(code, name), "Epic for application " + code) && r.1 == Get(answers.createdEpic, "key")
  {
    var stateKey := Get(state, "epic_key");
    if Truthy(stateKey) then (None, stateKey)
    else
      var found := FindEpicByAppCode(answers.epics, code);
      if Truthy(found) then (None, found)
      else (Some((EpicSummary(code, name), "Epic for application " + code)), Get(answers.createdEpic, "key"))
  }

  /** Steps 4 and 5: the story named by the state, else a new story with the
      prepared custom fields, and the RHSA field set on it when the state
      has an RHSA id. */
  function StoryStep(state: Json, answers: JiraAnswers, vuln: Json, epicKey: Json): (r: Result<(Option<StoryRequest>, Option<(string, Json)>, Json)>)
    requires state.JObj? && vuln.JObj? && AnswersShaped(answers)
    ensures Truthy(Get(state, "story_key")) ==> r == Ok((None, None, Get(state, "story_key")))
    ensures r.Ok? && r.value.0.Some? ==>
      && r.value.0.value.epic == epicKey
      && r.value.0.value.summary == "Patch " + Show(GetOr(vuln, "Vuln ID", JStr(""))) + ": " + Show(GetOr(vuln, "Vuln Name", JStr("Vulnerability")))
      && r.value.2 == Get(answers.createdStory, "key")
    ensures r.Ok? && r.value.1.Some? ==> Truthy(r.value.2) && r.value.1.value.1 == Get(state, "rhsa_id") && Truthy(Get(state, "rhsa_id"))
  {
    var stateKey := Get(state, "story_key");
    if Truthy(stateKey) then Ok((None, None, stateKey))
    else
      var summary := "Patch " + Show(GetOr(vuln, "Vuln ID", JStr(""))) + ": " + Show(GetOr(vuln, "Vuln Name", JStr("Vulnerability")));
      var custom :=
        match answers.meta
        case Some(meta) => PrepareCustomFields(vuln.fields, meta, answers.mappingReply, answers.decode)
        case None => Ok([]);
      match custom
      case Raised(m) => Raised(m)
      case Ok(fields) =>
        var storyKey := Get(answers.createdStory, "key");
        var rhsa := Get(state, "rhsa_id");
        var rhsaUpdate :=
          if Truthy(storyKey) && Truthy(rhsa) && answers.meta.Some? then
            match RhsaAt(answers.meta.value)
            case Some(i) => Some((answers.meta.value[i].0, rhsa))
            case None => None
          else None;
        Ok((Some(StoryRequest(epicKey, summary, fields)), rhsaUpdate, storyKey))
  }

  /** `update_story_with_vuln_data(story, record, rhsa)`: the fields the
      story is updated with (none when the metadata is missing; the update is
      skipped when there are none), or the error of preparing them. The
      prepared custom fields come first, and a truthy RHSA id is then set on
      the first field whose name mentions "rhsa". */
  function UpdateStoryFields(record: seq<(string, Json)>, meta: Option<seq<(string, Json)>>, rhsa: Json, reply: Reply, decode: Decoder): (r: Result<seq<(string, Json)>>)
    requires meta.Some? ==> MetaShaped(meta.value)
    ensures meta.None? ==> r == Ok([])
    ensures meta.Some? ==> (r.Raised? <==> PrepareCustomFields(record, meta.value, reply, decode).Raised?)
    ensures r.Ok? && meta.Some? && Truthy(rhsa) && RhsaAt(meta.value).Some? ==>
      Dict.Lookup(r.value, meta.value[RhsaAt(meta.value).value].0) == Some(rhsa)
    ensures r.Ok? && meta.Some? ==> forall k ::
      (Truthy(rhsa) && RhsaAt(meta.value).Some? ==> k != meta.value[RhsaAt(meta.value).value].0) ==>
      Dict.Lookup(r.value, k) == Dict.Lookup(PrepareCustomFields(record, meta.value, reply, decode).value, k)
    ensures r.Ok? ==> forall i :: 0 <= i < |r.value| ==> meta.Some? && Dict.HasKey(meta.value, r.value[i].0)
  {
    match meta
    case None => Ok([])
    case Some(m) =>
      match PrepareCustomFields(record, m, reply, decode)
      case Raised(e) => Raised(e)
      case Ok(fields) => Ok(WithRhsa(fields, m, rhsa))
  }

  /** The RHSA id set on the first field whose name mentions "rhsa", when
      the id is truthy and there is such a field. */
  function WithRhsa(fields: seq<(string, Json)>, meta: seq<(string, Json)>, rhsa: Json): (r: seq<(string, Json)>)
    requires MetaShaped(meta)
    ensures Truthy(rhsa) && RhsaAt(meta).Some? ==> Dict.Lookup(r, meta[RhsaAt(meta).value].0) == Some(rhsa)
    ensures forall k :: (Truthy(rhsa) && RhsaAt(meta).Some? ==> k != meta[RhsaAt(meta).value].0) ==> Dict.Lookup(r, k) == Dict.Lookup(fields, k)
    ensures (forall i :: 0 <= i < |fields| ==> Dict.HasKey(meta, fields[i].0)) ==> forall i :: 0 <= i < |r| ==> Dict.HasKey(meta, r[i].0)
  {
    if Truthy(rhsa) && RhsaAt(meta).Some? then
      var i := RhsaAt(meta).value;
      assert Dict.Keys(meta)[i] == meta[i].0;
      SetField(fields, meta[i].0, rhsa)
    else fields
  }

  /** `fields[id] = value`: `id` holds the value, every other key keeps its
      value, and no key other than `id` appears. */
  function SetField(fields: seq<(string, Json)>, id: string, value: Json): (r: seq<(string, Json)>)
    ensures Dict.Lookup(r, id) == Some(value)
    ensures forall k :: k != id ==> Dict.Lookup(r, k) == Dict.Lookup(fields, k)
    ensures forall i :: 0 <= i < |r| ==> r[i].0 == id || Dict.HasKey(fields, r[i].0)
  {
    PutKeysFrom(fields, id, value);
    forall k ensures Dict.Lookup(Dict.Put(fields, id, value), k) == if k == id then Some(value) else Dict.Lookup(fields, k) {
      Dict.PutLookup(fields, id, value, k);
    }
    Dict.Put(fields, id, value)
  }
}
