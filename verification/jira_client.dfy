/** The decision logic of the Jira client: which status a progress value
    moves an issue to, which transition is taken, the field dictionaries sent
    when issues are created, the Epic Link field, the JQL of the list queries
    and the progress percentage of a simplified issue. The Jira server is not
    modelled: its answers are parameters. */
module JiraClient {
  import opened Wrappers
  import opened Text
  import opened Json
  import Dict

  function Abs(x: int): nat {
    if x < 0 then -x else x
  }

  /** `min(keys, key=lambda x: abs(x - progress))`: the position of the first
      key at the least distance from `progress`. */
  function NearestIndex(keys: seq<int>, progress: int): (r: nat)
    requires keys != []
    ensures r < |keys|
    ensures forall i :: 0 <= i < |keys| ==> Abs(keys[r] - progress) <= Abs(keys[i] - progress)
    ensures forall i :: 0 <= i < r ==> Abs(keys[i] - progress) > Abs(keys[r] - progress)
  {
    if |keys| == 1 then 0
    else
      var rest := NearestIndex(keys[1..], progress);
      if Abs(keys[0] - progress) <= Abs(keys[1..][rest] - progress) then 0 else rest + 1
  }

  /** The transition table, in its dictionary order. */
  const TRANSITION_MAP: seq<(int, string)> := [(100, "Done"), (50, "In Progress"), (0, "To Do")]

  /** `update_progress`'s target status: the exact entry for 0, 50 and 100,
      and for any other value the entry of the nearest key, ties going to the
      key listed first. */
  function TargetStatus(progress: int): (r: string)
  {
    match Dict.Lookup(TRANSITION_MAP, progress)
    case Some(status) => status
    case None => TRANSITION_MAP[NearestIndex(Dict.Keys(TRANSITION_MAP), progress)].1
  }

  /** The nearest-key rule comes down to thresholds: 75 and 25 are the
      midpoints, where the tie goes to 100 and to 50, the keys listed first. */
  lemma TargetThresholds(progress: int)
    ensures progress >= 75 ==> TargetStatus(progress) == "Done"
    ensures 25 <= progress < 75 ==> TargetStatus(progress) == "In Progress"
    ensures progress < 25 ==> TargetStatus(progress) == "To Do"
  {
    if progress >= 75 {
      DoneFrom(progress);
    } else if progress >= 25 {
      InProgressFrom(progress);
    } else {
      ToDoBelow(progress);
    }
  }

  lemma DoneFrom(progress: int)
    requires progress >= 75
    ensures TargetStatus(progress) == "Done"
  {
    TransitionTable();
    if progress != 100 {
      assert NearestIndex([100, 50, 0], progress) == 0;
    }
  }

  lemma InProgressFrom(progress: int)
    requires 25 <= progress < 75
    ensures TargetStatus(progress) == "In Progress"
  {
    TransitionTable();
    if progress != 50 {
      var keys: seq<int> := [100, 50, 0];
      assert NearestIndex(keys, progress) == 1 by {
        assert Abs(keys[1] - progress) < Abs(keys[0] - progress);
        assert Abs(keys[1] - progress) <= Abs(keys[2] - progress);
      }
    }
  }

  lemma ToDoBelow(progress: int)
    requires progress < 25
    ensures TargetStatus(progress) == "To Do"
  {
    TransitionTable();
    if progress != 0 {
      var keys: seq<int> := [100, 50, 0];
      assert NearestIndex(keys, progress) == 2 by {
        assert Abs(keys[2] - progress) < Abs(keys[1] - progress);
      }
    }
  }

  /** The keys of the transition table, and the entry of each. */
  lemma TransitionTable()
    ensures Dict.Keys(TRANSITION_MAP) == [100, 50, 0]
    ensures forall p ::
              Dict.Lookup(TRANSITION_MAP, p)
              == (if p == 100 then Some("Done") else if p == 50 then Some("In Progress") else if p == 0 then Some("To Do") else None)
  {
    Dict.LookupOfThree(100, "Done", 50, "In Progress", 0, "To Do");
    forall p | p != 100 && p != 50 && p != 0
      ensures Dict.Lookup(TRANSITION_MAP, p).None?
    {
      assert !Dict.HasKey(TRANSITION_MAP, p);
    }
  }

  /** A transition the client can read: a dictionary with a string name. */
  predicate TransitionShaped(t: Json) {
    t.JObj? && Get(t, "name").JStr?
  }

  /** `t["name"]`. */
  function NameOf(t: Json): string
    requires TransitionShaped(t)
  {
    Get(t, "name").s
  }

  /** `next(t for t in transitions if target in t["name"])`: the position of
      the first transition whose name contains the target status. */
  function ChooseTransition(transitions: seq<Json>, target: string): (r: Option<nat>)
    requires forall i :: 0 <= i < |transitions| ==> TransitionShaped(transitions[i])
    ensures r.Some? ==> r.value < |transitions| && Contains(NameOf(transitions[r.value]), target)
    ensures r.Some? ==> forall i :: 0 <= i < r.value ==> !Contains(NameOf(transitions[i]), target)
    ensures r.None? ==> forall i :: 0 <= i < |transitions| ==> !Contains(NameOf(transitions[i]), target)
  {
    FirstWhere(transitions, t => TransitionShaped(t) && Contains(NameOf(t), target))
  }

  /** `update_progress(key, progress)`: the id of the transition taken, if
      any; the call itself always returns `{}`. */
  function UpdateProgress(transitions: seq<Json>, progress: int): (r: (Option<Json>, Json))
    requires forall i :: 0 <= i < |transitions| ==> TransitionShaped(transitions[i])
    ensures r.1 == EmptyObj()
    ensures r.0.Some? <==> ChooseTransition(transitions, TargetStatus(progress)).Some?
  {
    match ChooseTransition(transitions, TargetStatus(progress))
    case Some(i) => (Some(Get(transitions[i], "id")), EmptyObj())
    case None => (None, EmptyObj())
  }

  /** `{"key": k}`. */
  function KeyObj(k: Json): Json {
    JObj([("key", k)])
  }

  /** The fields every created issue starts from. */
  function BaseFields(project: string, summary: string, kind: string): (r: seq<(string, Json)>)
    ensures Dict.Keys(r) == ["project", "summary", "issuetype"]
    ensures !Dict.HasKey(r, "description") && !Dict.HasKey(r, "parent")
    ensures Dict.Lookup(r, "project") == Some(KeyObj(JStr(project)))
    ensures Dict.Lookup(r, "summary") == Some(JStr(summary))
    ensures Dict.Lookup(r, "issuetype") == Some(JObj([("name", JStr(kind))]))
  {
    var r := [("project", KeyObj(JStr(project))), ("summary", JStr(summary)), ("issuetype", JObj([("name", JStr(kind))]))];
    assert "project"[0] != "summary"[0];
    Dict.LookupOfThree("project", KeyObj(JStr(project)), "summary", JStr(summary), "issuetype", JObj([("name", JStr(kind))]));
    r
  }

  /** The optional description, added only when it is truthy. */
  function WithDescription(fields: seq<(string, Json)>, description: Json): (r: seq<(string, Json)>)
    ensures Dict.HasKey(r, "description") <==> Dict.HasKey(fields, "description") || Truthy(description)
    ensures Truthy(description) ==> Dict.Lookup(r, "description") == Some(description)
    ensures forall k :: k != "description" ==> Dict.Lookup(r, k) == Dict.Lookup(fields, k)
  {
    if Truthy(description) then
      forall k ensures Dict.Lookup(Dict.Put(fields, "description", description), k) == if k == "description" then Some(description) else Dict.Lookup(fields, k) {
        Dict.PutLookup(fields, "description", description, k);
      }
      Dict.Put(fields, "description", description)
    else fields
  }

  /** The fields `create_epic` sends. */
  function EpicFields(project: string, summary: string, description: Json): (r: seq<(string, Json)>)
    ensures Dict.HasKey(r, "description") <==> Truthy(description)
    ensures Dict.Lookup(r, "summary") == Some(JStr(summary))
    ensures Dict.Lookup(r, "issuetype") == Some(JObj([("name", JStr("Epic"))]))
  {
    WithDescription(BaseFields(project, summary, "Epic"), description)
  }

  /** A new key appended at the end is found, and nothing else moves. */
  lemma {:induction false} AppendLookup(d: seq<(string, Json)>, k: string, v: Json)
    requires !Dict.HasKey(d, k)
    ensures Dict.Lookup(d + [(k, v)], k) == Some(v)
    ensures forall k' :: k' != k ==> Dict.Lookup(d + [(k, v)], k') == Dict.Lookup(d, k')
  {
    Dict.PutNew(d, k, v);
    forall k' ensures Dict.Lookup(d + [(k, v)], k') == if k' == k then Some(v) else Dict.Lookup(d, k') {
      Dict.PutLookup(d, k, v, k');
    }
  }

  /** The fields `create_subtask` sends: its parent is the story. */
  function SubtaskFields(project: string, storyKey: string, summary: string, description: Json): (r: seq<(string, Json)>)
    ensures Dict.HasKey(r, "description") <==> Truthy(description)
    ensures Dict.Lookup(r, "parent") == Some(KeyObj(JStr(storyKey)))
    ensures Dict.Lookup(r, "issuetype") == Some(JObj([("name", JStr("Sub-task"))]))
  {
    var first := BaseFields(project, summary, "Sub-task");
    var base := first + [("parent", KeyObj(JStr(storyKey)))];
    AppendLookup(first, "parent", KeyObj(JStr(storyKey)));
    assert "description" != "parent" && "issuetype" != "parent";
    assert Dict.Lookup(base, "description") == Dict.Lookup(first, "description");
    assert Dict.Lookup(base, "issuetype") == Dict.Lookup(first, "issuetype");
    WithDescription(base, description)
  }

  /** The fields `create_story` sends: the base fields, overridden by any
      custom field, and then the description. */
  function StoryFields(project: string, summary: string, description: Json, custom: seq<(string, Json)>): (r: seq<(string, Json)>)
    requires Dict.UniqueKeys(custom)
    ensures Truthy(description) ==> Dict.Lookup(r, "description") == Some(description)
    ensures forall k :: k != "description" || !Truthy(description) ==>
      Dict.Lookup(r, k) == (if Dict.HasKey(custom, k) then Dict.Lookup(custom, k) else Dict.Lookup(BaseFields(project, summary, "Story"), k))
  {
    var base := BaseFields(project, summary, "Story");
    var withCustom := if custom != [] then Dict.Update(base, custom) else base;
    forall k ensures Dict.Lookup(withCustom, k) == (if Dict.HasKey(custom, k) then Dict.Lookup(custom, k) else Dict.Lookup(base, k)) {
      if custom != [] {
        Dict.UpdateLookup(base, custom, k);
      }
    }
    WithDescription(withCustom, description)
  }

  const EPIC_LINK_TYPE: string := "com.pyxis.greenhopper.jira:gh-epic-link"

  /** The parts of a field description the search reads, with the defaults
      `get` supplies. */
  function SchemaOf(fd: Json): Json
    requires fd.JObj?
  {
    GetOr(fd, "schema", EmptyObj())
  }

  /** A field the search can inspect without raising: `.get` on the schema,
      `.lower()` on the name, and `.startswith` on the custom type when the
      name mentions an epic link. */
  predicate Inspectable(fd: Json) {
    && fd.JObj? && SchemaOf(fd).JObj? && GetOr(fd, "name", JStr("")).JStr?
    && (var custom := GetOr(SchemaOf(fd), "custom", JStr(""));
        Contains(Lower(GetOr(fd, "name", JStr("")).s), "epic link") && custom != JStr(EPIC_LINK_TYPE) ==> custom.JStr?)
  }

  /** The field is the Epic Link: its schema has the agile epic-link type, or
      its name mentions an epic link and its custom type is a "com." one. */
  predicate IsEpicLink(fd: Json)
    requires Inspectable(fd)
  {
    var custom := GetOr(SchemaOf(fd), "custom", JStr(""));
    custom == JStr(EPIC_LINK_TYPE)
    || (Contains(Lower(GetOr(fd, "name", JStr("")).s), "epic link") && StartsWith(custom.s, "com."))
  }

  /** Every field before position `j` can be inspected. */
  predicate InspectableBefore(fields: seq<(string, Json)>, j: nat)
    requires j <= |fields|
  {
    forall k :: 0 <= k < j ==> Inspectable(fields[k].1)
  }

  /** The position of the field the Epic Link search in `create_story` stops
      at with a result: the first epic-link field, provided no field before it
      makes the search raise (the error is caught and no field is used). */
  function EpicLinkAt(fields: seq<(string, Json)>): (r: Option<nat>)
    ensures r.Some? ==> r.value < |fields| && InspectableBefore(fields, r.value + 1) && IsEpicLink(fields[r.value].1)
    ensures r.Some? ==> forall k :: 0 <= k < r.value ==> !IsEpicLink(fields[k].1)
    ensures r.None? ==> forall j :: 0 <= j < |fields| && InspectableBefore(fields, j + 1) ==> !IsEpicLink(fields[j].1)
  {
    var stop := FirstWhere(fields, StopsSearch);
    StopFacts(fields, stop);
    match stop
    case None => None
    case Some(j) => if Inspectable(fields[j].1) then Some(j) else None
  }

  /** The search stops at a field it cannot inspect or at the Epic Link. */
  predicate StopsSearch(f: (string, Json)) {
    !Inspectable(f.1) || IsEpicLink(f.1)
  }

  /** What the first stopping position says about the fields before it. */
  lemma StopFacts(fields: seq<(string, Json)>, stop: Option<nat>)
    requires stop.Some? ==> stop.value < |fields| && StopsSearch(fields[stop.value])
    requires stop.Some? ==> forall i :: 0 <= i < stop.value ==> !StopsSearch(fields[i])
    requires stop.None? ==> forall i :: 0 <= i < |fields| ==> !StopsSearch(fields[i])
    ensures stop.Some? && Inspectable(fields[stop.value].1) ==> InspectableBefore(fields, stop.value + 1)
    ensures stop.Some? ==> forall k :: 0 <= k < stop.value ==> Inspectable(fields[k].1) && !IsEpicLink(fields[k].1)
    ensures stop.None? || !Inspectable(fields[stop.value].1) ==>
      forall j :: 0 <= j < |fields| && InspectableBefore(fields, j + 1) ==> !IsEpicLink(fields[j].1)
  {
    if stop.Some? && !Inspectable(fields[stop.value].1) {
      forall j | 0 <= j < |fields| && InspectableBefore(fields, j + 1) ensures !IsEpicLink(fields[j].1) {
        if j >= stop.value {
          assert false;
        }
      }
    }
  }

  /** The id of the Epic Link field, as `create_story` finds it. */
  function EpicLinkField(fields: seq<(string, Json)>): (r: Option<string>)
    ensures r.Some? <==> EpicLinkAt(fields).Some?
    ensures r.Some? ==> r.value == fields[EpicLinkAt(fields).value].0
  {
    match EpicLinkAt(fields)
    case Some(i) => Some(fields[i].0)
    case None => None
  }

  /** `project_key or self.project_key`. */
  function ProjectOr(project: Json, default: string): string {
    if Truthy(project) then Show(project) else default
  }

  const BY_UPDATED: string := " ORDER BY updated DESC"

  /** The JQL of `list_epics`. */
  function ListEpicsJql(project: Json, default: string): (r: string)
    ensures StartsWith(r, "project = " + ProjectOr(project, default) + " AND issuetype = Epic ")
    ensures !Truthy(project) ==> StartsWith(r, "project = " + default)
    ensures |r| >= |BY_UPDATED| && r[|r| - |BY_UPDATED|..] == BY_UPDATED
  {
    var head := "project = " + ProjectOr(project, default);
    var filter := head + " AND issuetype = Epic ";
    var r := head + " AND issuetype = Epic" + BY_UPDATED;
    assert r[..|filter|] == filter;
    assert r[..|head|] == head;
    r
  }

  /** The JQL of `list_stories`: with an epic key it filters on the Epic Link
      and ignores the project. */
  function ListStoriesJql(epicKey: Json, project: Json, default: string): (r: string)
    ensures Truthy(epicKey) ==> StartsWith(r, "\"Epic Link\" = " + Show(epicKey) + " ")
    ensures !Truthy(epicKey) ==> StartsWith(r, "project = " + ProjectOr(project, default) + " AND issuetype = Story ")
    ensures |r| >= |BY_UPDATED| && r[|r| - |BY_UPDATED|..] == BY_UPDATED
  {
    if Truthy(epicKey) then
      var head := "\"Epic Link\" = " + Show(epicKey);
      var r := head + BY_UPDATED;
      assert r[..|head + " "|] == head + " ";
      r
    else
      var head := "project = " + ProjectOr(project, default) + " AND issuetype = Story";
      var r := head + BY_UPDATED;
      assert r[..|head + " "|] == head + " ";
      r
  }

  /** With an epic key the story query is the same whatever the project. */
  lemma StoriesIgnoreProject(epicKey: Json, p1: Json, d1: string, p2: Json, d2: string)
    requires Truthy(epicKey)
    ensures ListStoriesJql(epicKey, p1, d1) == ListStoriesJql(epicKey, p2, d2)
  {
  }

  /** The JQL of `list_subtasks`. */
  function ListSubtasksJql(parent: string): (r: string)
    ensures StartsWith(r, "parent = " + parent)
  {
    var r := "parent = " + parent + BY_UPDATED;
    assert r[..|"parent = " + parent|] == "parent = " + parent;
    r
  }

  /** The progress object of an issue, when it has one. */
  datatype Progress = Progress(done: int, total: int)

  /** Python's `round` of the quotient `n / d`: the nearest integer, ties to
      the even one. */
  function RoundDiv(n: int, d: int): (r: int)
    requires d != 0
    ensures 2 * Abs(r * d - n) <= Abs(d)
    ensures 2 * Abs(r * d - n) == Abs(d) ==> r % 2 == 0
  {
    if d < 0 then
      var r := RoundDivPositive(-n, -d);
      MulNegate(r, d);
      r
    else RoundDivPositive(n, d)
  }

  lemma MulNegate(r: int, d: int)
    ensures r * -d == -(r * d)
  {
  }

  lemma MulNext(q: int, d: int)
    ensures (q + 1) * d == q * d + d
  {
  }

  /** Half-even rounding of `n / d` for a positive divisor. */
  function RoundDivPositive(n: int, d: int): (r: int)
    requires d > 0
    ensures 2 * Abs(r * d - n) <= d
    ensures 2 * Abs(r * d - n) == d ==> r % 2 == 0
  {
    var q := n / d;
    var rem := n % d;
    assert q * d + rem == n && 0 <= rem < d;
    MulNext(q, d);
    if 2 * rem < d then q
    else if 2 * rem > d then q + 1
    else if q % 2 == 0 then q else q + 1
  }

  /** The `percent` of `_simplify_issue`: 0 without a progress object or with
      a zero total, otherwise the rounded percentage done. */
  function Percent(progress: Option<Progress>): (r: int)
    ensures progress.None? || progress.value.total == 0 ==> r == 0
    ensures progress.Some? && progress.value.total != 0 ==> 2 * Abs(r * progress.value.total - 100 * progress.value.done) <= Abs(progress.value.total)
    ensures progress.Some? && progress.value.total != 0 && 2 * Abs(r * progress.value.total - 100 * progress.value.done) == Abs(progress.value.total) ==> r % 2 == 0
  {
    match progress
    case None => 0
    case Some(p) => if p.total != 0 then RoundDiv(100 * p.done, p.total) else 0
  }
}
