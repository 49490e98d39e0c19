# Agentic CVE patcher — a Dafny model of its decision logic

The system is a chat assistant that walks an operator through patching a
vulnerability. Each user message is classified by a language model into an
intent and routed through a small graph to one handler. The handlers
fetch CVE and CSAF advisory data, record details the user supplies, query a
graph database about blast radius and responsible teams, create and update
JIRA epics and stories, and run a remediation plan over SSH. The plan runner
judges each step's output with the model and retries with a corrected
command.

This project models the logic that sits between those external services:

- **`Fence`**: the fence-stripping of model replies (`split("```")[1]`, drop
  `json`, strip), shared by every caller.
- **`Intent`** and **`Workflow`**: the fail-soft classifier, the routing
  table and the graph's edges, plus the fixed-output nodes (help, vulnerability
  list, fetch message) and the planner's entry guards.
- **`CveIds`**, **`AddDetails`**: CVE-id extraction (a greedy
  `CVE-\d{4}-\d{4,}` matcher, case-insensitive, de-duplicated and sorted), the
  additional-info append, the remediation-plan merge, the state-update parser
  and the `add_details_node` summary.
- **`Patcher`**, **`PatchRun`**: the retry state machine of
  `execute_and_analyze_step` and the sequencing, error list, report and final
  `current_step` of `patcher_node`.
- **`JiraFields`**, **`Dates`**, **`JiraTools`**, **`JiraClient`**: the
  column-to-field mapping and its fallback, field preparation with the date
  conversion, epic lookup, the decisions of `jira_update_node`, and the
  JIRA client's field dictionaries, Epic Link detection, JQL, transition
  choice and progress percentage.
- **`GraphClient`**, **`GraphTools`**: result shaping and the comprehensive
  analysis of the Gremlin client, and request parsing, dispatch and
  rendering in `gremlin_node`.
- **`CveData`**, **`StateDisplay`**: the CVE-data node's source priority, and
  the HTML state panel with its escaping.

JSON values are the `Json` datatype of module `Json` (no floats). Python
dictionaries are association lists, `seq<(K, V)>`, with Python's assignment
semantics in module `Dict`: assigning an existing key keeps its position, and a
new key is appended. Everything the source obtains from outside is a
parameter:

- the language model's reply is a `Reply` (`Answered(text)` or
  `Unavailable`), and `json.loads` is a `Decoder`;
- SSH, the graph database (`GraphClient.Graph`), the CVE/CSAF fetchers
  (`CveData.Sources`) and the JIRA answers (`JiraTools.JiraAnswers`) are
  functions or records of values;
- the plan file's content, `json.dumps` and the sampled vulnerability rows are
  arguments.

A failure of any of these is a value (`Result.Raised`, `Option.None`, `SshReply.Failure`).

Where the code and the project's written description disagree, the model
follows the code:

- A step gets at most `max(1, max_retries)` attempts, not `max_retries + 1`.
  With the default budget of 2, a command that fails twice is given up after
  two attempts. `Patcher.ExecuteStep` and `Patcher.AlwaysFailingAttempts`
  state this.
- The description says an unrecognised intent falls back to a default
  handler. The routing table has no default entry, so an intent outside its
  six labels reaches no handler; the graph runtime reports it as an error.
  This includes `RESOLVE_VULN`, which the classifier's prompt offers
  (`Workflow.ResolveHasNoRoute`). The model ends such a turn after the
  classifier (`Workflow.TurnFrom`).

## Model

| member | source | states |
|---|---|---|
| Dict.UpdateLookup | src/agents/add_details.py:88-89 | after `d.update(e)` a key holds `e`'s value when `e` has it, and `d`'s value otherwise |
| Dict.UpdateKeys | src/agents/add_details.py:88-89 | `update` keeps the existing keys in place, and the keys afterwards are exactly those of either dictionary |
| Dict.PutLookup | src/utils/jira_client.py:41-42 | assigning `d[k] = v` makes `k` read `v` and leaves every other key's value unchanged |
| Fence.FenceSegment | src/agents/intent_classifier.py:21-22 | a reply containing a fence splits into a fence-free head, the fence, the fence-free segment `split("```")[1]` keeps, and a tail that is empty or starts with the next fence |
| Fence.InterpretObject | src/agents/intent_classifier.py:19-25 | a reply counts only when it decodes to a JSON object; any other decoded value fails like a parse error |
| Fence.FencedRoundTrip | src/agents/intent_classifier.py:19-23 | the usual fenced reply with a `json` tag gives back its payload exactly, when the payload has no backtick or `json` and no surrounding blanks |
| Fence.TagRemovedFromPayload | src/agents/intent_classifier.py:22 | `replace("json", "")` also deletes `json` inside the payload: a fenced payload `json` yields the empty text |
| Intent.ClassifyAnswer | src/agents/intent_classifier.py:23-29 | the result has exactly the keys intent and data; the intent is upper-cased text; a non-text intent or an undecodable reply gives `{"intent": "OTHER", "data": ""}`; otherwise the intent is upper-cased and data defaults to "" |
| Intent.ClassifyIntent | src/agents/intent_classifier.py:5-29 | any reply yields an object with keys intent and data and an intent with no lower-case letter; an unusable reply yields the fail-soft answer |
| Intent.MissingKeysDefault | src/agents/intent_classifier.py:25-26 | an answer lacking both keys classifies exactly as the fail-soft answer |
| Workflow.Route | src/graph_workflow.py:74-82 | an intent has a route exactly when it is one of the six routing labels, and the route is the handler carrying that label |
| Workflow.ResolveHasNoRoute | src/graph_workflow.py:76-82 | `RESOLVE_VULN`, although the classifier offers it, has no route |
| Workflow.Successor | src/graph_workflow.py:73-88 | START leads to classify; every handler leads to END; END has no successor |
| Workflow.ClassifyIntentNode | src/graph_workflow.py:17-22 | the node writes exactly `intent` and `intent_data`, taken from the classification's intent and data |
| Workflow.TurnFrom | src/graph_workflow.py:73-88 | a turn visits START and classify, then a handler and END exactly when the intent is a routed label |
| Workflow.Turn | src/graph_workflow.py:64-88 | a turn runs a handler iff the classified intent is one of the routing labels |
| Workflow.IntentAfterClassify | src/graph_workflow.py:75 | the router reads back exactly the intent the classify node wrote into the state |
| Workflow.TurnFollowsEdges | src/graph_workflow.py:73-88 | every consecutive pair of a turn's path is an edge of the graph in the post-classification state, and the path ends where there is no edge |
| Workflow.NumberedItems | src/graph_workflow.py:35-55 | item i of the help list is shown as its number from 1, a dot, and the capability |
| Workflow.HelperNode | src/graph_workflow.py:32-56 | the only key is output: the introduction, a blank line, then the capabilities numbered from 1, separated by blank lines |
| Workflow.ListVulnsNode | src/graph_workflow.py:25-29 | the output is the header line, the sampled rows one per line, then the prompt |
| Workflow.PlannerGuard | src/tools/planner_tools.py:15-24 | planning proceeds iff there is vulnerability data and CVE or CSAF data; missing vulnerability data gives its own message |
| CveIds.MatchAt | src/agents/add_details.py:14-15 | a match at a position is a case-insensitive `CVE-dddd-dddd…` ending where the digits end |
| CveIds.MatchAtComplete | src/agents/add_details.py:14-15 | any maximal id at a position is what the matcher finds there |
| CveIds.Scan | src/agents/add_details.py:15 | the scan reports only matches, left to right and without overlap |
| CveIds.NoMatchInside | src/agents/add_details.py:15 | no match starts strictly inside another match |
| CveIds.ScanComplete | src/agents/add_details.py:15 | every match not overlapped by an earlier one is reported by the scan |
| CveIds.FindsEveryMatch | src/agents/add_details.py:15 | every match at any position of the text is in `findall`'s result |
| CveIds.FindAll | src/agents/add_details.py:14-15 | every string found is a CVE id |
| CveIds.BelowTotal | src/agents/add_details.py:17 | Python's string order is total on distinct strings (with `BelowIrreflexive`, `BelowTransitive`) |
| CveIds.Insert | src/agents/add_details.py:17 | inserting into an ascending list keeps it ascending and adds exactly the new element |
| CveIds.SortedSet | src/agents/add_details.py:17 | `sorted(set(xs))` is ascending and has exactly the members of `xs` |
| CveIds.AscendingUnique | src/agents/add_details.py:17 | two ascending lists with the same members are equal, so the sorted set is determined by the members |
| CveIds.ExtractCveIds | src/agents/add_details.py:11-17 | the ids are strictly ascending, are exactly the regex matches, and each is a CVE id |
| CveIds.ExtractsEveryMatch | src/agents/add_details.py:11-17 | every match in the text is returned |
| CveIds.ExtractedIsMatch | src/agents/add_details.py:11-17 | every id returned is the text of a match at some position |
| CveIds.SortedUnion | src/agents/add_details.py:176-177 | the merged list is ascending and holds exactly the current and new ids |
| PySorted.InsertNumber | src/agents/add_details.py:176-177 | inserting a number keeps the numbers ascending, and adds it exactly when no equal value is present |
| PySorted.NumberSet | src/agents/add_details.py:176-177 | `sorted(set(xs))` of numbers is ascending, drawn from `xs`, and keeps the first element of each value |
| PySorted.SortedSetOf | src/agents/add_details.py:176-177 | `sorted(set(xs))` succeeds iff every element is hashable and every two are comparable or equal; strings give their ascending union; a number list gives no strings |
| PySorted.StringsDoNotMix | src/agents/add_details.py:176-177 | a string and a number in one list make the sort raise |
| PySorted.OneAndTrue | src/agents/add_details.py:176-177 | `True` and `1` are one set element, so `[1, True, 0]` sorts to `[0, 1]` |
| AddDetails.AppendInfo | src/agents/add_details.py:184-187 | the old text is a prefix and the new text a suffix; with no old text the result is the new text, otherwise the separator sits between them |
| AddDetails.FallbackMerge | src/agents/add_details.py:84-97 | as written: no usable changes give the existing plan or `{}`; no existing plan gives the changes |
| AddDetails.DeepMergeIdle | src/agents/add_details.py:90-93 | as written, the "deep merge" loop changes nothing, because every key already holds its change |
| AddDetails.FallbackIsShallow | src/agents/add_details.py:88-93 | as written, the fallback is exactly `existing.update(changes)`: a top-level override |
| AddDetails.FallbackMergeLookup | src/agents/add_details.py:88-93 | as written: keys of either plan are present, changed keys take the change wholesale, others are unchanged |
| AddDetails.NestedChangeLost | src/agents/add_details.py:88-93 | a nested change of `pre_checks` loses the existing nested entry as written, and keeps it in the corrected merge |
| AddDetails.DeepMerge | src/agents/add_details.py:84-97 | the corrected fallback: the same results for missing or unusable input, and an object whenever it merges |
| AddDetails.OverlayLookup | src/agents/add_details.py:90-93 | each changed section is the change merged into the existing section when both are dictionaries, else the change |
| AddDetails.DeepMergeLookup | src/agents/add_details.py:84-93 | corrected: keys of either plan are present, unchanged keys keep their sections, and changed keys hold the merged section |
| AddDetails.DeepMergeKeepsNested | src/agents/add_details.py:90-93 | corrected: in a dictionary section changed by a dictionary, a nested key holds the change's value if changed and the existing value otherwise |
| AddDetails.MergeRemediationPlans | src/agents/add_details.py:20-97 | as written: a reply decoding to an object is the merged plan; otherwise the fallback, which for two non-empty plans is a top-level `update` of the existing plan by the changes |
| AddDetails.UnionValueOk | src/agents/add_details.py:174-177 | the sorted union is a sorted, duplicate-free list of strings that keeps every current id |
| AddDetails.CveUpdate | src/agents/add_details.py:172-177 | the update fails (the sort raises) iff the model asks to add ids and the current ids plus its list cannot be sorted; otherwise it sets at most `cve_ids`, exactly when asked, to a sorted duplicate-free list keeping every current id, which for a list of strings holds exactly the current and new ids |
| AddDetails.CveSetOk | src/agents/add_details.py:176-177 | a sorted set that does not raise is a valid CVE value; for a list of strings it holds exactly the current and new ids |
| AddDetails.NumericIdAccepted | src/agents/add_details.py:174-177 | a model answer with the number 2025 as its id list is stored as `[2025]`, not rejected |
| AddDetails.InfoUpdate | src/agents/add_details.py:181-188 | an info update sets only `additional_info`, to a text that extends the current text |
| AddDetails.PlanUpdate | src/agents/add_details.py:191-202 | a plan update sets at most the key `remediation_plan` |
| AddDetails.FallbackUpdates | src/agents/add_details.py:206-219 | found ids give only the sorted union; otherwise non-blank input gives only the appended info; blank input without ids gives nothing |
| AddDetails.FallbackUpdatesOk | src/agents/add_details.py:206-219 | the fallback's update is a valid update of the current state |
| AddDetails.ModelUpdates | src/agents/add_details.py:169-204 | the model-driven updates use known keys once, keep every current CVE id, and extend the current info |
| AddDetails.ParseStateUpdates | src/agents/add_details.py:100-219 | whatever the model answers, the updates are valid for the current state and each updated value has the shape its summary line reads; an unusable answer gives the regex fallback |
| AddDetails.ChangedSections | src/agents/add_details.py:256-260 | a key is reported iff it is a plan key that is missing from the existing plan or whose value differs by Python equality; none is reported iff no key changed |
| AddDetails.NoSectionChangedInSelf | src/agents/add_details.py:256-260 | a plan compared with itself reports no changed section |
| AddDetails.ReorderedSectionUnchanged | src/agents/add_details.py:259 | a section whose keys are reordered, or whose `1` became `True`, is not reported as changed |
| Json.PyEqReflexive | src/agents/add_details.py:259 | every value built from dictionaries with distinct keys equals itself under Python's `==` |
| AddDetails.JoinStrings | src/agents/add_details.py:243 | `", ".join` succeeds iff every item is a string, giving their join; otherwise it raises naming the first non-string item |
| AddDetails.FirstFive | src/agents/add_details.py:262-266 | up to five names are all listed; more are cut to five followed by "..." |
| AddDetails.InfoLine | src/agents/add_details.py:245-249 | the info line holds the text when it has at most 200 characters, else its first 200 and "..." |
| AddDetails.PlanDetail | src/agents/add_details.py:252-266 | the plan line says "Created" iff there was no plan, "Updated sections" iff some section changed, and "Updated with" otherwise |
| AddDetails.SummaryLines | src/agents/add_details.py:239-266 | it raises iff the CVE update is not a list of strings; otherwise the heading, then one line per updated key in the order CVE ids, info, plan |
| AddDetails.SummaryOpensWithHead | src/agents/add_details.py:239-268 | the joined summary opens with "Details added successfully:" |
| AddDetails.Respond | src/agents/add_details.py:268-274 | the reply is the output followed by every update, and every key other than output reads as in the updates |
| AddDetails.AddDetailsNode | src/agents/add_details.py:222-274 | no input gives only the "No input provided" output; no updates give only the guidance; a CVE update that is not a list of strings makes the join raise; otherwise the output is the summary lines joined by newlines, followed by every update unchanged |
| JiraClient.NearestIndex | src/utils/jira_client.py:136 | `min` by distance picks the first key at the least distance |
| JiraClient.TargetThresholds | src/utils/jira_client.py:135-136 | progress of 75 or more targets Done, 25 up to 75 targets In Progress, and below 25 targets To Do |
| JiraClient.ChooseTransition | src/utils/jira_client.py:138 | the first transition whose name contains the target status, or none when no name contains it |
| JiraClient.UpdateProgress | src/utils/jira_client.py:131-141 | a transition is made iff some transition's name contains the target status, and the result is always `{}` |
| JiraClient.BaseFields | src/utils/jira_client.py:36-40 | a new issue has exactly project, summary and issue type, with the given values |
| JiraClient.WithDescription | src/utils/jira_client.py:41-42 | a truthy description is set; every other field is unchanged |
| JiraClient.EpicFields | src/utils/jira_client.py:34-44 | an epic has its summary and type Epic, and a description iff one is given |
| JiraClient.SubtaskFields | src/utils/jira_client.py:117-129 | a sub-task has its parent story and type Sub-task, and a description iff one is given |
| JiraClient.StoryFields | src/utils/jira_client.py:46-61 | custom fields override the base fields, and a truthy description overrides both |
| JiraClient.EpicLinkAt | src/utils/jira_client.py:63-84 | the first field whose schema is the agile epic-link type, or whose name mentions an epic link with a `com.` type, provided no earlier field made the search raise; none when there is no such field |
| JiraClient.EpicLinkField | src/utils/jira_client.py:63-84 | the Epic Link field id exists iff the search finds a field, and is that field's id |
| JiraClient.ListEpicsJql | src/utils/jira_client.py:154-158 | the query opens with the given project (or the default project when none is given) and the Epic type filter, and ends ordered by last update |
| JiraClient.ListStoriesJql | src/utils/jira_client.py:160-167 | with a truthy epic the query opens with the Epic Link filter for that epic; otherwise with the project (or the default project) and the Story type; both end ordered by last update |
| JiraClient.StoriesIgnoreProject | src/utils/jira_client.py:162-163 | with an epic the project is not consulted |
| JiraClient.ListSubtasksJql | src/utils/jira_client.py:169-172 | the query selects the parent's sub-tasks |
| JiraClient.RoundDiv | src/utils/jira_client.py:29 | the rounded quotient is within half a unit of the exact one, and at a tie it is the even neighbour |
| JiraClient.Percent | src/utils/jira_client.py:20-29 | no progress or a zero total gives 0; otherwise the percentage is within half a unit of 100·done/total, and even at a tie |
| JiraFields.NormaliseIsNormal | src/tools/jira_tools.py:50 | the fallback's field name has no lower-case letter, space, parenthesis or slash |
| JiraFields.NormaliseIdempotent | src/tools/jira_tools.py:50 | normalising a normalised name changes nothing |
| JiraFields.FallbackMapping | src/tools/jira_tools.py:47-53 | each column is mapped at most once |
| JiraFields.FallbackMappingLookup | src/tools/jira_tools.py:47-53 | a column maps to its normalised name iff it is a column and that name is a JIRA field name |
| JiraFields.FallbackMappingRange | src/tools/jira_tools.py:47-53 | every entry maps a CSV column to a JIRA field name |
| JiraFields.MapColumns | src/tools/jira_tools.py:24-53 | the mapping is the decoded reply whenever the reply decodes, and the fallback mapping when it does not |
| JiraFields.FieldNames | src/tools/jira_tools.py:60 | one name per field, in order, defaulting to "" |
| JiraFields.FirstNamed | src/tools/jira_tools.py:73-74 | the first field with the wanted name, or none when no field has it |
| JiraFields.Converted | src/tools/jira_tools.py:77-87 | option fields get `{"value": str(v)}`; other fields get text; an unparseable date keeps the text |
| JiraFields.EntryField | src/tools/jira_tools.py:67-88 | a mapped column is skipped iff its value is unusable or no field has the name; otherwise it sets the first such field to the converted value |
| JiraFields.FieldsFrom | src/tools/jira_tools.py:66-90 | the prepared fields have distinct ids, all of them ids of the metadata |
| JiraFields.FieldsFromLast | src/tools/jira_tools.py:66-88 | a skipped mapping entry changes nothing; a used one holds its converted value |
| JiraFields.PrepareCustomFields | src/tools/jira_tools.py:56-90 | preparation succeeds iff the mapping is a dictionary, and then fills only metadata field ids |
| Dates.MonthPart | src/tools/jira_tools.py:81 | a parsed month is between 1 and 12 |
| Dates.DayPart | src/tools/jira_tools.py:81 | a parsed day is between 1 and 31 |
| Dates.ParseMdy | src/tools/jira_tools.py:81 | a parsed date exists in the calendar |
| Dates.Pad2 | src/tools/jira_tools.py:81 | two digits that read back as the number |
| Dates.ConvertDate | src/tools/jira_tools.py:80-83 | unparseable text is kept as it is |
| Dates.ParseMdyRoundTrip | src/tools/jira_tools.py:81 | a date written as month/day/year parses back to itself |
| Dates.ConvertRoundTrip | src/tools/jira_tools.py:81 | a date written as month/day/year converts to its ISO form |
| JiraTools.FirstEpicFor | src/tools/jira_tools.py:16-19 | the first epic whose upper-cased summary contains the upper-cased code, or none |
| JiraTools.FindEpicByAppCode | src/tools/jira_tools.py:10-21 | the key of that first epic, or None |
| JiraTools.FindEpicIgnoresCase | src/tools/jira_tools.py:15 | the lookup does not depend on the code's case |
| JiraTools.EpicSummary | src/tools/jira_tools.py:139 | the code alone, or the code, a dash and the application name |
| JiraTools.RhsaAt | src/tools/jira_tools.py:170-173 | the first field whose name mentions rhsa, or none |
| JiraTools.JiraUpdateNode | src/tools/jira_tools.py:118-181 | no vulnerability data echoes the output; no app code appends the warning; otherwise the main step runs |
| JiraTools.MainStep | src/tools/jira_tools.py:131-181 | the result is epic key, story key and output extended by the ready line; existing keys are kept and cause no creation; a new story is created under the chosen epic |
| JiraTools.EpicStep | src/tools/jira_tools.py:132-141 | an epic is created iff the state has none and none matches the code, with the computed summary and description |
| JiraTools.StoryStep | src/tools/jira_tools.py:143-173 | an existing story is kept; a new story gets the epic and the "Patch id: name" summary; the RHSA update only happens for a created story and a given RHSA id |
| JiraTools.UpdateStoryFields | src/tools/jira_tools.py:93-115 | no metadata updates nothing; it raises iff preparation raises; the RHSA field holds the RHSA id; every other field is the prepared one; all ids are metadata ids |
| JiraTools.WithRhsa | src/tools/jira_tools.py:105-110 | a given RHSA id is written to the first rhsa field; every other field is unchanged |
| GraphClient.Ids | src/utils/gremlin_client.py:36-38 | one text per returned item, in order |
| GraphClient.Columns | src/utils/gremlin_client.py:79-87 | the result columns are read from the first row, and reading succeeds iff the row has every key |
| GraphClient.Counts | src/utils/gremlin_client.py:88 | the counts succeed iff every column has a length, and each count is that column's length |
| GraphClient.Shaped | src/utils/gremlin_client.py:76-89 | no rows give empty lists and empty counts; otherwise the head, the first row's columns and their counts |
| GraphClient.CountsAreLengths | src/utils/gremlin_client.py:88 | each count in the result is the length of the column with the same name |
| GraphClient.AnalyzeImpact | src/utils/gremlin_client.py:60-89 | the impact is the CVE id and the five categories of the query's rows; a failing query raises |
| GraphClient.BlastByHosts | src/utils/gremlin_client.py:94-121 | the five categories and counts of the hosts' query; a failing query raises |
| GraphClient.BlastByApps | src/utils/gremlin_client.py:123-144 | the three categories and counts of the apps' query; a failing query raises |
| GraphClient.Teams | src/utils/gremlin_client.py:149-163 | the team ids of a successful query; a failing query raises |
| GraphClient.PerItem | src/utils/gremlin_client.py:218-256 | every id gets exactly one entry holding its item, and no other id appears |
| GraphClient.FoundTeams | src/utils/gremlin_client.py:242 | a team is found iff some successful lookup for one of the ids returned it |
| GraphClient.BreakdownContents | src/utils/gremlin_client.py:216-256 | one blast radius and one team record per affected host and app, a failure recorded in place, and nothing for other ids |
| GraphClient.UniqueTeams | src/utils/gremlin_client.py:242-260 | the unique teams are duplicate-free and are exactly the teams of the successful host and app lookups |
| GraphClient.Analyse | src/utils/gremlin_client.py:204-269 | a failing impact query leaves the initial result with its error; otherwise the breakdown of the affected hosts and apps |
| GraphClient.ComprehensiveAnalysis | src/utils/gremlin_client.py:174-271 | the result has an error entry iff the analysis failed, and always a summary of the totals and teams found |
| GraphClient.Laid | src/utils/gremlin_client.py:188-202 | the laid-out result has an error key iff there was an error, and its summary |
| GraphTools.Truncate | src/tools/gremlin_tools.py:52-54 | a prefix of at most the cap, and how many items it leaves out |
| GraphTools.Listing | src/tools/gremlin_tools.py:52-54 | at most the cap is listed; beyond it the first cap items and "(and N more)" for the rest |
| GraphTools.CountLines | src/tools/gremlin_tools.py:41-42 | one line per count, in order, with the key as a heading |
| GraphTools.CategoryBlocks | src/tools/gremlin_tools.py:58-65 | at most one block per category |
| GraphTools.SummaryBlock | src/tools/gremlin_tools.py:45-55 | the summary opens with the three totals; the teams line appears iff there are teams, listing at most ten and how many more |
| GraphTools.TeamsCapped | src/tools/gremlin_tools.py:52-54 | ten teams or fewer are all listed; more list the first ten and the count of the rest |
| GraphTools.Body | src/tools/gremlin_tools.py:39-65 | the body opens with the counts when present, else the summary when present, else consists of the category blocks |
| GraphTools.FormatResult | src/tools/gremlin_tools.py:29-67 | an error result renders as "Error: …"; otherwise rendering succeeds iff the lists are text, and is the header, the CVE line when there is a CVE id, then the counts, summary and category blocks |
| GraphTools.IntOfTextRoundTrip | src/tools/gremlin_tools.py:102 | `int(str(n))` is `n` |
| GraphTools.ParseRequest | src/tools/gremlin_tools.py:97-102 | the request reads iff the CVE id is text and hops is a number; operation and hops default; the CVE id is stripped |
| GraphTools.IdList | src/tools/gremlin_tools.py:117-134 | truthy ids give a non-empty list |
| GraphTools.Recorded | src/tools/gremlin_tools.py:131-141 | a failing lookup raises its message; otherwise the record has keys host_ids or app_ids, teams and count, holding the ids, the teams and their number |
| GraphTools.TeamsOf | src/tools/gremlin_tools.py:131-141 | ids that cannot be iterated raise; one id is looked up with the single-id query, several with the query over the list; the record holds the ids, the teams and their count |
| GraphTools.Perform | src/tools/gremlin_tools.py:111-149 | only the seven operations query and any other is refused as unknown; each is refused with its own message exactly when its input is missing; otherwise each runs its own client query on its own input (impact, host or application blast radius, CVE blast radius, host or application teams, comprehensive analysis) |
| GraphTools.DispatchReadsItsInput | src/tools/gremlin_tools.py:111-149 | two requests for the same operation that agree on the input that operation reads (host ids, application ids or CVE id) get the same answer |
| GraphTools.RefusalNeedsNoQuery | src/tools/gremlin_tools.py:111-149 | a refusal does not depend on the database |
| GraphTools.Answer | src/tools/gremlin_tools.py:107-158 | missing configuration, refusals and failures give only an output; a result gives output and `gremlin_result` |
| GraphTools.GremlinNode | src/tools/gremlin_tools.py:70-158 | an unusable reply or request gives only the parse error; otherwise the answer to the request |
| CveData.FromAdvisory | src/tools/cve_data_tool.py:26-39 | a fetch error gives only output; otherwise the records and CSAF data or None, and the extracted ids or the state's |
| CveData.FromLocal | src/tools/cve_data_tool.py:42-54 | records give cve_data and the count message; no records give the "No CVE data" message |
| CveData.CveDataNode | src/tools/cve_data_tool.py:13-58 | an RHSA id comes first, then a list of CVE ids, else the no-source message |
| CveData.AdvisoryFirst | src/tools/cve_data_tool.py:26-39 | with an RHSA id the local database is not consulted |
| CveData.IdsMustBeAList | src/tools/cve_data_tool.py:42 | without an RHSA id, ids that are not a list give the no-source message |
| StateDisplay.Entity | src/utils/ui_helpers.py:35 | an escaped character has no angle bracket, and other characters are kept |
| StateDisplay.EscapeIsCharwise | src/utils/ui_helpers.py:35 | the three replacements escape each character on its own, nothing twice |
| StateDisplay.UnescapeEscape | src/utils/ui_helpers.py:35 | escaping loses nothing: unescaping gives back the value's text |
| StateDisplay.Content | src/utils/ui_helpers.py:22-39 | None for a null, the JSON rendering of a dictionary, and otherwise the escaped text |
| StateDisplay.ScalarHasNoMarkup | src/utils/ui_helpers.py:35 | an escaped value contains no angle bracket |
| StateDisplay.Blocks | src/utils/ui_helpers.py:21-39 | one block per state entry, in order |
| StateDisplay.FormatStateDisplay | src/utils/ui_helpers.py:5-42 | an empty state shows the placeholder; otherwise the heading and one block per entry |
| StateDisplay.ChatReply | src/utils/ui_helpers.py:45-50 | the reply is the output or "", and the panel of the whole result |
| Patcher.Try | src/tools/patcher_tools.py:34-127 | an attempt records its number, command and SSH result; it hands over iff the budget and the verdict allow, and otherwise ends with a status |
| Patcher.Analyse | src/tools/patcher_tools.py:49-87 | an unusable analysis counts as success; success without a retry request ends; a retry with a command within budget hands over |
| Patcher.Resolve | src/tools/patcher_tools.py:89-127 | an SSH error within budget retries with the proposed command; otherwise the step ends in error |
| Patcher.Loop | src/tools/patcher_tools.py:30-130 | the attempts chain: numbered from 1, each runs the command handed over; the last does not hand over; status and success agree; a budget exhausted before any attempt gives the max-retries error with no error in the log |
| Patcher.ExecuteStep | src/tools/patcher_tools.py:12-130 | a step with a budget makes 1 to `max(1, max_retries)` attempts; a negative budget makes none and exceeds retries |
| Patcher.AttemptBound | src/tools/patcher_tools.py:30-95 | a chain of attempts is never longer than `max(1, max_retries)` |
| Patcher.AlwaysFailingAttempts | src/tools/patcher_tools.py:30-130 | a command that always fails, with a model that always proposes a fix, gets exactly `max(1, max_retries)` attempts and ends in error |
| PatchRun.ChoosePlan | src/tools/patcher_tools.py:137-150 | the state's plan first, then the file's; no plan otherwise |
| PatchRun.PreChecks | src/tools/patcher_tools.py:160-170 | one step per pre-check, in order, named `pre_check_<name>` |
| PatchRun.MainSteps | src/tools/patcher_tools.py:179-193 | each step is a main step with a command, with its own configuration |
| PatchRun.MainStepsSelect | src/tools/patcher_tools.py:179-193 | the main steps are exactly the named steps with a command, each once, in order |
| PatchRun.MainStepOrder | src/tools/patcher_tools.py:179-193 | check_packages, apply_remediation and verify_fix run in that order, each iff it has a command |
| PatchRun.Steps | src/tools/patcher_tools.py:159-193 | the pre-checks first, one per entry in order, named `pre_check_<name>`, then the main steps that have a command |
| PatchRun.RunAll | src/tools/patcher_tools.py:163-193 | each planned step runs once with the default budget |
| PatchRun.Report | src/tools/patcher_tools.py:162-202 | one item per step: a pre-check shows its configured command and no attempt count; a main step shows the command of its last attempt and the number of attempts; each shows the status and the output |
| PatchRun.Errors | src/tools/patcher_tools.py:171-209 | there are no errors iff every step succeeded, and each error names a planned step |
| PatchRun.ErrorsSelect | src/tools/patcher_tools.py:171-209 | exactly one error per failed step, in the order the steps ran, each naming its step |
| PatchRun.FinalPhaseDecided | src/tools/patcher_tools.py:227-233 | the final step is end without errors and report with errors |
| PatchRun.ReportHeader | src/tools/patcher_tools.py:212 | the report starts with its header |
| PatchRun.ItemText | src/tools/patcher_tools.py:213-219 | each report item opens with its number and its step name in bold |
| PatchRun.ReportText | src/tools/patcher_tools.py:211-225 | the report is the header and the numbered items, followed by the "Errors and Resolutions" section exactly when there are errors |
| PatchRun.RunPlan | src/tools/patcher_tools.py:155-240 | one log per planned step, errors iff some step failed, the final step decided by the errors, and the report header first |
| PatchRun.PatcherNode | src/tools/patcher_tools.py:133-240 | no plan gives only the message; a plan of the wrong shape raises the attribute error of the first `.get` or `.items()` it reaches; otherwise the run of the chosen plan |
| PatchRun.ShapeError | src/tools/patcher_tools.py:160-187 | a plan raises no shape error iff it is a dictionary whose pre-checks and main steps are dictionaries; a non-dictionary plan fails at `.get` and non-dictionary pre-checks at `.items()` |
| PatchRun.PreChecksListRaises | src/tools/patcher_tools.py:160-162 | a plan whose pre_checks is a list raises at `.items()` before any step runs |

## Left out

- I/O and side effects are not modelled: logging, `print`, SSH, network calls, `createmeta`, `create_issue`, `issue.update`, `transition_issue`, and reading `plan.json`. Their results are parameters.
- Prompt texts are not modelled. The reply to each prompt is a parameter, so the prompt's content has no effect on the model.
- `json.loads` is the `Decoder` parameter, and `json.dumps` is a parameter of the state panel; JSON parsing and printing are not modelled.
- Floats are not modelled (no float JSON values). `JiraClient.Percent`: the percentage is computed on integers by exact division, where the source divides in floating point before `round`.
- Python's `str()`/`repr()` rendering of values (`Json.Show`) is an approximation: escaping inside quoted strings is not modelled.
- Upper/lower/title case and digits are ASCII only.
- `strptime` is modelled only for `%m/%d/%Y` with 1–2 digit month and day and a 4-digit year. Locale-dependent and whitespace tolerance is not modelled.
- `int()` on text accepts an optional sign and digits around whitespace. Underscores and non-ASCII digits are not modelled.
- The Gremlin traversal semantics are left to the database parameter. `hops` only enters the query text.
- `GraphClient.UniqueTeams`: `list(set(...))` has no defined order in Python. The model returns the teams sorted, and the contract states the members and the absence of duplicates.
- `GraphTools.IdList`: lists and texts are iterated as Python does. A dictionary of ids, which Python would iterate by key, is treated as not iterable, like a number.
- A value the source would fail to format raises in Python; where that is caught the model returns the error, and `GraphTools.FormatResult` refuses such a result.
- Exception message texts are abstract. Only whether an error occurred, and where, is modelled.
- `JiraClient.EpicLinkAt` models the search over metadata fields; the follow-up attempt to link via the agile REST endpoint is network I/O and is left out.
- `get_jira_client` and `get_gremlin_client` are singletons reading the environment; configuration is a boolean parameter (`configured`).
- `jira_create_node`, `analyze_vuln_node` and `ssh_node` are handlers outside this model; the routing table only names them.
- The rest of `planner_node` (prompting for a plan) is not part of this model; only its entry guards are.
- `update_details`, `get_issue`, `search_issues` and `_simplify_issue` (other than the percentage) are pass-through network calls and are not modelled.
- `src/utils/cve_client.py`, `src/utils/data_handler.py`, `src/tools/ssh_client.py`, `src/utils/settings.py`, `src/utils/logger.py`, `src/utils/sqlite_checkpointer.py`, `src/ui.py`, `main.py`, `lang_graph_cli.py` and `references/` are not part of this model.
- `AddDetails.PlanUpdate`: the contract states only which key is set. The plan value comes from the merge, whose properties are stated on `AddDetails.MergeRemediationPlans`.
- `AddDetails.ParseStateUpdates`, `AddDetails.AddDetailsNode`: the state's `cve_ids`, `additional_info` and `remediation_plan`, when set, are taken to be a list of strings, a text and a dictionary, as the nodes that store them write them, and `user_input` a text. Other shapes, which Python would meet with its own errors, are not modelled.
- `GraphClient.Analyse`: the affected hosts and applications are taken to be lists of strings (the database's ids). For other values the model ends the analysis with its own error, where Python would iterate them.
- `GraphTools.TeamsOf`: a truthy id value that is neither a list nor a text (a dictionary or a number) raises the model's own message; Python would iterate a dictionary's keys.
- `GraphTools.CategoryBlocks`: the contract bounds the number of blocks. The block texts are in the body.

## Findings

| source | as written | input that shows it | evidently intended | confidence | as-written member | corrected member |
|---|---|---|---|---|---|---|
| src/agents/add_details.py:91-93 | the "deep merge" loop reads `merged[key]` after `merged.update(user_changes)`, so it merges each change with itself and the fallback is a shallow override | existing plan `{"pre_checks": {"disk": "df -h"}}`, changes `{"pre_checks": {"memory": "free -m"}}`: the result is `{"pre_checks": {"memory": "free -m"}}` and the `disk` check is lost | merge each dictionary change into the existing section, `{**existing_plan[key], **value}`, giving `{"pre_checks": {"disk": "df -h", "memory": "free -m"}}` | high, not executed | AddDetails.NestedChangeLost | AddDetails.DeepMergeKeepsNested |

The as-written fallback is `AddDetails.FallbackMerge`, which `AddDetails.FallbackIsShallow` proves equal to a plain `update`; `AddDetails.MergeRemediationPlans` models the node as written and uses it. The corrected fallback is `AddDetails.DeepMerge`, with `AddDetails.DeepMergeLookup` and `AddDetails.DeepMergeKeepsNested` stating what it keeps.
