/** `patcher_node`: runs a remediation plan, pre-checks first and then the
    three main steps, and assembles logs, errors, a Markdown report and the
    workflow step to show next. */
module PatchRun {
  import opened Wrappers
  import opened Text
  import opened Json
  import opened Patcher

  const NO_PLAN: string := "No remediation plan found. Please generate a plan first."
  const MAIN_STEPS: seq<string> := ["check_packages", "apply_remediation", "verify_fix"]
  const HEADER: string := "# Vulnerability Patching Execution Report\n\n"
  const PRE_SUGGESTION: string := "Review system requirements and environment configuration."
  const PRE_REASONING: string := "Pre-check validation failed. Ensure system meets requirements."
  const STEP_SUGGESTION: string := "Review command and system state."
  const STEP_REASONING: string := "Step execution failed after retries."

  /** Workflow steps of the patch run (`current_step`). */
  const PRE_CHECK_PHASE: nat := 5
  const PATCH_PHASE: nat := 6
  const VERIFY_PHASE: nat := 7
  const REPORT_PHASE: nat := 8
  const END_PHASE: nat := 9

  /** A step the run executes: the name given to the executor, the name shown
      for a pre-check, its configuration, and whether it is a pre-check. */
  datatype Planned = Planned(name: string, shown: string, config: Json, preCheck: bool)

  datatype ReportItem = ReportItem(step: string, command: Json, output: string, status: Status, attempts: Option<nat>)

  datatype StepError = StepError(step: string, error: string, suggestion: Json, reasoning: string)

  datatype RunOutput =
    | NoPlan(message: string)
    | Ran(output: string, logs: seq<StepLog>, errors: seq<StepError>, currentStep: nat)

  /** The plan taken from the state, or else the one stored on disk (`None`
      when the file is absent or unreadable). */
  function ChoosePlan(state: Json, filePlan: Option<Json>): (plan: Json)
    requires state.JObj?
    ensures Truthy(Get(state, "remediation_plan")) ==> plan == Get(state, "remediation_plan")
    ensures !Truthy(Get(state, "remediation_plan")) && filePlan.Some? ==> plan == filePlan.value
    ensures !Truthy(Get(state, "remediation_plan")) && filePlan.None? ==> !Truthy(plan)
  {
    var plan := Get(state, "remediation_plan");
    if Truthy(plan) then plan else if filePlan.Some? then filePlan.value else plan
  }

  function StepConfig(plan: Json, name: string): Json
    requires plan.JObj?
  {
    GetOr(plan, name, EmptyObj())
  }

  /** The source calls `.get` and `.items()` on the plan and on every step
      configuration in it; these must therefore be objects. */
  predicate WellShaped(plan: Json) {
    && plan.JObj?
    && StepConfig(plan, "pre_checks").JObj?
    && (forall i :: 0 <= i < |StepConfig(plan, "pre_checks").fields| ==> StepConfig(plan, "pre_checks").fields[i].1.JObj?)
    && (forall n :: n in MAIN_STEPS ==> StepConfig(plan, n).JObj?)
  }

  /** One executed step per pre-check, in the pre-checks' order. */
  function PreChecks(fs: seq<(string, Json)>): (r: seq<Planned>)
    ensures |r| == |fs|
    ensures forall i :: 0 <= i < |fs| ==>
      r[i].preCheck && r[i].shown == fs[i].0 && r[i].name == "pre_check_" + fs[i].0 && r[i].config == fs[i].1
  {
    if fs == [] then [] else [Planned("pre_check_" + fs[0].0, fs[0].0, fs[0].1, true)] + PreChecks(fs[1..])
  }

  function Names(ps: seq<Planned>): (r: seq<string>)
    ensures |r| == |ps| && forall i :: 0 <= i < |ps| ==> r[i] == ps[i].name
  {
    if ps == [] then [] else [ps[0].name] + Names(ps[1..])
  }

  /** The configuration of step `name` has a truthy command. */
  predicate HasCommand(plan: Json, name: string)
    requires plan.JObj? && StepConfig(plan, name).JObj?
  {
    Truthy(Get(StepConfig(plan, name), "command"))
  }

  /** `idx` lists, in increasing order, exactly the positions below `n` that
      are in `keep`: it describes a filter that keeps order. */
  predicate Selects(idx: seq<nat>, n: nat, keep: set<int>) {
    && (forall k :: 0 <= k < |idx| ==> idx[k] < n)
    && (forall k, l :: 0 <= k < l < |idx| ==> idx[k] < idx[l])
    && (forall i :: 0 <= i < n ==> (i in keep <==> i in idx))
  }

  /** `idx` shifted past one more leading position. */
  function Shift(idx: seq<nat>): (r: seq<nat>)
    ensures |r| == |idx| && forall k :: 0 <= k < |idx| ==> r[k] == idx[k] + 1
  {
    seq(|idx|, k requires 0 <= k < |idx| => idx[k] + 1)
  }

  /** The main steps whose configuration has a command. */
  function MainSteps(plan: Json, names: seq<string>): (r: seq<Planned>)
    requires plan.JObj? && forall i :: 0 <= i < |names| ==> StepConfig(plan, names[i]).JObj?
    ensures |r| <= |names|
    ensures forall i :: 0 <= i < |r| ==>
      && !r[i].preCheck && r[i].name in names && r[i].shown == r[i].name
      && r[i].config == StepConfig(plan, r[i].name)
      && HasCommand(plan, r[i].name)
  {
    if names == [] then []
    else
      var c := StepConfig(plan, names[0]);
      var rest := MainSteps(plan, names[1..]);
      if HasCommand(plan, names[0]) then [Planned(names[0], names[0], c, false)] + rest else rest
  }

  /** Selecting position 0 or not, before a selection shifted by one. */
  lemma SelectsCons(rest: seq<nat>, n: nat, keep': set<int>, keep: set<int>, head: bool)
    requires Selects(rest, n, keep')
    requires forall i :: 0 <= i <= n ==> (i in keep <==> if i == 0 then head else i - 1 in keep')
    ensures Selects(if head then [0] + Shift(rest) else Shift(rest), n + 1, keep)
  {
    var tail := Shift(rest);
    var idx := if head then [0] + tail else tail;
    forall i | 0 <= i < n + 1
      ensures i in keep <==> i in idx
    {
      if i > 0 {
        assert (i - 1 in rest) <==> i in tail;
      }
    }
  }

  /** Picking the head or not, before picks from the tail shifted by one. */
  lemma ConsPicks(r: seq<string>, r': seq<string>, names: seq<string>, rest: seq<nat>, head: bool)
    requires names != []
    requires |rest| == |r'| && forall k :: 0 <= k < |rest| ==> rest[k] < |names| - 1 && r'[k] == names[1..][rest[k]]
    requires r == if head then [names[0]] + r' else r'
    ensures var idx := if head then [0] + Shift(rest) else Shift(rest);
      |idx| == |r| && forall k :: 0 <= k < |idx| ==> idx[k] < |names| && r[k] == names[idx[k]]
  {
    var tail := Shift(rest);
    forall k | 0 <= k < |tail|
      ensures tail[k] < |names| && r'[k] == names[tail[k]]
    {
      assert tail[k] == rest[k] + 1;
      assert names[1..][rest[k]] == names[rest[k] + 1];
    }
    if head {
      var idx := [0] + tail;
      forall k | 0 <= k < |idx|
        ensures idx[k] < |names| && r[k] == names[idx[k]]
      {
        if k > 0 {
          assert idx[k] == tail[k - 1] && r[k] == r'[k - 1];
        }
      }
    }
  }

  /** The positions of the names whose step has a command. */
  function Commanded(plan: Json, names: seq<string>): (r: set<int>)
    requires plan.JObj? && forall i :: 0 <= i < |names| ==> StepConfig(plan, names[i]).JObj?
    ensures forall i :: i in r <==> 0 <= i < |names| && HasCommand(plan, names[i])
  {
    set i | 0 <= i < |names| && HasCommand(plan, names[i])
  }

  /** The main steps run are exactly the named steps with a command, each
      once, in the order of `names`. */
  lemma {:induction false} MainStepsSelect(plan: Json, names: seq<string>) returns (idx: seq<nat>)
    requires plan.JObj? && forall i :: 0 <= i < |names| ==> StepConfig(plan, names[i]).JObj?
    ensures Selects(idx, |names|, Commanded(plan, names))
    ensures |idx| == |MainSteps(plan, names)|
    ensures forall k :: 0 <= k < |idx| ==> Names(MainSteps(plan, names))[k] == names[idx[k]]
    decreases |names|
  {
    if names == [] {
      idx := [];
    } else {
      var rest := MainStepsSelect(plan, names[1..]);
      var head := HasCommand(plan, names[0]);
      assert forall i :: 0 < i < |names| ==> names[1..][i - 1] == names[i];
      SelectsCons(rest, |names| - 1, Commanded(plan, names[1..]), Commanded(plan, names), head);
      idx := if head then [0] + Shift(rest) else Shift(rest);
      var r := MainSteps(plan, names);
      var r' := MainSteps(plan, names[1..]);
      if head {
        assert r == [Planned(names[0], names[0], StepConfig(plan, names[0]), false)] + r';
        assert Names(r) == [names[0]] + Names(r');
      } else {
        assert r == r';
      }
      ConsPicks(Names(r), Names(r'), names, rest, head);
    }
  }

  /** For the plan's three main steps: `check_packages`, `apply_remediation`
      and `verify_fix` run in that order, each when it has a command. */
  lemma MainStepOrder(plan: Json)
    requires WellShaped(plan)
    ensures Names(MainSteps(plan, MAIN_STEPS)) ==
      (if HasCommand(plan, "check_packages") then ["check_packages"] else [])
      + (if HasCommand(plan, "apply_remediation") then ["apply_remediation"] else [])
      + (if HasCommand(plan, "verify_fix") then ["verify_fix"] else [])
  {
    ThreeSteps(plan, "check_packages", "apply_remediation", "verify_fix");
  }

  /** Three named steps run in their order, each when it has a command. */
  lemma ThreeSteps(plan: Json, a: string, b: string, c: string)
    requires plan.JObj? && StepConfig(plan, a).JObj? && StepConfig(plan, b).JObj? && StepConfig(plan, c).JObj?
    ensures Names(MainSteps(plan, [a, b, c])) ==
      (if HasCommand(plan, a) then [a] else [])
      + (if HasCommand(plan, b) then [b] else [])
      + (if HasCommand(plan, c) then [c] else [])
  {
    var ra := if HasCommand(plan, a) then [a] else [];
    var rb := if HasCommand(plan, b) then [b] else [];
    var rc := if HasCommand(plan, c) then [c] else [];
    var names := [a, b, c];
    forall i | 0 <= i < |names|
      ensures StepConfig(plan, names[i]).JObj?
    {
      assert names[i] == if i == 0 then a else if i == 1 then b else c;
    }
    var whole, rest := Names(MainSteps(plan, names)), Names(MainSteps(plan, [b, c]));
    assert whole == ra + rest by {
      assert names[0] == a && names[1..] == [b, c];
      MainStepsCons(plan, names);
    }
    assert rest == rb + rc by {
      TwoSteps(plan, b, c);
    }
    Regroup(whole, rest, ra, rb, rc);
  }

  lemma Regroup(whole: seq<string>, rest: seq<string>, x: seq<string>, y: seq<string>, z: seq<string>)
    requires whole == x + rest && rest == y + z
    ensures whole == x + y + z
  {
  }

  lemma TwoSteps(plan: Json, b: string, c: string)
    requires plan.JObj? && StepConfig(plan, b).JObj? && StepConfig(plan, c).JObj?
    ensures Names(MainSteps(plan, [b, c])) ==
      (if HasCommand(plan, b) then [b] else []) + (if HasCommand(plan, c) then [c] else [])
  {
    assert [b, c][1..] == [c];
    OneStep(plan, c);
    MainStepsCons(plan, [b, c]);
  }

  lemma OneStep(plan: Json, c: string)
    requires plan.JObj? && StepConfig(plan, c).JObj?
    ensures Names(MainSteps(plan, [c])) == (if HasCommand(plan, c) then [c] else [])
  {
    assert [c][1..] == [];
    MainStepsCons(plan, [c]);
    var rc := if HasCommand(plan, c) then [c] else [];
    assert rc + [] == rc;
  }

  /** The first name's step, if it has a command, before the rest's. */
  lemma MainStepsCons(plan: Json, names: seq<string>)
    requires plan.JObj? && names != [] && forall i :: 0 <= i < |names| ==> StepConfig(plan, names[i]).JObj?
    ensures Names(MainSteps(plan, names))
      == (if HasCommand(plan, names[0]) then [names[0]] else []) + Names(MainSteps(plan, names[1..]))
  {
    var r' := MainSteps(plan, names[1..]);
    if HasCommand(plan, names[0]) {
      var h := Planned(names[0], names[0], StepConfig(plan, names[0]), false);
      assert MainSteps(plan, names) == [h] + r';
      assert ([h] + r')[1..] == r';
    }
  }

  /** Everything the run executes: the pre-checks, then the main steps. */
  function Steps(plan: Json): (r: seq<Planned>)
    requires WellShaped(plan)
    ensures var pre := StepConfig(plan, "pre_checks").fields;
      && |pre| <= |r| <= |pre| + |MAIN_STEPS|
      && (forall i :: 0 <= i < |pre| ==> r[i].preCheck && r[i].name == "pre_check_" + pre[i].0 && r[i].config == pre[i].1)
      && r[|pre|..] == MainSteps(plan, MAIN_STEPS)
    ensures forall i :: 0 <= i < |r| ==> r[i].config.JObj?
  {
    var pre := PreChecks(StepConfig(plan, "pre_checks").fields);
    var main := MainSteps(plan, MAIN_STEPS);
    assert (pre + main)[|pre|..] == main;
    pre + main
  }

  /** Each planned step through the executor with the default budget. */
  function RunAll(env: Env, ps: seq<Planned>): (r: seq<StepResult>)
    requires forall i :: 0 <= i < |ps| ==> ps[i].config.JObj?
    ensures |r| == |ps|
    ensures forall i :: 0 <= i < |ps| ==> r[i] == ExecuteStep(env, ps[i].name, ps[i].config, DEFAULT_MAX_RETRIES)
  {
    if ps == [] then [] else [ExecuteStep(env, ps[0].name, ps[0].config, DEFAULT_MAX_RETRIES)] + RunAll(env, ps[1..])
  }

  function Logs(rs: seq<StepResult>): (r: seq<StepLog>)
    ensures |r| == |rs| && forall i :: 0 <= i < |rs| ==> r[i] == rs[i].log
  {
    if rs == [] then [] else [rs[0].log] + Logs(rs[1..])
  }

  /** `step_name.replace("_", " ").title()`. */
  function StepTitle(name: string): string {
    Title(ReplaceAll(name, "_", " "))
  }

  /** The command the step ended with: its last attempt's, or the configured
      one when nothing ran. */
  function FinalCommand(p: Planned, res: StepResult): Json
    requires p.config.JObj?
  {
    var atts := res.log.attempts;
    if atts != [] then atts[|atts| - 1].command else GetOr(p.config, "command", JStr(""))
  }

  function ReportOf(p: Planned, res: StepResult): ReportItem
    requires p.config.JObj?
  {
    if p.preCheck then
      ReportItem("Pre-check: " + p.shown, Get(p.config, "command"), res.output.GetOr(""), res.log.status, None)
    else
      ReportItem(StepTitle(p.name), FinalCommand(p, res), res.output.GetOr(""), res.log.status, Some(|res.log.attempts|))
  }

  function ErrorOf(p: Planned, res: StepResult): (e: StepError)
    ensures e.step == p.name
  {
    if p.preCheck then
      StepError(p.name, res.error.GetOr("Pre-check failed"), JStr(PRE_SUGGESTION), PRE_REASONING)
    else
      StepError(p.name, res.error.GetOr("Step failed"), res.log.analysis.GetOr(JStr(STEP_SUGGESTION)), STEP_REASONING)
  }

  /** One report item per executed step, in order: a pre-check shows its
      name and configured command, a main step its title, the command its
      last attempt ran and its number of attempts; each shows the status of
      its log and its SSH output. */
  function Report(ps: seq<Planned>, rs: seq<StepResult>): (r: seq<ReportItem>)
    requires |ps| == |rs| && forall i :: 0 <= i < |ps| ==> ps[i].config.JObj?
    ensures |r| == |ps|
    ensures forall i :: 0 <= i < |ps| ==>
      && r[i].status == rs[i].log.status
      && r[i].output == rs[i].output.GetOr("")
      && (ps[i].preCheck ==> r[i].step == "Pre-check: " + ps[i].shown && r[i].command == Get(ps[i].config, "command") && r[i].attempts.None?)
      && (!ps[i].preCheck ==> r[i].step == StepTitle(ps[i].name) && r[i].attempts == Some(|rs[i].log.attempts|))
      && (!ps[i].preCheck && rs[i].log.attempts != [] ==> r[i].command == rs[i].log.attempts[|rs[i].log.attempts| - 1].command)
  {
    if ps == [] then [] else [ReportOf(ps[0], rs[0])] + Report(ps[1..], rs[1..])
  }

  /** An error entry for each step whose result is not successful. */
  function Errors(ps: seq<Planned>, rs: seq<StepResult>): (r: seq<StepError>)
    requires |ps| == |rs|
    ensures |r| <= |rs|
    ensures r == [] <==> forall i :: 0 <= i < |rs| ==> Truthy(rs[i].success)
    ensures forall i :: 0 <= i < |r| ==> r[i].step in Names(ps)
  {
    if ps == [] then []
    else
      var rest := Errors(ps[1..], rs[1..]);
      assert forall i :: 0 <= i < |rest| ==> rest[i].step in Names(ps) by {
        assert Names(ps) == [ps[0].name] + Names(ps[1..]);
      }
      if Truthy(rs[0].success) then
        assert forall i :: 1 <= i < |rs| ==> rs[1..][i - 1] == rs[i];
        rest
      else [ErrorOf(ps[0], rs[0])] + rest
  }

  /** The positions of the steps that did not succeed. */
  function Failed(rs: seq<StepResult>): (r: set<int>)
    ensures forall i :: i in r <==> 0 <= i < |rs| && !Truthy(rs[i].success)
  {
    set i | 0 <= i < |rs| && !Truthy(rs[i].success)
  }

  /** The error entries are exactly one per failed step, in the order the
      steps ran, each naming its step. */
  lemma {:induction false} ErrorsSelect(ps: seq<Planned>, rs: seq<StepResult>) returns (idx: seq<nat>)
    requires |ps| == |rs|
    ensures Selects(idx, |rs|, Failed(rs))
    ensures |idx| == |Errors(ps, rs)|
    ensures forall k :: 0 <= k < |idx| ==> Errors(ps, rs)[k] == ErrorOf(ps[idx[k]], rs[idx[k]])
    ensures forall k :: 0 <= k < |idx| ==> Errors(ps, rs)[k].step == ps[idx[k]].name
    decreases |ps|
  {
    if ps == [] {
      idx := [];
    } else {
      var rest := ErrorsSelect(ps[1..], rs[1..]);
      var head := !Truthy(rs[0].success);
      FailedCons(rs);
      SelectsCons(rest, |rs| - 1, Failed(rs[1..]), Failed(rs), head);
      idx := if head then [0] + Shift(rest) else Shift(rest);
      ErrorsUnfold(ps, rs);
      ShiftedErrors(ps, rs, rest);
      ErrorsCons(ps, rs, Errors(ps, rs), Errors(ps[1..], rs[1..]), Shift(rest), head);
    }
  }

  /** A step after the first failed exactly when it failed among the rest. */
  lemma FailedCons(rs: seq<StepResult>)
    requires |rs| > 0
    ensures forall i :: 0 <= i <= |rs| - 1 ==>
      (i in Failed(rs) <==> if i == 0 then !Truthy(rs[0].success) else i - 1 in Failed(rs[1..]))
  {
    forall i | 0 < i <= |rs| - 1
      ensures i in Failed(rs) <==> i - 1 in Failed(rs[1..])
    {
      assert rs[1..][i - 1] == rs[i];
    }
  }

  /** The error entries of the rest, positioned past the first step, are
      the error entries of the whole run after its first step's entry. */
  lemma ErrorsCons(ps: seq<Planned>, rs: seq<StepResult>, e: seq<StepError>, e': seq<StepError>, tail: seq<nat>, head: bool)
    requires |ps| == |rs| > 0
    requires e == if head then [ErrorOf(ps[0], rs[0])] + e' else e'
    requires |tail| == |e'| && forall k :: 0 <= k < |tail| ==> tail[k] < |ps|
    requires forall k :: 0 <= k < |tail| ==> e'[k] == ErrorOf(ps[tail[k]], rs[tail[k]])
    ensures var idx := if head then [0] + tail else tail;
      && |idx| == |e|
      && forall k :: 0 <= k < |idx| ==> e[k] == ErrorOf(ps[idx[k]], rs[idx[k]])
  {
    var idx := if head then [0] + tail else tail;
    forall k | 0 <= k < |idx|
      ensures e[k] == ErrorOf(ps[idx[k]], rs[idx[k]])
    {
      if head && k > 0 {
        assert e[k] == e'[k - 1] && idx[k] == tail[k - 1];
      }
    }
  }

  /** The error entries of a run: its first step's, when it failed, then
      those of the rest. */
  lemma ErrorsUnfold(ps: seq<Planned>, rs: seq<StepResult>)
    requires |ps| == |rs| > 0
    ensures Errors(ps, rs) == if !Truthy(rs[0].success) then [ErrorOf(ps[0], rs[0])] + Errors(ps[1..], rs[1..]) else Errors(ps[1..], rs[1..])
  {
  }

  /** Positions among the rest, shifted by one, are positions of the run. */
  lemma ShiftedErrors(ps: seq<Planned>, rs: seq<StepResult>, rest: seq<nat>)
    requires |ps| == |rs| > 0
    requires |rest| == |Errors(ps[1..], rs[1..])|
    requires forall k :: 0 <= k < |rest| ==> rest[k] < |rs| - 1
    requires forall k :: 0 <= k < |rest| ==> Errors(ps[1..], rs[1..])[k] == ErrorOf(ps[1..][rest[k]], rs[1..][rest[k]])
    ensures forall k :: 0 <= k < |rest| ==> Shift(rest)[k] < |ps|
    ensures forall k :: 0 <= k < |rest| ==> Errors(ps[1..], rs[1..])[k] == ErrorOf(ps[Shift(rest)[k]], rs[Shift(rest)[k]])
  {
    var e' := Errors(ps[1..], rs[1..]);
    forall k | 0 <= k < |rest|
      ensures e'[k] == ErrorOf(ps[Shift(rest)[k]], rs[Shift(rest)[k]])
    {
      assert Shift(rest)[k] == rest[k] + 1;
      assert ps[1..][rest[k]] == ps[rest[k] + 1] && rs[1..][rest[k]] == rs[rest[k] + 1];
    }
  }

  /** The workflow step reached by the loops: 5 for pre-checks, then 6 or 7
      for the last main step that ran. */
  function PhaseAfter(ps: seq<Planned>, phase: nat): nat {
    if ps == [] then phase
    else
      var p := ps[0];
      var next := if p.preCheck then phase
        else if p.name == "check_packages" || p.name == "apply_remediation" then PATCH_PHASE
        else if p.name == "verify_fix" then VERIFY_PHASE
        else phase;
      PhaseAfter(ps[1..], next)
  }

  function ItemText(i: nat, item: ReportItem): (r: string)
    ensures StartsWith(r, NatToString(i) + ". **" + item.step + "**\n")
  {
    NatToString(i) + ". **" + item.step + "**\n"
    + "   - Command: `" + Show(item.command) + "`\n"
    + "   - Status: " + StatusText(item.status) + "\n"
    + (if item.attempts.GetOr(1) > 1 then "   - Attempts: " + NatToString(item.attempts.GetOr(1)) + "\n" else "")
    + "   - SSH Output:\n```\n" + item.output + "\n```\n\n"
  }

  function ItemsText(items: seq<ReportItem>, first: nat): string
    decreases |items|
  {
    if items == [] then "" else ItemText(first, items[0]) + ItemsText(items[1..], first + 1)
  }

  function ErrorText(e: StepError): string {
    "- **" + e.step + "**: " + e.error + "\n" + "  - Suggestion: " + Show(e.suggestion) + "\n\n"
  }

  function ErrorsText(es: seq<StepError>): string {
    if es == [] then "" else ErrorText(es[0]) + ErrorsText(es[1..])
  }

  /** The point-wise report: the header, one numbered item per step, and an
      errors section when there are errors. */
  function ReportText(items: seq<ReportItem>, errors: seq<StepError>): (r: string)
    ensures StartsWith(r, HEADER + ItemsText(items, 1))
    ensures errors == [] ==> r == HEADER + ItemsText(items, 1)
    ensures errors != [] ==> var tail := ERRORS_HEADING + ErrorsText(errors);
      |tail| <= |r| && r[|r| - |tail|..] == tail
  {
    var body := HEADER + ItemsText(items, 1);
    var r := body + (if errors != [] then ERRORS_HEADING + ErrorsText(errors) else "");
    assert r[..|body|] == body;
    r
  }

  const ERRORS_HEADING: string := "## Errors and Resolutions\n\n"

  /** The final `current_step` as the source decides it: report or end when the
      report text mentions the execution report, the loops' step otherwise. */
  function FinalPhase(text: string, errors: seq<StepError>, phase: nat): nat {
    if Contains(text, "Execution Report") then (if errors == [] then END_PHASE else REPORT_PHASE) else phase
  }

  /** The report always starts with the header, so the run always ends at the
      report step when something failed and at the end otherwise. */
  lemma FinalPhaseDecided(items: seq<ReportItem>, errors: seq<StepError>, phase: nat)
    ensures FinalPhase(ReportText(items, errors), errors, phase) == if errors == [] then END_PHASE else REPORT_PHASE
  {
    ReportHeader(items, errors);
    HeaderMentionsReport(ReportText(items, errors));
  }

  lemma HeaderMentionsReport(text: string)
    requires |text| >= |HEADER| && text[..|HEADER|] == HEADER
    ensures Contains(text, "Execution Report")
  {
    assert text[25..41] == HEADER[25..41];
    assert HEADER[25..41] == "Execution Report";
    IndexOfAtMost(text, "Execution Report", 25);
  }

  /** The report starts with its header. */
  lemma ReportHeader(items: seq<ReportItem>, errors: seq<StepError>)
    ensures |ReportText(items, errors)| >= |HEADER| && ReportText(items, errors)[..|HEADER|] == HEADER
  {
  }

  /** Running a plan: logs follow the planned steps one to one, there is an
      error entry exactly when some step did not succeed, and the run ends at
      the report step or at the end. */
  function RunPlan(env: Env, plan: Json): (r: RunOutput)
    requires WellShaped(plan)
    ensures r.Ran?
    ensures var ps := Steps(plan);
      && |r.logs| == |ps|
      && (forall i :: 0 <= i < |ps| ==> r.logs[i] == ExecuteStep(env, ps[i].name, ps[i].config, DEFAULT_MAX_RETRIES).log)
      && (r.errors == [] <==> forall i :: 0 <= i < |ps| ==> Truthy(ExecuteStep(env, ps[i].name, ps[i].config, DEFAULT_MAX_RETRIES).success))
      && |r.errors| <= |ps|
    ensures r.currentStep == (if r.errors == [] then END_PHASE else REPORT_PHASE)
    ensures |r.output| >= |HEADER| && r.output[..|HEADER|] == HEADER
  {
    RunSteps(env, Steps(plan))
  }

  /** Running planned steps, whatever plan they come from. */
  function RunSteps(env: Env, ps: seq<Planned>): (r: RunOutput)
    requires forall i :: 0 <= i < |ps| ==> ps[i].config.JObj?
    ensures r.Ran?
    ensures && |r.logs| == |ps|
      && (forall i :: 0 <= i < |ps| ==> r.logs[i] == ExecuteStep(env, ps[i].name, ps[i].config, DEFAULT_MAX_RETRIES).log)
      && (r.errors == [] <==> forall i :: 0 <= i < |ps| ==> Truthy(ExecuteStep(env, ps[i].name, ps[i].config, DEFAULT_MAX_RETRIES).success))
      && |r.errors| <= |ps|
    ensures r.currentStep == (if r.errors == [] then END_PHASE else REPORT_PHASE)
    ensures |r.output| >= |HEADER| && r.output[..|HEADER|] == HEADER
  {
    var rs := RunAll(env, ps);
    var items := Report(ps, rs);
    var errors := Errors(ps, rs);
    var text := ReportText(items, errors);
    var phase := PhaseAfter(ps, PRE_CHECK_PHASE);
    FinalPhaseDecided(items, errors, phase);
    ReportHeader(items, errors);
    RunFacts(env, ps);
    Ran(text, Logs(rs), errors, FinalPhase(text, errors, phase))
  }

  /** The logs and errors of running the steps, in terms of each step's own
      execution. */
  lemma RunFacts(env: Env, ps: seq<Planned>)
    requires forall i :: 0 <= i < |ps| ==> ps[i].config.JObj?
    ensures var rs := RunAll(env, ps);
      && |Logs(rs)| == |ps|
      && (forall i :: 0 <= i < |ps| ==> Logs(rs)[i] == ExecuteStep(env, ps[i].name, ps[i].config, DEFAULT_MAX_RETRIES).log)
      && (Errors(ps, rs) == [] <==> forall i :: 0 <= i < |ps| ==> Truthy(ExecuteStep(env, ps[i].name, ps[i].config, DEFAULT_MAX_RETRIES).success))
      && |Errors(ps, rs)| <= |ps|
  {
    var rs := RunAll(env, ps);
    assert forall i :: 0 <= i < |ps| ==> rs[i].success == ExecuteStep(env, ps[i].name, ps[i].config, DEFAULT_MAX_RETRIES).success;
  }

  /** The message of the `AttributeError` raised when `.attr` is looked up
      on a value that is not a dictionary. */
  function NoAttribute(j: Json, attr: string): string {
    "'" + TypeName(j) + "' object has no attribute '" + attr + "'"
  }

  /** The error a plan of the wrong shape raises on its way through the run,
      in the order the run touches it: `plan.get`, then
      `pre_checks.items()`, then `.get` on each pre-check's configuration,
      then `.get` on each main step's configuration. */
  function ShapeError(plan: Json): (r: Option<string>)
    ensures r.None? <==> WellShaped(plan)
    ensures !plan.JObj? ==> r == Some(NoAttribute(plan, "get"))
    ensures plan.JObj? && !StepConfig(plan, "pre_checks").JObj? ==> r == Some(NoAttribute(StepConfig(plan, "pre_checks"), "items"))
    ensures r.Some? ==> exists j: Json, attr: string :: r.value == NoAttribute(j, attr) && !j.JObj?
  {
    if !plan.JObj? then Some(NoAttribute(plan, "get"))
    else
      var pre := StepConfig(plan, "pre_checks");
      if !pre.JObj? then Some(NoAttribute(pre, "items"))
      else
        match FirstWhere(pre.fields, (f: (string, Json)) => !f.1.JObj?)
        case Some(i) => Some(NoAttribute(pre.fields[i].1, "get"))
        case None =>
          match FirstWhere(MAIN_STEPS, (n: string) => !StepConfig(plan, n).JObj?)
          case Some(i) => Some(NoAttribute(StepConfig(plan, MAIN_STEPS[i]), "get"))
          case None => None
  }

  /** `patcher_node(state)`, with the plan file's content as `filePlan`: no
      plan gives the guidance; a plan of the wrong shape raises; any other
      plan is run. */
  function PatcherNode(env: Env, state: Json, filePlan: Option<Json>): (r: Result<RunOutput>)
    requires state.JObj?
    ensures !Truthy(ChoosePlan(state, filePlan)) ==> r == Ok(NoPlan(NO_PLAN))
    ensures Truthy(ChoosePlan(state, filePlan)) ==> (r.Raised? <==> !WellShaped(ChoosePlan(state, filePlan)))
    ensures r.Raised? ==> Some(r.message) == ShapeError(ChoosePlan(state, filePlan))
    ensures Truthy(ChoosePlan(state, filePlan)) && WellShaped(ChoosePlan(state, filePlan)) ==> r == Ok(RunPlan(env, ChoosePlan(state, filePlan)))
  {
    var plan := ChoosePlan(state, filePlan);
    if !Truthy(plan) then Ok(NoPlan(NO_PLAN))
    else match ShapeError(plan)
      case Some(e) => Raised(e)
      case None => Ok(RunPlan(env, plan))
  }

  /** A plan whose `pre_checks` is a list, as a model may write it, makes
      `.items()` raise ("'list' object has no attribute 'items'") before any
      step runs. */
  lemma PreChecksListRaises(env: Env, commands: seq<Json>)
    ensures var state := JObj([("remediation_plan", JObj([("pre_checks", JList(commands))]))]);
      PatcherNode(env, state, None) == Raised(NoAttribute(JList(commands), "items"))
  {
    var plan := JObj([("pre_checks", JList(commands))]);
    var state := JObj([("remediation_plan", plan)]);
    assert ChoosePlan(state, None) == plan by {
      assert Get(state, "remediation_plan") == plan;
    }
    ListPreChecksShape(commands);
  }

  lemma ListPreChecksShape(commands: seq<Json>)
    ensures ShapeError(JObj([("pre_checks", JList(commands))])) == Some(NoAttribute(JList(commands), "items"))
  {
    var plan := JObj([("pre_checks", JList(commands))]);
    assert StepConfig(plan, "pre_checks") == JList(commands);
  }
}
