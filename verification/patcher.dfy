/** The step executor and the patch run. One remediation step runs its
    command over SSH, asks the language model to judge the output, and
    retries with a corrected command within a bounded budget. A patch run
    executes every pre-check and every main step of a remediation plan and
    assembles the logs, the error list, the report and the next workflow
    step. SSH and the language model are oracles. */
module Patcher {
  import opened Wrappers
  import opened Text
  import opened Json
  import opened Fence

  /** What `ssh.run(command)` did: returned the output or raised. */
  datatype SshReply = Output(out: string) | Failure(error: string)

  /** The external services one step talks to, as canned answers indexed by
      step name and attempt number. The prompts are not modelled. */
  datatype Env = Env(
    ssh: (string, nat, Json) -> SshReply,
    analyse: (string, nat) -> Reply,
    resolve: (string, nat) -> Reply,
    decode: Decoder)

  datatype Status = Pending | Success | PartialSuccess | Error

  /** What the model contributed to one attempt. */
  datatype Note =
    | NoNote
    | Analysed(analysis: Json)
    | AnalysisFailed(decoded: Option<Json>)
    | Resolved(resolution: Json)
    | ResolutionFailed(decoded: Option<Json>)

  /** One entry of `log_entry["attempts"]`. */
  datatype Attempt = Attempt(number: nat, command: Json, ran: SshReply, note: Note)

  /** The log entry of a step. `error` is the SSH error that ended the step
      and `analysis` the reason of an analysis that ended it without full
      success; the "Max retries exceeded" exit records neither. */
  datatype StepLog = StepLog(
    step: string,
    command: Json,
    status: Status,
    attempts: seq<Attempt>,
    output: Option<string>,
    error: Option<string>,
    analysis: Option<Json>)

  /** The dictionary `execute_and_analyze_step` returns. */
  datatype StepResult = StepResult(success: Json, log: StepLog, output: Option<string>, error: Option<string>)

  const DEFAULT_MAX_RETRIES: int := 2
  const MAX_RETRIES_EXCEEDED: string := "Max retries exceeded"

  function StatusText(s: Status): string {
    match s
    case Pending => "pending"
    case Success => "success"
    case PartialSuccess => "partial_success"
    case Error => "error"
  }

  /** The analysis reports success and asks for no retry. */
  predicate Accepts(an: Json)
    requires an.JObj?
  {
    Truthy(Get(an, "success")) && !Truthy(Get(an, "needs_retry"))
  }

  /** The analysis asks for a retry and proposes a command. */
  predicate AsksRetry(an: Json)
    requires an.JObj?
  {
    Truthy(Get(an, "needs_retry")) && Truthy(Get(an, "updated_command"))
  }

  function Reason(an: Json): Json
    requires an.JObj?
  {
    GetOr(an, "reason", JStr(""))
  }

  function Max(a: int, b: int): int {
    if a >= b then a else b
  }

  /** Attempt `a` handed over to a next attempt: either the analysis asked for
      a retry, or the failure was resolved; and the budget allowed it. */
  predicate Continues(a: Attempt, maxRetries: int) {
    a.number < maxRetries &&
    match a.note
    case Analysed(an) => a.ran.Output? && an.JObj? && !Accepts(an) && AsksRetry(an)
    case Resolved(res) => a.ran.Failure? && res.JObj?
    case _ => false
  }

  /** The command the attempt after `a` runs: the analysis's proposal, or the
      resolution's, defaulting to the command that failed. */
  function NextCommand(a: Attempt): Json {
    match a.note
    case Analysed(an) => if an.JObj? then Get(an, "updated_command") else a.command
    case Resolved(res) => if res.JObj? then GetOr(res, "updated_command", a.command) else a.command
    case _ => a.command
  }

  /** The attempts of one step: numbered 1, 2, ... from the step's command;
      each ran what the previous one handed over; each recorded what SSH
      did with its command. */
  predicate Chained(env: Env, step: string, atts: seq<Attempt>, first: Json, maxRetries: int) {
    && (forall i :: 0 <= i < |atts| ==> atts[i].number == i + 1)
    && (forall i :: 0 <= i < |atts| ==> atts[i].ran == env.ssh(step, i + 1, atts[i].command))
    && (atts != [] ==> atts[0].command == first)
    && (forall i :: 0 <= i < |atts| - 1 ==> Continues(atts[i], maxRetries) && atts[i + 1].command == NextCommand(atts[i]))
  }

  /** How one attempt ends: handing a command over to the next attempt, or
      ending the step with a status. */
  datatype Outcome =
    | Retry(attempt: Attempt, next: Json)
    | Done(attempt: Attempt, status: Status, success: Json, output: Option<string>, error: Option<string>, analysis: Option<Json>)

  /** The common promise of one pass of the loop body, attempt number `n`
      running `current` with SSH answering `ran`. */
  predicate Passes(o: Outcome, maxRetries: int, n: nat, current: Json, ran: SshReply) {
    && o.attempt.number == n && o.attempt.command == current && o.attempt.ran == ran
    && (o.Retry? <==> Continues(o.attempt, maxRetries))
    && (o.Retry? ==> o.next == NextCommand(o.attempt))
    && (o.Done? ==> o.status != Pending && (Truthy(o.success) <==> o.status in {Success, PartialSuccess}))
    && (o.Done? ==> (o.output.Some? <==> o.error.None?))
    && (o.Done? && o.output.Some? ==> ran == Output(o.output.value))
    && (o.Done? && o.error.Some? ==> ran == Failure(o.error.value))
    && (o.attempt.note.AnalysisFailed? ==> o.Done? && o.status == Success)
  }

  /** One pass of the loop body: attempt number `n` runs `current`. */
  function Try(env: Env, step: string, maxRetries: int, n: nat, current: Json): (o: Outcome)
    ensures Passes(o, maxRetries, n, current, env.ssh(step, n, current))
  {
    match env.ssh(step, n, current)
    case Output(out) => Analyse(Interpret(env.analyse(step, n), env.decode), maxRetries, n, current, out)
    case Failure(e) => Resolve(Interpret(env.resolve(step, n), env.decode), maxRetries, n, current, e)
  }

  /** The command printed `out`; the model's analysis decoded to `decoded`. */
  function Analyse(decoded: Option<Json>, maxRetries: int, n: nat, current: Json, out: string): (o: Outcome)
    ensures Passes(o, maxRetries, n, current, Output(out))
  {
    if decoded.None? || !decoded.value.JObj? then
      Done(Attempt(n, current, Output(out), AnalysisFailed(decoded)), Success, JBool(true), Some(out), None, None)
    else
      var an := decoded.value;
      var a := Attempt(n, current, Output(out), Analysed(an));
      if Accepts(an) then
        Done(a, Success, JBool(true), Some(out), None, None)
      else if AsksRetry(an) && n < maxRetries then
        Retry(a, Get(an, "updated_command"))
      else
        var status := if Truthy(Get(an, "success")) then PartialSuccess else Error;
        Done(a, status, GetOr(an, "success", JBool(false)), Some(out), None, Some(Reason(an)))
  }

  /** The command raised `e`; while the budget allows a further attempt,
      the model's proposed fix, decoded to `decoded`, is consulted. */
  function Resolve(decoded: Option<Json>, maxRetries: int, n: nat, current: Json, e: string): (o: Outcome)
    ensures Passes(o, maxRetries, n, current, Failure(e))
  {
    if n < maxRetries then
      if decoded.Some? && decoded.value.JObj? then
        var res := decoded.value;
        Retry(Attempt(n, current, Failure(e), Resolved(res)), GetOr(res, "updated_command", current))
      else
        Done(Attempt(n, current, Failure(e), ResolutionFailed(decoded)), Error, JBool(false), None, Some(e), None)
    else
      Done(Attempt(n, current, Failure(e), NoNote), Error, JBool(false), None, Some(e), None)
  }

  /** Appending the attempt the chain handed over keeps it a chain. */
  lemma ChainExtends(env: Env, step: string, done: seq<Attempt>, a: Attempt, first: Json, maxRetries: int)
    requires Chained(env, step, done, first, maxRetries)
    requires a.number == |done| + 1 && a.ran == env.ssh(step, |done| + 1, a.command)
    requires done == [] ==> a.command == first
    requires done != [] ==> Continues(done[|done| - 1], maxRetries) && a.command == NextCommand(done[|done| - 1])
    ensures Chained(env, step, done + [a], first, maxRetries)
  {
  }

  /** The `while attempt <= max_retries` loop, entered with `attempt` attempts
      done and `current` the command to run next. */
  function Loop(env: Env, step: string, command: Json, maxRetries: int, attempt: nat, current: Json, done: seq<Attempt>): (r: StepResult)
    requires attempt == |done|
    requires Chained(env, step, done, command, maxRetries)
    requires done == [] ==> current == command
    requires done != [] ==> Continues(done[|done| - 1], maxRetries) && current == NextCommand(done[|done| - 1])
    ensures Chained(env, step, r.log.attempts, command, maxRetries)
    ensures r.log.attempts != [] ==> !Continues(r.log.attempts[|r.log.attempts| - 1], maxRetries)
    ensures r.log.attempts == [] ==> maxRetries < 0 && r.error == Some(MAX_RETRIES_EXCEEDED) && r.log.status == Error
    ensures r.log.error == (if r.log.attempts == [] then None else r.error)
    ensures r.log.step == step && r.log.command == command
    ensures r.log.status != Pending
    ensures Truthy(r.success) <==> r.log.status in {Success, PartialSuccess}
    ensures r.output.Some? <==> r.error.None?
    ensures r.output.Some? ==> r.log.attempts != [] && r.log.attempts[|r.log.attempts| - 1].ran == Output(r.output.value)
    ensures r.error.Some? && r.log.attempts != [] ==> r.log.attempts[|r.log.attempts| - 1].ran == Failure(r.error.value)
    ensures r.log.attempts != [] && r.log.attempts[|r.log.attempts| - 1].note.AnalysisFailed? ==> r.log.status == Success
    decreases maxRetries - attempt
  {
    if attempt > maxRetries then
      StepResult(JBool(false), StepLog(step, command, Error, done, None, None, None), None, Some(MAX_RETRIES_EXCEEDED))
    else
      var o := Try(env, step, maxRetries, attempt + 1, current);
      var atts := done + [o.attempt];
      ChainExtends(env, step, done, o.attempt, command, maxRetries);
      match o
      case Retry(_, next) =>
        Loop(env, step, command, maxRetries, attempt + 1, next, atts)
      case Done(_, status, success, output, error, analysis) =>
        StepResult(success, StepLog(step, command, status, atts, output, error, analysis), output, error)
  }

  /** `execute_and_analyze_step(step, config, max_retries=maxRetries)`. */
  function ExecuteStep(env: Env, step: string, config: Json, maxRetries: int): (r: StepResult)
    requires config.JObj?
    ensures Chained(env, step, r.log.attempts, GetOr(config, "command", JStr("")), maxRetries)
    ensures maxRetries >= 0 ==> 1 <= |r.log.attempts| <= Max(1, maxRetries)
    ensures maxRetries < 0 ==> r.log.attempts == [] && r.error == Some(MAX_RETRIES_EXCEEDED)
    ensures r.log.error == (if r.log.attempts == [] then None else r.error)
    ensures r.log.status != Pending
    ensures Truthy(r.success) <==> r.log.status in {Success, PartialSuccess}
    ensures r.output.Some? <==> r.error.None?
  {
    var command := GetOr(config, "command", JStr(""));
    var r := Loop(env, step, command, maxRetries, 0, command, []);
    assert |r.log.attempts| <= Max(1, maxRetries) by {
      AttemptBound(env, step, r.log.attempts, command, maxRetries);
    }
    r
  }

  /** Only an attempt numbered below `max_retries` hands over, so a chain of
      attempts is at most `max(1, max_retries)` long. */
  lemma AttemptBound(env: Env, step: string, atts: seq<Attempt>, first: Json, maxRetries: int)
    requires Chained(env, step, atts, first, maxRetries)
    ensures |atts| <= Max(1, maxRetries)
  {
    if |atts| >= 2 {
      assert Continues(atts[|atts| - 2], maxRetries);
    }
  }

  /** SSH fails on every command and the model always proposes a fix. */
  ghost predicate AlwaysFailsAndResolves(env: Env, step: string) {
    && (forall n: nat, c: Json :: env.ssh(step, n, c).Failure?)
    && (forall n: nat :: env.resolve(step, n).Answered? && Interpret(env.resolve(step, n), env.decode).Some?
          && Interpret(env.resolve(step, n), env.decode).value.JObj?)
  }

  /** An attempt that hands over continues the loop with one more attempt
      done. */
  lemma LoopHandsOver(env: Env, step: string, command: Json, maxRetries: int, attempt: nat, current: Json, done: seq<Attempt>)
    returns (atts: seq<Attempt>)
    requires attempt == |done| && attempt <= maxRetries
    requires Chained(env, step, done, command, maxRetries)
    requires done == [] ==> current == command
    requires done != [] ==> Continues(done[|done| - 1], maxRetries) && current == NextCommand(done[|done| - 1])
    requires Try(env, step, maxRetries, attempt + 1, current).Retry?
    ensures atts == done + [Try(env, step, maxRetries, attempt + 1, current).attempt]
    ensures Chained(env, step, atts, command, maxRetries)
    ensures Continues(atts[|atts| - 1], maxRetries) && Try(env, step, maxRetries, attempt + 1, current).next == NextCommand(atts[|atts| - 1])
    ensures Loop(env, step, command, maxRetries, attempt, current, done)
         == Loop(env, step, command, maxRetries, attempt + 1, Try(env, step, maxRetries, attempt + 1, current).next, atts)
  {
    var o := Try(env, step, maxRetries, attempt + 1, current);
    atts := done + [o.attempt];
    ChainExtends(env, step, done, o.attempt, command, maxRetries);
  }

  /** An attempt that does not hand over ends the loop. */
  lemma LoopEnds(env: Env, step: string, command: Json, maxRetries: int, attempt: nat, current: Json, done: seq<Attempt>)
    requires attempt == |done| && attempt <= maxRetries
    requires Chained(env, step, done, command, maxRetries)
    requires done == [] ==> current == command
    requires done != [] ==> Continues(done[|done| - 1], maxRetries) && current == NextCommand(done[|done| - 1])
    requires Try(env, step, maxRetries, attempt + 1, current).Done?
    ensures Loop(env, step, command, maxRetries, attempt, current, done).log.attempts
         == done + [Try(env, step, maxRetries, attempt + 1, current).attempt]
    ensures Loop(env, step, command, maxRetries, attempt, current, done).log.status
         == Try(env, step, maxRetries, attempt + 1, current).status
  {
  }

  /** Under a failing SSH and a resolving model, an attempt hands over
      exactly when the budget allows another one, and the step fails. */
  lemma FailingTry(env: Env, step: string, maxRetries: int, n: nat, current: Json)
    requires AlwaysFailsAndResolves(env, step)
    ensures Try(env, step, maxRetries, n, current).Retry? <==> n < maxRetries
    ensures Try(env, step, maxRetries, n, current).Done? ==> Try(env, step, maxRetries, n, current).status == Error
  {
    assert env.ssh(step, n, current).Failure?;
    var decoded := Interpret(env.resolve(step, n), env.decode);
    assert decoded.Some? && decoded.value.JObj?;
  }

  /** A command that keeps failing is tried exactly `max(1, max_retries)`
      times, not `max_retries + 1` times as the loop header suggests. */
  lemma AlwaysFailingAttempts(env: Env, step: string, config: Json, maxRetries: int)
    requires config.JObj? && maxRetries >= 0
    requires AlwaysFailsAndResolves(env, step)
    ensures |ExecuteStep(env, step, config, maxRetries).log.attempts| == Max(1, maxRetries)
    ensures ExecuteStep(env, step, config, maxRetries).log.status == Error
  {
    var command := GetOr(config, "command", JStr(""));
    FailingLoop(env, step, command, maxRetries, 0, command, []);
  }

  lemma {:induction false} FailingLoop(env: Env, step: string, command: Json, maxRetries: int, attempt: nat, current: Json, done: seq<Attempt>)
    requires attempt == |done| && maxRetries >= 0
    requires attempt > 0 ==> attempt < maxRetries
    requires Chained(env, step, done, command, maxRetries)
    requires done == [] ==> current == command
    requires done != [] ==> Continues(done[|done| - 1], maxRetries) && current == NextCommand(done[|done| - 1])
    requires AlwaysFailsAndResolves(env, step)
    ensures |Loop(env, step, command, maxRetries, attempt, current, done).log.attempts| == Max(1, maxRetries)
    ensures Loop(env, step, command, maxRetries, attempt, current, done).log.status == Error
    decreases maxRetries - attempt
  {
    var n := attempt + 1;
    FailingTry(env, step, maxRetries, n, current);
    var o := Try(env, step, maxRetries, n, current);
    if n < maxRetries {
      var atts := LoopHandsOver(env, step, command, maxRetries, attempt, current, done);
      FailingLoop(env, step, command, maxRetries, n, o.next, atts);
    } else {
      LoopEnds(env, step, command, maxRetries, attempt, current, done);
    }
  }
}
