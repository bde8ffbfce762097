/** What one routed execution may do, stated on its log of stream calls.

    A log is valid when each entry follows from the entries before it: how many
    calls the plan has had, how many of them were retried and what the next call
    asks for are all read off the log. `RouterExecute` proves that the loops of
    `execute`, with their counters and buffers, produce exactly such logs. */
module RouterTrace {
  import opened Prelude
  import opened ModelStream

  datatype Config = Config(
    zeroUsageEnabled: bool,
    zeroUsageAttempts: Option<int>,
    transientEnabled: bool,
    transientAttempts: Option<int>)
  {
    function ZeroUsageMax(): (r: nat)
      ensures r >= 1
    {
      Max(1, zeroUsageAttempts.GetOr(5))
    }

    function TransientMax(): (r: nat)
      ensures r >= 1
    {
      Max(1, transientAttempts.GetOr(2))
    }

    /** The calls that empty answers and an ordinary one can take. */
    function ZeroUsageBudget(): nat {
      if zeroUsageEnabled then ZeroUsageMax() else 1
    }

    function CallsPerPlan(): nat {
      ZeroUsageBudget() + TransientMax()
    }
  }

  /** One entry of the attempt plan: the request it sends, and whether the
      subagent token budget rejects that request. */
  datatype Plan = Plan(provider: string, model: string, request: Request, overBudget: bool)

  /** How a stream call ended. `Finished` is the outcome sentinel; its buffered
      events are the events of the call. `Aborted` is the abort exception. */
  datatype Ending =
    | Finished(error: Option<ModelError>, retryZeroUsage: bool)
    | NoOutcome
    | Aborted

  datatype StreamRun = StreamRun(events: seq<Event>, ending: Ending)

  /** Everything outside the router's control: the result of the k-th stream
      call, whether the wait after it is aborted, and for each plan index
      whether the turn is aborted there and whether its provider is skippable. */
  datatype Env = Env(
    stream: nat -> StreamRun,
    delayAborts: nat -> bool,
    aborted: nat -> bool,
    skippable: nat -> bool)

  datatype Fate =
    | FellBack      // next plan
    | Retried       // same request again, nothing was shown
    | Continued     // go on from the shown text
    | ZeroRetried   // empty answer, ask again
    | Accepted
    | Failed
    | Broken        // the stream ended without an outcome
    | Threw

  datatype Step = Step(plan: nat, request: Request, run: StreamRun, fate: Fate)

  datatype Exit =
    | Succeeded(plan: nat)
    | Failure(error: ModelError, plan: nat)
    | NoPlans
    | AbortedAt(plan: nat)
    | OverBudgetAt(plan: nat)
    | EndedSilently
    | Thrown

  // Which plan is entered next ------------------------------------------------

  datatype Arrival = Enter(plan: nat) | StopAborted(plan: nat) | StopOverBudget(plan: nat)

  predicate PassedOver(plans: seq<Plan>, env: Env, i: nat) {
    i > 0 && env.skippable(i) && i < |plans| - 1
  }

  function Arrive(plans: seq<Plan>, env: Env, i: nat): Arrival
    requires i < |plans|
    decreases |plans| - i
  {
    if env.aborted(i) then StopAborted(i)
    else if PassedOver(plans, env, i) then Arrive(plans, env, i + 1)
    else if plans[i].overBudget then StopOverBudget(i)
    else Enter(i)
  }

  /** The plan loop is about to look for a plan: at the start, or after a fallback. */
  predicate AtPlanLoop(steps: seq<Step>) {
    steps == [] || Last(steps).fate.FellBack?
  }

  /** Where the plan loop resumes. */
  function ResumeAt(steps: seq<Step>): nat {
    if steps == [] then 0 else Last(steps).plan + 1
  }

  // What the log says about the current plan -----------------------------------

  /** Calls at the end of the log that were made for plan `p`. */
  function CallsOn(steps: seq<Step>, p: nat): nat {
    if steps == [] || Last(steps).plan != p then 0 else 1 + CallsOn(Init(steps), p)
  }

  function RetriesOn(steps: seq<Step>, p: nat): nat {
    if steps == [] || Last(steps).plan != p then 0
    else (if Last(steps).fate in {Retried, Continued} then 1 else 0) + RetriesOn(Init(steps), p)
  }

  /** The request of the next call on plan `p`. */
  function NextRequest(plans: seq<Plan>, steps: seq<Step>, p: nat): Request
    requires p < |plans|
  {
    if steps == [] || Last(steps).plan != p then plans[p].request
    else if Last(steps).fate == Continued
    then ContinuationRequest(Last(steps).request, PartialText(Last(steps).run.events))
    else Last(steps).request
  }

  function FateOf(cfg: Config, isLast: bool, call: nat, retries: nat, run: StreamRun): Fate {
    match run.ending
    case Aborted => Threw
    case NoOutcome => Broken
    case Finished(Some(e), _) =>
      if !HasContent(run.events) && IsFallbackEligible(e) && !isLast then FellBack
      else if !HasContent(run.events) && IsFallbackEligible(e) && cfg.transientEnabled
        && retries < cfg.TransientMax() then Retried
      else if HasContent(run.events) && retries < cfg.TransientMax() && e.retryable
        && PartialText(run.events) != "" then Continued
      else Failed
    case Finished(None, empty) =>
      if !HasContent(run.events) && cfg.zeroUsageEnabled && empty && call < cfg.ZeroUsageMax()
      then ZeroRetried
      else Accepted
  }

  predicate Stays(f: Fate) {
    f in {Retried, Continued, ZeroRetried}
  }

  /** After `steps`, the next stream call is made for plan `p`. */
  predicate MayCall(plans: seq<Plan>, env: Env, steps: seq<Step>, p: nat) {
    && p < |plans|
    && if AtPlanLoop(steps) then ResumeAt(steps) < |plans| && Arrive(plans, env, ResumeAt(steps)) == Enter(p)
       else Stays(Last(steps).fate) && !env.delayAborts(|steps| - 1) && p == Last(steps).plan
  }

  predicate Follows(cfg: Config, plans: seq<Plan>, env: Env, steps: seq<Step>, s: Step) {
    && MayCall(plans, env, steps, s.plan)
    && s.request == NextRequest(plans, steps, s.plan)
    && s.run == env.stream(|steps|)
    && s.fate == FateOf(cfg, s.plan == |plans| - 1, CallsOn(steps, s.plan) + 1, RetriesOn(steps, s.plan), s.run)
  }

  ghost predicate Valid(cfg: Config, plans: seq<Plan>, env: Env, steps: seq<Step>) {
    forall n {:trigger Follows(cfg, plans, env, steps[..n], steps[n])} :: 0 <= n < |steps| ==>
      Follows(cfg, plans, env, steps[..n], steps[n])
  }

  lemma {:induction false} ValidAppend(cfg: Config, plans: seq<Plan>, env: Env, steps: seq<Step>, s: Step)
    requires Valid(cfg, plans, env, steps)
    requires Follows(cfg, plans, env, steps, s)
    ensures Valid(cfg, plans, env, steps + [s])
  {
    var all := steps + [s];
    forall n | 0 <= n < |all| ensures Follows(cfg, plans, env, all[..n], all[n]) {
      if n < |steps| {
        assert Follows(cfg, plans, env, steps[..n], steps[n]);
        assert all[..n] == steps[..n];
      } else {
        assert all[..n] == steps;
      }
    }
  }

  lemma {:induction false} ValidLast(cfg: Config, plans: seq<Plan>, env: Env, steps: seq<Step>)
    requires Valid(cfg, plans, env, steps) && steps != []
    ensures Valid(cfg, plans, env, Init(steps))
    ensures Follows(cfg, plans, env, Init(steps), Last(steps))
  {
    var before := Init(steps);
    forall n | 0 <= n < |before| ensures Follows(cfg, plans, env, before[..n], before[n]) {
      assert Follows(cfg, plans, env, steps[..n], steps[n]);
      assert before[..n] == steps[..n];
    }
    assert Follows(cfg, plans, env, steps[..|steps| - 1], steps[|steps| - 1]);
  }

  // How it ends ------------------------------------------------------------------

  function LastError(steps: seq<Step>): Option<ModelError> {
    if steps == [] then None
    else if Last(steps).run.ending.Finished? && Last(steps).run.ending.error.Some?
    then Last(steps).run.ending.error
    else LastError(Init(steps))
  }

  /** The events of the last call that reported an outcome. */
  function LastBuffered(steps: seq<Step>): seq<Event> {
    if steps == [] then []
    else if Last(steps).run.ending.Finished? then Last(steps).run.events
    else LastBuffered(Init(steps))
  }

  function StopFor(a: Arrival): Exit
    requires !a.Enter?
  {
    match a
    case StopAborted(p) => AbortedAt(p)
    case StopOverBudget(p) => OverBudgetAt(p)
  }

  predicate Ends(plans: seq<Plan>, env: Env, steps: seq<Step>, exit: Exit) {
    if plans == [] then steps == [] && exit == NoPlans
    else if AtPlanLoop(steps) then
      && ResumeAt(steps) < |plans|
      && !Arrive(plans, env, ResumeAt(steps)).Enter?
      && exit == StopFor(Arrive(plans, env, ResumeAt(steps)))
    else
      var last: nat := |steps| - 1;
      match Last(steps).fate
      case Accepted => exit == Succeeded(Last(steps).plan)
      case Threw => exit == Thrown
      case Failed => LastError(steps).Some? && exit == Failure(LastError(steps).value, Last(steps).plan)
      case Broken =>
        exit == (if LastError(steps).Some? then Failure(LastError(steps).value, Last(steps).plan)
                 else EndedSilently)
      case _ => env.delayAborts(last) && exit == Thrown
  }

  /** A finished execution. */
  ghost predicate Complete(cfg: Config, plans: seq<Plan>, env: Env, steps: seq<Step>, exit: Exit) {
    Valid(cfg, plans, env, steps) && Ends(plans, env, steps, exit)
  }

  // What the consumer receives ---------------------------------------------------

  /** A call's events reach the consumer as they come once one of them is content,
      and at the end of the call when it is the accepted or the failing one. */
  function Shown(s: Step): seq<Event> {
    if HasContent(s.run.events) || s.fate.Accepted? || s.fate.Failed? then s.run.events else []
  }

  function ShownBy(steps: seq<Step>): seq<Event> {
    if steps == [] then [] else ShownBy(Init(steps)) + Shown(Last(steps))
  }

  function Named(e: ModelError, plan: Plan): ModelError {
    e.(provider := plan.provider, model := Some(plan.model))
  }

  /** The events after the last call. A failure repeats the buffered events of
      the last call when that call showed no content. */
  function Tail(requested: Plan, plans: seq<Plan>, steps: seq<Step>, exit: Exit): seq<Event> {
    match exit
    case Failure(e, p) =>
      if p < |plans| && steps != [] then
        (if HasContent(Last(steps).run.events) then [] else NonErrors(LastBuffered(steps)))
        + [ErrorEvent(Named(e, plans[p]))]
      else []
    case NoPlans =>
      [ErrorEvent(ModelError(requested.provider, None, UnsupportedModality, false, false, false))]
    case OverBudgetAt(p) =>
      if p < |plans|
      then [ErrorEvent(ModelError(plans[p].provider, None, SubagentBudgetExceeded, false, false, false))]
      else []
    case _ => []
  }

  // What the rest of the system is told --------------------------------------------

  datatype Effect =
    | HealthFailure(provider: string, code: ErrorCode)
    | HealthSuccess(provider: string)
    | ObserveStats(plan: nat, error: Option<ErrorCode>)
    | ResetFailures
    | RecordFailure

  function StepEffects(plans: seq<Plan>, s: Step): seq<Effect> {
    if !s.run.ending.Finished? || s.plan >= |plans| then []
    else match s.run.ending.error
      case Some(e) => [HealthFailure(plans[s.plan].provider, e.code)]
      case None => if s.fate.Accepted? then [HealthSuccess(plans[s.plan].provider)] else []
  }

  function EffectsBy(plans: seq<Plan>, steps: seq<Step>): seq<Effect> {
    if steps == [] then [] else EffectsBy(plans, Init(steps)) + StepEffects(plans, Last(steps))
  }

  function ExitEffects(exit: Exit): seq<Effect> {
    match exit
    case Succeeded(p) => [ObserveStats(p, None)] + (if p == 0 then [ResetFailures] else [])
    case Failure(e, p) =>
      (if IsProviderFault(e.code) then [RecordFailure] else []) + [ObserveStats(p, Some(e.code))]
    case _ => []
  }
}
