/** What every routed execution guarantees, whatever the providers do. */
module RouterTheorems {
  import opened Prelude
  import opened ModelStream
  import opened RouterTrace

  // The outcome is determined -----------------------------------------------------

  /** A step that is not the last one either fell back or stayed on its plan. */
  lemma {:induction false} InnerFates(cfg: Config, plans: seq<Plan>, env: Env, steps: seq<Step>, n: nat)
    requires Valid(cfg, plans, env, steps)
    requires n + 1 < |steps|
    ensures steps[n].fate.FellBack? || (Stays(steps[n].fate) && !env.delayAborts(n))
  {
    assert Follows(cfg, plans, env, steps[..n + 1], steps[n + 1]);
    assert Last(steps[..n + 1]) == steps[n];
  }

  lemma {:induction false} SamePrefix(cfg: Config, plans: seq<Plan>, env: Env, a: seq<Step>, b: seq<Step>, n: nat)
    requires Valid(cfg, plans, env, a) && Valid(cfg, plans, env, b)
    requires n <= |a| && n <= |b|
    ensures a[..n] == b[..n]
  {
    if n > 0 {
      SamePrefix(cfg, plans, env, a, b, n - 1);
      assert Follows(cfg, plans, env, a[..n - 1], a[n - 1]);
      assert Follows(cfg, plans, env, b[..n - 1], b[n - 1]);
      assert a[..n] == a[..n - 1] + [a[n - 1]];
      assert b[..n] == b[..n - 1] + [b[n - 1]];
    }
  }

  lemma {:induction false} EndedMeansNoNextCall(cfg: Config, plans: seq<Plan>, env: Env, steps: seq<Step>,
        exit: Exit, p: nat)
    requires Ends(plans, env, steps, exit)
    ensures !MayCall(plans, env, steps, p)
  {
  }

  /** Two finished executions against the same providers are the same execution:
      same calls, same requests, same exit. */
  lemma {:induction false} ExecutionIsDetermined(cfg: Config, plans: seq<Plan>, env: Env,
        a: seq<Step>, exitA: Exit, b: seq<Step>, exitB: Exit)
    requires Complete(cfg, plans, env, a, exitA)
    requires Complete(cfg, plans, env, b, exitB)
    ensures a == b && exitA == exitB
  {
    var n := Min(|a|, |b|);
    SamePrefix(cfg, plans, env, a, b, n);
    assert a[..|a|] == a && b[..|b|] == b;
    if |a| < |b| {
      assert Follows(cfg, plans, env, b[..n], b[n]);
      EndedMeansNoNextCall(cfg, plans, env, a, exitA, b[n].plan);
    } else if |b| < |a| {
      assert Follows(cfg, plans, env, a[..n], a[n]);
      EndedMeansNoNextCall(cfg, plans, env, b, exitB, a[n].plan);
    }
  }

  // What the consumer receives ------------------------------------------------------

  /** The events of the calls that were continued from their shown text. */
  function ContinuedEvents(steps: seq<Step>): seq<Event> {
    if steps == [] then []
    else ContinuedEvents(Init(steps)) + (if Last(steps).fate.Continued? then Last(steps).run.events else [])
  }

  function Continuations(steps: seq<Step>): nat {
    if steps == [] then 0
    else Continuations(Init(steps)) + (if Last(steps).fate.Continued? then 1 else 0)
  }

  predicate Passing(steps: seq<Step>) {
    forall n :: 0 <= n < |steps| ==> steps[n].fate.FellBack? || Stays(steps[n].fate)
  }

  lemma {:induction false} InitPasses(cfg: Config, plans: seq<Plan>, env: Env, steps: seq<Step>)
    requires Valid(cfg, plans, env, steps)
    requires steps != []
    ensures Passing(Init(steps))
  {
    forall n | 0 <= n < |steps| - 1 ensures Init(steps)[n].fate.FellBack? || Stays(Init(steps)[n].fate) {
      InnerFates(cfg, plans, env, steps, n);
    }
  }

  /** Discarded calls show nothing: neither a fallback, nor a transient retry,
      nor an empty answer leaves a trace with the consumer. */
  lemma {:induction false} OnlyContinuationsShow(cfg: Config, plans: seq<Plan>, env: Env, steps: seq<Step>)
    requires Valid(cfg, plans, env, steps)
    requires Passing(steps)
    ensures ShownBy(steps) == ContinuedEvents(steps)
  {
    hide NextRequest, CallsOn, RetriesOn, Arrive, MayCall;
    if steps != [] {
      ValidLast(cfg, plans, env, steps);
      OnlyContinuationsShow(cfg, plans, env, Init(steps));
    }
  }

  /** On success the consumer has received, in order, the full event lists of the
      calls that were continued mid-stream and the full event list of the accepted
      call, and nothing else. */
  lemma {:induction false} SuccessOutput(cfg: Config, requested: Plan, plans: seq<Plan>, env: Env, steps: seq<Step>,
        exit: Exit)
    requires Complete(cfg, plans, env, steps, exit)
    requires exit.Succeeded?
    ensures steps != [] && Last(steps).fate.Accepted? && Last(steps).plan == exit.plan
    ensures ShownBy(steps) + Tail(requested, plans, steps, exit)
         == ContinuedEvents(Init(steps)) + Last(steps).run.events
  {
    InitPasses(cfg, plans, env, steps);
    ValidLast(cfg, plans, env, steps);
    OnlyContinuationsShow(cfg, plans, env, Init(steps));
  }

  lemma {:induction false} ContinuedEventsEmpty(cfg: Config, plans: seq<Plan>, env: Env, steps: seq<Step>)
    requires Valid(cfg, plans, env, steps)
    ensures ContinuedEvents(steps) == [] <==> Continuations(steps) == 0
  {
    if steps != [] {
      ValidLast(cfg, plans, env, steps);
      ContinuedEventsEmpty(cfg, plans, env, Init(steps));
      if Last(steps).fate.Continued? {
        assert HasContent(Last(steps).run.events);
        assert Last(steps).run.events != [];
      }
    }
  }

  /** A successful turn looks like a single stream exactly when no call of it was
      continued mid-stream. */
  lemma {:induction false} OneStreamIffNeverContinued(cfg: Config, requested: Plan, plans: seq<Plan>, env: Env,
        steps: seq<Step>, exit: Exit)
    requires Complete(cfg, plans, env, steps, exit)
    requires exit.Succeeded?
    ensures ShownBy(steps) + Tail(requested, plans, steps, exit) == Last(steps).run.events
            <==> Continuations(steps) == 0
  {
    SuccessOutput(cfg, requested, plans, env, steps, exit);
    ValidLast(cfg, plans, env, steps);
    ContinuedEventsEmpty(cfg, plans, env, Init(steps));
  }

  lemma {:induction false} NonErrorsEmpty(events: seq<Event>)
    ensures NonErrors(events) == [] <==> forall e :: e in events ==> e.ErrorEvent?
  {
    if events != [] {
      NonErrorsEmpty(Init(events));
      assert events == Init(events) + [Last(events)];
    }
  }

  /** What a failed turn delivers: the calls that were continued, what the last call has
      shown, the non-error events of the last call that reported an outcome unless the
      last call showed content, and the error. */
  lemma {:induction false} FailureOutput(cfg: Config, requested: Plan, plans: seq<Plan>, env: Env,
        steps: seq<Step>, exit: Exit)
    requires Complete(cfg, plans, env, steps, exit) && exit.Failure?
    ensures steps != [] && exit.plan == Last(steps).plan < |plans|
    ensures Last(steps).fate.Failed? || Last(steps).fate.Broken?
    ensures
      var last := Last(steps);
      var repeated := if HasContent(last.run.events) then [] else NonErrors(LastBuffered(steps));
      ShownBy(steps) + Tail(requested, plans, steps, exit)
      == ContinuedEvents(Init(steps)) + Shown(last) + repeated
         + [ErrorEvent(exit.error.(provider := plans[exit.plan].provider, model := Some(plans[exit.plan].model)))]
  {
    InitPasses(cfg, plans, env, steps);
    ValidLast(cfg, plans, env, steps);
    OnlyContinuationsShow(cfg, plans, env, Init(steps));
  }

  /** A failure on a call that showed no content delivers the call's events, then
      its non-error events a second time. Nothing is repeated exactly when the
      call showed content or consisted of error events only. */
  lemma {:induction false} FailureRepeatsFraming(cfg: Config, requested: Plan, plans: seq<Plan>, env: Env,
        steps: seq<Step>, exit: Exit)
    requires Complete(cfg, plans, env, steps, exit)
    requires exit.Failure? && Last(steps).fate.Failed?
    ensures exit.plan < |plans|
    ensures
      var last := Last(steps);
      var report := [ErrorEvent(Named(exit.error, plans[exit.plan]))];
      var repeated := if HasContent(last.run.events) then [] else NonErrors(last.run.events);
      && ShownBy(steps) + Tail(requested, plans, steps, exit)
         == ContinuedEvents(Init(steps)) + last.run.events + repeated + report
      && (repeated == [] <==> HasContent(last.run.events) || forall e :: e in last.run.events ==> e.ErrorEvent?)
  {
    FailureOutput(cfg, requested, plans, env, steps, exit);
    ValidLast(cfg, plans, env, steps);
    NonErrorsEmpty(Last(steps).run.events);
  }

  const REFUSED := ModelError("p", None, Unknown, false, false, false)

  function RefusedStep(plan: Plan): Step {
    Step(0, plan.request, StreamRun([MessageStart], Finished(Some(REFUSED), false)), Failed)
  }

  lemma {:induction false} RefusedIsComplete(cfg: Config, plan: Plan, env: Env)
    requires !plan.overBudget && !env.aborted(0)
    requires env.stream(0) == RefusedStep(plan).run
    ensures Complete(cfg, [plan], env, [RefusedStep(plan)], Failure(REFUSED, 0))
  {
    hide PartialText, HasContent, Valid;
    var s := RefusedStep(plan);
    FramingIsNoContent();
    assert Follows(cfg, [plan], env, [], s);
    assert Valid(cfg, [plan], env, []) by {
      NothingIsValid(cfg, [plan], env);
    }
    ValidAppend(cfg, [plan], env, [], s);
    assert [] + [s] == [s];
  }

  lemma {:induction false} NothingIsValid(cfg: Config, plans: seq<Plan>, env: Env)
    ensures Valid(cfg, plans, env, [])
  {
  }

  lemma {:induction false} FramingIsNoContent()
    ensures !HasContent([MessageStart]) && NonErrors([MessageStart]) == [MessageStart]
  {
    assert Init([MessageStart]) == [];
  }

  /** A provider that starts a message and then refuses: the start is delivered twice. */
  lemma {:induction false} FramingIsRepeated(cfg: Config, plan: Plan, env: Env)
    requires !plan.overBudget && !env.aborted(0)
    requires env.stream(0) == RefusedStep(plan).run
    ensures
      var steps, exit := [RefusedStep(plan)], Failure(REFUSED, 0);
      && Complete(cfg, [plan], env, steps, exit)
      && ShownBy(steps) + Tail(plan, [plan], steps, exit)
         == [MessageStart, MessageStart, ErrorEvent(Named(REFUSED, plan))]
  {
    hide HasContent, NonErrors, Complete;
    RefusedIsComplete(cfg, plan, env);
    FramingIsNoContent();
    assert Init([RefusedStep(plan)]) == [];
  }

  // How many calls are made ------------------------------------------------------------

  lemma {:induction false} CallsOnPlan(cfg: Config, plans: seq<Plan>, env: Env, steps: seq<Step>)
    requires Valid(cfg, plans, env, steps)
    requires steps != []
    ensures RetriesOn(steps, Last(steps).plan) <= cfg.TransientMax()
    ensures CallsOn(steps, Last(steps).plan) <= cfg.CallsPerPlan()
    ensures Stays(Last(steps).fate) ==>
      CallsOn(steps, Last(steps).plan) < RetriesOn(steps, Last(steps).plan) + cfg.ZeroUsageBudget()
  {
    ValidLast(cfg, plans, env, steps);
    var before := Init(steps);
    if before != [] {
      CallsOnPlan(cfg, plans, env, before);
      if Last(before).fate.FellBack? {
        ArrivalIsLater(plans, env, ResumeAt(before));
      }
    }
  }

  /** How many of the first `n` plans send a request within the subagent token budget. */
  function Fitting(plans: seq<Plan>, n: nat): nat
    requires n <= |plans|
  {
    if n == 0 then 0 else Fitting(plans, n - 1) + (if plans[n - 1].overBudget then 0 else 1)
  }

  /** The plans that an execution may call: none, if it stops at the first one. */
  function Callable(plans: seq<Plan>): nat {
    if plans == [] || plans[0].overBudget then 0 else Fitting(plans, |plans|)
  }

  lemma {:induction false} FittingGrows(plans: seq<Plan>, i: nat, j: nat)
    requires i <= j <= |plans|
    ensures Fitting(plans, i) <= Fitting(plans, j) <= Fitting(plans, i) + (j - i)
  {
    if i < j {
      FittingGrows(plans, i, j - 1);
    }
  }

  /** Plans are tried in order, so the calls made so far fit the plans left behind. */
  lemma {:induction false} CallsSoFar(cfg: Config, plans: seq<Plan>, env: Env, steps: seq<Step>)
    requires Valid(cfg, plans, env, steps)
    requires steps != []
    ensures Last(steps).plan < |plans|
    ensures !plans[Last(steps).plan].overBudget && !plans[0].overBudget
    ensures |steps| <= Fitting(plans, Last(steps).plan) * cfg.CallsPerPlan() + CallsOn(steps, Last(steps).plan)
  {
    hide FateOf, NextRequest, RetriesOn, HasContent, Arrive, Config.CallsPerPlan, Fitting;
    ValidLast(cfg, plans, env, steps);
    var before, p := Init(steps), Last(steps).plan;
    if before == [] {
      assert CallsOn(before, p) == 0;
      ArrivalIsLater(plans, env, 0);
      ArrivesAtFirst(plans, env);
      ProductGrows(0, Fitting(plans, p), cfg.CallsPerPlan());
    } else {
      var q := Last(before).plan;
      CallsSoFar(cfg, plans, env, before);
      CallsOnPlan(cfg, plans, env, before);
      if q != p {
        ArrivalIsLater(plans, env, q + 1);
        FittingGrows(plans, q + 1, p);
        OneMoreFits(plans, q);
        ProductGrows(Fitting(plans, q) + 1, Fitting(plans, p), cfg.CallsPerPlan());
      }
    }
  }

  lemma {:induction false} OneMoreFits(plans: seq<Plan>, p: nat)
    requires p < |plans| && !plans[p].overBudget
    ensures Fitting(plans, p + 1) == Fitting(plans, p) + 1
  {
  }

  lemma {:induction false} ArrivesAtFirst(plans: seq<Plan>, env: Env)
    requires plans != []
    ensures Arrive(plans, env, 0).Enter? ==> !plans[0].overBudget
  {
  }

  lemma {:induction false} ArrivalIsLater(plans: seq<Plan>, env: Env, i: nat)
    requires i < |plans|
    ensures i <= Arrive(plans, env, i).plan < |plans|
    ensures forall j :: i <= j < Arrive(plans, env, i).plan ==> PassedOver(plans, env, j) && !env.aborted(j)
    ensures Arrive(plans, env, i).Enter? ==> !plans[Arrive(plans, env, i).plan].overBudget
    decreases |plans| - i
  {
    if !env.aborted(i) && PassedOver(plans, env, i) {
      ArrivalIsLater(plans, env, i + 1);
    }
  }

  /** One execution makes at most |plans| * (zeroUsageMax + transientRetryMax) calls. More
      exactly, only plans within the token budget are called, and without zero-usage
      retry a single call takes the place of that budget. */
  lemma {:induction false} CallBound(cfg: Config, plans: seq<Plan>, env: Env, steps: seq<Step>)
    requires Valid(cfg, plans, env, steps)
    ensures |steps| <= Callable(plans) * cfg.CallsPerPlan()
    ensures |steps| <= |plans| * (cfg.ZeroUsageMax() + cfg.TransientMax())
  {
    hide Valid, RetriesOn, Fitting, CallsOn, Config.CallsPerPlan, Config.ZeroUsageMax, Config.TransientMax;
    var b := cfg.CallsPerPlan();
    if steps != [] {
      var p := Last(steps).plan;
      CallsSoFar(cfg, plans, env, steps);
      CallsOnPlan(cfg, plans, env, steps);
      OneMoreFits(plans, p);
      FittingGrows(plans, p + 1, |plans|);
      ProductGrows(Fitting(plans, p) + 1, Fitting(plans, |plans|), b);
    }
    PlansTimesBudgets(plans, cfg);
  }

  lemma {:induction false} PlansTimesBudgets(plans: seq<Plan>, cfg: Config)
    ensures Callable(plans) * cfg.CallsPerPlan() <= |plans| * (cfg.ZeroUsageMax() + cfg.TransientMax())
  {
    var b, most := cfg.CallsPerPlan(), cfg.ZeroUsageMax() + cfg.TransientMax();
    assert b <= most;
    hide Config.CallsPerPlan, Config.ZeroUsageMax, Config.TransientMax, Callable;
    AtMostAll(plans);
    ProductGrows(Callable(plans), |plans|, b);
    ProductGrows(b, most, |plans|);
  }

  lemma {:induction false} AtMostAll(plans: seq<Plan>)
    ensures Callable(plans) <= |plans|
  {
    FittingGrows(plans, 0, |plans|);
  }

  // Which plans are tried -----------------------------------------------------------------

  /** The first call is for the first plan. Between two calls the plan stays or
      moves forward; it moves only after a fallback, and every plan jumped over was
      skippable, was not the last one and was not where the turn was aborted. A
      transient retry of the same request happens only on the last plan. */
  lemma {:induction false} PlanOrder(cfg: Config, plans: seq<Plan>, env: Env, steps: seq<Step>, n: nat)
    requires Valid(cfg, plans, env, steps)
    requires n < |steps|
    ensures steps[n].plan < |plans|
    ensures n == 0 ==> steps[n].plan == 0
    ensures n > 0 ==> steps[n - 1].plan <= steps[n].plan
    ensures n > 0 && steps[n - 1].plan != steps[n].plan ==>
      && steps[n - 1].fate.FellBack?
      && (forall j :: steps[n - 1].plan < j < steps[n].plan ==> env.skippable(j) && j < |plans| - 1 && !env.aborted(j))
    ensures steps[n].fate.Retried? ==> steps[n].plan == |plans| - 1
  {
    assert Follows(cfg, plans, env, steps[..n], steps[n]);
    if n == 0 {
      assert steps[..0] == [];
      ArrivalIsLater(plans, env, 0);
    } else {
      assert Last(steps[..n]) == steps[n - 1];
      if steps[n - 1].fate.FellBack? {
        ArrivalIsLater(plans, env, steps[n - 1].plan + 1);
        assert Arrive(plans, env, steps[n - 1].plan + 1) == Enter(steps[n].plan);
        forall j | steps[n - 1].plan < j < steps[n].plan
          ensures env.skippable(j) && j < |plans| - 1 && !env.aborted(j)
        {
          assert PassedOver(plans, env, j);
        }
      }
    }
  }

  /** A plan that can be entered is never skipped when it is the last one: after a
      fallback some later plan is called, unless the turn stops. */
  lemma {:induction false} LastPlanIsNeverSkipped(plans: seq<Plan>, env: Env, i: nat)
    requires i < |plans|
    requires forall j :: i <= j < |plans| ==> !env.aborted(j) && !plans[j].overBudget
    ensures Arrive(plans, env, i).Enter?
    ensures (forall j :: i <= j < |plans| - 1 ==> env.skippable(j)) && i > 0 ==>
      Arrive(plans, env, i) == Enter(|plans| - 1)
    decreases |plans| - i
  {
    if PassedOver(plans, env, i) {
      LastPlanIsNeverSkipped(plans, env, i + 1);
    }
  }

  // What the rest of the system is told -------------------------------------------------------

  datatype Account = Health | Statistics | Reset | Record

  function AccountOf(e: Effect): Account {
    match e
    case HealthFailure(_, _) => Health
    case HealthSuccess(_) => Health
    case ObserveStats(_, _) => Statistics
    case ResetFailures => Reset
    case RecordFailure => Record
  }

  function Count(effects: seq<Effect>, account: Account): nat {
    if effects == [] then 0
    else Count(Init(effects), account) + (if AccountOf(Last(effects)) == account then 1 else 0)
  }

  lemma {:induction false} CountAppend(a: seq<Effect>, b: seq<Effect>, account: Account)
    ensures Count(a + b, account) == Count(a, account) + Count(b, account)
  {
    if b == [] {
      assert a + b == a;
    } else {
      CountAppend(a, Init(b), account);
      assert Init(a + b) == a + Init(b);
    }
  }

  /** Stream calls only feed the health tracker. */
  lemma {:induction false} CallsOnlyTouchHealth(plans: seq<Plan>, steps: seq<Step>, account: Account)
    requires account != Health
    ensures Count(EffectsBy(plans, steps), account) == 0
  {
    if steps != [] {
      CallsOnlyTouchHealth(plans, Init(steps), account);
      CountAppend(EffectsBy(plans, Init(steps)), StepEffects(plans, Last(steps)), account);
    }
  }

  /** The plan loop was left by its `break`. */
  predicate LeftByBreak(steps: seq<Step>) {
    steps != [] && (Last(steps).fate.Failed? || Last(steps).fate.Broken?)
  }

  /** One execution observes statistics at most once: exactly once when it accepted
      a call or was left by `break` with an error. It resets the failure count once
      exactly when the first plan was accepted, and records a failure once exactly
      when it was left by `break` with a provider fault as its last error. */
  lemma {:induction false} Accounting(cfg: Config, plans: seq<Plan>, env: Env, steps: seq<Step>, exit: Exit)
    requires Complete(cfg, plans, env, steps, exit)
    ensures
      var effects := EffectsBy(plans, steps) + ExitEffects(exit);
      && Count(effects, Statistics)
         == (if exit.Succeeded? || (LeftByBreak(steps) && LastError(steps).Some?) then 1 else 0)
      && Count(effects, Reset)
         == (if steps != [] && Last(steps).fate.Accepted? && Last(steps).plan == 0 then 1 else 0)
      && Count(effects, Record)
         == (if LeftByBreak(steps) && LastError(steps).Some? && IsProviderFault(LastError(steps).value.code)
             then 1 else 0)
  {
    hide Valid, EffectsBy, ExitEffects, Count, Arrive, IsProviderFault, LastError;
    var calls, end := EffectsBy(plans, steps), ExitEffects(exit);
    forall account: Account | account != Health ensures Count(calls + end, account) == Count(end, account) {
      CallsOnlyTouchHealth(plans, steps, account);
      CountAppend(calls, end, account);
    }
    ExitCounts(exit);
  }

  lemma {:induction false} ExitCounts(exit: Exit)
    ensures Count(ExitEffects(exit), Statistics) == (if exit.Succeeded? || exit.Failure? then 1 else 0)
    ensures Count(ExitEffects(exit), Reset) == (if exit.Succeeded? && exit.plan == 0 then 1 else 0)
    ensures Count(ExitEffects(exit), Record) ==
            (if exit.Failure? && IsProviderFault(exit.error.code) then 1 else 0)
  {
    forall account: Account, a: Effect
      ensures Count([a], account) == if AccountOf(a) == account then 1 else 0
    {
      assert Init([a]) == [];
    }
    forall account: Account, a: Effect, b: Effect
      ensures Count([a, b], account) ==
              (if AccountOf(a) == account then 1 else 0) + (if AccountOf(b) == account then 1 else 0)
    {
      assert [a, b] == [a] + [b];
      CountAppend([a], [b], account);
    }
  }
}
