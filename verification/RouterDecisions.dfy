/** When a turn asks again, goes on, changes the plan or ends: told from the events and
    the endings of its stream calls and from the order of the calls. */
module RouterDecisions {
  import opened Prelude
  import opened ModelStream
  import opened RouterTrace
  import opened RouterTheorems

  // What a stream call shows ---------------------------------------------------------------

  predicate ShowsContent(events: seq<Event>) {
    exists e :: e in events
      && (e.TextDelta? || e.ThinkingDelta? || e.ToolCallStart? || e.ToolCallDelta? || e.ToolCallEnd?)
  }

  predicate DeliversText(events: seq<Event>) {
    exists e :: e in events && e.TextDelta? && e.text != ""
  }

  /** The provider or the model is the wrong one for good, or the error is transient and
      has nothing to do with the size or the content of the request. */
  predicate AnotherTryMayHelp(e: ModelError) {
    || e.code in {InvalidToolArguments, Billing, ModelNotFound, AuthError, ProviderNotFound}
    || (e.retryable && !e.recoverableViaCompact && !e.recoverableViaImageStrip
        && e.code !in {PromptTooLong, RequestTooLarge, ContextOverflow})
  }

  lemma {:induction false} TextIsDelivered(events: seq<Event>)
    ensures PartialText(events) != "" <==> DeliversText(events)
  {
    if events != [] {
      TextIsDelivered(Init(events));
      assert events == Init(events) + [Last(events)];
    }
  }

  // The calls of one plan --------------------------------------------------------------------

  /** Calls at the end of the log that were made for plan `p` and ended with an error. */
  function ErrorsOn(steps: seq<Step>, p: nat): nat {
    if steps == [] || Last(steps).plan != p then 0
    else ErrorsOn(Init(steps), p) + (if EndedWith(Last(steps).run).Some? then 1 else 0)
  }

  function EndedWith(run: StreamRun): Option<ModelError> {
    if run.ending.Finished? then run.ending.error else None
  }

  /** The next call is made for the same plan. */
  predicate AsksAgain(steps: seq<Step>, n: nat)
    requires n < |steps|
  {
    n + 1 < |steps| && steps[n + 1].plan == steps[n].plan
  }

  /** The `n`-th call is the last one of the turn. */
  predicate EndsAt(steps: seq<Step>, n: nat) {
    n + 1 == |steps|
  }

  lemma {:induction false} SamePlanStays(cfg: Config, plans: seq<Plan>, env: Env, steps: seq<Step>, n: nat)
    requires Valid(cfg, plans, env, steps)
    requires n < |steps| && AsksAgain(steps, n)
    ensures Stays(steps[n].fate)
  {
    assert Follows(cfg, plans, env, steps[..n + 1], steps[n + 1]);
    assert Last(steps[..n + 1]) == steps[n];
    InnerFates(cfg, plans, env, steps, n);
    if steps[n].fate.FellBack? {
      ArrivalIsLater(plans, env, steps[n].plan + 1);
    }
  }

  /** Retries that have been made on a plan are errors that its calls have met. */
  lemma {:induction false} RetriesAreErrors(cfg: Config, plans: seq<Plan>, env: Env, steps: seq<Step>, n: nat)
    requires Valid(cfg, plans, env, steps)
    requires n < |steps|
    ensures RetriesOn(steps[..n], steps[n].plan) == ErrorsOn(steps[..n], steps[n].plan)
  {
    if n > 0 {
      assert Init(steps[..n]) == steps[..n - 1] && Last(steps[..n]) == steps[n - 1];
      if steps[n - 1].plan == steps[n].plan {
        SamePlanStays(cfg, plans, env, steps, n - 1);
        RetriesAreErrors(cfg, plans, env, steps, n - 1);
        assert Follows(cfg, plans, env, steps[..n - 1], steps[n - 1]);
      }
    }
  }

  /** What the fate of a call means for the calls after it. */
  lemma {:induction false} WhatFollows(cfg: Config, plans: seq<Plan>, env: Env, steps: seq<Step>, exit: Exit, n: nat)
    requires Complete(cfg, plans, env, steps, exit)
    requires n < |steps|
    ensures steps[n].plan < |plans|
    ensures steps[n].fate
         == FateOf(cfg, steps[n].plan == |plans| - 1, CallsOn(steps[..n], steps[n].plan) + 1,
                   ErrorsOn(steps[..n], steps[n].plan), steps[n].run)
    ensures AsksAgain(steps, n) <==> Stays(steps[n].fate) && !env.delayAborts(n)
    ensures AsksAgain(steps, n) ==>
      steps[n + 1].request == if steps[n].fate.Continued?
                              then ContinuationRequest(steps[n].request, PartialText(steps[n].run.events))
                              else steps[n].request
    ensures !AsksAgain(steps, n) && !steps[n].fate.FellBack? ==> EndsAt(steps, n)
    ensures steps[n].fate.Failed? ==> EndsAt(steps, n) && exit == Failure(EndedWith(steps[n].run).value, steps[n].plan)
    ensures steps[n].fate.Accepted? ==> EndsAt(steps, n) && exit == Succeeded(steps[n].plan)
    ensures Stays(steps[n].fate) && env.delayAborts(n) ==> EndsAt(steps, n) && exit == Thrown
  {
    hide PartialText, HasContent;
    assert Follows(cfg, plans, env, steps[..n], steps[n]);
    RetriesAreErrors(cfg, plans, env, steps, n);
    if n + 1 < |steps| {
      assert Follows(cfg, plans, env, steps[..n + 1], steps[n + 1]);
      assert Last(steps[..n + 1]) == steps[n];
      InnerFates(cfg, plans, env, steps, n);
      if steps[n].plan == steps[n + 1].plan {
        SamePlanStays(cfg, plans, env, steps, n);
      }
    } else {
      assert Last(steps) == steps[n];
    }
  }

  // Which plan comes next ------------------------------------------------------------------------

  /** From plan `i` on the plan loop goes past the plans that are neither the first nor the
      last and whose provider is skippable. At the first other plan it stops the turn, if
      the turn is aborted or the plan is over the token budget, or enters the plan. An
      abort is noticed at any plan on the way. */
  lemma {:induction false} ArrivalIs(plans: seq<Plan>, env: Env, i: nat)
    requires i < |plans|
    ensures
      var a := Arrive(plans, env, i);
      && i <= a.plan < |plans|
      && (forall j :: i <= j < a.plan ==> 0 < j < |plans| - 1 && env.skippable(j) && !env.aborted(j))
      && (a.StopAborted? <==> env.aborted(a.plan))
      && (!a.StopAborted? ==> a.plan == 0 || a.plan == |plans| - 1 || !env.skippable(a.plan))
      && (!a.StopAborted? ==> (a.StopOverBudget? <==> plans[a.plan].overBudget))
    decreases |plans| - i
  {
    if !env.aborted(i) && PassedOver(plans, env, i) {
      ArrivalIs(plans, env, i + 1);
    }
  }

  /** The turn goes on at plan `i` or beyond: with the plan that the plan loop arrives at and
      that plan's own request, or not at all when it is stopped on its way. */
  predicate GoesOnFrom(plans: seq<Plan>, env: Env, steps: seq<Step>, exit: Exit, made: nat, i: nat)
    requires made <= |steps| && i < |plans|
  {
    var next := Arrive(plans, env, i);
    if made < |steps| then
      next == Enter(steps[made].plan) && steps[made].plan < |plans|
      && steps[made].request == plans[steps[made].plan].request
    else
      match next
      case Enter(_) => false
      case StopAborted(p) => exit == AbortedAt(p)
      case StopOverBudget(p) => exit == OverBudgetAt(p)
  }

  /** A turn with plans starts at the first one; without plans it ends at once. */
  lemma {:induction false} StartsAtFirstPlan(cfg: Config, plans: seq<Plan>, env: Env, steps: seq<Step>, exit: Exit)
    requires Complete(cfg, plans, env, steps, exit)
    ensures plans != [] ==> GoesOnFrom(plans, env, steps, exit, 0, 0)
    ensures plans == [] <==> exit == NoPlans
    ensures plans == [] ==> steps == []
  {
    if steps != [] {
      assert Follows(cfg, plans, env, steps[..0], steps[0]);
      ArrivalIsLater(plans, env, 0);
    }
  }

  lemma {:induction false} AfterFallback(cfg: Config, plans: seq<Plan>, env: Env, steps: seq<Step>, exit: Exit, n: nat)
    requires Complete(cfg, plans, env, steps, exit)
    requires n < |steps| && steps[n].fate.FellBack?
    ensures steps[n].plan + 1 < |plans|
    ensures GoesOnFrom(plans, env, steps, exit, n + 1, steps[n].plan + 1) && !AsksAgain(steps, n)
  {
    assert Follows(cfg, plans, env, steps[..n], steps[n]);
    var p := steps[n].plan;
    if n + 1 < |steps| {
      assert Follows(cfg, plans, env, steps[..n + 1], steps[n + 1]);
      assert Last(steps[..n + 1]) == steps[n];
      ArrivalIsLater(plans, env, p + 1);
    } else {
      assert Last(steps) == steps[n];
    }
  }

  /** The call is repeated, unless the turn is aborted in the wait before that. */
  predicate IsRepeated(env: Env, steps: seq<Step>, exit: Exit, n: nat, request: Request)
    requires n < |steps|
  {
    if env.delayAborts(n) then EndsAt(steps, n) && exit == Thrown
    else AsksAgain(steps, n) && steps[n + 1].request == request
  }

  // After content --------------------------------------------------------------------------------

  /** A stream that breaks after content is continued exactly when the error is retryable,
      some text has been delivered and the plan has retries left; otherwise the turn fails
      with this very error. */
  lemma {:induction false} BrokenAfterContent(cfg: Config, plans: seq<Plan>, env: Env,
        steps: seq<Step>, exit: Exit, n: nat)
    requires Complete(cfg, plans, env, steps, exit)
    requires n < |steps| && EndedWith(steps[n].run).Some? && ShowsContent(steps[n].run.events)
    ensures
      var s, e, retries := steps[n], EndedWith(steps[n].run).value, Max(1, cfg.transientAttempts.GetOr(2));
      if e.retryable && DeliversText(s.run.events) && ErrorsOn(steps[..n], s.plan) < retries
      then IsRepeated(env, steps, exit, n, ContinuationRequest(s.request, PartialText(s.run.events)))
      else EndsAt(steps, n) && exit == Failure(e, s.plan)
  {
    hide Complete, CallsOn, ErrorsOn;
    WhatFollows(cfg, plans, env, steps, exit, n);
    TextIsDelivered(steps[n].run.events);
  }

  // Before content -------------------------------------------------------------------------------

  /** A call that fails before content is passed on to the next plan exactly when another
      try may help and there is a next plan. On the last plan it is repeated exactly when
      another try may help, transient retry is on and the plan has retries left. In all
      other cases the turn fails with this very error. */
  lemma {:induction false} FailedBeforeContent(cfg: Config, plans: seq<Plan>, env: Env,
        steps: seq<Step>, exit: Exit, n: nat)
    requires Complete(cfg, plans, env, steps, exit)
    requires n < |steps| && EndedWith(steps[n].run).Some? && !ShowsContent(steps[n].run.events)
    ensures steps[n].plan < |plans|
    ensures
      var s, e, retries := steps[n], EndedWith(steps[n].run).value, Max(1, cfg.transientAttempts.GetOr(2));
      if AnotherTryMayHelp(e) && s.plan + 1 < |plans|
      then GoesOnFrom(plans, env, steps, exit, n + 1, s.plan + 1) && !AsksAgain(steps, n)
      else if AnotherTryMayHelp(e) && cfg.transientEnabled && ErrorsOn(steps[..n], s.plan) < retries
      then IsRepeated(env, steps, exit, n, s.request)
      else EndsAt(steps, n) && exit == Failure(e, s.plan)
  {
    hide CallsOn, ErrorsOn, Valid;
    WhatFollows(cfg, plans, env, steps, exit, n);
    if steps[n].fate.FellBack? {
      AfterFallback(cfg, plans, env, steps, exit, n);
    }
  }

  // Empty answers ------------------------------------------------------------------------------------

  /** A call without an error is repeated, with the same request, exactly when it showed
      no content, its outcome asks for it, zero-usage retry is on and the plan has calls
      left for it; otherwise it is the answer. */
  lemma {:induction false} AnsweredWithoutError(cfg: Config, plans: seq<Plan>, env: Env,
        steps: seq<Step>, exit: Exit, n: nat)
    requires Complete(cfg, plans, env, steps, exit)
    requires n < |steps| && steps[n].run.ending.Finished? && steps[n].run.ending.error.None?
    ensures
      var s, calls := steps[n], Max(1, cfg.zeroUsageAttempts.GetOr(5));
      if !ShowsContent(s.run.events) && s.run.ending.retryZeroUsage && cfg.zeroUsageEnabled
         && CallsOn(steps[..n], s.plan) + 1 < calls
      then IsRepeated(env, steps, exit, n, s.request)
      else EndsAt(steps, n) && exit == Succeeded(s.plan)
  {
    hide Complete, CallsOn, ErrorsOn;
    WhatFollows(cfg, plans, env, steps, exit, n);
  }

  // No verdict -------------------------------------------------------------------------------------------

  /** The error of the latest call that met one. */
  ghost predicate IsLatestError(steps: seq<Step>, error: Option<ModelError>) {
    match error
    case None => forall m :: 0 <= m < |steps| ==> EndedWith(steps[m].run).None?
    case Some(_) =>
      exists m :: 0 <= m < |steps| && EndedWith(steps[m].run) == error
                  && forall k :: m < k < |steps| ==> EndedWith(steps[k].run).None?
  }

  lemma {:induction false} LastErrorIsLatest(steps: seq<Step>)
    ensures IsLatestError(steps, LastError(steps))
  {
    if steps != [] {
      var before := Init(steps);
      LastErrorIsLatest(before);
      assert forall m :: 0 <= m < |before| ==> before[m] == steps[m];
      if EndedWith(Last(steps).run).Some? {
        assert EndedWith(steps[|steps| - 1].run) == LastError(steps);
      } else if LastError(before).Some? {
        var m :| 0 <= m < |before| && EndedWith(before[m].run) == LastError(before)
                 && forall k :: m < k < |before| ==> EndedWith(before[k].run).None?;
        assert EndedWith(steps[m].run) == LastError(steps);
      }
    }
  }

  /** The latest call that had an outcome, of which there is one as soon as there is an error. */
  lemma {:induction false} LastBufferedIsLatest(steps: seq<Step>) returns (m: nat)
    requires LastError(steps).Some?
    ensures m < |steps| && steps[m].run.ending.Finished? && LastBuffered(steps) == steps[m].run.events
    ensures forall k :: m < k < |steps| ==> !steps[k].run.ending.Finished?
  {
    m := |steps| - 1;
    if !Last(steps).run.ending.Finished? {
      m := LastBufferedIsLatest(Init(steps));
      assert forall k :: 0 <= k < |Init(steps)| ==> steps[k] == Init(steps)[k];
    }
  }

  /** What a failed turn delivers: the calls that were continued, the last call if it showed
      content or had an outcome, and the error. If the last call showed no content, the
      latest call with an outcome is given again, without its errors. */
  lemma {:induction false} FailureDelivers(cfg: Config, requested: Plan, plans: seq<Plan>, env: Env,
        steps: seq<Step>, exit: Exit) returns (m: nat)
    requires Complete(cfg, plans, env, steps, exit) && exit.Failure?
    ensures exit.plan < |plans|
    ensures m < |steps| && steps[m].run.ending.Finished?
    ensures forall k :: m < k < |steps| ==> !steps[k].run.ending.Finished?
    ensures
      var last := Last(steps).run;
      ShownBy(steps) + Tail(requested, plans, steps, exit)
      == ContinuedEvents(Init(steps))
         + (if ShowsContent(last.events) || last.ending.Finished? then last.events else [])
         + (if ShowsContent(last.events) then [] else NonErrors(steps[m].run.events))
         + [ErrorEvent(exit.error.(provider := plans[exit.plan].provider, model := Some(plans[exit.plan].model)))]
  {
    hide NonErrors, Valid, Tail, ShownBy;
    FailureOutput(cfg, requested, plans, env, steps, exit);
    WhatFollows(cfg, plans, env, steps, exit, |steps| - 1);
    m := LastBufferedIsLatest(steps);
  }

  /** A call that is aborted ends the turn with the abort. A stream that ends without an
      outcome ends it with the latest error of the turn, or silently if there was none. */
  lemma {:induction false} EndedWithoutVerdict(cfg: Config, plans: seq<Plan>, env: Env,
        steps: seq<Step>, exit: Exit, n: nat) returns (latest: Option<ModelError>)
    requires Complete(cfg, plans, env, steps, exit)
    requires n < |steps| && !steps[n].run.ending.Finished?
    ensures EndsAt(steps, n) && IsLatestError(steps, latest)
    ensures steps[n].run.ending.Aborted? ==> exit == Thrown
    ensures steps[n].run.ending.NoOutcome? ==>
      exit == if latest.Some? then Failure(latest.value, steps[n].plan) else EndedSilently
  {
    hide CallsOn, ErrorsOn, Valid, IsLatestError;
    latest := LastError(steps);
    LastErrorIsLatest(steps);
    WhatFollows(cfg, plans, env, steps, exit, n);
  }

  // What is delivered when a turn is stopped -----------------------------------------------------------

  /** A turn that is stopped delivers the calls that were continued, what a last call that
      was cut short had shown, and an error of its own only when a plan is over the token
      budget or there is no plan at all. */
  lemma {:induction false} StoppedOutput(cfg: Config, requested: Plan, plans: seq<Plan>, env: Env,
        steps: seq<Step>, exit: Exit)
    requires Complete(cfg, plans, env, steps, exit) && !exit.Succeeded? && !exit.Failure?
    ensures exit.OverBudgetAt? ==> exit.plan < |plans|
    ensures
      var out := ShownBy(steps) + Tail(requested, plans, steps, exit);
      match exit
      case AbortedAt(_) => out == ContinuedEvents(steps)
      case OverBudgetAt(p) =>
        out == ContinuedEvents(steps)
             + [ErrorEvent(ModelError(plans[p].provider, None, SubagentBudgetExceeded, false, false, false))]
      case NoPlans =>
        out == [ErrorEvent(ModelError(requested.provider, None, UnsupportedModality, false, false, false))]
      case _ =>
        steps != []
        && out == ContinuedEvents(Init(steps))
                + (if ShowsContent(Last(steps).run.events) then Last(steps).run.events else [])
  {
    hide FateOf;
    if steps != [] {
      InitPasses(cfg, plans, env, steps);
      ValidLast(cfg, plans, env, steps);
      OnlyContinuationsShow(cfg, plans, env, Init(steps));
      if exit.AbortedAt? || exit.OverBudgetAt? {
        ArrivalIsLater(plans, env, ResumeAt(steps));
        PassingUpToFallback(cfg, plans, env, steps);
        OnlyContinuationsShow(cfg, plans, env, steps);
      }
    } else if plans != [] {
      ArrivalIsLater(plans, env, 0);
    }
  }

  lemma {:induction false} PassingUpToFallback(cfg: Config, plans: seq<Plan>, env: Env, steps: seq<Step>)
    requires Valid(cfg, plans, env, steps)
    requires steps != [] && Last(steps).fate.FellBack?
    ensures Passing(steps)
  {
    forall n | 0 <= n < |steps| ensures steps[n].fate.FellBack? || Stays(steps[n].fate) {
      if n + 1 < |steps| {
        InnerFates(cfg, plans, env, steps, n);
      }
    }
  }

  // What is reported ------------------------------------------------------------------------------------

  /** One failure for every call that met an error, with the provider it was made to. */
  function FailureReports(plans: seq<Plan>, steps: seq<Step>): seq<Effect> {
    if steps == [] then []
    else
      var s := Last(steps);
      FailureReports(plans, Init(steps)) +
      (match EndedWith(s.run)
       case Some(e) => if s.plan < |plans| then [HealthFailure(plans[s.plan].provider, e.code)] else []
       case None => [])
  }

  /** The health tracker hears of every error, in order, and of the success, if any. */
  lemma {:induction false} HealthReports(cfg: Config, plans: seq<Plan>, env: Env, steps: seq<Step>, exit: Exit)
    requires Complete(cfg, plans, env, steps, exit)
    ensures exit.Succeeded? ==> exit.plan < |plans|
    ensures EffectsBy(plans, steps) == FailureReports(plans, steps) +
            (if exit.Succeeded? then [HealthSuccess(plans[exit.plan].provider)] else [])
  {
    hide FateOf;
    if steps != [] {
      InitPasses(cfg, plans, env, steps);
      ValidLast(cfg, plans, env, steps);
      NoSuccessBefore(plans, Init(steps));
      WhatFollows(cfg, plans, env, steps, exit, |steps| - 1);
      AcceptedHasNoError(cfg, plans, env, steps);
      if Last(steps).fate.FellBack? {
        PassingUpToFallback(cfg, plans, env, steps);
        NoSuccessBefore(plans, steps);
      }
    }
  }

  lemma {:induction false} AcceptedHasNoError(cfg: Config, plans: seq<Plan>, env: Env, steps: seq<Step>)
    requires Valid(cfg, plans, env, steps) && steps != []
    ensures Last(steps).plan < |plans|
    ensures Last(steps).fate.Accepted? ==> EndedWith(Last(steps).run).None? && Last(steps).run.ending.Finished?
  {
    ValidLast(cfg, plans, env, steps);
  }

  lemma {:induction false} NoSuccessBefore(plans: seq<Plan>, steps: seq<Step>)
    requires Passing(steps)
    ensures EffectsBy(plans, steps) == FailureReports(plans, steps)
  {
    if steps != [] {
      NoSuccessBefore(plans, Init(steps));
    }
  }

  /** The statistics name the plan the turn ended on and its error; the store is told of a
      failure exactly for the errors that are a provider's own. */
  lemma {:induction false} ExitReports(exit: Exit, a: Effect)
    ensures a.ObserveStats? && a in ExitEffects(exit) ==>
      || (exit.Succeeded? && a == ObserveStats(exit.plan, None))
      || (exit.Failure? && a == ObserveStats(exit.plan, Some(exit.error.code)))
    ensures RecordFailure in ExitEffects(exit) <==>
            exit.Failure? && exit.error.code in {Timeout, ServerError, Overloaded, ConnectionReset,
              ConnectionRefused, DnsError, TlsError, ProxyError, Unknown}
    ensures ResetFailures in ExitEffects(exit) <==> exit == Succeeded(0)
  {
  }
}
