/** The loops of `execute`: attempt plans, stream calls, deferred events. */
module RouterExecute {
  import opened Prelude
  import opened ModelStream
  import opened RouterTrace

  /** Relays one stream call. Framing events are held back until the first
      content event; `pending` is what is still held back at the end. */
  method Relay(events: seq<Event>, before: seq<Event>)
    returns (out: seq<Event>, pending: seq<Event>, hasYieldedContent: bool)
    ensures hasYieldedContent == HasContent(events)
    ensures hasYieldedContent ==> out == before + events && pending == []
    ensures !hasYieldedContent ==> out == before && pending == events
  {
    out, pending, hasYieldedContent := before, [], false;
    for j := 0 to |events|
      invariant hasYieldedContent == HasContent(events[..j])
      invariant hasYieldedContent ==> out == before + events[..j] && pending == []
      invariant !hasYieldedContent ==> out == before && pending == events[..j]
    {
      var event := events[j];
      assert events[..j + 1] == events[..j] + [event];
      if !hasYieldedContent && IsContent(event) {
        out := out + pending + [event];
        pending := [];
        hasYieldedContent := true;
        assert event in events[..j + 1];
        assert out == before + events[..j + 1];
      } else if hasYieldedContent {
        out := out + [event];
        assert exists e :: e in events[..j] && IsContent(e);
      } else {
        pending := pending + [event];
      }
    }
    assert events[..|events|] == events;
  }

  /** The variables of `execute` that outlive one stream call. */
  datatype Progress = Progress(
    out: seq<Event>,
    steps: seq<Step>,
    effects: seq<Effect>,
    lastBuffered: seq<Event>,
    lastError: Option<ModelError>)

  /** The progress is what the log of calls says it is. */
  ghost predicate Tracks(plans: seq<Plan>, g: Progress) {
    && g.out == ShownBy(g.steps)
    && g.effects == EffectsBy(plans, g.steps)
    && g.lastError == LastError(g.steps)
    && g.lastBuffered == LastBuffered(g.steps)
  }

  ghost predicate Extends(plans: seq<Plan>, g: Progress, next: Progress, s: Step)
  {
    && next.steps == g.steps + [s]
    && next.out == g.out + Shown(s)
    && next.effects == g.effects + StepEffects(plans, s)
    && next.lastError ==
       (if s.run.ending.Finished? && s.run.ending.error.Some? then s.run.ending.error else g.lastError)
    && next.lastBuffered == (if s.run.ending.Finished? then s.run.events else g.lastBuffered)
  }

  lemma {:induction false} ExtendsTracks(plans: seq<Plan>, g: Progress, next: Progress, s: Step)
    requires Tracks(plans, g)
    requires Extends(plans, g, next, s)
    ensures Tracks(plans, next)
    ensures Init(next.steps) == g.steps && Last(next.steps) == s
  {
    assert Init(g.steps + [s]) == g.steps;
  }

  /** A call that stays on its plan leaves the counters one step further. */
  lemma {:induction false} StayedOn(cfg: Config, plans: seq<Plan>, env: Env, steps: seq<Step>, s: Step)
    requires Follows(cfg, plans, env, steps, s)
    requires Stays(s.fate) && !env.delayAborts(|steps|)
    ensures MayCall(plans, env, steps + [s], s.plan)
    ensures CallsOn(steps + [s], s.plan) == CallsOn(steps, s.plan) + 1
    ensures RetriesOn(steps + [s], s.plan) == RetriesOn(steps, s.plan) + (if s.fate.ZeroRetried? then 0 else 1)
    ensures NextRequest(plans, steps + [s], s.plan) ==
            if s.fate.Continued? then ContinuationRequest(s.request, PartialText(s.run.events)) else s.request
    ensures s.fate.ZeroRetried? ==> CallsOn(steps, s.plan) + 1 < cfg.ZeroUsageMax()
    ensures !s.fate.ZeroRetried? ==> RetriesOn(steps, s.plan) < cfg.TransientMax()
  {
    assert Init(steps + [s]) == steps;
  }

  /** One stream call on a plan, and what to do after it. */
  method Call(cfg: Config, plans: seq<Plan>, attemptIndex: nat, attemptRequest: Request,
              zeroUsageAttempt: nat, transientRetryCount: nat, run: StreamRun, g: Progress)
    returns (next: Progress, fate: Fate)
    requires attemptIndex < |plans|
    ensures fate == FateOf(cfg, attemptIndex == |plans| - 1, zeroUsageAttempt, transientRetryCount, run)
    ensures Extends(plans, g, next, Step(attemptIndex, attemptRequest, run, fate))
    ensures fate.Failed? ==> next.lastError.Some?
    ensures fate.FellBack? ==> attemptIndex + 1 < |plans|
  {
    var out, pending, hasYieldedContent := Relay(run.events, g.out);
    next := g.(out := out);
    var provider := plans[attemptIndex].provider;
    if run.ending.Aborted? {
      fate := Threw;
    } else if run.ending.NoOutcome? {
      fate := Broken;
    } else {
      next := next.(lastBuffered := run.events);
      if run.ending.error.Some? {
        var error := run.ending.error.value;
        next := next.(lastError := Some(error), effects := next.effects + [HealthFailure(provider, error.code)]);
        var partialText := PartialText(run.events);
        if !hasYieldedContent && IsFallbackEligible(error) && attemptIndex < |plans| - 1 {
          fate := FellBack;
        } else if !hasYieldedContent && IsFallbackEligible(error) && cfg.transientEnabled
                  && transientRetryCount < cfg.TransientMax() {
          fate := Retried;
        } else if hasYieldedContent && transientRetryCount < cfg.TransientMax() && error.retryable
                  && |partialText| > 0 {
          fate := Continued;
        } else {
          next := next.(out := next.out + pending);
          fate := Failed;
        }
      } else if !hasYieldedContent && cfg.zeroUsageEnabled && run.ending.retryZeroUsage
                && zeroUsageAttempt < cfg.ZeroUsageMax() {
        fate := ZeroRetried;
      } else {
        next := next.(effects := next.effects + [HealthSuccess(provider)]);
        if !hasYieldedContent {
          next := next.(out := next.out + pending);
        }
        fate := Accepted;
      }
    }
    next := next.(steps := next.steps + [Step(attemptIndex, attemptRequest, run, fate)]);
  }

  /** The retry loop of one plan: calls until a call leaves the plan, or until
      the wait before the next call is aborted. */
  method RunPlan(cfg: Config, plans: seq<Plan>, env: Env, attemptIndex: nat, g0: Progress)
    returns (g: Progress, fate: Fate)
    requires Valid(cfg, plans, env, g0.steps) && Tracks(plans, g0)
    requires MayCall(plans, env, g0.steps, attemptIndex)
    requires CallsOn(g0.steps, attemptIndex) == 0
    ensures Valid(cfg, plans, env, g.steps) && Tracks(plans, g)
    ensures fate.Failed? ==> g.lastError.Some?
    ensures fate.FellBack? ==> attemptIndex + 1 < |plans|
    ensures g.steps != [] && Last(g.steps).plan == attemptIndex && Last(g.steps).fate == fate
    ensures Stays(fate) ==> env.delayAborts(|g.steps| - 1)
  {
    hide FateOf, PartialText, HasContent, IsFallbackEligible, Tracks, Valid, Shown, StepEffects;
    g := g0;
    var attemptRequest := plans[attemptIndex].request;
    var zeroUsageAttempt, transientRetryCount := 0, 0;
    while true
      invariant Valid(cfg, plans, env, g.steps) && Tracks(plans, g)
      invariant MayCall(plans, env, g.steps, attemptIndex)
      invariant zeroUsageAttempt == CallsOn(g.steps, attemptIndex)
      invariant transientRetryCount == RetriesOn(g.steps, attemptIndex) <= cfg.TransientMax()
      invariant attemptRequest == NextRequest(plans, g.steps, attemptIndex)
      decreases cfg.TransientMax() - transientRetryCount, cfg.ZeroUsageMax() - zeroUsageAttempt
    {
      zeroUsageAttempt := zeroUsageAttempt + 1;
      var run := env.stream(|g.steps|);
      ghost var before := g;
      g, fate := Call(cfg, plans, attemptIndex, attemptRequest, zeroUsageAttempt, transientRetryCount, run, g);
      ghost var s := Step(attemptIndex, attemptRequest, run, fate);
      ExtendsTracks(plans, before, g, s);
      ValidAppend(cfg, plans, env, before.steps, s);
      if !Stays(fate) || env.delayAborts(|g.steps| - 1) {
        return;
      }
      StayedOn(cfg, plans, env, before.steps, s);
      if fate.Continued? {
        attemptRequest := ContinuationRequest(attemptRequest, PartialText(run.events));
      }
      if !fate.ZeroRetried? {
        transientRetryCount := transientRetryCount + 1;
      }
    }
  }

  /** The plan loop stands at plan `i`, on its way to the plan it will arrive at. */
  ghost predicate Arriving(plans: seq<Plan>, env: Env, steps: seq<Step>, i: nat) {
    && AtPlanLoop(steps)
    && ResumeAt(steps) <= i < |plans|
    && Arrive(plans, env, ResumeAt(steps)) == Arrive(plans, env, i)
  }

  method Execute(cfg: Config, requested: Plan, plans: seq<Plan>, env: Env)
    returns (out: seq<Event>, steps: seq<Step>, exit: Exit, effects: seq<Effect>)
    ensures Complete(cfg, plans, env, steps, exit)
    ensures out == ShownBy(steps) + Tail(requested, plans, steps, exit)
    ensures effects == EffectsBy(plans, steps) + ExitEffects(exit)
  {
    hide FateOf, PartialText, HasContent, IsFallbackEligible;
    var g := Progress([], [], [], [], None);
    var attemptIndex := 0;
    var fate := FellBack;
    while attemptIndex < |plans|
      invariant plans != [] ==> attemptIndex < |plans|
      invariant Valid(cfg, plans, env, g.steps) && Tracks(plans, g)
      invariant plans == [] ==> g.steps == []
      invariant plans != [] ==> Arriving(plans, env, g.steps, attemptIndex)
      decreases |plans| - attemptIndex
    {
      if env.aborted(attemptIndex) {
        return g.out, g.steps, AbortedAt(attemptIndex), g.effects;
      }
      if attemptIndex > 0 && env.skippable(attemptIndex) && attemptIndex < |plans| - 1 {
        attemptIndex := attemptIndex + 1;
        continue;
      }
      var plan := plans[attemptIndex];
      if plan.overBudget {
        out := g.out + [ErrorEvent(ModelError(plan.provider, None, SubagentBudgetExceeded, false, false, false))];
        return out, g.steps, OverBudgetAt(attemptIndex), g.effects;
      }
      g, fate := RunPlan(cfg, plans, env, attemptIndex, g);
      if !fate.FellBack? {
        out, exit, effects := Finish(cfg, requested, plans, env, attemptIndex, g, fate);
        return out, g.steps, exit, effects;
      }
      attemptIndex := attemptIndex + 1;
    }
    // Only an empty plan list gets here: the last plan is never left by falling back.
    out := [ErrorEvent(ModelError(requested.provider, None, UnsupportedModality, false, false, false))];
    return out, g.steps, NoPlans, g.effects;
  }

  /** The accounting after the plan loop has been left. */
  method Finish(cfg: Config, requested: Plan, plans: seq<Plan>, env: Env, attemptIndex: nat, g: Progress, fate: Fate)
    returns (out: seq<Event>, exit: Exit, effects: seq<Effect>)
    requires Tracks(plans, g)
    requires fate.Failed? ==> g.lastError.Some?
    requires g.steps != [] && Last(g.steps).plan == attemptIndex < |plans| && Last(g.steps).fate == fate
    requires !fate.FellBack?
    requires Stays(fate) ==> env.delayAborts(|g.steps| - 1)
    ensures Ends(plans, env, g.steps, exit)
    ensures out == ShownBy(g.steps) + Tail(requested, plans, g.steps, exit)
    ensures effects == EffectsBy(plans, g.steps) + ExitEffects(exit)
  {
    out, effects := g.out, g.effects;
    if fate.Threw? || Stays(fate) {
      exit := Thrown;
    } else if fate.Accepted? {
      effects := effects + [ObserveStats(attemptIndex, None)];
      if attemptIndex == 0 {
        effects := effects + [ResetFailures];
      }
      exit := Succeeded(attemptIndex);
    } else if g.lastError.Some? {
      var error := g.lastError.value;
      if IsProviderFault(error.code) {
        effects := effects + [RecordFailure];
      }
      effects := effects + [ObserveStats(attemptIndex, Some(error.code))];
      if !HasContent(Last(g.steps).run.events) {
        out := out + NonErrors(g.lastBuffered);
      }
      out := out + [ErrorEvent(Named(error, plans[attemptIndex]))];
      exit := Failure(error, attemptIndex);
    } else {
      exit := EndedSilently;
    }
  }
}
