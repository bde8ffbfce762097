/** Mid-stream continuation: what the next request knows about the text that the
    consumer already has, and how far the retry budgets can stretch. */
module RouterContinuation {
  import opened Prelude
  import opened ModelStream
  import opened RouterTrace
  import opened RouterTheorems

  /** Calls continued in the current run of calls on plan `p`. */
  function ContinuedOn(steps: seq<Step>, p: nat): nat {
    if steps == [] || Last(steps).plan != p then 0
    else ContinuedOn(Init(steps), p) + (if Last(steps).fate.Continued? then 1 else 0)
  }

  /** The log before its latest continued call. */
  function BeforeContinued(steps: seq<Step>): seq<Step> {
    if steps == [] then []
    else if Last(steps).fate.Continued? then Init(steps)
    else BeforeContinued(Init(steps))
  }

  function LatestText(steps: seq<Step>): string {
    if steps == [] then ""
    else if Last(steps).fate.Continued? then PartialText(Last(steps).run.events)
    else LatestText(Init(steps))
  }

  lemma {:induction false} PartialTextAppend(a: seq<Event>, b: seq<Event>)
    ensures PartialText(a + b) == PartialText(a) + PartialText(b)
  {
    if b == [] {
      assert a + b == a;
    } else {
      PartialTextAppend(a, Init(b));
      assert Init(a + b) == a + Init(b);
    }
  }

  /** Whatever has been tried on a plan, its next request is the plan's own request
      or the continuation of it from the text of the latest continued call. */
  lemma {:induction false} RequestShape(cfg: Config, plans: seq<Plan>, env: Env, steps: seq<Step>, p: nat)
    requires Valid(cfg, plans, env, steps)
    requires p < |plans|
    ensures NextRequest(plans, steps, p) ==
            if ContinuedOn(steps, p) == 0 then plans[p].request
            else ContinuationRequest(plans[p].request, LatestText(steps))
  {
    if steps != [] && Last(steps).plan == p {
      var before := Init(steps);
      ValidLast(cfg, plans, env, steps);
      RequestShape(cfg, plans, env, before, p);
      if Last(steps).fate.Continued? && ContinuedOn(before, p) > 0 {
        ContinuationReplacesContinuation(plans[p].request, LatestText(before), LatestText(steps));
      }
    }
  }

  /** The text of the continued calls is the text before the latest one, then its own. */
  lemma {:induction false} TextSplits(cfg: Config, plans: seq<Plan>, env: Env, steps: seq<Step>)
    requires Valid(cfg, plans, env, steps)
    requires Continuations(steps) > 0
    ensures Valid(cfg, plans, env, BeforeContinued(steps))
    ensures PartialText(ContinuedEvents(steps))
         == PartialText(ContinuedEvents(BeforeContinued(steps))) + LatestText(steps)
    ensures Continuations(steps) == Continuations(BeforeContinued(steps)) + 1
    ensures LatestText(steps) != ""
  {
    ValidLast(cfg, plans, env, steps);
    if Last(steps).fate.Continued? {
      PartialTextAppend(ContinuedEvents(Init(steps)), Last(steps).run.events);
    } else {
      TextSplits(cfg, plans, env, Init(steps));
      assert ContinuedEvents(Init(steps)) + [] == ContinuedEvents(Init(steps));
    }
  }

  lemma {:induction false} NoTextIffNoContinuation(cfg: Config, plans: seq<Plan>, env: Env, steps: seq<Step>)
    requires Valid(cfg, plans, env, steps)
    ensures PartialText(ContinuedEvents(steps)) == "" <==> Continuations(steps) == 0
  {
    ContinuedEventsEmpty(cfg, plans, env, steps);
    if Continuations(steps) > 0 {
      TextSplits(cfg, plans, env, steps);
    }
  }

  lemma {:induction false} ContinuedOnIsPart(steps: seq<Step>, p: nat)
    ensures ContinuedOn(steps, p) <= Continuations(steps)
  {
    if steps != [] {
      ContinuedOnIsPart(Init(steps), p);
    }
  }

  /** A call is made with the knowledge of all the text the consumer has received
      exactly when the first and only continued call so far was on the same plan or, with
      none on this plan, the plan's own request carries just that text. A request that
      is no continuation carries none: then at most one call may have been continued, on
      the same plan. After a second continuation, or after falling back from a continued
      plan, the model no longer sees some of the text that was already delivered. */
  lemma {:induction false} RequestKnowsShownText(cfg: Config, plans: seq<Plan>, env: Env, steps: seq<Step>, n: nat)
    requires Valid(cfg, plans, env, steps)
    requires n < |steps|
    ensures steps[n].plan < |plans|
    ensures
      var before, p := steps[..n], steps[n].plan;
      var knows := CarriedText(steps[n].request) == PartialText(ShownBy(before));
      && (ContinuedOn(before, p) > 0 ==> (knows <==> Continuations(before) == 1))
      && (ContinuedOn(before, p) == 0 ==>
            (knows <==> CarriedText(plans[p].request) == PartialText(ShownBy(before))))
      && (!EndsWithContinuation(plans[p].request.messages) ==>
            (knows <==> Continuations(before) == ContinuedOn(before, p) <= 1))
  {
    var before, p := steps[..n], steps[n].plan;
    assert Follows(cfg, plans, env, before, steps[n]);
    ValidTake(cfg, plans, env, steps, n);
    forall m | 0 <= m < |before| ensures before[m].fate.FellBack? || Stays(before[m].fate) {
      InnerFates(cfg, plans, env, steps, m);
    }
    OnlyContinuationsShow(cfg, plans, env, before);
    RequestShape(cfg, plans, env, before, p);
    ContinuedOnIsPart(before, p);
    NoTextIffNoContinuation(cfg, plans, env, before);
    if Continuations(before) > 0 {
      TextSplits(cfg, plans, env, before);
      NoTextIffNoContinuation(cfg, plans, env, BeforeContinued(before));
      ContinuationReplacesContinuation(plans[p].request, "", LatestText(before));
      SuffixIsWhole(PartialText(ContinuedEvents(BeforeContinued(before))), LatestText(before));
    }
  }

  lemma {:induction false} SuffixIsWhole(a: string, b: string)
    ensures a + b == b <==> a == ""
  {
    if a != "" {
      assert |a + b| > |b|;
    } else {
      assert a + b == b;
    }
  }

  lemma {:induction false} ValidTake(cfg: Config, plans: seq<Plan>, env: Env, steps: seq<Step>, n: nat)
    requires Valid(cfg, plans, env, steps)
    requires n <= |steps|
    ensures Valid(cfg, plans, env, steps[..n])
  {
    forall m | 0 <= m < n ensures Follows(cfg, plans, env, steps[..n][..m], steps[..n][m]) {
      assert Follows(cfg, plans, env, steps[..m], steps[m]);
      assert steps[..n][..m] == steps[..m];
    }
  }

  // A turn in which text is lost ------------------------------------------------------

  const CUT_OFF := ModelError("p", None, ConnectionReset, true, false, false)

  function CutRun(text: string): StreamRun {
    StreamRun([TextDelta(text)], Finished(Some(CUT_OFF), false))
  }

  function FirstCut(plan: Plan): Step {
    Step(0, plan.request, CutRun("a"), Continued)
  }

  function SecondCut(plan: Plan): Step {
    Step(0, ContinuationRequest(plan.request, "a"), CutRun("b"), Continued)
  }

  /** Two broken streams in a row: the consumer has "ab", the third request
      continues from "b" alone. */
  lemma {:induction false} SecondContinuationLosesText(plan: Plan, env: Env)
    requires !plan.overBudget && !env.aborted(0) && !env.delayAborts(0) && !env.delayAborts(1)
    requires env.stream(0) == CutRun("a") && env.stream(1) == CutRun("b")
    ensures
      var log := [FirstCut(plan), SecondCut(plan)];
      && Valid(Config(true, None, true, None), [plan], env, log)
      && MayCall([plan], env, log, 0)
      && PartialText(ShownBy(log)) == "ab"
      && CarriedText(NextRequest([plan], log, 0)) == "b"
  {
    TwoCutsAreValid(plan, env);
    TwoCutsShow(plan);
    assert Init([FirstCut(plan), SecondCut(plan)]) == [FirstCut(plan)];
    CutRunShows("b");
    ContinuationReplacesContinuation(plan.request, "a", "b");
  }

  lemma {:induction false} TwoCutsAreValid(plan: Plan, env: Env)
    requires !plan.overBudget && !env.aborted(0) && !env.delayAborts(0)
    requires env.stream(0) == CutRun("a") && env.stream(1) == CutRun("b")
    ensures Valid(Config(true, None, true, None), [plan], env, [FirstCut(plan), SecondCut(plan)])
  {
    hide PartialText, HasContent, FateOf, IsContent, ContinuationRequest;
    var cfg := Config(true, None, true, None);
    CutContinues(cfg, "a", 1, 0);
    assert Follows(cfg, [plan], env, [], FirstCut(plan));
    ValidAppend(cfg, [plan], env, [], FirstCut(plan));
    var log := [FirstCut(plan)];
    assert [] + [FirstCut(plan)] == log;
    assert Last(log) == FirstCut(plan) && Init(log) == [];
    CutRunShows("a");
    CutContinues(cfg, "b", 2, 1);
    assert CallsOn(log, 0) == 1 && RetriesOn(log, 0) == 1;
    assert Follows(cfg, [plan], env, log, SecondCut(plan));
    ValidAppend(cfg, [plan], env, log, SecondCut(plan));
    assert log + [SecondCut(plan)] == [FirstCut(plan), SecondCut(plan)];
  }

  lemma {:induction false} CutContinues(cfg: Config, text: string, call: nat, retries: nat)
    requires text != "" && retries < cfg.TransientMax()
    ensures forall isLast :: FateOf(cfg, isLast, call, retries, CutRun(text)) == Continued
  {
    CutRunShows(text);
  }

  lemma {:induction false} TwoCutsShow(plan: Plan)
    ensures PartialText(ShownBy([FirstCut(plan), SecondCut(plan)])) == "ab"
  {
    hide PartialText, HasContent, IsContent;
    var a, b := CutRun("a").events, CutRun("b").events;
    CutRunShows("a");
    CutRunShows("b");
    assert Init([FirstCut(plan)]) == [];
    assert ShownBy([FirstCut(plan)]) == [] + a;
    assert Init([FirstCut(plan), SecondCut(plan)]) == [FirstCut(plan)];
    assert ShownBy([FirstCut(plan), SecondCut(plan)]) == ([] + a) + b == a + b;
    PartialTextAppend(a, b);
    assert "a" + "b" == "ab";
  }

  lemma {:induction false} CutRunShows(text: string)
    ensures HasContent(CutRun(text).events)
    ensures PartialText(CutRun(text).events) == text
  {
    assert TextDelta(text) in CutRun(text).events;
    assert Init([TextDelta(text)]) == [];
  }

  // The call bound is reached ---------------------------------------------------------------

  /** The worst a plan can meet: empty answers until that budget is spent, then
      broken streams until the other is, then an error with nothing shown. */
  function WorstRun(cfg: Config, r: nat): StreamRun {
    if r < cfg.ZeroUsageBudget() - 1 then StreamRun([], Finished(None, true))
    else if r < cfg.CallsPerPlan() - 1 then CutRun("x")
    else StreamRun([], Finished(Some(CUT_OFF), false))
  }

  function Remainder(k: nat, b: nat): nat {
    if k < b || b == 0 then k else Remainder(k - b, b)
  }

  /** The providers of the plans that are over the token budget are skippable. */
  function WorstEnv(cfg: Config, plans: seq<Plan>): Env {
    Env((k: nat) => WorstRun(cfg, Remainder(k, cfg.CallsPerPlan())),
        (k: nat) => false, (p: nat) => false, (p: nat) => p < |plans| && plans[p].overBudget)
  }

  /** `steps` is the worst case after the plans before `p` and `r` calls on `p`. */
  ghost predicate WorstSoFar(cfg: Config, plans: seq<Plan>, steps: seq<Step>, p: nat, r: nat)
    requires p < |plans|
  {
    && Valid(cfg, plans, WorstEnv(cfg, plans), steps)
    && !plans[p].overBudget
    && |steps| == Fitting(plans, p) * cfg.CallsPerPlan() + r
    && CallsOn(steps, p) == r
    && RetriesOn(steps, p) == (if r < cfg.ZeroUsageBudget() then 0 else r - (cfg.ZeroUsageBudget() - 1))
    && MayCall(plans, WorstEnv(cfg, plans), steps, p)
  }

  lemma {:induction false} WorstStep(cfg: Config, plans: seq<Plan>, steps: seq<Step>, p: nat, r: nat)
    returns (s: Step)
    requires p < |plans| && r < cfg.CallsPerPlan()
    requires WorstSoFar(cfg, plans, steps, p, r)
    ensures Follows(cfg, plans, WorstEnv(cfg, plans), steps, s) && s.plan == p
    ensures Valid(cfg, plans, WorstEnv(cfg, plans), steps + [s])
    ensures r + 1 < cfg.CallsPerPlan() ==> WorstSoFar(cfg, plans, steps + [s], p, r + 1)
    ensures r + 1 == cfg.CallsPerPlan() ==>
      && s.fate == (if p < |plans| - 1 then FellBack else Failed)
      && s.run.ending == Finished(Some(CUT_OFF), false)
  {
    hide Fitting;
    var env, b := WorstEnv(cfg, plans), cfg.CallsPerPlan();
    RemainderOf(Fitting(plans, p), b, r);
    var run := WorstRun(cfg, r);
    assert env.stream(|steps|) == run;
    CutRunShows("x");
    s := Step(p, NextRequest(plans, steps, p), run, FateOf(cfg, p == |plans| - 1, r + 1, RetriesOn(steps, p), run));
    ValidAppend(cfg, plans, env, steps, s);
    assert Init(steps + [s]) == steps;
  }

  lemma {:induction false} RemainderOf(p: nat, b: nat, r: nat)
    requires r < b
    ensures Remainder(p * b + r, b) == r
  {
    if p > 0 {
      RemainderOf(p - 1, b, r);
      assert p * b == (p - 1) * b + b;
    }
  }

  /** After a fallback the next plan within the budget is entered, or the last plan stops
      the turn. */
  lemma {:induction false} WorstArrival(cfg: Config, plans: seq<Plan>, i: nat)
    requires 0 < i < |plans|
    ensures
      var a := Arrive(plans, WorstEnv(cfg, plans), i);
      && i <= a.plan < |plans|
      && Fitting(plans, a.plan) == Fitting(plans, i)
      && ((a.Enter? && !plans[a.plan].overBudget)
          || (a == StopOverBudget(|plans| - 1) && Fitting(plans, |plans|) == Fitting(plans, i)))
    decreases |plans| - i
  {
    if plans[i].overBudget && i < |plans| - 1 {
      WorstArrival(cfg, plans, i + 1);
    }
  }

  lemma {:induction false} WorstPlan(cfg: Config, plans: seq<Plan>, steps: seq<Step>, p: nat, r: nat)
    returns (all: seq<Step>, exit: Exit)
    requires p < |plans| && r < cfg.CallsPerPlan()
    requires WorstSoFar(cfg, plans, steps, p, r)
    ensures Complete(cfg, plans, WorstEnv(cfg, plans), all, exit)
    ensures |all| == Fitting(plans, |plans|) * cfg.CallsPerPlan()
    decreases |plans| - p, cfg.CallsPerPlan() - r
  {
    hide Fitting, Arrive, Follows, FateOf, HasContent;
    var env, b := WorstEnv(cfg, plans), cfg.CallsPerPlan();
    var s := WorstStep(cfg, plans, steps, p, r);
    if r + 1 < b {
      all, exit := WorstPlan(cfg, plans, steps + [s], p, r + 1);
    } else {
      all := steps + [s];
      OneMoreFits(plans, p);
      assert (Fitting(plans, p) + 1) * b == Fitting(plans, p) * b + b;
      if p < |plans| - 1 {
        WorstArrival(cfg, plans, p + 1);
        var a := Arrive(plans, env, p + 1);
        if a.Enter? {
          all, exit := WorstPlan(cfg, plans, all, a.plan, 0);
        } else {
          exit := OverBudgetAt(|plans| - 1);
        }
      } else {
        exit := Failure(CUT_OFF, p);
      }
    }
  }

  /** The bound on stream calls cannot be lowered: for every list of plans and every
      configuration, some sequence of provider answers makes a whole turn reach it. */
  lemma {:induction false} CallBoundIsReached(cfg: Config, plans: seq<Plan>)
    returns (env: Env, steps: seq<Step>, exit: Exit)
    ensures Complete(cfg, plans, env, steps, exit)
    ensures |steps| == Callable(plans) * cfg.CallsPerPlan()
  {
    env := WorstEnv(cfg, plans);
    if plans == [] {
      steps, exit := [], NoPlans;
    } else if plans[0].overBudget {
      steps, exit := [], OverBudgetAt(0);
    } else {
      assert Arrive(plans, env, 0) == Enter(0);
      steps, exit := WorstPlan(cfg, plans, [], 0, 0);
    }
  }
}
