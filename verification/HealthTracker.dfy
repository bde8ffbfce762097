/** The circuit breaker that tells the router which providers to pass over. */
module HealthTracker {
  import opened Prelude

  datatype Provider = Provider(name: string)

  datatype Health = Healthy | Degraded | Open | HalfOpen

  datatype Options = Options(
    degradeThreshold: int,
    openThreshold: int,
    openDurationMs: nat,
    maxOpenDurationMs: nat,
    windowSize: nat,
    halfOpenProbes: nat,
    halfOpenFailureRatio: real)

  datatype Rec = Rec(
    state: Health,
    consecutiveFailures: nat,
    openedAt: int,
    window: seq<bool>,
    openCount: nat,
    probeSuccesses: nat,
    probeFailures: nat)

  const NEW := Rec(Healthy, 0, 0, [], 0, 0, 0)

  function Power2(n: nat): nat {
    if n == 0 then 1 else 2 * Power2(n - 1)
  }

  function OpenDuration(o: Options, openCount: nat): nat {
    Min(o.openDurationMs * Power2(Max(0, openCount - 1)), o.maxOpenDurationMs)
  }

  function Waked(o: Options, r: Rec, now: int): Rec {
    if r.state == Open && now - r.openedAt >= OpenDuration(o, r.openCount)
    then r.(state := HalfOpen, probeSuccesses := 0, probeFailures := 0)
    else r
  }

  predicate ProbeWindowComplete(o: Options, r: Rec) {
    r.probeSuccesses + r.probeFailures >= o.halfOpenProbes
  }

  function Opened(r: Rec, now: int): Rec {
    if r.state == Open then r else r.(state := Open, openedAt := now, openCount := r.openCount + 1)
  }

  predicate TooManyFailures(o: Options, successes: nat, failures: nat) {
    var total := successes + failures;
    (if total > 0 then failures as real / total as real else 0.0) >= o.halfOpenFailureRatio
  }

  function Resolved(o: Options, r: Rec, now: int): Rec {
    var next :=
      if TooManyFailures(o, r.probeSuccesses, r.probeFailures) then Opened(r, now)
      else r.(state := Healthy, openCount := 0);
    next.(probeSuccesses := 0, probeFailures := 0)
  }

  function Pushed(window: seq<bool>, result: bool, size: nat): seq<bool> {
    var all := window + [result];
    if |all| > size then all[1..] else all
  }

  function AfterSuccess(o: Options, r0: Rec, now: int): Rec {
    var w := Waked(o, r0, now);
    var r := w.(consecutiveFailures := 0, window := Pushed(w.window, true, o.windowSize));
    if r.state == HalfOpen then
      var probed := r.(probeSuccesses := r.probeSuccesses + 1);
      if ProbeWindowComplete(o, probed) then Resolved(o, probed, now) else probed
    else if r.state == Degraded || r.state == Open then r.(state := Healthy)
    else r
  }

  function AfterFailure(o: Options, r0: Rec, stress: bool, now: int): Rec {
    var w := Waked(o, r0, now);
    var r := w.(consecutiveFailures := w.consecutiveFailures + 1, window := Pushed(w.window, false, o.windowSize));
    if r.state == HalfOpen then
      var probed := r.(probeFailures := r.probeFailures + 1);
      if ProbeWindowComplete(o, probed) then Resolved(o, probed, now) else probed
    else
      var stressed := if stress && r.state == Healthy then r.(state := Degraded) else r;
      if stressed.consecutiveFailures >= o.openThreshold then Opened(stressed, now)
      else if stressed.consecutiveFailures >= o.degradeThreshold && stressed.state == Healthy
      then stressed.(state := Degraded)
      else stressed
  }

  class ProviderHealthTracker {
    const options: Options
    var records: map<Provider, Rec>

    constructor (options: Options)
      ensures records == map[]
      ensures this.options == options.(halfOpenProbes := Max(1, options.halfOpenProbes))
    {
      this.options := options.(halfOpenProbes := Max(1, options.halfOpenProbes));
      records := map[];
    }

    /** The record of a provider; one that was never heard of counts as new. */
    function At(p: Provider): Rec
      reads this
    {
      if p in records then records[p] else NEW
    }

    method GetOrCreate(p: Provider) returns (r: Rec)
      modifies this
      ensures r == old(At(p)) && records == old(records)[p := r]
    {
      if p !in records {
        records := records[p := NEW];
      }
      return records[p];
    }

    method RecordSuccess(p: Provider, now: int)
      modifies this
      ensures records == old(records)[p := AfterSuccess(options, old(At(p)), now)]
    {
      var r := GetOrCreate(p);
      r := Waked(options, r, now);
      r := r.(consecutiveFailures := 0);
      r := r.(window := Pushed(r.window, true, options.windowSize));
      if r.state == HalfOpen {
        r := r.(probeSuccesses := r.probeSuccesses + 1);
        if ProbeWindowComplete(options, r) {
          r := Resolved(options, r, now);
        }
      } else if r.state == Degraded || r.state == Open {
        r := r.(state := Healthy);
      }
      records := records[p := r];
    }

    method RecordFailure(p: Provider, stress: bool, now: int)
      modifies this
      ensures records == old(records)[p := AfterFailure(options, old(At(p)), stress, now)]
    {
      var r := GetOrCreate(p);
      r := Waked(options, r, now);
      r := r.(consecutiveFailures := r.consecutiveFailures + 1);
      r := r.(window := Pushed(r.window, false, options.windowSize));
      if r.state == HalfOpen {
        r := r.(probeFailures := r.probeFailures + 1);
        if ProbeWindowComplete(options, r) {
          r := Resolved(options, r, now);
        }
        records := records[p := r];
        return;
      }
      if stress && r.state == Healthy {
        r := r.(state := Degraded);
      }
      if r.consecutiveFailures >= options.openThreshold {
        if r.state != Open {
          r := Opened(r, now);
        }
      } else if r.consecutiveFailures >= options.degradeThreshold {
        if r.state == Healthy {
          r := r.(state := Degraded);
        }
      }
      records := records[p := r];
    }

    method GetState(p: Provider, now: int) returns (state: Health)
      modifies this
      ensures state == Waked(options, old(At(p)), now).state
      ensures records == if p in old(records) then old(records)[p := Waked(options, old(At(p)), now)] else old(records)
    {
      if p !in records {
        return Healthy;
      }
      records := records[p := Waked(options, records[p], now)];
      return records[p].state;
    }

    method ShouldSkip(p: Provider, now: int) returns (skip: bool)
      modifies this
      ensures skip == Skips(options, old(At(p)), now)
      ensures records == if p in old(records) then old(records)[p := Waked(options, old(At(p)), now)] else old(records)
    {
      var state := GetState(p, now);
      if state == Open {
        return true;
      }
      if state == HalfOpen {
        return ProbeWindowComplete(options, records[p]);
      }
      return false;
    }
  }

  predicate Skips(o: Options, r: Rec, now: int) {
    var w := Waked(o, r, now);
    w.state == Open || (w.state == HalfOpen && ProbeWindowComplete(o, w))
  }

  // Histories of one provider --------------------------------------------------------------------

  datatype Event = Success(at: int) | Failure(stress: bool, at: int) | Query(at: int)

  function Apply(o: Options, r: Rec, e: Event): Rec {
    match e
    case Success(at) => AfterSuccess(o, r, at)
    case Failure(stress, at) => AfterFailure(o, r, stress, at)
    case Query(at) => Waked(o, r, at)
  }

  function Replay(o: Options, r: Rec, h: seq<Event>): Rec {
    if h == [] then r else Apply(o, Replay(o, r, Init(h)), Last(h))
  }

  predicate IsResult(e: Event) {
    !e.Query?
  }

  function Results(h: seq<Event>): seq<bool> {
    if h == [] then []
    else Results(Init(h)) + (if IsResult(Last(h)) then [Last(h).Success?] else [])
  }

  function FailureRun(results: seq<bool>): nat {
    if results == [] || Last(results) then 0 else 1 + FailureRun(Init(results))
  }

  /** An unfinished probe window is half open, and only a half-open circuit has one. */
  ghost predicate Sound(o: Options, r: Rec) {
    && (r.state == HalfOpen ==> r.probeSuccesses + r.probeFailures < o.halfOpenProbes)
    && (r.state != HalfOpen ==> r.probeSuccesses == r.probeFailures == 0)
    && (r.state == Open || r.state == HalfOpen ==> r.openCount >= 1)
  }

  lemma {:induction false} ReplayIsSound(o: Options, h: seq<Event>)
    requires o.halfOpenProbes >= 1
    ensures Sound(o, Replay(o, NEW, h))
  {
    if h != [] {
      ReplayIsSound(o, Init(h));
    }
  }

  predicate IsLatest(window: seq<bool>, results: seq<bool>, size: nat) {
    |window| == Min(size, |results|) && window == results[|results| - |window|..]
  }

  lemma {:induction false} PushedIsLatest(window: seq<bool>, results: seq<bool>, result: bool, size: nat)
    requires IsLatest(window, results, size)
    ensures IsLatest(Pushed(window, result, size), results + [result], size)
  {
    var all, k := results + [result], |results| - |window|;
    assert all[k..] == results[k..] + [result];
    if |window| + 1 > size {
      assert all[k..][1..] == all[k + 1..];
    }
  }

  lemma {:induction false} StepCounters(o: Options, r: Rec, e: Event)
    ensures
      var t := Apply(o, r, e);
      if IsResult(e) then
        t.consecutiveFailures == (if e.Success? then 0 else r.consecutiveFailures + 1)
        && t.window == Pushed(r.window, e.Success?, o.windowSize)
      else t.consecutiveFailures == r.consecutiveFailures && t.window == r.window
  {
  }

  /** The counters are told by the results alone: the failures since the last success,
      and a window of the latest results. */
  lemma {:induction false} CountersFollowResults(o: Options, h: seq<Event>)
    ensures
      var r, results := Replay(o, NEW, h), Results(h);
      r.consecutiveFailures == FailureRun(results) && IsLatest(r.window, results, o.windowSize)
  {
    hide Apply, Pushed, IsLatest;
    if h == [] {
      assert IsLatest([], [], o.windowSize) by {
        NothingIsLatest(o.windowSize);
      }
    } else {
      var before, results := Replay(o, NEW, Init(h)), Results(Init(h));
      CountersFollowResults(o, Init(h));
      StepCounters(o, before, Last(h));
      PushedIsLatest(before.window, results, Last(h).Success?, o.windowSize);
      assert Init(results + [Last(h).Success?]) == results;
      assert results + [] == results;
    }
  }

  lemma {:induction false} NothingIsLatest(size: nat)
    ensures IsLatest([], [], size)
  {
  }

  /** In every reachable state a provider is passed over exactly while its circuit is
      open and the wait is not over. The branch for an exhausted probe budget is never
      taken: a probe window resolves with the result that completes it. */
  lemma {:induction false} SkipsIffOpen(o: Options, h: seq<Event>, now: int)
    requires o.halfOpenProbes >= 1
    ensures
      var r := Replay(o, NEW, h);
      Skips(o, r, now) <==> r.state == Open && now < r.openedAt + OpenDuration(o, r.openCount)
  {
    ReplayIsSound(o, h);
  }

  /** So the probe budget limits results, not requests: once the wait is over, any
      number of requests may be let through before the first result is in. */
  lemma {:induction false} HalfOpenLetsEveryoneThrough(o: Options, h: seq<Event>, queries: seq<Event>, now: int)
    requires o.halfOpenProbes >= 1
    requires Replay(o, NEW, h).state == HalfOpen
    requires forall q :: q in queries ==> q.Query?
    ensures Replay(o, NEW, h + queries) == Replay(o, NEW, h)
    ensures !Skips(o, Replay(o, NEW, h + queries), now)
  {
    ReplayIsSound(o, h);
    if queries == [] {
      assert h + queries == h;
    } else {
      HalfOpenLetsEveryoneThrough(o, h, Init(queries), now);
      assert Last(queries) in queries;
      assert Init(h + queries) == h + Init(queries) && Last(h + queries) == Last(queries);
    }
  }

  // The wait ------------------------------------------------------------------------------------------

  /** The wait starts at the configured duration, doubles with every open cycle, never
      shrinks and never exceeds its maximum. */
  lemma {:induction false} WaitsDouble(o: Options, n: nat)
    ensures OpenDuration(o, 1) == Min(o.openDurationMs, o.maxOpenDurationMs)
    ensures n >= 1 ==> OpenDuration(o, n + 1) == Min(2 * OpenDuration(o, n), o.maxOpenDurationMs)
    ensures OpenDuration(o, n) <= OpenDuration(o, n + 1) <= o.maxOpenDurationMs
  {
    if n >= 1 {
      var base, p := o.openDurationMs, Power2(n - 1);
      assert Power2(n) == 2 * p;
      assert base * (2 * p) == 2 * (base * p);
    }
  }

  /** While the wait lasts, failures and queries leave the circuit open, and neither
      restarts nor prolongs the wait. */
  lemma {:induction false} StaysOpen(o: Options, r: Rec, h: seq<Event>)
    requires r.state == Open
    requires forall e :: e in h ==> !e.Success? && e.at < r.openedAt + OpenDuration(o, r.openCount)
    ensures
      var t := Replay(o, r, h);
      t.state == Open && t.openedAt == r.openedAt && t.openCount == r.openCount
  {
    if h != [] {
      assert h == Init(h) + [Last(h)];
      StaysOpen(o, r, Init(h));
    }
  }

  // Probing ----------------------------------------------------------------------------------------------

  function Failures(h: seq<Event>): nat {
    if h == [] then 0 else Failures(Init(h)) + (if Last(h).Failure? then 1 else 0)
  }

  /** Half open, with an empty probe window. */
  predicate Probing(r: Rec) {
    r.state == HalfOpen && r.probeSuccesses == r.probeFailures == 0
  }

  lemma {:induction false} ProbeWindowResolves(o: Options, r: Rec, h: seq<Event>)
    requires Probing(r) && |Results(h)| <= o.halfOpenProbes && o.halfOpenProbes >= 1
    requires |Results(h)| == o.halfOpenProbes ==> IsResult(Last(h))
    ensures
      var t, n := Replay(o, r, h), |Results(h)|;
      && Failures(h) <= n
      && if n < o.halfOpenProbes then
           t.state == HalfOpen && t.openCount == r.openCount
           && t.probeFailures == Failures(h) && t.probeSuccesses == n - Failures(h)
         else if TooManyFailures(o, n - Failures(h), Failures(h)) then
           t.state == Open && t.openedAt == Last(h).at && t.openCount == r.openCount + 1
         else t.state == Healthy && t.openCount == 0
  {
    if h != [] {
      ProbeWindowResolves(o, r, Init(h));
    }
  }

  lemma {:induction false} RatioReached(o: Options, successes: nat, failures: nat)
    requires successes + failures > 0
    ensures TooManyFailures(o, successes, failures) <==>
            failures as real >= o.halfOpenFailureRatio * (successes + failures) as real
  {
    var f, t, limit := failures as real, (successes + failures) as real, o.halfOpenFailureRatio;
    var q := f / t;
    assert q * t == f;
    RealProduct(q, limit, t);
  }

  lemma {:induction false} RealProduct(a: real, b: real, t: real)
    requires t > 0.0
    ensures a >= b <==> a * t >= b * t
  {
    assert a * t - b * t == (a - b) * t;
  }

  /** The probe window decides by ratio and by nothing else: until it is full the
      circuit stays half open, whatever the results; the result that fills it reopens
      the circuit, for a longer wait, exactly when the failures reach the ratio, and
      otherwise closes it and forgets the open cycles. */
  lemma {:induction false} ProbeWindowDecides(o: Options, r: Rec, h: seq<Event>)
    requires Probing(r) && |Results(h)| <= o.halfOpenProbes && o.halfOpenProbes >= 1
    requires |Results(h)| == o.halfOpenProbes ==> IsResult(Last(h))
    ensures
      var t, n := Replay(o, r, h), |Results(h)|;
      && Failures(h) <= n
      && if n < o.halfOpenProbes then
           t.state == HalfOpen && t.openCount == r.openCount
           && t.probeFailures == Failures(h) && t.probeSuccesses == n - Failures(h)
         else if Failures(h) as real >= o.halfOpenFailureRatio * n as real then
           t.state == Open && t.openedAt == Last(h).at && t.openCount == r.openCount + 1
         else t.state == Healthy && t.openCount == 0
  {
    hide Replay, TooManyFailures;
    ProbeWindowResolves(o, r, h);
    if |Results(h)| > 0 {
      RatioReached(o, |Results(h)| - Failures(h), Failures(h));
    }
  }

  // Opening and degrading ---------------------------------------------------------------------------------

  /** What a result leaves of a circuit that is not half open when it comes in. After a
      failure the circuit is open exactly when it was open or the failures in a row have
      reached the threshold, and otherwise degraded exactly when it was degraded, the
      failure signals stress, or the failures in a row have reached that threshold. A
      success makes it healthy. */
  lemma {:induction false} ResultLeaves(o: Options, h: seq<Event>, e: Event)
    requires IsResult(e) && Replay(o, NEW, h + [Query(e.at)]).state != HalfOpen
    ensures
      var before, after := Replay(o, NEW, h + [Query(e.at)]), Replay(o, NEW, h + [e]);
      var run := FailureRun(Results(h + [e]));
      && (e.Success? ==> after.state == Healthy)
      && (e.Failure? ==>
            && (after.state == Open <==> before.state == Open || run >= o.openThreshold)
            && (after.state == Degraded <==>
                  after.state != Open && (before.state == Degraded || e.stress || run >= o.degradeThreshold))
            && after.state != HalfOpen
            && (before.state == Open ==> after.openedAt == before.openedAt && after.openCount == before.openCount)
            && (before.state != Open && after.state == Open ==>
                  after.openedAt == e.at && after.openCount == before.openCount + 1))
  {
    assert Init(h + [e]) == h && Init(h + [Query(e.at)]) == h;
    CountersFollowResults(o, h);
    CountersFollowResults(o, h + [e]);
  }

  /** A failure that signals stress is among the failures in a row at the end. */
  predicate StressInRun(h: seq<Event>) {
    h != [] && match Last(h)
    case Success(_) => false
    case Failure(stress, _) => stress || StressInRun(Init(h))
    case Query(_) => StressInRun(Init(h))
  }

  ghost predicate NeverHalfOpen(o: Options, h: seq<Event>) {
    h == [] || (NeverHalfOpen(o, Init(h)) && Waked(o, Replay(o, NEW, Init(h)), Last(h).at).state != HalfOpen)
  }

  /** As long as no wait has ended, the results alone tell the state: open when the failures
      in a row have reached that threshold, whatever they signal; degraded when they have
      reached the lower one or include a signal of stress; healthy otherwise. */
  lemma {:induction false} ResultsTellState(o: Options, h: seq<Event>)
    requires NeverHalfOpen(o, h)
    ensures
      var run := FailureRun(Results(h));
      Replay(o, NEW, h).state ==
      if run > 0 && run >= o.openThreshold then Open
      else if run > 0 && (run >= o.degradeThreshold || StressInRun(h)) then Degraded
      else Healthy
    ensures StressInRun(h) ==> FailureRun(Results(h)) > 0
  {
    hide Waked;
    if h != [] {
      var before, e := Init(h), Last(h);
      ResultsTellState(o, before);
      assert h == before + [e];
      if IsResult(e) {
        assert Init(Results(before) + [e.Success?]) == Results(before);
        assert Init(before + [Query(e.at)]) == before;
        ResultLeaves(o, before, e);
      } else {
        assert Results(before) + [] == Results(before);
        WakingOnlyHalfOpens(o, Replay(o, NEW, before), e.at);
      }
      if IsResult(e) {
        WakingOnlyHalfOpens(o, Replay(o, NEW, before), e.at);
      }
    }
  }

  lemma {:induction false} WakingOnlyHalfOpens(o: Options, r: Rec, now: int)
    ensures Waked(o, r, now).state != HalfOpen ==> Waked(o, r, now) == r
  {
  }

  // Late results -------------------------------------------------------------------------------------------

  /** A success that arrives while the circuit waits closes it at once, without a probe
      and without forgetting the open cycles. A success leaves a circuit healthy with
      open cycles on record exactly then, or when they were on record before. */
  lemma {:induction false} OpenCyclesSurviveIff(o: Options, h: seq<Event>, at: int)
    requires o.halfOpenProbes >= 1
    ensures
      var r := Replay(o, NEW, h);
      var t := AfterSuccess(o, r, at);
      t.state == Healthy && t.openCount > 0 <==>
      r.openCount > 0 && (r.state == Healthy || r.state == Degraded || Skips(o, r, at))
  {
    ReplayIsSound(o, h);
  }

  // Two short histories ------------------------------------------------------------------------------------

  /** The configuration that is used when none is given. */
  const DEFAULTS := Options(3, 5, 30000, 300000, 20, 3, 0.5)

  function FiveFailures(): seq<Event> {
    [Failure(false, 0), Failure(false, 0), Failure(false, 0), Failure(false, 0), Failure(false, 0)]
  }

  const FOUR_FAILED := NEW.(consecutiveFailures := 4, window := [false, false, false, false], state := Degraded)

  /** One more failure, with the default options, on a circuit that does not open yet. */
  lemma {:induction false} OneMoreFailure(h: seq<Event>, r: Rec)
    requires Replay(DEFAULTS, NEW, h) == r && r.state in {Healthy, Degraded}
    requires r.consecutiveFailures < 4 && |r.window| < 4
    ensures
      var failures := r.consecutiveFailures + 1;
      Replay(DEFAULTS, NEW, h + [Failure(false, 0)])
      == r.(consecutiveFailures := failures, window := r.window + [false],
            state := if failures >= 3 then Degraded else r.state)
  {
    hide Resolved, ProbeWindowComplete, OpenDuration;
    assert Init(h + [Failure(false, 0)]) == h;
  }

  lemma {:induction false} FourFailuresDegrade()
    ensures var e := Failure(false, 0); Replay(DEFAULTS, NEW, [e, e, e, e]) == FOUR_FAILED
  {
    hide Apply;
    var e := Failure(false, 0);
    assert [] + [e] == [e] && [e] + [e] == [e, e] && [e, e] + [e] == [e, e, e] && [e, e, e] + [e] == [e, e, e, e];
    var nothing: seq<bool> := [];
    assert nothing + [false] == [false] && [false] + [false] == [false, false];
    assert [false, false] + [false] == [false, false, false];
    assert [false, false, false] + [false] == [false, false, false, false];
    var r1 := NEW.(consecutiveFailures := 1, window := [false]);
    var r2 := r1.(consecutiveFailures := 2, window := [false, false]);
    var r3 := r2.(consecutiveFailures := 3, window := [false, false, false], state := Degraded);
    assert Replay(DEFAULTS, NEW, []) == NEW;
    hide Replay;
    OneMoreFailure([], NEW);
    OneMoreFailure([e], r1);
    OneMoreFailure([e, e], r2);
    OneMoreFailure([e, e, e], r3);
  }

  lemma {:induction false} FiveFailuresOpen()
    ensures
      var r := Replay(DEFAULTS, NEW, FiveFailures());
      r.state == Open && r.openedAt == 0 && r.openCount == 1 && r.probeSuccesses == r.probeFailures == 0
  {
    hide Resolved, ProbeWindowComplete, OpenDuration;
    var e := Failure(false, 0);
    assert Init([e, e, e, e, e]) == [e, e, e, e];
    FourFailuresDegrade();
  }

  /** Five failures open the circuit; a success that was under way arrives a second
      later: the provider is healthy at once, and its open cycle is still on record. */
  lemma {:induction false} LateSuccessKeepsOpenCycle()
    ensures
      var r := AfterSuccess(DEFAULTS, Replay(DEFAULTS, NEW, FiveFailures()), 1000);
      r.state == Healthy && r.openCount == 1
  {
    FiveFailuresOpen();
    assert Power2(0) == 1;
  }

  function WaitIsOver(): seq<Event> {
    FiveFailures() + [Query(30000)]
  }

  lemma {:induction false} WaitIsOverHalfOpens()
    ensures Replay(DEFAULTS, NEW, WaitIsOver()).state == HalfOpen
  {
    FiveFailuresOpen();
    assert Init(WaitIsOver()) == FiveFailures() && Power2(0) == 1;
  }

  /** Thirty seconds after the circuit has opened any number of requests is let through,
      whatever the probe budget of three, as long as no result has come in. */
  lemma {:induction false} ProbeBudgetIsExceeded(requests: nat)
    ensures
      var queries := seq(requests, i => Query(30000));
      forall n :: 0 <= n <= requests ==> !Skips(DEFAULTS, Replay(DEFAULTS, NEW, WaitIsOver() + queries[..n]), 30000)
  {
    hide Replay, Skips;
    var queries := seq(requests, i => Query(30000));
    WaitIsOverHalfOpens();
    forall n | 0 <= n <= requests
      ensures !Skips(DEFAULTS, Replay(DEFAULTS, NEW, WaitIsOver() + queries[..n]), 30000)
    {
      HalfOpenLetsEveryoneThrough(DEFAULTS, WaitIsOver(), queries[..n], 30000);
    }
  }
}
