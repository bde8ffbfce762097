/** The fixed-window rate limiter in front of the preview routes. */
module RateLimiter {
  import opened Prelude

  datatype Bucket = Bucket(count: nat, resetAt: int)

  datatype Verdict = Admitted | Rejected(retryAfterSeconds: int)

  /** `identity` is the user id or the address a request is counted under. */
  datatype Identity = Identity(text: string)

  /** One request: who and when, in milliseconds. */
  datatype Request = Request(who: Identity, at: int)

  predicate Restarts(buckets: map<Identity, Bucket>, r: Request) {
    r.who !in buckets || r.at >= buckets[r.who].resetAt
  }

  /** Seconds until the window resets, rounded up, and at least one. */
  function RetryAfter(resetAt: int, now: int): (s: int)
    ensures s >= 1
    ensures s * 1000 >= resetAt - now
    ensures s > 1 ==> (s - 1) * 1000 < resetAt - now
  {
    Max(1, -((now - resetAt) / 1000))
  }

  function After(buckets: map<Identity, Bucket>, windowMs: int, r: Request): map<Identity, Bucket> {
    if Restarts(buckets, r) then buckets[r.who := Bucket(1, r.at + windowMs)]
    else buckets[r.who := buckets[r.who].(count := buckets[r.who].count + 1)]
  }

  function VerdictFor(buckets: map<Identity, Bucket>, maxRequests: int, r: Request): Verdict {
    if Restarts(buckets, r) then Admitted
    else if buckets[r.who].count + 1 <= maxRequests then Admitted
    else Rejected(RetryAfter(buckets[r.who].resetAt, r.at))
  }

  class RouteRateLimiter {
    const windowMs: int
    const maxRequests: int
    var buckets: map<Identity, Bucket>

    constructor (windowMs: int, maxRequests: int)
      ensures buckets == map[] && this.windowMs == windowMs && this.maxRequests == maxRequests
    {
      this.windowMs := windowMs;
      this.maxRequests := maxRequests;
      buckets := map[];
    }

    method Handle(r: Request) returns (verdict: Verdict)
      modifies this
      ensures buckets == After(old(buckets), windowMs, r)
      ensures verdict == VerdictFor(old(buckets), maxRequests, r)
    {
      if r.who !in buckets || r.at >= buckets[r.who].resetAt {
        buckets := buckets[r.who := Bucket(1, r.at + windowMs)];
        return Admitted;
      }
      var bucket := buckets[r.who];
      bucket := bucket.(count := bucket.count + 1);
      buckets := buckets[r.who := bucket];
      if bucket.count <= maxRequests {
        return Admitted;
      }
      return Rejected(RetryAfter(bucket.resetAt, r.at));
    }
  }

  // Over every trace -----------------------------------------------------------------

  datatype Limits = Limits(windowMs: int, maxRequests: int) {
    function PerWindow(): int {
      Max(1, maxRequests)
    }
  }

  function Buckets(limits: Limits, trace: seq<Request>): map<Identity, Bucket> {
    if trace == [] then map[] else After(Buckets(limits, Init(trace)), limits.windowMs, Last(trace))
  }

  predicate Admits(limits: Limits, before: seq<Request>, r: Request) {
    VerdictFor(Buckets(limits, before), limits.maxRequests, r).Admitted?
  }

  /** Requests of `who` admitted in a trace at a time in [from, until]. */
  function AdmittedIn(limits: Limits, trace: seq<Request>, who: Identity, from: int, until: int): nat {
    if trace == [] then 0
    else if Last(trace).who == who && from <= Last(trace).at <= until && Admits(limits, Init(trace), Last(trace))
    then AdmittedIn(limits, Init(trace), who, from, until) + 1
    else AdmittedIn(limits, Init(trace), who, from, until)
  }

  predicate Ordered(trace: seq<Request>) {
    trace == [] || Init(trace) == [] || (Ordered(Init(trace)) && Last(Init(trace)).at <= Last(trace).at)
  }

  function Now(trace: seq<Request>): int
    requires trace != []
  {
    Last(trace).at
  }

  lemma {:induction false} AdmittedSplit(limits: Limits, trace: seq<Request>, who: Identity, from: int, mid: int,
        until: int)
    requires from <= mid + 1 && mid <= until
    ensures AdmittedIn(limits, trace, who, from, until)
         == AdmittedIn(limits, trace, who, from, mid) + AdmittedIn(limits, trace, who, mid + 1, until)
  {
    if trace != [] {
      AdmittedSplit(limits, Init(trace), who, from, mid, until);
    }
  }

  lemma {:induction false} AdmittedBounds(limits: Limits, trace: seq<Request>, who: Identity, from: int, until: int,
        lo: int, hi: int)
    requires lo <= from && until <= hi
    ensures AdmittedIn(limits, trace, who, from, until) <= AdmittedIn(limits, trace, who, lo, hi)
  {
    if trace != [] {
      AdmittedBounds(limits, Init(trace), who, from, until, lo, hi);
    }
  }

  lemma {:induction false} NothingLater(limits: Limits, trace: seq<Request>, who: Identity, from: int, until: int)
    requires Ordered(trace)
    requires trace != [] ==> Now(trace) < from
    ensures AdmittedIn(limits, trace, who, from, until) == 0
  {
    if trace != [] {
      NothingLater(limits, Init(trace), who, from, until);
    }
  }

  /** What a bucket says. Its window starts at resetAt - windowMs: the admissions
      since then are within the count and the limit, none is at or past the reset,
      and the time of one window before the start holds at most one limit as well. */
  ghost predicate Describes(limits: Limits, trace: seq<Request>, who: Identity, b: Bucket) {
    var start := b.resetAt - limits.windowMs;
    && trace != []
    && start <= Now(trace)
    && b.count >= 1
    && AdmittedIn(limits, trace, who, start, Now(trace)) <= Min(b.count, limits.PerWindow())
    && AdmittedIn(limits, trace, who, b.resetAt, Now(trace)) == 0
    && AdmittedIn(limits, trace, who, start - limits.windowMs, start - 1) <= limits.PerWindow()
  }

  ghost predicate Describing(limits: Limits, trace: seq<Request>, who: Identity) {
    if who in Buckets(limits, trace) then Describes(limits, trace, who, Buckets(limits, trace)[who])
    else forall from, until :: AdmittedIn(limits, trace, who, from, until) == 0
  }

  /** A request of somebody else changes nothing for `who`. */
  lemma {:induction false} OtherRequest(limits: Limits, trace: seq<Request>, who: Identity)
    requires trace != [] && Ordered(trace) && Last(trace).who != who
    requires Describing(limits, Init(trace), who)
    ensures Describing(limits, trace, who)
  {
    var before := Init(trace);
    if who in Buckets(limits, before) {
      var b := Buckets(limits, before)[who];
      var start := b.resetAt - limits.windowMs;
      LaterIsEmpty(limits, before, who, start, Now(trace));
      LaterIsEmpty(limits, before, who, b.resetAt, Now(trace));
    }
  }

  /** Looking past the end of the trace finds nothing more. */
  lemma {:induction false} LaterIsEmpty(limits: Limits, trace: seq<Request>, who: Identity, from: int, until: int)
    requires trace != [] && Ordered(trace) && Now(trace) <= until
    ensures AdmittedIn(limits, trace, who, from, until) == AdmittedIn(limits, trace, who, from, Now(trace))
  {
    if from <= Now(trace) {
      AdmittedSplit(limits, trace, who, from, Now(trace), until);
    } else {
      NothingLater(limits, trace, who, from, until);
      NothingLater(limits, trace, who, from, Now(trace));
    }
    NothingLater(limits, trace, who, Now(trace) + 1, until);
  }

  /** A request that opens a window. */
  lemma {:induction false} WindowOpens(limits: Limits, trace: seq<Request>, who: Identity)
    requires limits.windowMs > 0
    requires trace != [] && Ordered(trace) && Last(trace).who == who
    requires Restarts(Buckets(limits, Init(trace)), Last(trace))
    requires Describing(limits, Init(trace), who)
    ensures Describing(limits, trace, who)
  {
    var before, t := Init(trace), Now(trace);
    if who in Buckets(limits, before) {
      var b := Buckets(limits, before)[who];
      var start := b.resetAt - limits.windowMs;
      LaterIsEmpty(limits, before, who, start, t);
      LaterIsEmpty(limits, before, who, b.resetAt, t);
      AdmittedBounds(limits, before, who, t, t, b.resetAt, t);
      AdmittedBounds(limits, before, who, t - limits.windowMs, t - 1, start, t);
    }
    NothingAt(limits, before, who, t + limits.windowMs, t);
  }

  lemma {:induction false} NothingAt(limits: Limits, trace: seq<Request>, who: Identity, from: int, until: int)
    requires until < from
    ensures AdmittedIn(limits, trace, who, from, until) == 0
  {
    if trace != [] {
      NothingAt(limits, Init(trace), who, from, until);
    }
  }

  /** A request inside the window. */
  lemma {:induction false} WindowGoesOn(limits: Limits, trace: seq<Request>, who: Identity)
    requires limits.windowMs > 0
    requires trace != [] && Ordered(trace) && Last(trace).who == who
    requires !Restarts(Buckets(limits, Init(trace)), Last(trace))
    requires Describing(limits, Init(trace), who)
    ensures Describing(limits, trace, who)
  {
    var before, t := Init(trace), Now(trace);
    var b := Buckets(limits, before)[who];
    LaterIsEmpty(limits, before, who, b.resetAt - limits.windowMs, t);
    LaterIsEmpty(limits, before, who, b.resetAt, t);
  }

  lemma {:induction false} BucketsDescribe(limits: Limits, trace: seq<Request>, who: Identity)
    requires limits.windowMs > 0 && Ordered(trace)
    ensures Describing(limits, trace, who)
  {
    if trace != [] {
      BucketsDescribe(limits, Init(trace), who);
      if Last(trace).who != who {
        OtherRequest(limits, trace, who);
      } else if Restarts(Buckets(limits, Init(trace)), Last(trace)) {
        WindowOpens(limits, trace, who);
      } else {
        WindowGoesOn(limits, trace, who);
      }
    }
  }

  /** In its current window every identity has been admitted at most
      max(1, maxRequests) times. */
  lemma {:induction false} AtMostTheLimitPerWindow(limits: Limits, trace: seq<Request>, who: Identity)
    requires limits.windowMs > 0 && Ordered(trace)
    requires who in Buckets(limits, trace)
    ensures trace != []
    ensures AdmittedIn(limits, trace, who, Buckets(limits, trace)[who].resetAt - limits.windowMs, Now(trace))
            <= limits.PerWindow()
  {
    BucketsDescribe(limits, trace, who);
  }

  /** Over every trace with a clock that does not go back, an identity is admitted
      at most 2 * max(1, maxRequests) times in any windowMs, both ends included. */
  lemma {:induction false} AtMostTwiceTheLimit(limits: Limits, trace: seq<Request>, who: Identity, from: int)
    requires limits.windowMs > 0 && Ordered(trace)
    ensures AdmittedIn(limits, trace, who, from, from + limits.windowMs) <= 2 * limits.PerWindow()
  {
    if trace != [] {
      var before, r := Init(trace), Last(trace);
      AtMostTwiceTheLimit(limits, before, who, from);
      BucketsDescribe(limits, before, who);
      if r.who == who && from <= r.at <= from + limits.windowMs && who in Buckets(limits, before) {
        IntervalSoFar(limits, before, who, from, r);
      }
    }
  }

  lemma {:induction false} IntervalSoFar(limits: Limits, before: seq<Request>, who: Identity, from: int, r: Request)
    requires limits.windowMs > 0 && Ordered(before + [r]) && r.who == who
    requires from <= r.at <= from + limits.windowMs
    requires who in Buckets(limits, before) && Describing(limits, before, who) && Ordered(before)
    ensures Admits(limits, before, r) ==>
      AdmittedIn(limits, before, who, from, from + limits.windowMs) + 1 <= 2 * limits.PerWindow()
  {
    var b := Buckets(limits, before)[who];
    var start, until := b.resetAt - limits.windowMs, from + limits.windowMs;
    assert Init(before + [r]) == before;
    LaterIsEmpty(limits, before, who, start, Max(until, Now(before)));
    LaterIsEmpty(limits, before, who, b.resetAt, Max(until, Now(before)));
    if Restarts(Buckets(limits, before), r) {
      AdmittedSplit(limits, before, who, from, r.at - 1, until);
      AdmittedBounds(limits, before, who, from, r.at - 1, start, Max(until, Now(before)));
      AdmittedBounds(limits, before, who, r.at, until, b.resetAt, Max(until, Now(before)));
    } else if from > start {
      AdmittedBounds(limits, before, who, from, until, start, Max(until, Now(before)));
    } else {
      AdmittedSplit(limits, before, who, from, start - 1, until);
      AdmittedBounds(limits, before, who, from, start - 1, start - limits.windowMs, start - 1);
      AdmittedBounds(limits, before, who, start, until, start, Max(until, Now(before)));
    }
  }

  /** `n` requests at 0, then `m` at the first reset. */
  function TwoBursts(limits: Limits, who: Identity, n: nat, m: nat): seq<Request> {
    if m > 0 then TwoBursts(limits, who, n, m - 1) + [Request(who, limits.windowMs)]
    else if n > 0 then TwoBursts(limits, who, n - 1, 0) + [Request(who, 0)]
    else []
  }

  ghost predicate Bursting(limits: Limits, who: Identity, trace: seq<Request>, admitted: nat, bucket: Bucket, at: int) {
    && trace != [] && Ordered(trace) && Now(trace) == at
    && AdmittedIn(limits, trace, who, 0, limits.windowMs) == admitted
    && who in Buckets(limits, trace) && Buckets(limits, trace)[who] == bucket
  }

  /** One more request of a burst, if there is room for it. */
  lemma {:induction false} BurstGoesOn(limits: Limits, who: Identity, trace: seq<Request>, admitted: nat,
        bucket: Bucket, at: int, next: int)
    requires Bursting(limits, who, trace, admitted, bucket, at)
    requires at <= next <= limits.windowMs && 0 <= next
    requires next < bucket.resetAt ==> bucket.count < limits.maxRequests
    ensures Bursting(limits, who, trace + [Request(who, next)], admitted + 1,
                     if next >= bucket.resetAt then Bucket(1, next + limits.windowMs)
                     else Bucket(bucket.count + 1, bucket.resetAt), next)
  {
    assert Init(trace + [Request(who, next)]) == trace;
  }

  lemma {:induction false} BurstStarts(limits: Limits, who: Identity)
    requires limits.windowMs > 0
    ensures Bursting(limits, who, [Request(who, 0)], 1, Bucket(1, limits.windowMs), 0)
  {
    var trace := [Request(who, 0)];
    assert Init(trace) == [];
    assert Buckets(limits, []) == map[];
    assert Admits(limits, [], Request(who, 0));
  }

  lemma {:induction false} FirstBurst(limits: Limits, who: Identity, n: nat)
    requires limits.windowMs > 0 && 0 < n <= limits.PerWindow()
    ensures Bursting(limits, who, TwoBursts(limits, who, n, 0), n, Bucket(n, limits.windowMs), 0)
  {
    if n == 1 {
      BurstStarts(limits, who);
      assert TwoBursts(limits, who, 1, 0) == [] + [Request(who, 0)] == [Request(who, 0)];
    } else {
      FirstBurst(limits, who, n - 1);
      BurstGoesOn(limits, who, TwoBursts(limits, who, n - 1, 0), n - 1, Bucket(n - 1, limits.windowMs), 0, 0);
    }
  }

  lemma {:induction false} SecondBurst(limits: Limits, who: Identity, n: nat, m: nat)
    requires limits.windowMs > 0 && 0 < n <= limits.PerWindow() && 0 < m <= limits.PerWindow()
    ensures Bursting(limits, who, TwoBursts(limits, who, n, m), n + m, Bucket(m, 2 * limits.windowMs), limits.windowMs)
  {
    var reset := limits.windowMs;
    if m == 1 {
      FirstBurst(limits, who, n);
      BurstGoesOn(limits, who, TwoBursts(limits, who, n, 0), n, Bucket(n, reset), 0, reset);
    } else {
      SecondBurst(limits, who, n, m - 1);
      BurstGoesOn(limits, who, TwoBursts(limits, who, n, m - 1), n + m - 1, Bucket(m - 1, 2 * reset), reset, reset);
    }
  }

  /** The factor two is reached, whatever the limit: a full burst at each end. */
  lemma {:induction false} TwiceIsReached(limits: Limits, who: Identity)
    requires limits.windowMs > 0
    ensures
      var trace := TwoBursts(limits, who, limits.PerWindow(), limits.PerWindow());
      Ordered(trace) && AdmittedIn(limits, trace, who, 0, limits.windowMs) == 2 * limits.PerWindow()
  {
    SecondBurst(limits, who, limits.PerWindow(), limits.PerWindow());
  }

  /** A rejected caller that waits the advertised seconds lands at or past the reset,
      and its request is then admitted if nothing else was counted under its name. */
  lemma {:induction false} WaitingIsEnough(limits: Limits, before: seq<Request>, r: Request, between: seq<Request>,
        later: int)
    requires VerdictFor(Buckets(limits, before), limits.maxRequests, r).Rejected?
    requires forall n :: 0 <= n < |between| ==> between[n].who != r.who
    requires later >= r.at + 1000 * VerdictFor(Buckets(limits, before), limits.maxRequests, r).retryAfterSeconds
    ensures later >= Buckets(limits, before)[r.who].resetAt
    ensures Admits(limits, before + [r] + between, Request(r.who, later))
  {
    BucketUntouched(limits, before + [r], between, r.who);
    assert Init(before + [r]) == before;
  }

  lemma {:induction false} BucketUntouched(limits: Limits, before: seq<Request>, between: seq<Request>, who: Identity)
    requires forall n :: 0 <= n < |between| ==> between[n].who != who
    requires who in Buckets(limits, before)
    ensures who in Buckets(limits, before + between)
    ensures Buckets(limits, before + between)[who] == Buckets(limits, before)[who]
  {
    if between == [] {
      assert before + between == before;
    } else {
      BucketUntouched(limits, before, Init(between), who);
      assert Init(before + between) == before + Init(between);
    }
  }

  /** Without a positive window the limiter admits everything. */
  lemma {:induction false} NoWindowNoLimit(limits: Limits, before: seq<Request>, r: Request)
    requires limits.windowMs <= 0 && Ordered(before + [r])
    ensures Admits(limits, before, r)
  {
    assert Init(before + [r]) == before;
    if r.who in Buckets(limits, before) {
      ResetsInThePast(limits, before, r.who);
    }
  }

  lemma {:induction false} ResetsInThePast(limits: Limits, trace: seq<Request>, who: Identity)
    requires limits.windowMs <= 0 && Ordered(trace)
    requires who in Buckets(limits, trace)
    ensures trace != [] && Buckets(limits, trace)[who].resetAt <= Now(trace)
  {
    if who in Buckets(limits, Init(trace)) {
      ResetsInThePast(limits, Init(trace), who);
    }
  }

  // Who is admitted ----------------------------------------------------------------------------

  /** When the window opened that the latest request of `who` was counted in: a request
      opens one when there is none, or when the one before it is over. */
  function WindowStart(limits: Limits, trace: seq<Request>, who: Identity): Option<int> {
    if trace == [] then None
    else
      var before := WindowStart(limits, Init(trace), who);
      if Last(trace).who != who then before
      else if before.None? || Last(trace).at >= before.value + limits.windowMs then Some(Last(trace).at)
      else before
  }

  /** Requests of `who` at `from` or later, admitted or not. */
  function RequestsFrom(trace: seq<Request>, who: Identity, from: int): nat {
    if trace == [] then 0
    else RequestsFrom(Init(trace), who, from) + (if Last(trace).who == who && Last(trace).at >= from then 1 else 0)
  }

  lemma {:induction false} LaterStartCountsLess(trace: seq<Request>, who: Identity, from: int, later: int)
    requires from <= later
    ensures RequestsFrom(trace, who, later) <= RequestsFrom(trace, who, from)
  {
    if trace != [] {
      LaterStartCountsLess(Init(trace), who, from, later);
    }
  }

  /** The bucket of `who`: its window and all its requests in it. */
  lemma {:induction false} BucketCounts(limits: Limits, trace: seq<Request>, who: Identity)
    requires limits.windowMs > 0 && Ordered(trace)
    ensures who in Buckets(limits, trace) <==> WindowStart(limits, trace, who).Some?
    ensures who !in Buckets(limits, trace) ==> forall from :: RequestsFrom(trace, who, from) == 0
    ensures who in Buckets(limits, trace) ==>
      var b, start := Buckets(limits, trace)[who], WindowStart(limits, trace, who).value;
      && trace != [] && start <= Now(trace)
      && b.resetAt == start + limits.windowMs
      && b.count == RequestsFrom(trace, who, start) >= 1
      && RequestsFrom(trace, who, b.resetAt) == 0
  {
    if trace != [] {
      var before, r := Init(trace), Last(trace);
      BucketCounts(limits, before, who);
      if r.who == who && who in Buckets(limits, before) && r.at >= Buckets(limits, before)[who].resetAt {
        LaterStartCountsLess(before, who, Buckets(limits, before)[who].resetAt, r.at);
        LaterStartCountsLess(before, who, Buckets(limits, before)[who].resetAt, r.at + limits.windowMs);
      }
    }
  }

  /** A request is admitted exactly when it opens a window or fewer than the limit have been
      made in the one that is open; one that keeps to the limit in every stretch of windowMs
      is always admitted. */
  lemma {:induction false} AdmittedIff(limits: Limits, before: seq<Request>, r: Request)
    requires limits.windowMs > 0 && Ordered(before + [r])
    ensures
      var start := WindowStart(limits, before, r.who);
      Admits(limits, before, r) <==>
        || start.None? || r.at >= start.value + limits.windowMs
        || RequestsFrom(before, r.who, start.value) < limits.maxRequests
    ensures RequestsFrom(before, r.who, r.at - limits.windowMs + 1) < limits.PerWindow() ==> Admits(limits, before, r)
  {
    assert Init(before + [r]) == before;
    BucketCounts(limits, before, r.who);
    var start := WindowStart(limits, before, r.who);
    if start.Some? && r.at < start.value + limits.windowMs {
      LaterStartCountsLess(before, r.who, r.at - limits.windowMs + 1, start.value);
    }
  }

  /** The advertised wait is the number of seconds after which the open window is over, and one
      second less is not enough unless it is one already. */
  lemma {:induction false} WaitIsShortest(limits: Limits, before: seq<Request>, r: Request)
    requires limits.windowMs > 0 && Ordered(before + [r])
    requires VerdictFor(Buckets(limits, before), limits.maxRequests, r).Rejected?
    ensures WindowStart(limits, before, r.who).Some?
    ensures
      var reset := WindowStart(limits, before, r.who).value + limits.windowMs;
      var wait := VerdictFor(Buckets(limits, before), limits.maxRequests, r).retryAfterSeconds;
      forall seconds :: r.at + 1000 * seconds >= reset && seconds >= 1 <==> seconds >= wait
  {
    assert Init(before + [r]) == before;
    BucketCounts(limits, before, r.who);
  }
}
