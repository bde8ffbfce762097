/** Bounded retries around one HTTP request. */
module NetworkFetch {
  import opened Prelude

  datatype ErrorCode =
    | Timeout | DnsError | ConnectionReset | ConnectionRefused | TlsError | ProxyError
    | RateLimited | ServerError | Abort | FetchFailed

  /** A Retry-After header: seconds (here in milliseconds), or a date (here its
      distance from now), or something else. */
  datatype RetryAfter = Absent | Delay(ms: nat) | Date(deltaMs: int) | Unreadable

  datatype Method = GET | HEAD | OPTIONS | OtherMethod(name: string)

  datatype Options = Options(
    maxRetries: Option<int>,
    baseDelayMs: Option<int>,
    maxDelayMs: Option<int>,
    retryOnPost: bool,
    retryStatuses: Option<seq<int>>)
  {
    function MaxRetries(): (n: nat)
    {
      Max(0, maxRetries.GetOr(0))
    }

    function Cap(): int {
      maxDelayMs.GetOr(30000)
    }

    function Base(): int {
      baseDelayMs.GetOr(1000)
    }
  }

  /** What the k-th request meets; error codes are already normalized. */
  datatype Attempt = Responded(status: int, retryAfter: RetryAfter) | Threw(code: ErrorCode)

  /** The k-th request, the random number drawn before the wait after it, and
      whether the caller's signal ends that wait. */
  datatype Env = Env(attempt: nat -> Attempt, jitter: nat -> nat, waitAborted: nat -> bool)

  datatype Result = Returned(status: int) | Failed(code: ErrorCode)

  predicate IsSafe(m: Method) {
    m.GET? || m.HEAD? || m.OPTIONS?
  }

  predicate IsRetryableNetworkCode(code: ErrorCode) {
    code != Abort && code != TlsError
  }

  predicate ShouldRetryStatus(status: int, configured: Option<seq<int>>) {
    match configured
    case Some(statuses) => status in statuses
    case None => status in {408, 409, 425, 429, 500, 502, 503, 504}
  }

  function ParseRetryAfter(header: RetryAfter): Option<int> {
    match header
    case Delay(ms) => Some(ms)
    case Date(delta) => if delta > 0 then Some(delta) else None
    case _ => None
  }

  function Pow2(n: nat): (p: nat)
    ensures p >= 1
  {
    if n == 0 then 1 else 2 * Pow2(n - 1)
  }

  /** The exponential wait before jitter. */
  function Exponential(o: Options, attempt: nat): int {
    Min(o.Cap(), o.Base() * Pow2(attempt))
  }

  /** `Math.random() * n` rounded down: any number below `n`. */
  function Jitter(o: Options, attempt: nat, random: nat): nat {
    random % Max(1, Exponential(o, attempt) / 4)
  }

  function ResolveRetryDelay(o: Options, attempt: nat, header: RetryAfter, random: nat): (ms: int)
    ensures ms <= o.Cap()
  {
    match ParseRetryAfter(header)
    case Some(ms) => Min(o.Cap(), ms)
    case None => Min(o.Cap(), Exponential(o, attempt) + Jitter(o, attempt, random))
  }

  predicate Repeats(o: Options, m: Method) {
    IsSafe(m) || o.retryOnPost
  }

  /** The request that is not repeated: the budget is spent, or its result stands. */
  predicate IsFinal(o: Options, m: Method, env: Env, k: nat) {
    || !Repeats(o, m)
    || k >= o.MaxRetries()
    || match env.attempt(k)
       case Responded(status, _) => !ShouldRetryStatus(status, o.retryStatuses)
       case Threw(code) => !IsRetryableNetworkCode(code)
  }

  function WaitAfter(o: Options, env: Env, k: nat): int {
    match env.attempt(k)
    case Responded(_, header) => ResolveRetryDelay(o, k, header, env.jitter(k))
    case Threw(_) => ResolveRetryDelay(o, k, Absent, env.jitter(k))
  }

  /** The first request that is final or whose wait is aborted is the last one. */
  predicate StopsAt(o: Options, m: Method, env: Env, k: nat) {
    IsFinal(o, m, env, k) || env.waitAborted(k)
  }

  /** Performs the request, and repeats it while that may help. */
  method Fetch(o: Options, m: Method, env: Env) returns (requests: nat, waits: seq<int>, result: Result)
    ensures requests >= 1
    ensures StopsAt(o, m, env, requests - 1)
    ensures forall k :: 0 <= k < requests - 1 ==> !StopsAt(o, m, env, k)
    ensures result ==
      match env.attempt(requests - 1)
      case Responded(status, _) => if IsFinal(o, m, env, requests - 1) then Returned(status) else Failed(Abort)
      case Threw(code) => Failed(if IsFinal(o, m, env, requests - 1) then code else Abort)
    ensures |waits| == if IsFinal(o, m, env, requests - 1) then requests - 1 else requests
    ensures forall k :: 0 <= k < |waits| ==> waits[k] == WaitAfter(o, env, k)
  {
    var maxRetries := o.MaxRetries();
    var canRetryMethod := IsSafe(m) || o.retryOnPost;
    waits := [];
    var attempt := 0;
    while attempt <= maxRetries
      invariant 0 <= attempt <= maxRetries
      invariant |waits| == attempt
      invariant forall k :: 0 <= k < attempt ==> !StopsAt(o, m, env, k)
      invariant forall k :: 0 <= k < |waits| ==> waits[k] == WaitAfter(o, env, k)
    {
      match env.attempt(attempt) {
        case Responded(status, header) =>
          if !(canRetryMethod && attempt < maxRetries && ShouldRetryStatus(status, o.retryStatuses)) {
            return attempt + 1, waits, Returned(status);
          }
          waits := waits + [ResolveRetryDelay(o, attempt, header, env.jitter(attempt))];
          if env.waitAborted(attempt) {
            return attempt + 1, waits, Failed(Abort);
          }
        case Threw(code) =>
          if !canRetryMethod || attempt >= maxRetries || !IsRetryableNetworkCode(code) {
            return attempt + 1, waits, Failed(code);
          }
          waits := waits + [ResolveRetryDelay(o, attempt, Absent, env.jitter(attempt))];
          if env.waitAborted(attempt) {
            return attempt + 1, waits, Failed(Abort);
          }
      }
      attempt := attempt + 1;
    }
    assert false;
  }

  // What follows for every run -----------------------------------------------------------

  /** `requests` requests are made: what `Fetch` establishes. */
  ghost predicate Makes(o: Options, m: Method, env: Env, requests: nat) {
    && requests >= 1
    && StopsAt(o, m, env, requests - 1)
    && forall k :: 0 <= k < requests - 1 ==> !StopsAt(o, m, env, k)
  }

  /** The number of requests is determined, at least one and at most maxRetries + 1;
      it is one for an unsafe method without `retryOnPost`; and after an abort or a
      TLS failure nothing is sent again. */
  lemma {:induction false} BoundedRequests(o: Options, m: Method, env: Env, requests: nat, other: nat)
    requires Makes(o, m, env, requests) && Makes(o, m, env, other)
    ensures requests == other
    ensures 1 <= requests <= o.MaxRetries() + 1
    ensures !IsSafe(m) && !o.retryOnPost ==> requests == 1
    ensures forall k :: 0 <= k < requests && env.attempt(k).Threw? && env.attempt(k).code in {Abort, TlsError} ==>
      k == requests - 1
  {
    assert StopsAt(o, m, env, requests - 1) && StopsAt(o, m, env, other - 1);
    assert StopsAt(o, m, env, o.MaxRetries());
    assert Repeats(o, m) || StopsAt(o, m, env, 0);
    forall k | 0 <= k < requests && env.attempt(k).Threw? && env.attempt(k).code in {Abort, TlsError}
      ensures k == requests - 1
    {
      assert StopsAt(o, m, env, k);
    }
  }

  function Sum(waits: seq<int>): int {
    if waits == [] then 0 else Sum(Init(waits)) + Last(waits)
  }

  lemma {:induction false} SumIsBounded(waits: seq<int>, cap: nat)
    requires forall k :: 0 <= k < |waits| ==> waits[k] <= cap
    ensures Sum(waits) <= |waits| * cap
  {
    if waits != [] {
      SumIsBounded(Init(waits), cap);
      assert |waits| * cap == (|waits| - 1) * cap + cap;
    }
  }

  /** All the waiting of one call together is at most maxRetries times the cap. */
  lemma {:induction false} TotalWaitIsBounded(o: Options, m: Method, env: Env, requests: nat, waits: seq<int>)
    requires Makes(o, m, env, requests)
    requires |waits| == if IsFinal(o, m, env, requests - 1) then requests - 1 else requests
    requires forall k :: 0 <= k < |waits| ==> waits[k] == WaitAfter(o, env, k)
    ensures Sum(waits) <= o.MaxRetries() * Max(0, o.Cap())
  {
    BoundedRequests(o, m, env, requests, requests);
    SumIsBounded(waits, Max(0, o.Cap()));
    ProductGrows(|waits|, o.MaxRetries(), Max(0, o.Cap()));
  }

  /** Without a Retry-After header the wait does not get shorter from one attempt to the
      next, whatever random numbers are drawn, exactly when the base is not negative or
      the cap hides it: jitter adds less than the next doubling. */
  lemma {:induction false} BackoffNeverDecreases(o: Options, attempt: nat, random: nat, next: nat)
    ensures ResolveRetryDelay(o, attempt, Absent, random) <= ResolveRetryDelay(o, attempt + 1, Absent, next)
            <==> o.Base() >= 0 || o.Cap() <= o.Base() * Pow2(attempt + 1)
    ensures o.Base() >= 0 ==> Exponential(o, attempt) <= Exponential(o, attempt + 1)
  {
    var e := o.Base() * Pow2(attempt);
    assert o.Base() * Pow2(attempt + 1) == 2 * e;
    SignOfProduct(o.Base(), Pow2(attempt));
    JitterIsSmall(o, attempt, random);
    JitterIsSmall(o, attempt + 1, next);
  }

  lemma {:induction false} JitterIsSmall(o: Options, attempt: nat, random: nat)
    ensures Jitter(o, attempt, random) <= Max(0, Exponential(o, attempt) / 4)
  {
  }

  lemma {:induction false} SignOfProduct(a: int, b: nat)
    ensures a >= 0 ==> a * b >= 0
    ensures a < 0 && b > 0 ==> a * b < 0
  {
  }

  // When a request is repeated, and after how long ------------------------------------------------

  /** Another request follows exactly when the method may be repeated, the budget is not
      spent, the wait is not aborted, and the answer has a status that calls for it or the
      failure is neither an abort nor one of TLS. */
  lemma {:induction false} RepeatedIff(o: Options, m: Method, env: Env, requests: nat, k: nat)
    requires Makes(o, m, env, requests) && k < requests
    ensures k + 1 < requests <==>
      && (m in {GET, HEAD, OPTIONS} || o.retryOnPost)
      && k < Max(0, o.maxRetries.GetOr(0))
      && !env.waitAborted(k)
      && match env.attempt(k)
         case Responded(status, _) =>
           if o.retryStatuses.Some? then status in o.retryStatuses.value
           else status == 408 || status == 409 || status == 425 || status == 429
                || status == 500 || status == 502 || status == 503 || status == 504
         case Threw(code) => code != Abort && code != TlsError
  {
    if k + 1 < requests {
      assert !StopsAt(o, m, env, k);
    } else {
      assert StopsAt(o, m, env, k);
    }
  }

  /** A Retry-After header is honoured up to the cap. */
  lemma {:induction false} HeaderIsHonoured(o: Options, attempt: nat, header: RetryAfter, random: nat)
    ensures
      var wait, cap := ResolveRetryDelay(o, attempt, header, random), o.maxDelayMs.GetOr(30000);
      match header
      case Delay(ms) => wait == Min(cap, ms)
      case Date(delta) => wait == if delta > 0 then Min(cap, delta) else ResolveRetryDelay(o, attempt, Absent, random)
      case _ => wait == ResolveRetryDelay(o, attempt, Absent, random)
  {
    hide Exponential, Jitter;
  }

  /** Without a usable header the wait is the base, doubled with every attempt, and any
      number of milliseconds below a quarter of it more, up to the cap. */
  lemma {:induction false} BackoffIs(o: Options, attempt: nat, random: nat)
    ensures
      var wait, cap := ResolveRetryDelay(o, attempt, Absent, random), o.maxDelayMs.GetOr(30000);
      var least := Min(cap, o.baseDelayMs.GetOr(1000) * Pow2(attempt));
      && least <= wait <= Min(cap, least + Max(0, least / 4))
      && (random < Max(1, least / 4) ==> wait == Min(cap, least + random))
  {
    hide Pow2;
    var least := Exponential(o, attempt);
    assert least == Min(o.maxDelayMs.GetOr(30000), o.baseDelayMs.GetOr(1000) * Pow2(attempt));
    hide Exponential;
    SmallRemainder(random, Max(1, least / 4));
    assert Jitter(o, attempt, random) == random % Max(1, least / 4);
  }

  lemma {:induction false} SmallRemainder(n: nat, m: nat)
    requires m > 0
    ensures n % m < m && (n < m ==> n % m == n)
  {
  }
}
