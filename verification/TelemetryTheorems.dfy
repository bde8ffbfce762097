/** What happens to telemetry events over any interleaving of calls. */
module TelemetryTheorems {
  import opened Prelude
  import opened TelemetrySender

  datatype Op = Offer | FlushCall | PostEnds(ok: bool) | Switch(on: bool)

  /** A sender and the story so far: the attempts every ticket came with, and the
      envelopes that were delivered, given up, and posted, in order. */
  datatype World = World(
    s: State,
    initial: seq<nat>,
    sent: seq<Envelope>,
    dropped: seq<Envelope>,
    posted: seq<Envelope>)

  /** The batch whose post a call has started. */
  function NewPosts(before: State, after: State, waited: bool): seq<Envelope> {
    if after.flushing && (waited || !before.flushing) then after.batch else []
  }

  function Next(w: World, op: Op): World {
    match op
    case Offer =>
      if !w.s.enabled then w
      else
        var after := AfterEnqueue(w.s, |w.initial|);
        w.(s := after, initial := w.initial + [0],
           dropped := if |w.s.queue| >= w.s.cfg.maxQueueSize then w.dropped + [Envelope(|w.initial|, 0)] else w.dropped,
           posted := w.posted + NewPosts(w.s, after, false))
    case FlushCall =>
      var after := AfterFlushCall(w.s);
      w.(s := after, posted := w.posted + NewPosts(w.s, after, false))
    case PostEnds(ok) =>
      if !w.s.flushing then w
      else
        var after := AfterSend(w.s, ok);
        w.(s := after,
           sent := if ok then w.sent + w.s.batch else w.sent,
           dropped := if ok then w.dropped else w.dropped + GivenUp(w.s.batch, w.s.cfg.maxRetries),
           posted := w.posted + NewPosts(w.s, after, true))
    case Switch(on) => w.(s := w.s.(enabled := on))
  }

  function Restored(attempts: seq<nat>): (q: seq<Envelope>)
    ensures |q| == |attempts|
  {
    if attempts == [] then []
    else Restored(Init(attempts)) + [Envelope(|attempts| - 1, Last(attempts))]
  }

  function Start(cfg: Config, enabled: bool, attempts: seq<nat>): World {
    World(State(cfg, enabled, false, Restored(attempts), [], Metrics(0, 0, 0, 0, 0)), attempts, [], [], [])
  }

  function Run(w: World, ops: seq<Op>): World {
    if ops == [] then w else Next(Run(w, Init(ops)), Last(ops))
  }

  // Every ticket is in exactly one place -----------------------------------------------

  /** How often ticket `t` is listed. */
  function Times(q: seq<Envelope>, t: nat): nat {
    if q == [] then 0 else Times(Init(q), t) + (if Last(q).ticket == t then 1 else 0)
  }

  function Places(w: World, t: nat): nat {
    Times(w.sent, t) + Times(w.dropped, t) + Times(w.s.queue, t) + Times(w.s.batch, t)
  }

  lemma {:induction false} TimesAppend(a: seq<Envelope>, b: seq<Envelope>, t: nat)
    ensures Times(a + b, t) == Times(a, t) + Times(b, t)
  {
    if b == [] {
      assert a + b == a;
    } else {
      TimesAppend(a, Init(b), t);
      assert Init(a + b) == a + Init(b);
    }
  }

  lemma {:induction false} TimesOne(e: Envelope, t: nat)
    ensures Times([e], t) == if e.ticket == t then 1 else 0
  {
    assert Init([e]) == [];
  }

  lemma {:induction false} TakeBatchMoves(s: State, t: nat)
    ensures Times(s.queue, t) == Times(TakeBatch(s).batch, t) + Times(TakeBatch(s).queue, t)
  {
    var n := Min(s.cfg.batchSize, |s.queue|);
    assert s.queue == s.queue[..n] + s.queue[n..];
    TimesAppend(s.queue[..n], s.queue[n..], t);
  }

  lemma {:induction false} FailedBatchMoves(batch: seq<Envelope>, maxRetries: int, t: nat)
    ensures Times(batch, t) == Times(Requeued(batch, maxRetries), t) + Times(GivenUp(batch, maxRetries), t)
  {
    if batch != [] {
      FailedBatchMoves(Init(batch), maxRetries, t);
      var again := Last(batch).(attempts := Last(batch).attempts + 1);
      TimesAppend([again], Requeued(Init(batch), maxRetries), t);
      TimesOne(again, t);
      TimesAppend(GivenUp(Init(batch), maxRetries), [Last(batch)], t);
      TimesOne(Last(batch), t);
    }
  }

  lemma {:induction false} FlushCallMoves(s: State, t: nat)
    requires !s.flushing ==> s.batch == []
    ensures Times(AfterFlushCall(s).queue, t) + Times(AfterFlushCall(s).batch, t)
         == Times(s.queue, t) + Times(s.batch, t)
  {
    if s.enabled && !s.flushing && s.queue != [] {
      TakeBatchMoves(s, t);
    }
  }

  ghost predicate Idle(s: State) {
    && (!s.flushing ==> s.batch == [])
    && |s.batch| <= s.cfg.batchSize
  }

  lemma {:induction false} OfferMoves(w: World, t: nat)
    requires Idle(w.s) && w.s.enabled
    ensures Places(Next(w, Offer), t) == Places(w, t) + (if t == |w.initial| then 1 else 0)
  {
    var e := Envelope(|w.initial|, 0);
    TimesOne(e, t);
    TimesAppend(w.dropped, [e], t);
    TimesAppend(w.s.queue, [e], t);
    if |w.s.queue| < w.s.cfg.maxQueueSize {
      FlushCallMoves(Queued(w.s, |w.initial|), t);
    }
  }

  /** The sender with one more envelope in its queue. */
  function Queued(s: State, ticket: nat): State {
    s.(queue := s.queue + [Envelope(ticket, 0)], metrics := s.metrics.(queued := s.metrics.queued + 1))
  }

  lemma {:induction false} PostMoves(w: World, ok: bool, t: nat)
    requires w.s.flushing
    ensures Places(Next(w, PostEnds(ok)), t) == Places(w, t)
  {
    if ok {
      TimesAppend(w.sent, w.s.batch, t);
      TakeBatchMoves(w.s, t);
    } else {
      var limit := w.s.cfg.maxRetries;
      FailedBatchMoves(w.s.batch, limit, t);
      TimesAppend(w.dropped, GivenUp(w.s.batch, limit), t);
      TimesAppend(Requeued(w.s.batch, limit), w.s.queue, t);
    }
  }

  lemma {:induction false} StepMoves(w: World, op: Op, t: nat)
    requires Idle(w.s)
    ensures Idle(Next(w, op).s)
    ensures |Next(w, op).initial| == |w.initial| + (if op.Offer? && w.s.enabled then 1 else 0)
    ensures Places(Next(w, op), t)
         == Places(w, t) + (if op.Offer? && w.s.enabled && t == |w.initial| then 1 else 0)
  {
    match op
    case Offer => if w.s.enabled { OfferMoves(w, t); }
    case FlushCall => FlushCallMoves(w.s, t);
    case PostEnds(ok) => if w.s.flushing { PostMoves(w, ok, t); }
    case Switch(_) =>
  }

  lemma {:induction false} RestoredOnce(attempts: seq<nat>, t: nat)
    ensures Times(Restored(attempts), t) == if t < |attempts| then 1 else 0
  {
    if attempts != [] {
      RestoredOnce(Init(attempts), t);
      assert Init(Restored(attempts)) == Restored(Init(attempts));
    }
  }

  /** Over every interleaving, each event restored from disk or offered while the
      sender was enabled is in exactly one place: delivered, given up, queued or in
      the batch in flight. */
  lemma {:induction false} Conservation(cfg: Config, enabled: bool, attempts: seq<nat>, ops: seq<Op>, t: nat)
    ensures
      var w := Run(Start(cfg, enabled, attempts), ops);
      Idle(w.s) && Places(w, t) == if t < |w.initial| then 1 else 0
  {
    if ops == [] {
      RestoredOnce(attempts, t);
    } else {
      Conservation(cfg, enabled, attempts, Init(ops), t);
      StepMoves(Run(Start(cfg, enabled, attempts), Init(ops)), Last(ops), t);
    }
  }

  lemma {:induction false} Sizes(batch: seq<Envelope>, maxRetries: int)
    ensures |Requeued(batch, maxRetries)| + |GivenUp(batch, maxRetries)| == |batch|
  {
    if batch != [] {
      Sizes(Init(batch), maxRetries);
    }
  }

  function Room(w: World, restored: nat): int {
    Max(restored, w.s.cfg.maxQueueSize + w.s.cfg.batchSize)
  }

  ghost predicate AddsUp(w: World, restored: nat) {
    && Idle(w.s)
    && |w.initial| == w.s.metrics.sent + w.s.metrics.dropped + |w.s.queue| + |w.s.batch|
    && |w.s.queue| + |w.s.batch| <= Room(w, restored)
  }

  lemma {:induction false} StepAddsUp(w: World, op: Op, restored: nat)
    requires AddsUp(w, restored)
    ensures AddsUp(Next(w, op), restored)
    ensures Next(w, op).s.cfg == w.s.cfg
  {
    match op
    case Offer =>
    case FlushCall =>
    case PostEnds(ok) => Sizes(w.s.batch, w.s.cfg.maxRetries);
    case Switch(_) =>
  }

  /** The offers made while the sender was enabled. */
  function OffersTaken(w: World, ops: seq<Op>): nat {
    if ops == [] then 0
    else OffersTaken(w, Init(ops)) + (if Last(ops).Offer? && Run(w, Init(ops)).s.enabled then 1 else 0)
  }

  /** The sender's own counters: events offered while enabled + events restored =
      sent + dropped + queue length + size of the batch in flight. The queue and the
      batch together never exceed what was restored, or the queue limit plus one batch. */
  lemma {:induction false} CountersAddUp(cfg: Config, enabled: bool, attempts: seq<nat>, ops: seq<Op>)
    ensures
      var start := Start(cfg, enabled, attempts);
      var w := Run(start, ops);
      && |w.initial| == |attempts| + OffersTaken(start, ops)
      && |attempts| + OffersTaken(start, ops)
         == w.s.metrics.sent + w.s.metrics.dropped + |w.s.queue| + |w.s.batch|
      && |w.s.queue| + |w.s.batch| <= Max(|attempts|, cfg.maxQueueSize + cfg.batchSize)
      && w.s.cfg == cfg
      && AddsUp(w, |attempts|)
  {
    var start := Start(cfg, enabled, attempts);
    if ops != [] {
      CountersAddUp(cfg, enabled, attempts, Init(ops));
      StepAddsUp(Run(start, Init(ops)), Last(ops), |attempts|);
    }
  }

  /** After a failed post the queue is the survivors of the batch in reverse order,
      each with one more attempt, in front of what was queued before. */
  lemma {:induction false} RequeuedInReverse(batch: seq<Envelope>, maxRetries: int)
    ensures Requeued(batch, maxRetries) == Reversed(OneMoreAttempt(Survivors(batch, maxRetries)))
  {
    if batch != [] {
      RequeuedInReverse(Init(batch), maxRetries);
      if Retriable(Last(batch), maxRetries) {
        var before := Survivors(Init(batch), maxRetries);
        assert Init(before + [Last(batch)]) == before;
        var aged := OneMoreAttempt(before);
        assert Init(aged + [Last(batch).(attempts := Last(batch).attempts + 1)]) == aged;
      }
    }
  }

  function Survivors(batch: seq<Envelope>, maxRetries: int): seq<Envelope> {
    if batch == [] then []
    else if Retriable(Last(batch), maxRetries) then Survivors(Init(batch), maxRetries) + [Last(batch)]
    else Survivors(Init(batch), maxRetries)
  }

  function OneMoreAttempt(q: seq<Envelope>): seq<Envelope> {
    if q == [] then [] else OneMoreAttempt(Init(q)) + [Last(q).(attempts := Last(q).attempts + 1)]
  }

  function Reversed(q: seq<Envelope>): seq<Envelope> {
    if q == [] then [] else [Last(q)] + Reversed(Init(q))
  }

  predicate Undelivered(w: World, t: nat) {
    t < |w.initial| && Times(w.sent, t) == 0 && Times(w.dropped, t) == 0
  }

  /** What a shutdown writes holds every event that is neither delivered nor given up. */
  ghost predicate SavesAll(w: World) {
    forall t: nat :: Undelivered(w, t) ==> Times(Persisted(w.s), t) == 1
  }

  /** In every reachable state the queue holds all of them exactly when no batch is in
      flight. */
  lemma {:induction false} PersistedIffNothingInFlight(cfg: Config, enabled: bool, attempts: seq<nat>, ops: seq<Op>)
    ensures
      var w := Run(Start(cfg, enabled, attempts), ops);
      SavesAll(w) <==> w.s.batch == []
  {
    var w := Run(Start(cfg, enabled, attempts), ops);
    forall t: nat ensures Places(w, t) == if t < |w.initial| then 1 else 0 {
      Conservation(cfg, enabled, attempts, ops, t);
    }
    if w.s.batch != [] {
      var t := Last(w.s.batch).ticket;
      assert Places(w, t) <= 1 && Times(w.s.batch, t) >= 1;
      assert Undelivered(w, t) && Times(w.s.queue, t) == 0;
    } else {
      forall t: nat | Undelivered(w, t) ensures Times(w.s.queue, t) == 1 {
        assert Places(w, t) == 1;
      }
    }
  }

  /** A shutdown that flushes by itself saves everything, whatever happens until its
      flush has ended. One that does not writes at once, and saves everything exactly
      when no other call's flush has a batch in flight. */
  lemma {:induction false} ShutdownSavesAllIff(cfg: Config, enabled: bool, attempts: seq<nat>,
        ops: seq<Op>, later: seq<Op>)
    ensures
      var start := Start(cfg, enabled, attempts);
      var w, u := Run(start, ops), Run(start, ops + [FlushCall] + later);
      && (StartsFlush(w.s) && !u.s.flushing ==> SavesAll(u))
      && (!StartsFlush(w.s) ==> (SavesAll(w) <==> w.s.batch == []))
  {
    PersistedIffNothingInFlight(cfg, enabled, attempts, ops);
    PersistedIffNothingInFlight(cfg, enabled, attempts, ops + [FlushCall] + later);
    Conservation(cfg, enabled, attempts, ops + [FlushCall] + later, 0);
  }

  /** One event fills the first batch: a shutdown while it is being posted writes an
      empty queue, and the event has been neither delivered nor given up. */
  lemma {:induction false} ShutdownForgetsBatch()
    ensures
      var w := Run(Start(Config(1, 3, 10), true, []), [Offer]);
      && w.s.queue == [] && w.s.batch == [Envelope(0, 0)] && w.s.flushing && !StartsFlush(w.s)
      && Undelivered(w, 0) && !SavesAll(w)
  {
    assert Init([Offer]) == [];
    var start := Start(Config(1, 3, 10), true, []);
    assert Run(start, []) == start;
    assert [Envelope(0, 0)][..1] == [Envelope(0, 0)];
    var w := Run(start, [Offer]);
    assert Undelivered(w, 0) && Times(Persisted(w.s), 0) == 0;
  }

  /** While a batch is in flight, only the end of its post changes it: no call starts
      a second one. Switching the sender off posts nothing. */
  lemma {:induction false} OneBatchAtATime(w: World, op: Op)
    ensures w.s.flushing && !op.PostEnds? ==>
      Next(w, op).s.flushing && Next(w, op).s.batch == w.s.batch && Next(w, op).posted == w.posted
    ensures op == Switch(false) ==> Next(w, op).posted == w.posted && Next(w, op).s.queue == w.s.queue
  {
    assert w.posted + [] == w.posted;
  }

  // How often an event is posted -------------------------------------------------------------

  /** A fresh event may be posted maxRetries + 1 times; one restored with some
      attempts behind it correspondingly less often, but at least once. */
  function PostLimit(attempts: nat, maxRetries: int): int {
    Max(1, maxRetries + 1 - attempts)
  }

  /** `e` was posted once per attempt it has gained, not counting `pending` posts. */
  ghost predicate Accounted(w: World, e: Envelope, pending: nat) {
    && e.ticket < |w.initial|
    && Times(w.posted, e.ticket) == e.attempts - w.initial[e.ticket] + pending
    && (e.attempts == w.initial[e.ticket] || e.attempts <= w.s.cfg.maxRetries)
  }

  ghost predicate AllAccounted(w: World, q: seq<Envelope>, pending: nat) {
    forall e :: e in q ==> Accounted(w, e, pending)
  }

  ghost predicate WithinLimits(w: World) {
    forall t: nat :: Times(w.posted, t) <=
      if t < |w.initial| then PostLimit(w.initial[t], w.s.cfg.maxRetries) else 0
  }

  ghost predicate PostsAccounted(w: World) {
    AllAccounted(w, w.s.queue, 0) && AllAccounted(w, w.s.batch, 1) && WithinLimits(w)
  }

  ghost predicate OncePlaced(w: World) {
    forall t: nat :: Places(w, t) <= 1
  }

  lemma {:induction false} ListedIsCounted(q: seq<Envelope>, e: Envelope)
    requires e in q
    ensures Times(q, e.ticket) >= 1
  {
    if e != Last(q) {
      assert q == Init(q) + [Last(q)];
      ListedIsCounted(Init(q), e);
    }
  }

  lemma {:induction false} CountedIsListed(q: seq<Envelope>, t: nat) returns (e: Envelope)
    requires Times(q, t) >= 1
    ensures e in q && e.ticket == t
  {
    if Last(q).ticket == t {
      e := Last(q);
    } else {
      e := CountedIsListed(Init(q), t);
    }
  }

  /** The world after the sender has taken and posted its next batch. */
  function Posting(w: World): World {
    var s := TakeBatch(w.s);
    w.(s := s, posted := w.posted + s.batch)
  }

  lemma {:induction false} PostingKeeps(w: World)
    requires OncePlaced(w) && AllAccounted(w, w.s.queue, 0) && WithinLimits(w)
    ensures PostsAccounted(Posting(w))
  {
    var after := Posting(w);
    var batch, rest := after.s.batch, after.s.queue;
    forall t: nat
      ensures Times(after.posted, t) == Times(w.posted, t) + Times(batch, t)
      ensures Times(batch, t) + Times(rest, t) <= 1
    {
      TimesAppend(w.posted, batch, t);
      TakeBatchMoves(w.s, t);
      assert Places(w, t) <= 1;
    }
    forall e | e in batch ensures Accounted(after, e, 1) {
      assert Accounted(w, e, 0);
      ListedIsCounted(batch, e);
    }
    forall e | e in rest ensures Accounted(after, e, 0) {
      assert Accounted(w, e, 0);
      ListedIsCounted(rest, e);
    }
    forall t: nat
      ensures Times(after.posted, t) <=
        if t < |w.initial| then PostLimit(w.initial[t], w.s.cfg.maxRetries) else 0
    {
      if Times(batch, t) >= 1 {
        var e := CountedIsListed(batch, t);
        assert Accounted(after, e, 1);
      }
    }
  }

  lemma {:induction false} RequeuedFrom(batch: seq<Envelope>, maxRetries: int, e: Envelope)
    requires e in Requeued(batch, maxRetries)
    ensures e.attempts > 0 && e.(attempts := e.attempts - 1) in batch && e.attempts <= maxRetries
  {
    if Retriable(Last(batch), maxRetries) && e == Last(batch).(attempts := Last(batch).attempts + 1) {
    } else {
      RequeuedFrom(Init(batch), maxRetries, e);
      assert batch == Init(batch) + [Last(batch)];
    }
  }

  lemma {:induction false} FailureKeeps(w: World)
    requires PostsAccounted(w) && w.s.flushing
    ensures PostsAccounted(Next(w, PostEnds(false)))
  {
    var after := Next(w, PostEnds(false));
    assert after.posted == w.posted;
    forall e | e in after.s.queue ensures Accounted(after, e, 0) {
      if e in w.s.queue {
        assert Accounted(w, e, 0);
      } else {
        RequeuedFrom(w.s.batch, w.s.cfg.maxRetries, e);
        assert Accounted(w, e.(attempts := e.attempts - 1), 1);
      }
    }
  }

  lemma {:induction false} SuccessKeeps(w: World)
    requires PostsAccounted(w) && OncePlaced(w) && w.s.flushing
    ensures PostsAccounted(Next(w, PostEnds(true)))
  {
    var done := w.s.(metrics := w.s.metrics.(sent := w.s.metrics.sent + |w.s.batch|), batch := []);
    var delivered := w.(s := done, sent := w.sent + w.s.batch);
    forall t: nat ensures Places(delivered, t) <= 1 {
      TimesAppend(w.sent, w.s.batch, t);
      assert Places(w, t) <= 1;
    }
    forall e | e in done.queue ensures Accounted(delivered, e, 0) {
      assert Accounted(w, e, 0);
    }
    if done.queue != [] {
      PostingKeeps(delivered);
    } else {
      assert w.posted + [] == w.posted;
    }
  }

  lemma {:induction false} OfferKeeps(w: World)
    requires PostsAccounted(w) && OncePlaced(w) && Idle(w.s) && w.s.enabled
    requires Places(w, |w.initial|) == 0
    ensures PostsAccounted(Next(w, Offer))
  {
    var ticket := |w.initial|;
    if |w.s.queue| >= w.s.cfg.maxQueueSize {
      var refused := Next(w, Offer);
      assert refused.posted == w.posted;
      AgeKeeps(w, refused);
    } else {
      var e := Envelope(ticket, 0);
      var queued := w.(s := Queued(w.s, ticket), initial := w.initial + [0]);
      forall t: nat ensures Places(queued, t) <= 1 {
        TimesAppend(w.s.queue, [e], t);
        TimesOne(e, t);
        assert Places(w, t) <= 1;
      }
      forall d | d in queued.s.queue ensures Accounted(queued, d, 0) {
        if d != e {
          assert Accounted(w, d, 0);
        }
      }
      forall d | d in queued.s.batch ensures Accounted(queued, d, 1) {
        assert Accounted(w, d, 1);
      }
      assert WithinLimits(queued);
      FlushKeeps(queued, |queued.s.queue| >= queued.s.cfg.batchSize);
    }
  }

  /** More tickets and the same queue, batch and posts. */
  lemma {:induction false} AgeKeeps(w: World, after: World)
    requires PostsAccounted(w)
    requires after.initial == w.initial + [0] && after.posted == w.posted
    requires after.s.queue == w.s.queue && after.s.batch == w.s.batch && after.s.cfg == w.s.cfg
    ensures PostsAccounted(after)
  {
    forall e | e in after.s.queue ensures Accounted(after, e, 0) {
      assert Accounted(w, e, 0);
    }
    forall e | e in after.s.batch ensures Accounted(after, e, 1) {
      assert Accounted(w, e, 1);
    }
  }

  lemma {:induction false} FlushKeeps(w: World, called: bool)
    requires PostsAccounted(w) && OncePlaced(w) && Idle(w.s)
    ensures
      var s := if called then AfterFlushCall(w.s) else w.s;
      PostsAccounted(w.(s := s, posted := w.posted + NewPosts(w.s, s, false)))
  {
    if called && w.s.enabled && !w.s.flushing && w.s.queue != [] {
      PostingKeeps(w);
    } else {
      assert w.posted + [] == w.posted;
    }
  }

  lemma {:induction false} StepKeepsPosts(w: World, op: Op)
    requires PostsAccounted(w) && OncePlaced(w) && Idle(w.s)
    requires Places(w, |w.initial|) == 0
    ensures PostsAccounted(Next(w, op))
  {
    match op
    case Offer => if w.s.enabled { OfferKeeps(w); }
    case FlushCall => FlushKeeps(w, true);
    case PostEnds(ok) =>
      if w.s.flushing {
        if ok { SuccessKeeps(w); } else { FailureKeeps(w); }
      }
    case Switch(on) =>
      var after := Next(w, op);
      forall e | e in after.s.queue ensures Accounted(after, e, 0) { assert Accounted(w, e, 0); }
      forall e | e in after.s.batch ensures Accounted(after, e, 1) { assert Accounted(w, e, 1); }
  }

  lemma {:induction false} RestoredAttempts(attempts: seq<nat>, e: Envelope)
    requires e in Restored(attempts)
    ensures e.ticket < |attempts| && e.attempts == attempts[e.ticket]
  {
    if attempts != [] && e != Last(Restored(attempts)) {
      RestoredAttempts(Init(attempts), e);
    }
  }

  /** Over every interleaving, every event is posted at most maxRetries + 1 times,
      less the attempts it was restored with, and at least one post is allowed. */
  lemma {:induction false} BoundedPosts(cfg: Config, enabled: bool, attempts: seq<nat>, ops: seq<Op>)
    ensures PostsAccounted(Run(Start(cfg, enabled, attempts), ops))
    ensures
      var w := Run(Start(cfg, enabled, attempts), ops);
      forall t :: 0 <= t < |w.initial| ==> Times(w.posted, t) <= PostLimit(w.initial[t], cfg.maxRetries)
  {
    var start := Start(cfg, enabled, attempts);
    CountersAddUp(cfg, enabled, attempts, ops);
    if ops == [] {
      forall e | e in start.s.queue ensures Accounted(start, e, 0) {
        RestoredAttempts(attempts, e);
      }
    } else {
      var before := Run(start, Init(ops));
      BoundedPosts(cfg, enabled, attempts, Init(ops));
      forall t: nat ensures Places(before, t) == if t < |before.initial| then 1 else 0 {
        Conservation(cfg, enabled, attempts, Init(ops), t);
      }
      CountersAddUp(cfg, enabled, attempts, Init(ops));
      StepKeepsPosts(before, Last(ops));
    }
  }
}
