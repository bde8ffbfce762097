/** In which order telemetry events are posted, when a flush starts and ends, and what the
    counters count. */
module TelemetryOrder {
  import opened Prelude
  import opened TelemetrySender
  import opened TelemetryTheorems

  function Tickets(q: seq<Envelope>): seq<nat> {
    if q == [] then [] else Tickets(Init(q)) + [Last(q).ticket]
  }

  function FirstTickets(n: nat): seq<nat> {
    if n == 0 then [] else FirstTickets(n - 1) + [n - 1]
  }

  /** The offer is made while the sender is enabled and finds room in the queue. */
  predicate IsTaken(w: World, op: Op) {
    op.Offer? && w.s.enabled && |w.s.queue| < w.s.cfg.maxQueueSize
  }

  /** The tickets of the restored events and of the offers that found room, in order of arrival. */
  function Arrived(w: World, ops: seq<Op>): seq<nat> {
    if ops == [] then FirstTickets(|w.initial|)
    else
      var before := Run(w, Init(ops));
      Arrived(w, Init(ops)) + (if IsTaken(before, Last(ops)) then [|before.initial|] else [])
  }

  predicate IsFailedPost(w: World, op: Op) {
    w.s.flushing && op == PostEnds(false)
  }

  ghost predicate NeverFails(w: World, ops: seq<Op>) {
    ops == [] || (NeverFails(w, Init(ops)) && !IsFailedPost(Run(w, Init(ops)), Last(ops)))
  }

  lemma {:induction false} TicketsAppend(a: seq<Envelope>, b: seq<Envelope>)
    ensures Tickets(a + b) == Tickets(a) + Tickets(b)
  {
    if b == [] {
      assert a + b == a;
    } else {
      TicketsAppend(a, Init(b));
      assert Init(a + b) == a + Init(b);
    }
  }

  /** Everything that has been posted, and then everything that is still to be. */
  function InOrder(w: World): seq<nat> {
    Tickets(w.posted) + Tickets(w.s.queue)
  }

  lemma {:induction false} TakenFromTheFront(w: World, s: State)
    requires s.batch <= w.s.queue && s.queue == w.s.queue[|s.batch|..]
    ensures Tickets(w.posted + s.batch) + Tickets(s.queue) == InOrder(w)
  {
    TicketsAppend(w.posted, s.batch);
    TicketsAppend(s.batch, s.queue);
    assert w.s.queue == s.batch + s.queue;
  }

  lemma {:induction false} OneMoreQueued(w: World, e: Envelope)
    ensures InOrder(w.(s := w.s.(queue := w.s.queue + [e]))) == InOrder(w) + [e.ticket]
  {
    TicketsAppend(w.s.queue, [e]);
    assert Init([e]) == [];
  }

  lemma {:induction false} FlushKeepsOrder(w: World)
    ensures InOrder(Next(w, FlushCall)) == InOrder(w)
  {
    if w.s.enabled && !w.s.flushing && w.s.queue != [] {
      TakenFromTheFront(w, Next(w, FlushCall).s);
    } else {
      assert w.posted + [] == w.posted;
    }
  }

  lemma {:induction false} OfferKeepsOrder(w: World)
    ensures InOrder(Next(w, Offer)) == InOrder(w) + (if IsTaken(w, Offer) then [|w.initial|] else [])
  {
    assert w.posted + [] == w.posted;
    if IsTaken(w, Offer) {
      var e := Envelope(|w.initial|, 0);
      var queued := w.(s := Queued(w.s, |w.initial|));
      OneMoreQueued(w, e);
      FlushKeepsOrder(queued);
    }
  }

  lemma {:induction false} PostKeepsOrder(w: World)
    ensures InOrder(Next(w, PostEnds(true))) == InOrder(w)
  {
    if w.s.flushing {
      if w.s.queue != [] {
        TakenFromTheFront(w, Next(w, PostEnds(true)).s);
      } else {
        assert w.posted + [] == w.posted;
      }
    }
  }

  /** While no post fails, events are posted in their order of arrival, each once, and the
      queue is exactly what follows the posted ones. */
  lemma {:induction false} FirstComeFirstPosted(cfg: Config, enabled: bool, attempts: seq<nat>, ops: seq<Op>)
    requires NeverFails(Start(cfg, enabled, attempts), ops)
    ensures
      var start := Start(cfg, enabled, attempts);
      var w := Run(start, ops);
      Tickets(w.posted) + Tickets(w.s.queue) == Arrived(start, ops) && w.posted == w.sent + w.s.batch
    ensures Idle(Run(Start(cfg, enabled, attempts), ops).s)
  {
    hide Next;
    var start := Start(cfg, enabled, attempts);
    if ops == [] {
      RestoredTickets(attempts);
    } else {
      FirstComeFirstPosted(cfg, enabled, attempts, Init(ops));
      var w := Run(start, Init(ops));
      StepKeepsDelivering(w, Last(ops));
      match Last(ops)
      case Offer => OfferKeepsOrder(w);
      case FlushCall => FlushKeepsOrder(w);
      case PostEnds(ok) =>
        if ok {
          PostKeepsOrder(w);
        } else {
          NothingToEnd(w);
        }
      case Switch(on) => SwitchKeepsOrder(w, on);
    }
  }

  lemma {:induction false} StepKeepsDelivering(w: World, op: Op)
    requires Idle(w.s) && w.posted == w.sent + w.s.batch && !IsFailedPost(w, op)
    ensures Idle(Next(w, op).s) && Next(w, op).posted == Next(w, op).sent + Next(w, op).s.batch
  {
    assert w.posted + [] == w.posted && w.sent + [] == w.sent;
    var batch := Next(w, op).s.batch;
    assert (w.sent + w.s.batch) + batch == w.sent + (w.s.batch + batch);
  }

  lemma {:induction false} NothingToEnd(w: World)
    requires !w.s.flushing
    ensures Next(w, PostEnds(false)) == w
  {
  }

  lemma {:induction false} SwitchKeepsOrder(w: World, on: bool)
    ensures InOrder(Next(w, Switch(on))) == InOrder(w)
  {
  }

  lemma {:induction false} RestoredTickets(attempts: seq<nat>)
    ensures Tickets(Restored(attempts)) == FirstTickets(|attempts|)
  {
    if attempts != [] {
      RestoredTickets(Init(attempts));
      assert Init(Restored(attempts)) == Restored(Init(attempts));
    }
  }

  // A failed post -------------------------------------------------------------------------------

  /** The events that may be posted again, each with one more attempt. */
  function TriedAgain(batch: seq<Envelope>, maxRetries: int): seq<Envelope> {
    if batch == [] then []
    else
      var e := Last(batch);
      TriedAgain(Init(batch), maxRetries)
      + (if e.attempts < maxRetries then [Envelope(e.ticket, e.attempts + 1)] else [])
  }

  function Exhausted(batch: seq<Envelope>, maxRetries: int): seq<Envelope> {
    if batch == [] then []
    else Exhausted(Init(batch), maxRetries) + (if Last(batch).attempts < maxRetries then [] else [Last(batch)])
  }

  lemma {:induction false} RequeuedAre(batch: seq<Envelope>, maxRetries: int)
    ensures Requeued(batch, maxRetries) == Reversed(TriedAgain(batch, maxRetries))
    ensures GivenUp(batch, maxRetries) == Exhausted(batch, maxRetries)
  {
    if batch != [] {
      RequeuedAre(Init(batch), maxRetries);
      var before, e := TriedAgain(Init(batch), maxRetries), Last(batch);
      assert before + [] == before && Exhausted(Init(batch), maxRetries) + [] == Exhausted(Init(batch), maxRetries);
      if e.attempts < maxRetries {
        assert Init(before + [Envelope(e.ticket, e.attempts + 1)]) == before;
      }
    }
  }

  /** After a failed post the flush is over, and the whole queue is the events of the batch
      that may be tried again, the last one first, and then what was queued before. */
  lemma {:induction false} FailedPostRequeues(w: World)
    requires w.s.flushing
    ensures
      var u := Next(w, PostEnds(false));
      && u.s.queue == Reversed(TriedAgain(w.s.batch, w.s.cfg.maxRetries)) + w.s.queue
      && u.dropped == w.dropped + Exhausted(w.s.batch, w.s.cfg.maxRetries)
      && u.s.batch == [] && !u.s.flushing && u.posted == w.posted && u.sent == w.sent
  {
    RequeuedAre(w.s.batch, w.s.cfg.maxRetries);
    assert w.posted + [] == w.posted;
  }

  // When a flush starts and how far it goes -------------------------------------------------------------

  /** A flush starts when the sender is enabled, none is running and there is something to
      send. Once running it goes on batch by batch until the queue is empty or a post
      fails, even if the sender has been switched off. Every batch is as large as it can be. */
  lemma {:induction false} FlushesRun(w: World)
    ensures !w.s.flushing ==> (Next(w, FlushCall).s.flushing <==> w.s.enabled && w.s.queue != [])
    ensures w.s.flushing ==> (Next(w, PostEnds(true)).s.flushing <==> w.s.queue != [])
    ensures w.s.flushing && w.s.queue != [] ==>
      |Next(w, PostEnds(true)).s.batch| == Min(w.s.cfg.batchSize, |w.s.queue|)
    ensures !w.s.flushing && w.s.enabled && w.s.queue != [] ==>
      |Next(w, FlushCall).s.batch| == Min(w.s.cfg.batchSize, |w.s.queue|)
  {
  }

  /** An offer that finds room starts a flush exactly when it completes a batch and none is
      running; one that finds none changes nothing but the count of dropped events. */
  lemma {:induction false} OfferFlushesIff(w: World)
    requires w.s.enabled
    ensures !w.s.flushing && IsTaken(w, Offer) ==>
      (Next(w, Offer).s.flushing <==> |w.s.queue| + 1 >= w.s.cfg.batchSize)
    ensures !IsTaken(w, Offer) ==>
      Next(w, Offer).s == w.s.(metrics := w.s.metrics.(dropped := w.s.metrics.dropped + 1))
  {
  }

  // What the counters count ---------------------------------------------------------------------------------

  function FailedPosts(w: World, ops: seq<Op>): nat {
    if ops == [] then 0
    else FailedPosts(w, Init(ops)) + (if IsFailedPost(Run(w, Init(ops)), Last(ops)) then 1 else 0)
  }

  /** Posts that were made were delivered, will be retried, were given up or are in flight;
      `Refused` offers were dropped without a post. */
  function Refused(w: World, restored: nat): int {
    |w.initial| - restored - w.s.metrics.queued
  }

  ghost predicate Counted(w: World, restored: nat, arrived: nat, failed: nat) {
    && w.s.metrics.queued == arrived - restored
    && w.s.metrics.sendFailures == failed
    && |w.posted| == w.s.metrics.sent + w.s.metrics.retries + (w.s.metrics.dropped - Refused(w, restored)) + |w.s.batch|
    && (!w.s.flushing ==> w.s.batch == [])
  }

  lemma {:induction false} StepCounts(w: World, op: Op, restored: nat, arrived: nat, failed: nat)
    requires Counted(w, restored, arrived, failed)
    ensures Counted(Next(w, op), restored, arrived + (if IsTaken(w, op) then 1 else 0),
                    failed + (if IsFailedPost(w, op) then 1 else 0))
  {
    if IsFailedPost(w, op) {
      Sizes(w.s.batch, w.s.cfg.maxRetries);
    }
  }

  lemma {:induction false} CountersTell(cfg: Config, enabled: bool, attempts: seq<nat>, ops: seq<Op>)
    ensures
      var start := Start(cfg, enabled, attempts);
      Counted(Run(start, ops), |attempts|, |Arrived(start, ops)|, FailedPosts(start, ops))
  {
    hide Next, Counted;
    var start := Start(cfg, enabled, attempts);
    if ops == [] {
      NothingCounted(cfg, enabled, attempts);
    } else {
      CountersTell(cfg, enabled, attempts, Init(ops));
      StepCounts(Run(start, Init(ops)), Last(ops), |attempts|, |Arrived(start, Init(ops))|,
                 FailedPosts(start, Init(ops)));
    }
  }

  lemma {:induction false} NothingCounted(cfg: Config, enabled: bool, attempts: seq<nat>)
    ensures Counted(Start(cfg, enabled, attempts), |attempts|, |FirstTickets(|attempts|)|, 0)
  {
    SizeOfFirst(|attempts|);
  }

  lemma {:induction false} SizeOfFirst(n: nat)
    ensures |FirstTickets(n)| == n
  {
    if n > 0 {
      SizeOfFirst(n - 1);
    }
  }
}
