/** The telemetry sender: a bounded queue, one batch in flight, retries.

    `flush` suspends while a batch is being posted. Its local `batch` is kept here
    as a field, and the code after the suspension point is the method `Settle`;
    between the two any other method may run. */
module TelemetrySender {
  import opened Prelude

  /** `ticket` is the identity of the queued object, given out in order of arrival. */
  datatype Envelope = Envelope(ticket: nat, attempts: nat)

  datatype Config = Config(batchSize: nat, maxRetries: int, maxQueueSize: nat)

  datatype Metrics = Metrics(queued: nat, sent: nat, sendFailures: nat, retries: nat, dropped: nat)

  datatype State = State(
    cfg: Config,
    enabled: bool,
    flushing: bool,
    queue: seq<Envelope>,
    batch: seq<Envelope>,
    metrics: Metrics)

  // What one call does --------------------------------------------------------------

  function TakeBatch(s: State): State {
    var n := Min(s.cfg.batchSize, |s.queue|);
    s.(flushing := true, batch := s.queue[..n], queue := s.queue[n..])
  }

  predicate StartsFlush(s: State) {
    s.enabled && !s.flushing && s.queue != []
  }

  function AfterFlushCall(s: State): State {
    if StartsFlush(s) then TakeBatch(s) else s
  }

  function AfterEnqueue(s: State, ticket: nat): State {
    if !s.enabled then s
    else if |s.queue| >= s.cfg.maxQueueSize then
      s.(metrics := s.metrics.(dropped := s.metrics.dropped + 1))
    else
      var t := s.(queue := s.queue + [Envelope(ticket, 0)], metrics := s.metrics.(queued := s.metrics.queued + 1));
      if |t.queue| >= t.cfg.batchSize then AfterFlushCall(t) else t
  }

  predicate Retriable(e: Envelope, maxRetries: int) {
    e.attempts + 1 <= maxRetries
  }

  /** The envelopes of a failed batch that will be tried again, newest first. */
  function Requeued(batch: seq<Envelope>, maxRetries: int): seq<Envelope> {
    if batch == [] then []
    else if Retriable(Last(batch), maxRetries)
    then [Last(batch).(attempts := Last(batch).attempts + 1)] + Requeued(Init(batch), maxRetries)
    else Requeued(Init(batch), maxRetries)
  }

  /** The envelopes of a failed batch that are given up. */
  function GivenUp(batch: seq<Envelope>, maxRetries: int): seq<Envelope> {
    if batch == [] then []
    else if Retriable(Last(batch), maxRetries) then GivenUp(Init(batch), maxRetries)
    else GivenUp(Init(batch), maxRetries) + [Last(batch)]
  }

  function AfterSend(s: State, ok: bool): State {
    if ok then
      var t := s.(metrics := s.metrics.(sent := s.metrics.sent + |s.batch|), batch := []);
      if t.queue != [] then TakeBatch(t) else t.(flushing := false)
    else
      var again := Requeued(s.batch, s.cfg.maxRetries);
      s.(flushing := false, batch := [], queue := again + s.queue,
         metrics := s.metrics.(
           sendFailures := s.metrics.sendFailures + 1,
           retries := s.metrics.retries + |again|,
           dropped := s.metrics.dropped + |GivenUp(s.batch, s.cfg.maxRetries)|))
  }

  /** What `persistQueue` writes to the queue file. */
  function Persisted(s: State): seq<Envelope> {
    s.queue
  }

  class TelemetrySender {
    const cfg: Config
    var enabled: bool
    var flushing: bool
    var queue: seq<Envelope>
    var batch: seq<Envelope>
    var metrics: Metrics

    ghost function View(): State
      reads this
    {
      State(cfg, enabled, flushing, queue, batch, metrics)
    }

    constructor (cfg: Config, enabled: bool, restored: seq<Envelope>)
      ensures View() == State(cfg, enabled, false, restored, [], Metrics(0, 0, 0, 0, 0))
    {
      this.cfg := cfg;
      this.enabled := enabled;
      flushing := false;
      queue := restored;
      batch := [];
      metrics := Metrics(0, 0, 0, 0, 0);
    }

    /** Switching off also calls `flush`, which then finds the sender disabled. */
    method SetEnabled(on: bool)
      modifies this
      ensures View() == old(View()).(enabled := on)
    {
      if enabled == on {
        return;
      }
      enabled := on;
      if !on {
        Flush();
      }
    }

    method Enqueue(ticket: nat)
      modifies this
      ensures View() == AfterEnqueue(old(View()), ticket)
    {
      if !enabled {
        return;
      }
      if |queue| >= cfg.maxQueueSize {
        metrics := metrics.(dropped := metrics.dropped + 1);
        return;
      }
      queue := queue + [Envelope(ticket, 0)];
      metrics := metrics.(queued := metrics.queued + 1);
      if |queue| >= cfg.batchSize {
        Flush();
      }
    }

    /** `flush` up to the point where it waits for the first post. */
    method Flush()
      modifies this
      ensures View() == AfterFlushCall(old(View()))
    {
      if !enabled || flushing || |queue| == 0 {
        return;
      }
      flushing := true;
      Splice();
    }

    method Splice()
      requires flushing
      modifies this
      ensures View() == TakeBatch(old(View()))
    {
      var n := Min(cfg.batchSize, |queue|);
      batch := queue[..n];
      queue := queue[n..];
    }

    /** `flush` from the end of one post to the next point where it waits, or to its end. */
    method Settle(ok: bool)
      requires flushing
      modifies this
      ensures View() == AfterSend(old(View()), ok)
    {
      if ok {
        metrics := metrics.(sent := metrics.sent + |batch|);
        batch := [];
        if |queue| > 0 {
          Splice();
        } else {
          flushing := false;
        }
        return;
      }
      metrics := metrics.(sendFailures := metrics.sendFailures + 1);
      var items := batch;
      ghost var before := metrics;
      for i := 0 to |items|
        invariant queue == Requeued(items[..i], cfg.maxRetries) + old(queue)
        invariant metrics == before.(
          retries := before.retries + |Requeued(items[..i], cfg.maxRetries)|,
          dropped := before.dropped + |GivenUp(items[..i], cfg.maxRetries)|)
        invariant enabled == old(enabled)
      {
        var item := items[i];
        assert Init(items[..i + 1]) == items[..i];
        if item.attempts + 1 > cfg.maxRetries {
          metrics := metrics.(dropped := metrics.dropped + 1);
          continue;
        }
        metrics := metrics.(retries := metrics.retries + 1);
        queue := [item.(attempts := item.attempts + 1)] + queue;
      }
      assert items[..|items|] == items;
      batch := [];
      flushing := false;
    }

    /** `shutdown` up to the point where it waits for a flush of its own. Without one it
        writes the queue at once, even while another call's flush is running. */
    method BeginShutdown() returns (written: Option<seq<Envelope>>)
      modifies this
      ensures View() == AfterFlushCall(old(View()))
      ensures written == if StartsFlush(old(View())) then None else Some(Persisted(old(View())))
    {
      var ownFlush := enabled && !flushing && |queue| > 0;
      Flush();
      written := if ownFlush then None else Some(queue);
    }

    /** `shutdown` after its own flush. */
    method EndShutdown() returns (written: seq<Envelope>)
      requires !flushing
      ensures written == Persisted(View())
    {
      written := queue;
    }
  }
}
