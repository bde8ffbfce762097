/** The per-provider gate on requests in flight: slots, waiters in order of arrival,
    and a cap that is halved for a while after a provider has pushed back. */
module ConcurrencyGate {
  import opened Prelude

  datatype Provider = Provider(name: string)

  /** `waiters` are the tickets in the queue, oldest first. */
  datatype Slot = Slot(active: nat, waiters: seq<nat>)

  /** `tickets` have been given out so far; a ticket stands for the waiter object. */
  datatype State = State(
    maxPerProvider: nat,
    slots: map<Provider, Slot>,
    suppressedUntil: map<Provider, int>,
    tickets: nat)
  {
    function At(p: Provider): Slot {
      if p in slots then slots[p] else Slot(0, [])
    }

    function HalfCap(): nat {
      Max(1, (maxPerProvider + 1) / 2)
    }

    predicate IsSuppressed(p: Provider, now: int) {
      p in suppressedUntil && suppressedUntil[p] > now
    }

    function Cap(p: Provider, now: int): nat {
      if IsSuppressed(p, now) then HalfCap() else maxPerProvider
    }
  }

  datatype Answer = Granted | Queued(ticket: nat) | Aborted

  datatype Feedback = RateLimited | Overloaded | OtherFeedback

  function Without(waiters: seq<nat>, ticket: nat): seq<nat> {
    if waiters == [] then []
    else if Last(waiters) == ticket then Without(Init(waiters), ticket)
    else Without(Init(waiters), ticket) + [Last(waiters)]
  }

  function AnswerFor(s: State, p: Provider, aborted: bool, now: int): Answer {
    if aborted then Aborted else if s.At(p).active < s.Cap(p, now) then Granted else Queued(s.tickets)
  }

  function Acquired(s: State, p: Provider, aborted: bool, now: int): State {
    var slot := s.At(p);
    match AnswerFor(s, p, aborted, now)
    case Aborted => s
    case Granted => s.(slots := s.slots[p := slot.(active := slot.active + 1)])
    case Queued(ticket) =>
      s.(slots := s.slots[p := slot.(waiters := slot.waiters + [ticket])], tickets := s.tickets + 1)
  }

  /** A waiter leaves the queue because it timed out or was aborted. */
  function Cancelled(s: State, p: Provider, ticket: nat): State {
    if p in s.slots then s.(slots := s.slots[p := s.slots[p].(waiters := Without(s.slots[p].waiters, ticket))]) else s
  }

  /** The waiter that a release lets through. */
  function WokenBy(s: State, p: Provider): Option<nat> {
    if s.At(p).active > 0 && s.At(p).waiters != [] then Some(s.At(p).waiters[0]) else None
  }

  function Released(s: State, p: Provider): State {
    var slot := s.At(p);
    if slot.active == 0 then s
    else if slot.waiters != [] then s.(slots := s.slots[p := slot.(waiters := slot.waiters[1..])])
    else if slot.active == 1 then s.(slots := s.slots - {p})
    else s.(slots := s.slots[p := slot.(active := slot.active - 1)])
  }

  function Suppressed(s: State, p: Provider, code: Feedback, retryAfterMs: Option<int>, now: int, maxMs: int): State {
    if code == OtherFeedback then s
    else s.(suppressedUntil := s.suppressedUntil[p := now + Min(Max(1, retryAfterMs.GetOr(5000)), maxMs)])
  }

  class ProviderConcurrencyGate {
    const maxPerProvider: nat
    var slots: map<Provider, Slot>
    var suppressedUntil: map<Provider, int>
    var tickets: nat

    constructor (maxPerProvider: int)
      ensures View() == Start(maxPerProvider)
    {
      this.maxPerProvider := Max(1, maxPerProvider);
      slots, suppressedUntil, tickets := map[], map[], 0;
    }

    function View(): State
      reads this
    {
      State(maxPerProvider, slots, suppressedUntil, tickets)
    }

    method EffectiveCap(p: Provider, now: int) returns (cap: nat)
      ensures cap == View().Cap(p, now)
      ensures maxPerProvider >= 1 ==> maxPerProvider <= 2 * cap && 1 <= cap <= maxPerProvider
    {
      if p !in suppressedUntil || suppressedUntil[p] <= now {
        return maxPerProvider;
      }
      return Max(1, (maxPerProvider + 1) / 2);
    }

    method Acquire(p: Provider, aborted: bool, now: int) returns (answer: Answer)
      modifies `slots, `tickets
      ensures answer == AnswerFor(old(View()), p, aborted, now)
      ensures View() == Acquired(old(View()), p, aborted, now)
    {
      if aborted {
        return Answer.Aborted;
      }
      var slot := if p in slots then slots[p] else Slot(0, []);
      var cap := EffectiveCap(p, now);
      if slot.active < cap {
        slots := slots[p := slot.(active := slot.active + 1)];
        return Granted;
      }
      answer := Queued(tickets);
      slots := slots[p := slot.(waiters := slot.waiters + [tickets])];
      tickets := tickets + 1;
    }

    method Cancel(p: Provider, ticket: nat)
      modifies `slots
      ensures View() == Cancelled(old(View()), p, ticket)
    {
      if p in slots {
        slots := slots[p := slots[p].(waiters := Without(slots[p].waiters, ticket))];
      }
    }

    method Release(p: Provider) returns (woken: Option<nat>)
      modifies `slots
      ensures woken == WokenBy(old(View()), p)
      ensures View() == Released(old(View()), p)
    {
      if p !in slots || slots[p].active <= 0 {
        return None;
      }
      var slot := slots[p];
      slot := slot.(active := slot.active - 1);
      woken := None;
      if slot.waiters != [] {
        woken := Some(slot.waiters[0]);
        slot := Slot(slot.active + 1, slot.waiters[1..]);
        slots := slots[p := slot];
      } else if slot.active == 0 {
        slots := slots - {p};
      } else {
        slots := slots[p := slot];
      }
    }

    method RecordProviderFeedback(p: Provider, code: Feedback, retryAfterMs: Option<int>, now: int,
        maxSuppressionMs: int)
      modifies `suppressedUntil
      ensures View() == Suppressed(old(View()), p, code, retryAfterMs, now, maxSuppressionMs)
    {
      if code != RateLimited && code != Overloaded {
        return;
      }
      var windowMs := Min(Max(1, retryAfterMs.GetOr(5000)), maxSuppressionMs);
      suppressedUntil := suppressedUntil[p := now + windowMs];
    }
  }

  // Runs of one gate -------------------------------------------------------------------------

  datatype Op =
    | Acquire(p: Provider, aborted: bool, now: int)
    | Cancel(p: Provider, ticket: nat)
    | Release(p: Provider)
    | Feed(p: Provider, code: Feedback, retryAfterMs: Option<int>, now: int, maxMs: int)

  function Next(s: State, op: Op): State {
    match op
    case Acquire(p, aborted, now) => Acquired(s, p, aborted, now)
    case Cancel(p, ticket) => Cancelled(s, p, ticket)
    case Release(p) => Released(s, p)
    case Feed(p, code, retryAfterMs, now, maxMs) => Suppressed(s, p, code, retryAfterMs, now, maxMs)
  }

  function Run(s: State, ops: seq<Op>): State {
    if ops == [] then s else Next(Run(s, Init(ops)), Last(ops))
  }

  function Start(maxPerProvider: int): State {
    State(Max(1, maxPerProvider), map[], map[], 0)
  }

  /** A slot is kept only while it is in use; nobody waits unless at least half of the
      cap is in flight; and the cap is never exceeded. */
  ghost predicate Sound(s: State) {
    && s.maxPerProvider >= 1
    && forall p :: SoundAt(s, p)
  }

  ghost predicate SoundAt(s: State, p: Provider) {
    && s.At(p).active <= s.maxPerProvider
    && (p in s.slots <==> s.At(p).active > 0)
    && (s.At(p).waiters != [] ==> s.At(p).active >= s.HalfCap())
  }

  lemma {:induction false} StepKeepsSound(s: State, op: Op)
    requires Sound(s)
    ensures Sound(Next(s, op)) && Next(s, op).maxPerProvider == s.maxPerProvider
  {
    var t := Next(s, op);
    forall p ensures SoundAt(t, p) {
      assert SoundAt(s, p);
      if op.Cancel? {
        WithoutNothing(s.At(p).waiters, op.ticket);
      }
    }
  }

  lemma {:induction false} WithoutNothing(waiters: seq<nat>, ticket: nat)
    ensures waiters == [] ==> Without(waiters, ticket) == []
  {
  }

  /** Over every run the requests in flight stay within the cap, no slot is kept for
      an idle provider, and whoever waits has a holder to be woken by. */
  lemma {:induction false} AlwaysSound(maxPerProvider: int, ops: seq<Op>, p: Provider)
    ensures
      var s := Run(Start(maxPerProvider), ops);
      && Sound(s)
      && s.At(p).active <= Max(1, maxPerProvider) == s.maxPerProvider
      && (p in s.slots <==> s.At(p).active > 0)
      && (s.At(p).waiters != [] ==> 1 <= s.HalfCap() <= s.At(p).active)
  {
    var before := Run(Start(maxPerProvider), ops);
    if ops != [] {
      AlwaysSound(maxPerProvider, Init(ops), p);
      StepKeepsSound(Run(Start(maxPerProvider), Init(ops)), Last(ops));
    }
    assert SoundAt(before, p);
  }

  // Who holds a slot ----------------------------------------------------------------------------

  function GrantsOf(s: State, op: Op, p: Provider): nat {
    match op
    case Acquire(q, aborted, now) => if q == p && AnswerFor(s, q, aborted, now).Granted? then 1 else 0
    case Release(q) => if q == p && WokenBy(s, q).Some? then 1 else 0
    case _ => 0
  }

  function Grants(s: State, ops: seq<Op>, p: Provider): nat {
    if ops == [] then 0 else Grants(s, Init(ops), p) + GrantsOf(Run(s, Init(ops)), Last(ops), p)
  }

  function Releases(ops: seq<Op>, p: Provider): nat {
    if ops == [] then 0 else Releases(Init(ops), p) + (if Last(ops) == Release(p) then 1 else 0)
  }

  /** Every holder releases once: no release comes when nothing is held. */
  ghost predicate Proper(s: State, ops: seq<Op>) {
    forall n :: 0 <= n < |ops| && ops[n].Release? ==> Run(s, ops[..n]).At(ops[n].p).active > 0
  }

  /** The gate counts the holders: requests in flight = grants - releases. */
  lemma {:induction false} ActiveCountsHolders(s: State, ops: seq<Op>, p: Provider)
    requires Proper(s, ops)
    ensures Run(s, ops).At(p).active + Releases(ops, p) == s.At(p).active + Grants(s, ops, p)
  {
    hide Next, GrantsOf, State.At;
    if ops != [] {
      var before := Init(ops);
      assert ops[..|ops| - 1] == before;
      forall n | 0 <= n < |before| && before[n].Release? ensures Run(s, before[..n]).At(before[n].p).active > 0 {
        assert before[..n] == ops[..n] && before[n] == ops[n];
      }
      ActiveCountsHolders(s, before, p);
      StepCountsHolders(Run(s, before), Last(ops), p);
    }
  }

  lemma {:induction false} StepCountsHolders(s: State, op: Op, p: Provider)
    requires op == Release(p) ==> s.At(p).active > 0
    ensures Next(s, op).At(p).active + (if op == Release(p) then 1 else 0) == s.At(p).active + GrantsOf(s, op, p)
  {
  }

  // Order of service -----------------------------------------------------------------------------

  /** Tickets grow along the queue and are older than the next one given out. */
  ghost predicate InOrder(s: State) {
    forall p :: InOrderAt(s, p)
  }

  ghost predicate InOrderAt(s: State, p: Provider) {
    Rising(s.At(p).waiters) && AllBelow(s.At(p).waiters, s.tickets)
  }

  predicate AllBelow(w: seq<nat>, bound: nat) {
    forall i :: 0 <= i < |w| ==> w[i] < bound
  }

  predicate Rising(w: seq<nat>) {
    forall i, j :: 0 <= i < j < |w| ==> w[i] < w[j]
  }

  lemma {:induction false} WithoutIs(w: seq<nat>, ticket: nat)
    ensures forall t :: t in Without(w, ticket) <==> t in w && t != ticket
    ensures Rising(w) ==> Rising(Without(w, ticket))
  {
    if w != [] {
      WithoutIs(Init(w), ticket);
      assert w == Init(w) + [Last(w)];
      var rest := Without(Init(w), ticket);
      if Rising(w) {
        assert forall t :: t in Init(w) ==> t < Last(w);
        assert forall k :: 0 <= k < |rest| ==> rest[k] in rest;
      }
    }
  }

  lemma {:induction false} OrderLaws(w: seq<nat>, bound: nat, other: nat)
    requires Rising(w) && AllBelow(w, bound)
    ensures Rising(w + [bound]) && AllBelow(w + [bound], bound + 1)
    ensures Rising(Without(w, other)) && AllBelow(Without(w, other), bound)
    ensures w != [] ==> Rising(w[1..]) && AllBelow(w[1..], bound)
    ensures AllBelow(w, bound + 1)
  {
    WithoutIs(w, other);
    var rest := Without(w, other);
    assert forall k :: 0 <= k < |rest| ==> rest[k] in rest;
  }

  lemma {:induction false} StepKeepsOrder(s: State, op: Op)
    requires InOrder(s)
    ensures InOrder(Next(s, op)) && s.tickets <= Next(s, op).tickets
  {
    hide Rising, AllBelow, Without;
    var t := Next(s, op);
    forall p ensures InOrderAt(t, p) {
      assert InOrderAt(s, p);
      OrderLaws(s.At(p).waiters, s.tickets, if op.Cancel? then op.ticket else 0);
      assert Rising([]) && AllBelow([], t.tickets) by {
        NoneInOrder(t.tickets);
      }
    }
  }

  lemma {:induction false} NoneInOrder(bound: nat)
    ensures Rising([]) && AllBelow([], bound)
  {
  }

  lemma {:induction false} AlwaysInOrder(s: State, ops: seq<Op>)
    requires InOrder(s)
    ensures InOrder(Run(s, ops)) && s.tickets <= Run(s, ops).tickets
  {
    if ops != [] {
      AlwaysInOrder(s, Init(ops));
      StepKeepsOrder(Run(s, Init(ops)), Last(ops));
    }
  }

  /** What a step of the gate serves. */
  function ServedBy(s: State, op: Op, p: Provider): seq<nat> {
    if op == Release(p) && WokenBy(s, p).Some? then [WokenBy(s, p).value] else []
  }

  /** The tickets of `p` served during a run, in order. */
  function Served(s: State, ops: seq<Op>, p: Provider): seq<nat> {
    if ops == [] then [] else Served(s, Init(ops), p) + ServedBy(Run(s, Init(ops)), Last(ops), p)
  }

  lemma {:induction false} ServeNext(served: seq<nat>, w: seq<nat>)
    requires Rising(served) && Rising(w) && w != []
    requires forall a, b :: a in served && b in w ==> a < b
    ensures Rising(served + [w[0]])
    ensures forall a, b :: a in served + [w[0]] && b in w[1..] ==> a < b
  {
    assert w[0] in w;
    assert forall k :: 0 <= k < |served| ==> served[k] in served;
  }

  /** Those served came before those waiting, in order. */
  ghost predicate Precede(served: seq<nat>, s: State, p: Provider) {
    && Rising(served)
    && (forall a, b :: a in served && b in s.At(p).waiters ==> a < b)
    && (forall a :: a in served ==> a < s.tickets)
  }

  lemma {:induction false} StepServesInOrder(served: seq<nat>, s: State, op: Op, p: Provider)
    requires InOrder(s) && Precede(served, s, p)
    ensures Precede(served + ServedBy(s, op, p), Next(s, op), p)
  {
    hide Rising;
    assert InOrderAt(s, p);
    var w := s.At(p).waiters;
    assert served + [] == served;
    match op
    case Release(q) =>
      if q == p && WokenBy(s, p).Some? {
        assert w[0] in w;
        ServeNext(served, w);
      }
    case Cancel(q, ticket) => WithoutIs(w, ticket);
    case _ =>
  }

  /** First come, first served among the waiters: over every run the tickets served
      rise, and everyone still waiting came after everyone served. */
  lemma {:induction false} ServedInOrder(maxPerProvider: int, ops: seq<Op>, p: Provider)
    ensures
      var s := Start(maxPerProvider);
      && Rising(Served(s, ops, p))
      && forall a, b :: a in Served(s, ops, p) && b in Run(s, ops).At(p).waiters ==> a < b
    ensures Precede(Served(Start(maxPerProvider), ops, p), Run(Start(maxPerProvider), ops), p)
  {
    hide Rising, InOrder;
    var s := Start(maxPerProvider);
    NoneInOrder(0);
    if ops != [] {
      ServedInOrder(maxPerProvider, Init(ops), p);
      StartInOrder(maxPerProvider);
      AlwaysInOrder(s, Init(ops));
      StepServesInOrder(Served(s, Init(ops), p), Run(s, Init(ops)), Last(ops), p);
    }
  }

  lemma {:induction false} StartInOrder(maxPerProvider: int)
    ensures InOrder(Start(maxPerProvider))
  {
  }

  // How long a waiter waits --------------------------------------------------------------------------

  function Ahead(w: seq<nat>, ticket: nat): nat {
    if w == [] then 0 else Ahead(Init(w), ticket) + (if Last(w) < ticket then 1 else 0)
  }

  lemma {:induction false} AheadAfter(w: seq<nat>, ticket: nat, other: nat)
    ensures Ahead(Without(w, other), ticket) <= Ahead(w, ticket)
    ensures w != [] ==> Ahead(w, ticket) == Ahead(w[1..], ticket) + (if w[0] < ticket then 1 else 0)
  {
    AheadWithout(w, ticket, other);
    if w != [] {
      AheadRest(w, ticket);
    }
  }

  lemma {:induction false} AheadWithout(w: seq<nat>, ticket: nat, other: nat)
    ensures Ahead(Without(w, other), ticket) <= Ahead(w, ticket)
  {
    if w != [] {
      AheadWithout(Init(w), ticket, other);
      var rest := Without(Init(w), other);
      assert Init(rest + [Last(w)]) == rest;
    }
  }

  lemma {:induction false} AheadRest(w: seq<nat>, ticket: nat)
    requires w != []
    ensures Ahead(w, ticket) == Ahead(w[1..], ticket) + (if w[0] < ticket then 1 else 0)
  {
    if |w| == 1 {
      assert Init(w) == [] && w[1..] == [];
    } else {
      AheadRest(Init(w), ticket);
      assert Init(w)[1..] == Init(w[1..]) && Last(w[1..]) == Last(w);
    }
  }

  lemma {:induction false} NeverReturns(s: State, op: Op, p: Provider, ticket: nat)
    requires ticket < s.tickets && ticket in Next(s, op).At(p).waiters
    ensures ticket in s.At(p).waiters
  {
    if op.Cancel? {
      WithoutIs(s.At(p).waiters, op.ticket);
    }
  }

  lemma {:induction false} StepMovesUp(s: State, op: Op, p: Provider, ticket: nat)
    requires InOrder(s) && Sound(s) && ticket in s.At(p).waiters && ticket in Next(s, op).At(p).waiters
    ensures
      var after, released := Next(s, op).At(p).waiters, if op == Release(p) then 1 else 0;
      Ahead(after, ticket) + released <= Ahead(s.At(p).waiters, ticket)
  {
    var w := s.At(p).waiters;
    assert InOrderAt(s, p) && SoundAt(s, p);
    AheadAfter(w, ticket, if op.Cancel? then op.ticket else 0);
    assert Init(w + [s.tickets]) == w;
  }

  /** A waiter with `k` others before it is served, or gives up, within `k + 1`
      releases, whatever else happens: while it waits, each release moves it up. */
  lemma {:induction false} WaitIsBounded(s: State, ops: seq<Op>, p: Provider, ticket: nat)
    requires InOrder(s) && Sound(s) && ticket in s.At(p).waiters
    requires ticket in Run(s, ops).At(p).waiters
    ensures Ahead(Run(s, ops).At(p).waiters, ticket) + Releases(ops, p) <= Ahead(s.At(p).waiters, ticket)
    ensures Sound(Run(s, ops))
  {
    hide InOrder, Sound, Next, State.At;
    if ops != [] {
      var before, op := Run(s, Init(ops)), Last(ops);
      AlwaysInOrder(s, Init(ops));
      TicketIsOld(s, p, ticket);
      NeverReturns(before, op, p, ticket);
      WaitIsBounded(s, Init(ops), p, ticket);
      StepKeepsSound(before, op);
      StepMovesUp(before, op, p, ticket);
    }
  }

  lemma {:induction false} TicketIsOld(s: State, p: Provider, ticket: nat)
    requires InOrder(s) && ticket in s.At(p).waiters
    ensures ticket < s.tickets
  {
    assert InOrderAt(s, p);
  }

  lemma {:induction false} ServedWithin(s: State, ops: seq<Op>, p: Provider, ticket: nat)
    requires InOrder(s) && Sound(s) && ticket in s.At(p).waiters
    requires Releases(ops, p) > Ahead(s.At(p).waiters, ticket)
    ensures ticket !in Run(s, ops).At(p).waiters
  {
    if ticket in Run(s, ops).At(p).waiters {
      WaitIsBounded(s, ops, p, ticket);
    }
  }

  // Newcomers and the queue ---------------------------------------------------------------------------

  /** A newcomer overtakes the queue exactly when the cap is not suppressed at that
      moment and the requests in flight have not filled it again since it was. */
  lemma {:induction false} OvertakesIff(s: State, p: Provider, now: int)
    requires Sound(s) && s.At(p).waiters != []
    ensures AnswerFor(s, p, false, now).Granted? <==> !s.IsSuppressed(p, now) && s.At(p).active < s.maxPerProvider
  {
    assert SoundAt(s, p);
  }

  predicate NeverFedBack(ops: seq<Op>, p: Provider) {
    forall n :: 0 <= n < |ops| && ops[n].Feed? && ops[n].p == p ==> ops[n].code == OtherFeedback
  }

  /** Without back-pressure the gate is first come, first served for everyone: while
      somebody waits the cap is full, so nobody is let past the queue. */
  lemma {:induction false} NobodyOvertakesWithoutFeedback(maxPerProvider: int, ops: seq<Op>, p: Provider, now: int)
    requires NeverFedBack(ops, p)
    ensures
      var s := Run(Start(maxPerProvider), ops);
      && p !in s.suppressedUntil
      && s.maxPerProvider == Max(1, maxPerProvider)
      && (s.At(p).waiters != [] ==> s.At(p).active == s.maxPerProvider && !AnswerFor(s, p, false, now).Granted?)
  {
    if ops != [] {
      var s := Run(Start(maxPerProvider), Init(ops));
      NobodyOvertakesWithoutFeedback(maxPerProvider, Init(ops), p, if Last(ops).Acquire? then Last(ops).now else now);
      AlwaysSound(maxPerProvider, Init(ops), p);
      if Last(ops).Cancel? {
        WithoutNothing(s.At(p).waiters, Last(ops).ticket);
      }
    }
  }

  /** With back-pressure it is not: the third request here is let in at time 5000, when
      the suppression ends, while the second is still waiting for the first. */
  lemma {:induction false} NewcomerOvertakes(p: Provider)
    ensures
      var first, second := Acquire(p, false, 0), Acquire(p, false, 1);
      var s := Run(Start(2), [Feed(p, RateLimited, None, 0, 60000), first, second]);
      && s.At(p) == Slot(1, [0])
      && AnswerFor(s, p, false, 4999) == Queued(1)
      && AnswerFor(s, p, false, 5000) == Granted
  {
    var a, b, c := Feed(p, RateLimited, None, 0, 60000), Acquire(p, false, 0), Acquire(p, false, 1);
    assert Init([a, b, c]) == [a, b] && Init([a, b]) == [a] && Init([a]) == [];
    var s1 := Suppressed(Start(2), p, RateLimited, None, 0, 60000);
    assert Run(Start(2), [a]) == s1;
    var s2 := s1.(slots := map[p := Slot(1, [])]);
    assert Run(Start(2), [a, b]) == s2;
  }

  /** A halved cap takes effect only on newcomers: the requests in flight become
      fewer exactly at a release that finds nobody waiting. */
  lemma {:induction false} FewerInFlightIff(s: State, op: Op, p: Provider)
    ensures Next(s, op).At(p).active < s.At(p).active <==>
            op == Release(p) && s.At(p).active > 0 && s.At(p).waiters == []
    ensures Next(s, op).At(p).active >= s.At(p).active - 1
  {
  }

  /** Only a rate limit or an overload is back-pressure. It suppresses its own provider for
      the time the provider asks for, or five seconds, at least a millisecond and at most
      the given maximum; meanwhile the cap is half of the configured one, rounded up. */
  lemma {:induction false} SuppressedUntilIs(s: State, p: Provider, code: Feedback, retryAfterMs: Option<int>,
        now: int, maxMs: int, q: Provider, later: int)
    requires s.maxPerProvider >= 1
    ensures
      var t := Suppressed(s, p, code, retryAfterMs, now, maxMs);
      var asked := if retryAfterMs.Some? then Max(1, retryAfterMs.value) else 5000;
      && (t.IsSuppressed(q, later) <==>
            if code in {RateLimited, Overloaded} && q == p then later < now + asked && later < now + maxMs
            else s.IsSuppressed(q, later))
      && (t.IsSuppressed(q, later) ==> s.maxPerProvider <= 2 * t.Cap(q, later) <= s.maxPerProvider + 1)
      && (!t.IsSuppressed(q, later) ==> t.Cap(q, later) == s.maxPerProvider)
  {
  }

  /** A request that is aborted before it asks is turned away and leaves no trace. Any other is
      let through exactly while there is room under the cap, and queued otherwise. */
  lemma {:induction false} AnswerIs(s: State, p: Provider, aborted: bool, now: int)
    ensures
      var answer := AnswerFor(s, p, aborted, now);
      && (answer.Aborted? <==> aborted)
      && (answer.Granted? <==> !aborted && s.At(p).active < s.Cap(p, now))
      && (answer.Queued? ==> answer.ticket == s.tickets)
    ensures aborted ==> Acquired(s, p, aborted, now) == s
  {
  }

  /** Whoever waits goes on waiting until a release lets him through or he gives up himself, and
      only a request that finds no room comes to wait. */
  lemma {:induction false} WaitsIff(s: State, op: Op, p: Provider, ticket: nat)
    requires InOrder(s)
    ensures
      var joins := op.Acquire? && op.p == p && !op.aborted && s.At(p).active >= s.Cap(p, op.now) && ticket == s.tickets;
      var leaves := op == Cancel(p, ticket)
        || (op == Release(p) && s.At(p).active > 0 && s.At(p).waiters != [] && ticket == s.At(p).waiters[0]);
      ticket in Next(s, op).At(p).waiters <==> joins || (ticket in s.At(p).waiters && !leaves)
  {
    assert InOrderAt(s, p);
    var w := s.At(p).waiters;
    match op
    case Cancel(_, other) => WithoutIs(w, other);
    case Release(_) =>
      if w != [] {
        assert w == [w[0]] + w[1..];
      }
    case _ =>
  }

  /** A step changes nothing at any provider but its own. */
  lemma {:induction false} OthersAreLeftAlone(s: State, op: Op, p: Provider)
    requires op.p != p
    ensures Next(s, op).At(p) == s.At(p) && (p in Next(s, op).slots <==> p in s.slots)
    ensures p in Next(s, op).suppressedUntil <==> p in s.suppressedUntil
    ensures p in s.suppressedUntil ==> Next(s, op).suppressedUntil[p] == s.suppressedUntil[p]
  {
  }

  /** Until when the latest back-pressure of `p` suppresses it. */
  function LatestSuppression(ops: seq<Op>, p: Provider): Option<int> {
    if ops == [] then None
    else if Last(ops).Feed? && Last(ops).p == p && Last(ops).code != OtherFeedback then
      var asked := if Last(ops).retryAfterMs.Some? then Max(1, Last(ops).retryAfterMs.value) else 5000;
      Some(Last(ops).now + Min(asked, Last(ops).maxMs))
    else LatestSuppression(Init(ops), p)
  }

  /** Over every run a provider is suppressed exactly as long as its latest back-pressure says. */
  lemma {:induction false} SuppressedIff(maxPerProvider: int, ops: seq<Op>, p: Provider, now: int)
    ensures
      var until := LatestSuppression(ops, p);
      Run(Start(maxPerProvider), ops).IsSuppressed(p, now) <==> until.Some? && now < until.value
  {
    if ops != [] {
      SuppressedIff(maxPerProvider, Init(ops), p, now);
    }
  }

  /** Two in flight, one waiting, and then the provider pushes back: a release leaves two
      in flight although the cap is one. */
  lemma {:induction false} HalvedCapIsExceeded(p: Provider)
    ensures
      var a := Acquire(p, false, 0);
      var s := Run(Start(2), [a, a, a, Feed(p, RateLimited, None, 0, 60000), Release(p)]);
      s.At(p) == Slot(2, []) && s.Cap(p, 1) == 1
  {
    var a, f, r := Acquire(p, false, 0), Feed(p, RateLimited, None, 0, 60000), Release(p);
    assert Init([a, a, a, f, r]) == [a, a, a, f] && Init([a, a, a, f]) == [a, a, a];
    assert Init([a, a, a]) == [a, a] && Init([a, a]) == [a] && Init([a]) == [];
    var one, two := Start(2).(slots := map[p := Slot(1, [])]), Start(2).(slots := map[p := Slot(2, [])]);
    assert Acquired(Start(2), p, false, 0) == one && Run(Start(2), [a]) == one;
    assert one.slots[p := Slot(2, [])] == two.slots;
    assert Acquired(one, p, false, 0) == two && Run(Start(2), [a, a]) == two;
    var queued := two.(slots := map[p := Slot(2, [0])], tickets := 1);
    var nobody: seq<nat> := [];
    assert nobody + [0] == [0] && two.slots[p := Slot(2, [0])] == queued.slots;
    assert Acquired(two, p, false, 0) == queued && Run(Start(2), [a, a, a]) == queued;
    var fed := Suppressed(queued, p, RateLimited, None, 0, 60000);
    assert Run(Start(2), [a, a, a, f]) == fed;
    assert Released(fed, p).At(p) == Slot(2, []);
  }
}
