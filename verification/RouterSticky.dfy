/** The sticky slot of a session: what deciding, executing and invalidating do to
    it, and what its failure count means over any history. */
module RouterSticky {
  import opened Prelude
  import opened ModelStream
  import opened RouterTrace
  import opened RouterTheorems
  import opened RouterExecute
  import opened SessionStore

  /** One thing that happened to a slot. `Expire` covers both expiry and eviction;
      a turn is classified by what its execution reports to the store. */
  datatype Op =
    | Decide(provider: string, model: string, tier: Option<string>, orchestrating: bool)
    | Touch
    | PinnedSuccess
    | ProviderFailure
    | OtherTurn
    | Invalidate
    | Expire

  datatype Entry = Entry(op: Op, at: int)

  predicate PinnedTo(slot: Option<RoutingState>, provider: string, model: string) {
    slot.Some? && slot.value.provider == Some(provider) && slot.value.model == Some(model)
  }

  predicate HoldsOrchestration(slot: Option<RoutingState>) {
    slot.Some? && slot.value.orchestrating && slot.value.tier.Some? && slot.value.tier.value != ""
  }

  /** What the code writes. */
  function Apply(slot: Option<RoutingState>, e: Entry): Option<RoutingState> {
    match e.op
    case Decide(provider, model, tier, orchestrating) =>
      Some(RoutingState(
        tier, Some(provider), Some(model), orchestrating,
        if orchestrating
        then Some((if slot.Some? then slot.value.continuations.GetOr(0) else 0) + 1)
        else None,
        if PinnedTo(slot, provider, model) then slot.value.qualityFailures else None,
        e.at))
    case Touch => if slot.None? then None else Some(slot.value.(updatedAt := e.at))
    case PinnedSuccess =>
      if slot.None? || slot.value.qualityFailures.GetOr(0) == 0 then slot
      else Some(slot.value.(qualityFailures := Some(0)))
    case ProviderFailure =>
      if slot.None? then None
      else Some(slot.value.(qualityFailures := Some(slot.value.qualityFailures.GetOr(0) + 1)))
    case OtherTurn => slot
    case Invalidate =>
      if HoldsOrchestration(slot) then Some(slot.value.(updatedAt := e.at))
      else Some(RoutingState(None, None, None, slot.Some? && slot.value.orchestrating, None, None, e.at))
    case Expire => None
  }

  function Replay(h: seq<Entry>): Option<RoutingState> {
    if h == [] then None else Apply(Replay(Init(h)), Last(h))
  }

  // The meaning of the failure count, told from the history alone --------------------------

  /** The model the session is pinned to. */
  function PinnedModel(h: seq<Entry>): Option<(string, string)> {
    if h == [] then None
    else match Last(h).op
      case Decide(provider, model, _, _) => Some((provider, model))
      case Invalidate => if OrchestratingWithTier(Init(h)) then PinnedModel(Init(h)) else None
      case Expire => None
      case _ => PinnedModel(Init(h))
  }

  /** The latest decision orchestrates on a named tier and has not been dropped. */
  predicate OrchestratingWithTier(h: seq<Entry>) {
    h != [] && match Last(h).op
      case Decide(_, _, tier, orchestrating) => orchestrating && tier.Some? && tier.value != ""
      case Expire => false
      case _ => OrchestratingWithTier(Init(h))
  }

  /** The count starts afresh at a success on the pinned plan, at a decision for
      another model, at an invalidation that drops the pin and at expiry. */
  predicate StartsAfresh(before: seq<Entry>, op: Op) {
    match op
    case Decide(provider, model, _, _) => PinnedModel(before) != Some((provider, model))
    case PinnedSuccess => true
    case Invalidate => !OrchestratingWithTier(before)
    case Expire => true
    case _ => false
  }

  function LatestFresh(h: seq<Entry>): (n: nat)
    ensures n <= |h|
    ensures n > 0 ==> StartsAfresh(h[..n - 1], h[n - 1].op)
    ensures forall m :: n <= m < |h| ==> !StartsAfresh(h[..m], h[m].op)
  {
    if h == [] then 0
    else
      assert h[..|h| - 1] == Init(h);
      if StartsAfresh(Init(h), Last(h).op) then |h|
      else
        var n := LatestFresh(Init(h));
        assert forall m :: 0 <= m < |Init(h)| ==> Init(h)[..m] == h[..m] && Init(h)[m] == h[m];
        assert n > 0 ==> Init(h)[..n - 1] == h[..n - 1];
        n
  }

  function ProviderFailures(h: seq<Entry>): nat {
    if h == [] then 0 else ProviderFailures(Init(h)) + (if Last(h).op.ProviderFailure? then 1 else 0)
  }

  lemma {:induction false} SlotFollowsHistory(h: seq<Entry>)
    ensures Replay(h).None? ==> PinnedModel(h) == None
    ensures HoldsOrchestration(Replay(h)) == OrchestratingWithTier(h)
    ensures forall provider, model ::
      PinnedTo(Replay(h), provider, model) <==> PinnedModel(h) == Some((provider, model))
  {
    if h != [] {
      SlotFollowsHistory(Init(h));
    }
  }

  /** Over every history, the stored failure count of a live slot is the number of
      whole-plan provider failures since the count last started afresh. */
  lemma {:induction false} FailureCount(h: seq<Entry>)
    ensures Replay(h).Some? ==>
      Replay(h).value.qualityFailures.GetOr(0) == ProviderFailures(h[LatestFresh(h)..])
  {
    hide PinnedModel, OrchestratingWithTier;
    if h != [] {
      var before := Init(h);
      FailureCount(before);
      SlotFollowsHistory(before);
      if StartsAfresh(before, Last(h).op) {
        assert h[LatestFresh(h)..] == [];
      } else {
        var n := LatestFresh(before);
        assert Init(h[n..]) == before[n..];
        assert Last(h[n..]) == Last(h);
      }
    }
  }

  // The other fields of a slot, told from the history alone ---------------------------------------

  /** When the slot was last decided on, hit or invalidated; none if it is gone. */
  function LatestWrite(h: seq<Entry>): Option<int> {
    if h == [] then None
    else match Last(h).op
      case Decide(_, _, _, _) => Some(Last(h).at)
      case Invalidate => Some(Last(h).at)
      case Touch => if LatestWrite(Init(h)).Some? then Some(Last(h).at) else None
      case Expire => None
      case _ => LatestWrite(Init(h))
  }

  /** The latest decision was to orchestrate. */
  predicate LatestOrchestrates(h: seq<Entry>) {
    h != [] && match Last(h).op
      case Decide(_, _, _, orchestrating) => orchestrating
      case Expire => false
      case _ => LatestOrchestrates(Init(h))
  }

  /** Decisions to orchestrate in a row, which an invalidation interrupts unless the session
      orchestrates on a named tier. */
  function OrchestrationRun(h: seq<Entry>): nat {
    if h == [] then 0
    else match Last(h).op
      case Decide(_, _, _, orchestrating) => if orchestrating then OrchestrationRun(Init(h)) + 1 else 0
      case Invalidate => if OrchestratingWithTier(Init(h)) then OrchestrationRun(Init(h)) else 0
      case Expire => 0
      case _ => OrchestrationRun(Init(h))
  }

  /** The tier of the latest decision, which an invalidation drops in the same case. */
  function LatestTier(h: seq<Entry>): Option<string> {
    if h == [] then None
    else match Last(h).op
      case Decide(_, _, tier, _) => tier
      case Invalidate => if OrchestratingWithTier(Init(h)) then LatestTier(Init(h)) else None
      case Expire => None
      case _ => LatestTier(Init(h))
  }

  /** Over every history a slot is there, and holds what the history says. */
  lemma {:induction false} SlotIsTold(h: seq<Entry>)
    ensures Replay(h).Some? <==> LatestWrite(h).Some?
    ensures Replay(h).None? ==> !LatestOrchestrates(h) && OrchestrationRun(h) == 0 && LatestTier(h) == None
    ensures Replay(h).Some? ==>
      var slot := Replay(h).value;
      && slot.updatedAt == LatestWrite(h).value
      && slot.orchestrating == LatestOrchestrates(h)
      && slot.continuations.GetOr(0) == OrchestrationRun(h)
      && slot.tier == LatestTier(h)
  {
    if h != [] {
      SlotIsTold(Init(h));
      SlotFollowsHistory(Init(h));
    }
  }

  /** A pin is honoured while it is enabled, named, fresh and under the limit. */
  predicate StickyUsable(enabled: bool, ttlMs: int, maxQualityFailures: int, slot: Option<RoutingState>, now: int) {
    && slot.Some?
    && enabled
    && slot.value.provider.Some? && slot.value.provider.value != ""
    && slot.value.model.Some? && slot.value.model.value != ""
    && !(now - slot.value.updatedAt > ttlMs)
    && !(slot.value.qualityFailures.GetOr(0) >= maxQualityFailures)
  }

  /** A pin is honoured exactly when pins are enabled, the history pins the session to a named
      model, the slot was written within the lifetime of a pin, and the provider failures
      since the count last started afresh have not reached the limit. */
  lemma {:induction false} PinReleased(h: seq<Entry>, enabled: bool, ttlMs: int, limit: int, now: int)
    ensures StickyUsable(enabled, ttlMs, limit, Replay(h), now) <==>
            && enabled
            && PinnedModel(h).Some? && PinnedModel(h).value.0 != "" && PinnedModel(h).value.1 != ""
            && LatestWrite(h).Some? && now - LatestWrite(h).value <= ttlMs
            && ProviderFailures(h[LatestFresh(h)..]) < limit
  {
    FailureCount(h);
    SlotFollowsHistory(h);
    SlotIsTold(h);
    PinnedToWhatIsStored(h);
  }

  lemma {:induction false} PinnedToWhatIsStored(h: seq<Entry>)
    ensures Replay(h).Some? && Replay(h).value.provider.Some? && Replay(h).value.model.Some? <==> PinnedModel(h).Some?
    ensures PinnedModel(h).Some? ==>
      Replay(h).Some? && PinnedTo(Replay(h), PinnedModel(h).value.0, PinnedModel(h).value.1)
  {
    SlotFollowsHistory(h);
    if Replay(h).Some? && Replay(h).value.provider.Some? && Replay(h).value.model.Some? {
      assert PinnedTo(Replay(h), Replay(h).value.provider.value, Replay(h).value.model.value);
    }
    if PinnedModel(h).Some? {
      assert PinnedModel(h) == Some((PinnedModel(h).value.0, PinnedModel(h).value.1));
      assert PinnedTo(Replay(h), PinnedModel(h).value.0, PinnedModel(h).value.1);
    }
  }

  // Executions as history entries -------------------------------------------------------------

  function TurnOp(exit: Exit): Op {
    if exit.Succeeded? && exit.plan == 0 then PinnedSuccess
    else if exit.Failure? && IsProviderFault(exit.error.code) then ProviderFailure
    else OtherTurn
  }

  /** A turn rescued by a later plan, stopped, or failed for an account-level or
      request-shaped reason leaves the slot as it was; a failed turn counts however
      many plans it went through, and counts once. */
  lemma {:induction false} TurnsThatDoNotCount(cfg: Config, plans: seq<Plan>, env: Env, steps: seq<Step>, exit: Exit,
        slot: Option<RoutingState>, at: int)
    requires Complete(cfg, plans, env, steps, exit)
    ensures Apply(slot, Entry(TurnOp(exit), at)) != slot ==>
      || (exit.Succeeded? && forall n :: 0 <= n < |steps| ==> steps[n].plan == 0)
      || (LeftByBreak(steps) && LastError(steps).Some? && IsProviderFault(LastError(steps).value.code))
    ensures slot.Some? && exit.Failure? && IsProviderFault(exit.error.code) ==>
      Apply(slot, Entry(TurnOp(exit), at))
      == Some(slot.value.(qualityFailures := Some(slot.value.qualityFailures.GetOr(0) + 1)))
  {
    if exit.Succeeded? && exit.plan == 0 {
      AllOnFirstPlan(cfg, plans, env, steps);
    }
  }

  lemma {:induction false} AllOnFirstPlan(cfg: Config, plans: seq<Plan>, env: Env, steps: seq<Step>)
    requires Valid(cfg, plans, env, steps)
    requires steps != [] && Last(steps).plan == 0
    ensures forall n :: 0 <= n < |steps| ==> steps[n].plan == 0
  {
    var before := Init(steps);
    ValidLast(cfg, plans, env, steps);
    if before != [] {
      PlanOrder(cfg, plans, env, steps, |steps| - 1);
      AllOnFirstPlan(cfg, plans, env, before);
    }
  }

  lemma {:induction false} EffectsTellTheStore(plans: seq<Plan>, steps: seq<Step>, exit: Exit)
    ensures
      var effects := EffectsBy(plans, steps) + ExitEffects(exit);
      && (ResetFailures in effects <==> TurnOp(exit).PinnedSuccess?)
      && (RecordFailure in effects <==> TurnOp(exit).ProviderFailure?)
  {
    StepsStayAway(plans, steps);
  }

  lemma {:induction false} StepsStayAway(plans: seq<Plan>, steps: seq<Step>)
    ensures ResetFailures !in EffectsBy(plans, steps) && RecordFailure !in EffectsBy(plans, steps)
  {
    if steps != [] {
      StepsStayAway(plans, Init(steps));
    }
  }

  function SlotOf(slots: map<Key, Slot>, key: Key): Option<RoutingState> {
    if key in slots then Some(slots[key].state) else None
  }

  /** The slot under `key`, seen as `seen`, is moved on by `e`; others stay or are dropped. */
  ghost predicate SlotMoves(before: map<Key, Slot>, after: map<Key, Slot>, key: Key,
        seen: Option<RoutingState>, e: Entry)
  {
    && SlotOf(after, key) == Apply(seen, e)
    && (forall k :: k != key && k in after ==> k in before && after[k] == before[k])
  }

  /** How a slot's history goes on when `e` finds it as `seen`: a slot that is not seen
      any more has expired. */
  function Extended(h: seq<Entry>, slot: Option<RoutingState>, seen: Option<RoutingState>, e: Entry): seq<Entry> {
    if slot.Some? && seen.None? then h + [Entry(Expire, e.at), e] else h + [e]
  }

  lemma {:induction false} ReplayExtended(h: seq<Entry>, seen: Option<RoutingState>, e: Entry)
    requires seen == Replay(h) || seen == None
    ensures Replay(Extended(h, Replay(h), seen, e)) == Apply(seen, e)
    ensures Replay(h + [Entry(Expire, e.at)]) == None
  {
    var expired := h + [Entry(Expire, e.at)];
    assert Init(expired) == h;
    assert Init(h + [e]) == h;
    assert h + [Entry(Expire, e.at), e] == expired + [e];
    assert Init(expired + [e]) == expired;
  }

  type Histories = map<Key, seq<Entry>>

  function HistoryIn(hs: Histories, key: Key): seq<Entry> {
    if key in hs then hs[key] else []
  }

  /** Every slot is what its history makes of it. */
  ghost predicate Told(hs: Histories, slots: map<Key, Slot>) {
    forall k :: ToldAt(hs, slots, k)
  }

  ghost predicate ToldAt(hs: Histories, slots: map<Key, Slot>, k: Key) {
    Replay(HistoryIn(hs, k)) == SlotOf(slots, k)
  }

  /** The history of the slot under `k` after a move of the slot under `key`. */
  function NotedAt(hs: Histories, before: map<Key, Slot>, after: map<Key, Slot>, key: Key,
        seen: Option<RoutingState>, e: Entry, k: Key): seq<Entry>
  {
    var h := HistoryIn(hs, k);
    if k == key then Extended(h, SlotOf(before, key), seen, e)
    else if k in before && k !in after then h + [Entry(Expire, e.at)]
    else h
  }

  function Noted(hs: Histories, before: map<Key, Slot>, after: map<Key, Slot>, key: Key,
        seen: Option<RoutingState>, e: Entry): Histories
  {
    map k | k in hs.Keys + before.Keys + {key} :: NotedAt(hs, before, after, key, seen, e, k)
  }

  lemma {:induction false} NotedIsTold(hs: Histories, before: map<Key, Slot>, after: map<Key, Slot>, key: Key,
        seen: Option<RoutingState>, e: Entry)
    requires Told(hs, before) && SlotMoves(before, after, key, seen, e)
    requires seen == SlotOf(before, key) || seen == None
    ensures Told(Noted(hs, before, after, key, seen, e), after)
    ensures HistoryIn(Noted(hs, before, after, key, seen, e), key)
         == Extended(HistoryIn(hs, key), SlotOf(before, key), seen, e)
  {
    hide Replay, Apply, Extended;
    forall k ensures ToldAt(Noted(hs, before, after, key, seen, e), after, k) {
      assert ToldAt(hs, before, k);
      assert HistoryIn(Noted(hs, before, after, key, seen, e), k) == NotedAt(hs, before, after, key, seen, e, k);
      ReplayExtended(HistoryIn(hs, k), if k == key then seen else None, e);
    }
  }

  class StickyRouter {
    const store: SessionRouterStore
    ghost var histories: Histories

    ghost predicate Valid()
      reads this, store
    {
      store.Valid() && Told(histories, store.slots)
    }

    constructor (capacity: int, ttlMs: int)
      ensures Valid() && fresh(store)
      ensures histories == map[] && store.slots == map[]
    {
      store := new SessionRouterStore(capacity, ttlMs);
      histories := map[];
      new;
      assert Told(map[], map[]) by {
        NothingTold();
      }
    }

    /** After any sequence of calls, the failure count of a live slot is the number of
        provider failures in its history since the count last started afresh. */
    lemma {:induction false} StoredCountIsTold(key: Key)
      requires Valid() && key in store.slots
      ensures
        var h := HistoryIn(histories, key);
        store.slots[key].state.qualityFailures.GetOr(0) == ProviderFailures(h[LatestFresh(h)..])
    {
      assert ToldAt(histories, store.slots, key);
      FailureCount(HistoryIn(histories, key));
    }

    /** The sticky write of `decide`, for the selection it has arrived at. */
    method RecordDecision(sessionId: string, isMainAgent: bool, provider: string, model: string,
                          tier: Option<string>, orchestrating: bool, now: int)
      requires Valid()
      modifies this, store
      ensures Valid()
      ensures
        var key, e := MakeKey(sessionId, !isMainAgent), Entry(Decide(provider, model, tier, orchestrating), now);
        var seen := Visible(old(store.slots), key, now);
        && SlotMoves(old(store.slots), store.slots, key, seen, e)
        && histories == Noted(old(histories), old(store.slots), store.slots, key, seen, e)
    {
      hide Distinct, KeySet, Without, MakeKey;
      var key := MakeKey(sessionId, !isMainAgent);
      ghost var hs, slots := histories, store.slots;
      var sticky := store.Get(key, now);
      var stickyStaysOnSameModel :=
        sticky.Some? && sticky.value.provider == Some(provider) && sticky.value.model == Some(model);
      var state := RoutingState(
        tier, Some(provider), Some(model), orchestrating,
        if orchestrating
        then Some((if sticky.Some? then sticky.value.continuations.GetOr(0) else 0) + 1)
        else None,
        if stickyStaysOnSameModel then sticky.value.qualityFailures else None,
        now);
      ghost var e := Entry(Decide(provider, model, tier, orchestrating), now);
      assert Some(state) == Apply(sticky, e);
      store.Set(key, state, now);
      NotedIsTold(hs, slots, store.slots, key, sticky, e);
      histories := Noted(hs, slots, store.slots, key, sticky, e);
    }

    /** A sticky hit. */
    method KeepAlive(sessionId: string, isSubagent: bool, now: int)
      requires Valid()
      modifies this, store
      ensures Valid()
      ensures
        var key, e := MakeKey(sessionId, isSubagent), Entry(Touch, now);
        var seen := SlotOf(old(store.slots), key);
        && SlotMoves(old(store.slots), store.slots, key, seen, e)
        && histories == Noted(old(histories), old(store.slots), store.slots, key, seen, e)
    {
      var key := MakeKey(sessionId, isSubagent);
      ghost var hs, slots := histories, store.slots;
      store.Touch(key, now);
      NotedIsTold(hs, slots, store.slots, key, SlotOf(slots, key), Entry(Touch, now));
      histories := Noted(hs, slots, store.slots, key, SlotOf(slots, key), Entry(Touch, now));
    }

    /** A routed turn, and what it tells the store. */
    method ExecuteTurn(sessionId: string, storageIsSubagent: bool, cfg: Config, requested: Plan,
                       plans: seq<Plan>, env: Env, now: int)
      returns (out: seq<Event>, steps: seq<Step>, exit: Exit)
      requires Valid()
      modifies this, store
      ensures Valid()
      ensures Complete(cfg, plans, env, steps, exit)
      ensures out == ShownBy(steps) + Tail(requested, plans, steps, exit)
      ensures
        var key, e := MakeKey(sessionId, storageIsSubagent), Entry(TurnOp(exit), now);
        var seen := SlotOf(old(store.slots), key);
        && SlotMoves(old(store.slots), store.slots, key, seen, e)
        && histories == Noted(old(histories), old(store.slots), store.slots, key, seen, e)
    {
      var key := MakeKey(sessionId, storageIsSubagent);
      ghost var hs, slots := histories, store.slots;
      var effects;
      out, steps, exit, effects := Execute(cfg, requested, plans, env);
      EffectsTellTheStore(plans, steps, exit);
      Report(key, effects, TurnOp(exit), now);
      NotedIsTold(hs, slots, store.slots, key, SlotOf(slots, key), Entry(TurnOp(exit), now));
      histories := Noted(hs, slots, store.slots, key, SlotOf(slots, key), Entry(TurnOp(exit), now));
    }

    /** Carries the store effects of a turn out. */
    method Report(key: Key, effects: seq<Effect>, ghost op: Op, now: int)
      requires store.Valid()
      requires op in {PinnedSuccess, ProviderFailure, OtherTurn}
      requires ResetFailures in effects <==> op.PinnedSuccess?
      requires RecordFailure in effects <==> op.ProviderFailure?
      modifies store
      ensures store.Valid()
      ensures SlotMoves(old(store.slots), store.slots, key, SlotOf(old(store.slots), key), Entry(op, now))
    {
      if ResetFailures in effects {
        store.ResetQualityFailures(key);
      }
      if RecordFailure in effects {
        var _ := store.RecordQualityFailure(key);
      }
    }

    /** Start of a new user turn: drops the pin of the main slot unless the session
        is orchestrating on a tier. Returns what was pinned. */
    method InvalidateSticky(sessionId: string, now: int)
      returns (previous: Option<RoutingState>)
      requires Valid()
      modifies this, store
      ensures Valid()
      ensures
        var key, e := MakeKey(sessionId, false), Entry(Invalidate, now);
        && previous == Visible(old(store.slots), key, now)
        && SlotMoves(old(store.slots), store.slots, key, previous, e)
        && histories == Noted(old(histories), old(store.slots), store.slots, key, previous, e)
    {
      hide Distinct, KeySet, Without, MakeKey;
      var key := MakeKey(sessionId, false);
      ghost var hs, slots := histories, store.slots;
      previous := store.Get(key, now);
      var orchestrating := previous.Some? && previous.value.orchestrating;
      if orchestrating && previous.value.tier.Some? && previous.value.tier.value != "" {
        store.Set(key, RoutingState(
          previous.value.tier, previous.value.provider, previous.value.model, orchestrating,
          previous.value.continuations, previous.value.qualityFailures, now), now);
      } else {
        store.Set(key, RoutingState(None, None, None, orchestrating, None, None, now), now);
      }
      NotedIsTold(hs, slots, store.slots, key, previous, Entry(Invalidate, now));
      histories := Noted(hs, slots, store.slots, key, previous, Entry(Invalidate, now));
    }
  }

  lemma {:induction false} NothingTold()
    ensures Told(map[], map[])
  {
    assert Replay([]) == None;
  }
}
