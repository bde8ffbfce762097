/** What the gateway's session cache keeps over any interleaving of calls. */
module SessionRouterTheorems {
  import opened Prelude
  import opened SessionRouter

  /** `GetOrCreate` is a call during whose wait nothing happens; otherwise its halves are
      `Begin` and `Resume`, or `Fail` when the factory or the recreator throws. `Sweep`
      is the timer, or a count of the live sessions. */
  datatype Op =
    | GetOrCreate(context: Context, built: nat, now: int)
    | Begin(context: Context, now: int)
    | Resume(call: nat, built: nat, now: int)
    | Fail(call: nat)
    | BeginTurn(key: Key, runId: string, now: int)
    | EndTurn(key: Key, ended: Option<string>, now: int)
    | Abort(key: Key, now: int)
    | Close(key: Key)
    | Mark(project: Option<string>, reason: string)
    | Sweep(now: int)
    | ShutDownAll

  ghost function NextState(s: State, op: Op): State {
    match op
    case BeginTurn(key, runId, now) =>
      var t := Swept(s, now);
      if key in s.turns then t else t.(turns := t.turns[key := runId])
    case EndTurn(key, runId, now) => TurnEnded(s, key, runId, now)
    case Abort(key, now) => Touched(s, key, now)
    case Close(key) =>
      if key in s.sessions
      then s.(sessions := s.sessions - {key}, happened := s.happened + multiset{Evicted(key, Closed)})
      else s
    case Mark(project, reason) => Marked(s, project, reason)
    case Sweep(now) => Swept(s, now)
    case ShutDownAll => ShutDownState(s)
    case _ => s
  }

  ghost function Next(w: World, op: Op): World {
    match op
    case GetOrCreate(context, built, now) =>
      var b := Begun(w, context, now);
      if b.calls > w.calls then Resumed(b, w.calls, built, now) else b
    case Begin(context, now) => Begun(w, context, now)
    case Resume(call, built, now) => Resumed(w, call, built, now)
    case Fail(call) => Failed(w, call)
    case _ => w.(s := NextState(w.s, op))
  }

  function Start(options: Options): World {
    World(State(options, map[], map[], false, multiset{}), map[], 0, map[], 0)
  }

  ghost function Run(options: Options, ops: seq<Op>): World {
    if ops == [] then Start(options) else Next(Run(options, Init(ops)), Last(ops))
  }

  // Sessions installed and sessions removed ------------------------------------------------

  ghost function Removals(s: State, key: Key): nat {
    s.happened[Evicted(key, Idle)] + s.happened[Evicted(key, Closed)] + s.happened[Evicted(key, ShutDown)]
  }

  function Live(s: State, key: Key): nat {
    if key in s.sessions then 1 else 0
  }

  /** Every session installed under `key` has been removed, with one callback each,
      except the one that is live. */
  ghost predicate Balanced(s: State, key: Key) {
    s.happened[Installed(key)] == Removals(s, key) + Live(s, key)
  }

  /** Sessions that were installed and neither removed nor are live. */
  ghost function Excess(s: State, key: Key): int {
    s.happened[Installed(key)] - Removals(s, key) - Live(s, key)
  }

  /** `op` resumes a create on a key that has got a live session in the meantime. */
  predicate Overwrites(w: World, op: Op, key: Key) {
    && op.Resume? && op.call in w.pending && w.pending[op.call].Creating?
    && w.pending[op.call].context.sessionKey == key && key in w.s.sessions
  }

  lemma {:induction false} EvictAllCounts(keys: set<Key>, reason: Reason, key: Key)
    ensures EvictAll(keys, reason)[Installed(key)] == 0
    ensures forall r: Reason :: EvictAll(keys, reason)[Evicted(key, r)] == if key in keys && r == reason then 1 else 0
  {
  }

  lemma {:induction false} SweepKeepsExcess(s: State, now: int, key: Key)
    ensures Excess(Swept(s, now), key) == Excess(s, key)
    ensures Swept(s, now).happened[Installed(key)] == s.happened[Installed(key)]
    ensures Removals(s, key) <= Removals(Swept(s, now), key)
  {
    EvictAllCounts(IdleAmong(s, s.sessions.Keys, now), Idle, key);
  }

  lemma {:induction false} BeginKeepsExcess(w: World, context: Context, now: int, key: Key)
    ensures Excess(Begun(w, context, now).s, key) == Excess(w.s, key)
    ensures Begun(w, context, now).s.happened[Installed(key)] == w.s.happened[Installed(key)]
    ensures Removals(w.s, key) <= Removals(Begun(w, context, now).s, key)
  {
    hide Swept;
    SweepKeepsExcess(w.s, now, key);
  }

  lemma {:induction false} ResumeAddsExcess(w: World, op: Op, key: Key)
    requires op.Resume?
    ensures Excess(Next(w, op).s, key) == Excess(w.s, key) + (if Overwrites(w, op, key) then 1 else 0)
    ensures Removals(w.s, key) == Removals(Next(w, op).s, key)
    ensures w.s.happened[Installed(key)] <= Next(w, op).s.happened[Installed(key)]
  {
  }

  lemma {:induction false} OthersKeepExcess(s: State, op: Op, key: Key)
    ensures Excess(NextState(s, op), key) == Excess(s, key)
    ensures Removals(s, key) <= Removals(NextState(s, op), key)
    ensures NextState(s, op).happened[Installed(key)] == s.happened[Installed(key)]
  {
    hide Swept, EvictAll, MarkedAmong;
    match op
    case BeginTurn(_, _, now) => SweepKeepsExcess(s, now, key);
    case Sweep(now) => SweepKeepsExcess(s, now, key);
    case ShutDownAll => EvictAllCounts(s.sessions.Keys, ShutDown, key);
    case Mark(project, reason) => MarkKeepsKeys(s, project, reason);
    case _ =>
  }

  lemma {:induction false} MarkKeepsKeys(s: State, project: Option<string>, reason: string)
    ensures var t := Marked(s, project, reason); t.sessions.Keys == s.sessions.Keys && t.happened == s.happened
  {
  }

  lemma {:induction false} StepExcess(w: World, op: Op, key: Key)
    ensures Excess(Next(w, op).s, key) == Excess(w.s, key) + (if Overwrites(w, op, key) then 1 else 0)
    ensures Removals(w.s, key) <= Removals(Next(w, op).s, key)
    ensures w.s.happened[Installed(key)] <= Next(w, op).s.happened[Installed(key)]
  {
    hide Excess, Removals, NextState, Begun, Resumed;
    match op
    case GetOrCreate(context, built, now) =>
      BeginKeepsExcess(w, context, now, key);
      ResumeAddsExcess(Begun(w, context, now), Resume(w.calls, built, now), key);
      CreatesOnlyWhatIsMissing(w, context, now);
    case Begin(context, now) => BeginKeepsExcess(w, context, now, key);
    case Resume(_, _, _) => ResumeAddsExcess(w, op, key);
    case Fail(_) =>
    case _ => OthersKeepExcess(w.s, op, key);
  }

  lemma {:induction false} CreatesOnlyWhatIsMissing(w: World, context: Context, now: int)
    ensures
      var b := Begun(w, context, now);
      b.calls > w.calls ==>
        && w.calls in b.pending
        && (b.pending[w.calls].Creating? ==>
              b.pending[w.calls].context.sessionKey == context.sessionKey && context.sessionKey !in b.s.sessions)
  {
    hide Swept;
  }

  ghost function OverwritesIn(options: Options, ops: seq<Op>, key: Key): nat {
    if ops == [] then 0
    else
      var last := if Overwrites(Run(options, Init(ops)), Last(ops), key) then 1 else 0;
      OverwritesIn(options, Init(ops), key) + last
  }

  ghost predicate NeverOverwrites(options: Options, ops: seq<Op>, key: Key) {
    forall n :: 0 <= n < |ops| ==> !Overwrites(Run(options, ops[..n]), ops[n], key)
  }

  /** Over every interleaving, sessions installed = idle, closed and shutdown evictions +
      live sessions + sessions overwritten by a create that was resumed late. */
  lemma {:induction false} InstalledIsAccountedFor(options: Options, ops: seq<Op>, key: Key)
    ensures
      var s := Run(options, ops).s;
      s.happened[Installed(key)] == Removals(s, key) + Live(s, key) + OverwritesIn(options, ops, key)
    ensures OverwritesIn(options, ops, key) == 0 <==> NeverOverwrites(options, ops, key)
  {
    hide Overwrites, Removals, Next;
    if ops == [] {
      NothingYet(options, key);
    } else {
      var before := Init(ops);
      assert forall n :: 0 <= n < |before| ==> before[..n] == ops[..n] && before[n] == ops[n];
      assert ops[..|ops| - 1] == before;
      InstalledIsAccountedFor(options, before, key);
      StepExcess(Run(options, before), Last(ops), key);
    }
  }

  lemma {:induction false} NothingYet(options: Options, key: Key)
    ensures Excess(Start(options).s, key) == 0
  {
  }

  /** The balance without overwritten sessions holds exactly in the runs in which no
      create is resumed on a live key, among them all runs without split calls. */
  lemma {:induction false} InstalledEqualsRemovedPlusLive(options: Options, ops: seq<Op>, key: Key)
    ensures Balanced(Run(options, ops).s, key) <==> NeverOverwrites(options, ops, key)
    ensures (forall n :: 0 <= n < |ops| ==> !ops[n].Resume?) ==> Balanced(Run(options, ops).s, key)
  {
    InstalledIsAccountedFor(options, ops, key);
  }

  /** `op` installs a session under `key`. */
  ghost predicate Installs(w: World, op: Op, key: Key) {
    Next(w, op).s.happened[Installed(key)] > w.s.happened[Installed(key)]
  }

  /** The key has a live session, and has had one ever since something installed it
      during `ops`. */
  ghost predicate InstalledAndKept(options: Options, before: seq<Op>, ops: seq<Op>, key: Key) {
    && ops != []
    && key in Run(options, before + ops).s.sessions
    && (Installs(Run(options, before + Init(ops)), Last(ops), key)
        || InstalledAndKept(options, before, Init(ops), key))
  }

  lemma {:induction false} LiveIffInstalledAndKept(options: Options, before: seq<Op>, ops: seq<Op>, key: Key)
    requires key !in Run(options, before).s.sessions
    ensures key in Run(options, before + ops).s.sessions <==> InstalledAndKept(options, before, ops, key)
  {
    hide Next;
    if ops == [] {
      assert before + ops == before;
    } else {
      assert Init(before + ops) == before + Init(ops);
      LiveIffInstalledAndKept(options, before, Init(ops), key);
      StepExcess(Run(options, before + Init(ops)), Last(ops), key);
    }
  }

  /** A create that waits is still the same create when it goes on. */
  lemma {:induction false} WaitsUnchanged(options: Options, before: seq<Op>, ops: seq<Op>, call: nat)
    requires call < Run(options, before).calls
    ensures call < Run(options, before + ops).calls
    ensures call in Run(options, before + ops).pending ==>
      call in Run(options, before).pending
      && Run(options, before + ops).pending[call] == Run(options, before).pending[call]
  {
    hide Next;
    if ops == [] {
      assert before + ops == before;
    } else {
      assert Init(before + ops) == before + Init(ops);
      WaitsUnchanged(options, before, Init(ops), call);
      StepKeepsWaiting(Run(options, before + Init(ops)), Last(ops), call);
    }
  }

  lemma {:induction false} StepKeepsWaiting(w: World, op: Op, call: nat)
    requires call < w.calls
    ensures call < Next(w, op).calls
    ensures call in Next(w, op).pending ==> call in w.pending && Next(w, op).pending[call] == w.pending[call]
  {
    hide Swept;
  }

  /** When a create goes on, it overwrites a session exactly when another installation
      took place since it began and has not been undone: overlapping creates are the
      only way out of the balance. */
  lemma {:induction false} LateInstallation(options: Options, before: seq<Op>, context: Context, now: int,
        between: seq<Op>, built: nat, later: int)
    requires context.sessionKey !in Swept(Run(options, before).s, now).sessions
    requires Run(options, before).calls in Run(options, before + [Begin(context, now)] + between).pending
    ensures
      var begun, call := before + [Begin(context, now)], Run(options, before).calls;
      Overwrites(Run(options, begun + between), Resume(call, built, later), context.sessionKey) <==>
      InstalledAndKept(options, begun, between, context.sessionKey)
  {
    hide Swept, InstalledAndKept;
    var begun, call := before + [Begin(context, now)], Run(options, before).calls;
    assert Init(begun) == before;
    WaitsUnchanged(options, begun, between, call);
    LiveIffInstalledAndKept(options, begun, between, context.sessionKey);
  }

  /** Nothing is idle at the time of its last use. */
  lemma {:induction false} NothingIdle(s: State, now: int)
    requires s.options.idleTimeoutMs >= 0
    requires forall k :: k in s.sessions ==> s.sessions[k].lastUsedAt == now
    ensures Swept(s, now) == s
  {
    assert IdleAmong(s, s.sessions.Keys, now) == {};
    assert s.sessions - {} == s.sessions;
  }

  /** Two creates overlap: both callers get a session, two have been installed, one is
      live and none was removed. */
  lemma {:induction false} TwoCreatesOverlap(options: Options, context: Context)
    requires options.idleTimeoutMs >= 0
    ensures
      var ops := [Begin(context, 0), Begin(context, 0), Resume(0, 10, 0), Resume(1, 11, 0)];
      var s, key := Run(options, ops).s, context.sessionKey;
      && s.happened[Installed(key)] == 2 && Removals(s, key) == 0 && Live(s, key) == 1
      && s.sessions[key].session == 11 && !Balanced(s, key)
  {
    var a, b, c, d := Begin(context, 0), Begin(context, 0), Resume(0, 10, 0), Resume(1, 11, 0);
    assert Init([a, b, c, d]) == [a, b, c] && Init([a, b, c]) == [a, b] && Init([a, b]) == [a] && Init([a]) == [];
    var w := Start(options);
    NothingIdle(w.s, 0);
    var w1 := w.(pending := map[0 := Creating(context)], calls := 1);
    assert Run(options, [a]) == w1;
    var w2 := w.(pending := map[0 := Creating(context), 1 := Creating(context)], calls := 2);
    assert Run(options, [a, b]) == w2;
    var w3 := Resumed(w2, 0, 10, 0);
    assert Run(options, [a, b, c]) == w3;
    assert Run(options, [a, b, c, d]) == Resumed(w3, 1, 11, 0);
  }

  // Idle sweeps -------------------------------------------------------------------------------

  /** A sweep removes exactly the sessions that are idle for too long and whose turn
      is not in flight; the others stay as they were. */
  lemma {:induction false} SweepRemovesExactlyTheIdle(s: State, now: int)
    requires !s.isShutdown
    ensures forall k :: k in s.sessions ==>
      (k !in Swept(s, now).sessions <==>
       k !in s.turns && now - s.sessions[k].lastUsedAt > s.options.idleTimeoutMs)
    ensures forall k :: k in Swept(s, now).sessions ==> k in s.sessions && Swept(s, now).sessions[k] == s.sessions[k]
    ensures Swept(s, now).turns == s.turns && Swept(s, now).isShutdown == s.isShutdown
    ensures forall k ::
      var removed := k in s.sessions && k !in Swept(s, now).sessions;
      Swept(s, now).happened[Evicted(k, Idle)] == s.happened[Evicted(k, Idle)] + (if removed then 1 else 0)
  {
    forall k
      ensures
        var removed := k in s.sessions && k !in Swept(s, now).sessions;
        Swept(s, now).happened[Evicted(k, Idle)] == s.happened[Evicted(k, Idle)] + (if removed then 1 else 0)
    {
      EvictAllCounts(IdleAmong(s, s.sessions.Keys, now), Idle, k);
    }
  }

  // The reasons given to the eviction callbacks ---------------------------------------------------

  /** A sweep at `now` comes upon the session under `key` while it is idle. */
  predicate Overslept(s: State, key: Key, now: int) {
    && !s.isShutdown && key in s.sessions && key !in s.turns
    && now - s.sessions[key].lastUsedAt > s.options.idleTimeoutMs
  }

  /** Asked for, the session under `key` is found dirty and there is a recreator. */
  predicate FoundDirty(s: State, key: Key, now: int) {
    && key in s.sessions && !Overslept(s, key, now)
    && s.sessions[key].dirtyReason.GetOr("") != "" && s.options.canRecreate
  }

  /** `op` gives up the session, or the session object, under `key` for this reason. */
  predicate GivesUp(s: State, op: Op, key: Key, reason: Reason) {
    match reason
    case Idle =>
      && (op.GetOrCreate? || op.Begin? || op.BeginTurn? || op.Sweep?)
      && Overslept(s, key, op.now)
    case Closed => op == Close(key) && key in s.sessions
    case DirtyRecreate =>
      && (op.GetOrCreate? || op.Begin?) && op.context.sessionKey == key
      && FoundDirty(s, key, op.now)
    case ShutDown => op.ShutDownAll? && !s.isShutdown && key in s.sessions
  }

  ghost predicate Reports(before: State, after: State, key: Key, reason: Reason, happens: bool) {
    after.happened[Evicted(key, reason)] == before.happened[Evicted(key, reason)] + (if happens then 1 else 0)
  }

  lemma {:induction false} SweepReports(s: State, now: int, key: Key, reason: Reason)
    ensures Reports(s, Swept(s, now), key, reason, reason == Idle && Overslept(s, key, now))
  {
    EvictAllCounts(IdleAmong(s, s.sessions.Keys, now), Idle, key);
  }

  lemma {:induction false} AcquiringReports(w: World, context: Context, now: int, key: Key, reason: Reason)
    ensures Reports(w.s, Begun(w, context, now).s, key, reason, GivesUp(w.s, Begin(context, now), key, reason))
  {
    hide SweptAmong;
    SweepReports(w.s, now, key, reason);
    if !w.s.isShutdown {
      SweepRemovesExactlyTheIdle(w.s, now);
    }
    SweepKeepsTheRest(w.s, now);
  }

  lemma {:induction false} SweepKeepsTheRest(s: State, now: int)
    ensures Swept(s, now).options == s.options && Swept(s, now).turns == s.turns
  {
  }

  lemma {:induction false} BringingReports(w: World, call: nat, built: nat, now: int, key: Key, reason: Reason)
    ensures Reports(w.s, Resumed(w, call, built, now).s, key, reason, false)
  {
  }

  /** Every callback names its reason: it is made once for each session that is given up,
      and only then. */
  lemma {:induction false} EvictionsTellWhy(w: World, op: Op, key: Key, reason: Reason)
    ensures Reports(w.s, Next(w, op).s, key, reason, GivesUp(w.s, op, key, reason))
  {
    hide Swept, Begun, Resumed;
    match op
    case GetOrCreate(context, built, now) =>
      AcquiringReports(w, context, now, key, reason);
      BringingReports(Begun(w, context, now), w.calls, built, now, key, reason);
    case Begin(context, now) => AcquiringReports(w, context, now, key, reason);
    case Resume(call, built, now) => BringingReports(w, call, built, now, key, reason);
    case BeginTurn(_, _, now) => SweepReports(w.s, now, key, reason);
    case Sweep(now) => SweepReports(w.s, now, key, reason);
    case ShutDownAll => EvictAllCounts(w.s.sessions.Keys, ShutDown, key);
    case _ =>
  }

  /** A shutdown is final: whatever happens after it, no sweep removes anything any more and
      a second shutdown does nothing. */
  lemma {:induction false} ShutDownIsFinal(options: Options, before: seq<Op>, ops: seq<Op>, now: int)
    ensures
      var w := Run(options, before + [ShutDownAll] + ops);
      w.s.isShutdown && Next(w, Sweep(now)) == w && Next(w, ShutDownAll) == w
  {
    hide Run;
    StaysShutDown(options, before, ops);
  }

  lemma {:induction false} StaysShutDown(options: Options, before: seq<Op>, ops: seq<Op>)
    ensures Run(options, before + [ShutDownAll] + ops).s.isShutdown
  {
    hide Next;
    var down := before + [ShutDownAll];
    assert Init(down) == before;
    if ops == [] {
      assert down + ops == down;
      StepShutsDown(Run(options, before), ShutDownAll);
    } else {
      assert Init(down + ops) == down + Init(ops);
      StaysShutDown(options, before, Init(ops));
      StepShutsDown(Run(options, down + Init(ops)), Last(ops));
    }
  }

  lemma {:induction false} StepShutsDown(w: World, op: Op)
    ensures Next(w, op).s.isShutdown <==> w.s.isShutdown || op.ShutDownAll?
  {
    hide EvictAll, MergeContext;
  }

  // Turn slots -----------------------------------------------------------------------------------

  predicate Releases(s: State, op: Op, key: Key, runId: string) {
    || (op.EndTurn? && op.key == key && op.ended.GetOr("") == "")
    || (op.EndTurn? && op.key == key && op.ended == Some(runId))
    || (op.ShutDownAll? && !s.isShutdown)
  }

  predicate Holds(s: State, key: Key, runId: string) {
    key in s.turns && s.turns[key] == runId
  }

  /** A turn slot passes from one call to the next exactly when the call does not
      release it: only its own run, a nameless `endTurn` or the shutdown does. */
  lemma {:induction false} SlotIsHeldIff(w: World, op: Op, key: Key, runId: string)
    requires Holds(w.s, key, runId)
    ensures Holds(Next(w, op).s, key, runId) <==> !Releases(w.s, op, key, runId)
  {
    hide SweptAmong, EvictAll;
    match op
    case GetOrCreate(_, _, now) => SweepKeepsTurns(w.s, now);
    case Begin(_, now) => SweepKeepsTurns(w.s, now);
    case BeginTurn(_, _, now) => SweepKeepsTurns(w.s, now);
    case Sweep(now) => SweepKeepsTurns(w.s, now);
    case _ =>
  }

  lemma {:induction false} SweepKeepsTurns(s: State, now: int)
    ensures Swept(s, now).turns == s.turns
  {
  }

  ghost predicate NeverReleased(options: Options, before: seq<Op>, ops: seq<Op>, key: Key, runId: string) {
    ops == []
    || (NeverReleased(options, before, Init(ops), key, runId)
        && !Releases(Run(options, before + Init(ops)).s, Last(ops), key, runId))
  }

  lemma {:induction false} SlotIsHeldOver(options: Options, before: seq<Op>, ops: seq<Op>, key: Key, runId: string)
    requires Holds(Run(options, before).s, key, runId)
    requires NeverReleased(options, before, ops, key, runId)
    ensures Holds(Run(options, before + ops).s, key, runId)
  {
    hide Next, Releases, Holds;
    if ops == [] {
      assert before + ops == before;
    } else {
      SlotIsHeldOver(options, before, Init(ops), key, runId);
      assert Init(before + ops) == before + Init(ops);
      SlotIsHeldIff(Run(options, before + Init(ops)), Last(ops), key, runId);
    }
  }

  /** From a successful `beginTurn` on, until its slot is released, every other
      `beginTurn` for the session finds the slot taken and leaves it as it is. */
  lemma {:induction false} OneTurnAtATime(options: Options, before: seq<Op>, ops: seq<Op>, key: Key,
        runId: string, other: string, now: int, later: int)
    requires key !in Run(options, before).s.turns
    requires NeverReleased(options, before + [BeginTurn(key, runId, now)], ops, key, runId)
    ensures
      var w := Run(options, before + [BeginTurn(key, runId, now)] + ops);
      Holds(w.s, key, runId) && Holds(Next(w, BeginTurn(key, other, later)).s, key, runId)
  {
    hide SweptAmong;
    var begun := before + [BeginTurn(key, runId, now)];
    assert Init(begun) == before;
    SlotIsHeldOver(options, begun, ops, key, runId);
    SlotIsHeldIff(Run(options, begun + ops), BeginTurn(key, other, later), key, runId);
  }

  // Project keys -------------------------------------------------------------------------------------

  /** What a session keeps while its key is not installed anew. */
  predicate KeepsProject(before: State, after: State, key: Key) {
    key in after.sessions ==>
      && key in before.sessions
      && (before.sessions[key].context.projectKey.Some? ==>
            after.sessions[key].context.projectKey == before.sessions[key].context.projectKey)
  }

  lemma {:induction false} BeginKeepsProjectKey(w: World, context: Context, now: int, key: Key)
    ensures KeepsProject(w.s, Begun(w, context, now).s, key)
  {
    hide EvictAll;
  }

  lemma {:induction false} ResumeKeepsProjectKey(w: World, call: nat, built: nat, now: int, key: Key)
    requires !Installs(w, Resume(call, built, now), key)
    ensures KeepsProject(w.s, Resumed(w, call, built, now).s, key)
  {
  }

  lemma {:induction false} StepKeepsProjectKey(w: World, op: Op, key: Key)
    requires !Installs(w, op, key)
    ensures KeepsProject(w.s, Next(w, op).s, key)
  {
    hide EvictAll, Begun, Resumed;
    match op
    case GetOrCreate(context, built, now) =>
      BeginKeepsExcess(w, context, now, key);
      BeginKeepsProjectKey(w, context, now, key);
      var b := Begun(w, context, now);
      if b.calls > w.calls {
        ResumeKeepsProjectKey(b, w.calls, built, now, key);
      }
    case Begin(context, now) => BeginKeepsProjectKey(w, context, now, key);
    case Resume(call, built, now) => ResumeKeepsProjectKey(w, call, built, now, key);
    case _ =>
  }

  /** Over every interleaving a live session keeps its project key once it has one: only
      a session installed anew under the same name may have another. */
  lemma {:induction false} ProjectKeyStays(options: Options, before: seq<Op>, ops: seq<Op>, key: Key)
    requires key in Run(options, before + ops).s.sessions
    requires Run(options, before + ops).s.happened[Installed(key)] == Run(options, before).s.happened[Installed(key)]
    ensures key in Run(options, before).s.sessions
    ensures
      var first := Run(options, before).s.sessions[key].context.projectKey;
      first.Some? ==> Run(options, before + ops).s.sessions[key].context.projectKey == first
  {
    hide Next;
    if ops == [] {
      assert before + ops == before;
    } else {
      var w := Run(options, before + Init(ops));
      assert Init(before + ops) == before + Init(ops);
      NeverUninstalled(options, before, Init(ops), key);
      StepExcess(w, Last(ops), key);
      StepKeepsProjectKey(w, Last(ops), key);
      ProjectKeyStays(options, before, Init(ops), key);
    }
  }

  lemma {:induction false} NeverUninstalled(options: Options, before: seq<Op>, ops: seq<Op>, key: Key)
    ensures Run(options, before).s.happened[Installed(key)] <= Run(options, before + ops).s.happened[Installed(key)]
  {
    hide Next;
    if ops == [] {
      assert before + ops == before;
    } else {
      assert Init(before + ops) == before + Init(ops);
      NeverUninstalled(options, before, Init(ops), key);
      StepExcess(Run(options, before + Init(ops)), Last(ops), key);
    }
  }
}
