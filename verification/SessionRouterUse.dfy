/** When a session was last used, what its callers have said about it, and how long it is
    kept: told from the operations on the router. */
module SessionRouterUse {
  import opened Prelude
  import opened SessionRouter
  import opened SessionRouterTheorems
  import opened SessionRouterMarks

  // The latest use ------------------------------------------------------------------------------

  /** A waiting call brings an object for `key`: a new session, or a new object for the
      session in the cache. */
  predicate Delivers(w: World, call: nat, key: Key) {
    call in w.pending
    && match w.pending[call]
       case Creating(context) => context.sessionKey == key
       case Recreating(k, record) => k == key && key in w.s.sessions && RecordAt(w.records, key) == record
  }

  /** The time at which `op` uses the session under `key`: when it is handed out, when an
      object for it is brought, and when a turn on it ends or is aborted. */
  ghost function UsedBy(w: World, op: Op, key: Key): Option<int> {
    match op
    case GetOrCreate(context, _, now) => if context.sessionKey == key then Some(now) else None
    case Begin(context, now) =>
      var s := Swept(w.s, now);
      if context.sessionKey == key && key in s.sessions && !(IsDirty(s.sessions[key]) && s.options.canRecreate)
      then Some(now) else None
    case Resume(call, _, now) => if Delivers(w, call, key) then Some(now) else None
    case EndTurn(k, _, now) => if k == key && key in w.s.sessions then Some(now) else None
    case Abort(k, now) => if k == key && key in w.s.sessions then Some(now) else None
    case _ => None
  }

  ghost function LatestUse(options: Options, ops: seq<Op>, key: Key): Option<int> {
    if ops == [] then None
    else
      var used := UsedBy(Run(options, Init(ops)), Last(ops), key);
      if used.Some? then used else LatestUse(options, Init(ops), key)
  }

  /** How a step leaves the time of use of a session that is live after it. */
  ghost predicate UseMoves(before: State, after: State, key: Key, used: Option<int>) {
    key in after.sessions ==>
      if used.Some? then after.sessions[key].lastUsedAt == used.value
      else key in before.sessions && after.sessions[key].lastUsedAt == before.sessions[key].lastUsedAt
  }

  lemma {:induction false} SweepMovesNoUse(s: State, now: int, key: Key)
    ensures UseMoves(s, Swept(s, now), key, None)
  {
  }

  lemma {:induction false} BeginMovesUse(w: World, context: Context, now: int, key: Key)
    ensures UseMoves(w.s, Begun(w, context, now).s, key, UsedBy(w, Begin(context, now), key))
  {
    hide SweptAmong, MergeContext;
    SweepMovesNoUse(w.s, now, key);
  }

  lemma {:induction false} ResumeMovesUse(w: World, call: nat, built: nat, now: int, key: Key)
    ensures UseMoves(w.s, Resumed(w, call, built, now).s, key, UsedBy(w, Resume(call, built, now), key))
  {
  }

  lemma {:induction false} OthersMoveUse(w: World, op: Op, key: Key)
    ensures op.BeginTurn? || op.EndTurn? || op.Abort? || op.Close? || op.Mark? || op.Sweep? || op.ShutDownAll? ==>
      UseMoves(w.s, NextState(w.s, op), key, UsedBy(w, op, key))
  {
    hide SweptAmong;
    match op
    case BeginTurn(_, _, now) => SweepMovesNoUse(w.s, now, key);
    case Sweep(now) => SweepMovesNoUse(w.s, now, key);
    case _ =>
  }

  lemma {:induction false} StepMovesUse(w: World, op: Op, key: Key)
    ensures UseMoves(w.s, Next(w, op).s, key, UsedBy(w, op, key))
  {
    hide Begun, Resumed, NextState;
    match op
    case GetOrCreate(context, built, now) =>
      var b := Begun(w, context, now);
      BeginMovesUse(w, context, now, key);
      ResumeMovesUse(b, w.calls, built, now, key);
      AtOnceDelivers(w, context, now);
    case Begin(context, now) => BeginMovesUse(w, context, now, key);
    case Resume(call, built, now) => ResumeMovesUse(w, call, built, now, key);
    case Fail(_) =>
    case _ => OthersMoveUse(w, op, key);
  }

  lemma {:induction false} AtOnceDelivers(w: World, context: Context, now: int)
    ensures
      var b, key := Begun(w, context, now), context.sessionKey;
      && (b.calls > w.calls ==> Delivers(b, w.calls, key) && forall k :: k != key ==> !Delivers(b, w.calls, k))
      && (b.calls > w.calls <==> UsedBy(w, Begin(context, now), key).None?)
  {
    hide Swept, MergeContext;
  }

  /** Over every interleaving a live session was last used when the operations say so. */
  lemma {:induction false} LastUseIsLatest(options: Options, ops: seq<Op>, key: Key)
    requires key in Run(options, ops).s.sessions
    ensures LatestUse(options, ops, key) == Some(Run(options, ops).s.sessions[key].lastUsedAt)
  {
    hide Next, UsedBy;
    if ops != [] {
      StepMovesUse(Run(options, Init(ops)), Last(ops), key);
      if UsedBy(Run(options, Init(ops)), Last(ops), key).None? {
        LastUseIsLatest(options, Init(ops), key);
      }
    }
  }

  // Kept as long as it is used --------------------------------------------------------------------

  /** Operations between two times, none of which takes the session under `key` away or
      brings another object for it. */
  ghost predicate Spares(w: World, op: Op, key: Key, from: int, until: int) {
    match op
    case GetOrCreate(context, _, now) =>
      from <= now <= until
      && (context.sessionKey == key ==> key in w.s.sessions && !(IsDirty(w.s.sessions[key]) && w.s.options.canRecreate))
    case Begin(_, now) => from <= now <= until
    case Resume(call, _, now) => from <= now <= until && !Delivers(w, call, key)
    case Fail(_) => true
    case BeginTurn(_, _, now) => from <= now <= until
    case EndTurn(_, _, now) => from <= now <= until
    case Abort(_, now) => from <= now <= until
    case Close(k) => k != key
    case Mark(_, _) => true
    case Sweep(now) => from <= now <= until
    case ShutDownAll => false
  }

  ghost predicate AllSpare(options: Options, before: seq<Op>, ops: seq<Op>, key: Key, from: int, until: int) {
    ops == []
    || (AllSpare(options, before, Init(ops), key, from, until)
        && Spares(Run(options, before + Init(ops)), Last(ops), key, from, until))
  }

  /** The session under `key` is live, with the object `session`, and was used at `from` or later. */
  predicate Holding(s: State, key: Key, session: nat, from: int) {
    key in s.sessions && s.sessions[key].session == session && s.sessions[key].lastUsedAt >= from
  }

  lemma {:induction false} SweepKeepsHolding(s: State, now: int, key: Key, session: nat, from: int)
    requires Holding(s, key, session, from) && now - from <= s.options.idleTimeoutMs
    ensures Holding(Swept(s, now), key, session, from)
    ensures Swept(s, now).sessions[key] == s.sessions[key]
  {
    assert !IsIdle(s, key, now);
  }

  lemma {:induction false} BeginKeepsHolding(w: World, context: Context, now: int, key: Key, session: nat, from: int)
    requires Holding(w.s, key, session, from) && from <= now && now - from <= w.s.options.idleTimeoutMs
    ensures Holding(Begun(w, context, now).s, key, session, from)
    ensures context.sessionKey == key && !(IsDirty(w.s.sessions[key]) && w.s.options.canRecreate) ==>
      Begun(w, context, now).calls == w.calls
    ensures Begun(w, context, now).calls > w.calls ==>
      forall k :: Delivers(Begun(w, context, now), w.calls, k) ==> k == context.sessionKey
  {
    hide SweptAmong, MergeContext, Swept;
    SweepKeepsHolding(w.s, now, key, session, from);
    SweepKeepsOptionsAlways(w.s);
  }

  lemma {:induction false} ResumeKeepsHolding(w: World, call: nat, built: nat, now: int, key: Key, session: nat,
        from: int)
    requires Holding(w.s, key, session, from) && !Delivers(w, call, key)
    ensures Holding(Resumed(w, call, built, now).s, key, session, from)
  {
  }

  lemma {:induction false} StepKeepsHolding(w: World, op: Op, key: Key, session: nat, from: int, until: int)
    requires Holding(w.s, key, session, from) && until - from <= w.s.options.idleTimeoutMs
    requires Spares(w, op, key, from, until)
    ensures Holding(Next(w, op).s, key, session, from)
  {
    hide Swept, Begun, Resumed, Delivers;
    match op
    case GetOrCreate(context, built, now) =>
      BeginKeepsHolding(w, context, now, key, session, from);
      if Begun(w, context, now).calls > w.calls {
        ResumeKeepsHolding(Begun(w, context, now), w.calls, built, now, key, session, from);
      }
    case Begin(context, now) => BeginKeepsHolding(w, context, now, key, session, from);
    case Resume(call, built, now) => ResumeKeepsHolding(w, call, built, now, key, session, from);
    case BeginTurn(_, _, now) => SweepKeepsHolding(w.s, now, key, session, from);
    case Sweep(now) => SweepKeepsHolding(w.s, now, key, session, from);
    case _ =>
  }

  lemma {:induction false} SweepKeepsOptionsAlways(s: State)
    ensures forall now :: Swept(s, now).options == s.options
  {
  }

  lemma {:induction false} HeldOver(options: Options, before: seq<Op>, ops: seq<Op>, key: Key, session: nat,
        from: int, until: int)
    requires Holding(Run(options, before).s, key, session, from) && until - from <= options.idleTimeoutMs
    requires AllSpare(options, before, ops, key, from, until)
    ensures Holding(Run(options, before + ops).s, key, session, from)
  {
    hide Next, Holding, Spares;
    if ops == [] {
      assert before + ops == before;
    } else {
      assert Init(before + ops) == before + Init(ops);
      HeldOver(options, before, Init(ops), key, session, from, until);
      RecreatesForever(options, before + Init(ops));
      StepKeepsHolding(Run(options, before + Init(ops)), Last(ops), key, session, from, until);
    }
  }

  /** A session that has been used within the idle timeout is kept: unless it is closed,
      the router is shut down or another object is brought for it, the next call gets the
      very same object, whatever happens in between, exactly when no mark has made the
      session dirty. */
  lemma {:induction false} UsedSessionIsHandedOut(options: Options, before: seq<Op>, ops: seq<Op>,
        context: Context, now: int)
    requires context.sessionKey in Run(options, before).s.sessions
    requires LatestUse(options, before, context.sessionKey).Some?
    requires now - LatestUse(options, before, context.sessionKey).value <= options.idleTimeoutMs
    requires AllSpare(options, before, ops, context.sessionKey,
                      LatestUse(options, before, context.sessionKey).value, now)
    ensures
      var w, key := Run(options, before + ops), context.sessionKey;
      && key in w.s.sessions
      && (HandsOut(w, Begin(context, now)) == Some(Run(options, before).s.sessions[key].session)
          <==> !(IsDirty(w.s.sessions[key]) && options.canRecreate))
  {
    hide Next, UsedBy, Swept;
    var key, session := context.sessionKey, Run(options, before).s.sessions[context.sessionKey].session;
    LastUseIsLatest(options, before, key);
    var from := Run(options, before).s.sessions[key].lastUsedAt;
    HeldOver(options, before, ops, key, session, from, now);
    RecreatesForever(options, before + ops);
    SweepKeepsHolding(Run(options, before + ops).s, now, key, session, from);
    SweepKeepsOptionsAlways(Run(options, before + ops).s);
  }

  // What callers have said -------------------------------------------------------------------------

  /** The contexts given for the session under `key` since it was installed, from the one it
      was created with on. */
  ghost function Contexts(options: Options, ops: seq<Op>, key: Key): seq<Context> {
    if ops == [] then []
    else ContextsAfter(Run(options, Init(ops)), Last(ops), key, Contexts(options, Init(ops), key))
  }

  ghost function ContextsAfter(w: World, op: Op, key: Key, contexts: seq<Context>): seq<Context> {
    match op
    case GetOrCreate(context, _, now) =>
      if context.sessionKey != key then contexts
      else if key in Swept(w.s, now).sessions then contexts + [context] else [context]
    case Begin(context, now) =>
      if context.sessionKey == key && key in Swept(w.s, now).sessions then contexts + [context] else contexts
    case Resume(call, _, _) =>
      if call in w.pending && w.pending[call].Creating? && w.pending[call].context.sessionKey == key
      then [w.pending[call].context] else contexts
    case _ => contexts
  }

  /** The first project that was given. */
  function FirstProject(contexts: seq<Context>): Option<string> {
    if contexts == [] then None
    else if contexts[0].projectKey.Some? then contexts[0].projectKey
    else FirstProject(contexts[1..])
  }

  /** The last channel that was given. */
  function LastChannel(contexts: seq<Context>): string {
    if contexts == [] then ""
    else if Last(contexts).channelKey != "" then Last(contexts).channelKey
    else LastChannel(Init(contexts))
  }

  predicate SaysWhatCallersSay(s: State, key: Key, contexts: seq<Context>) {
    key in s.sessions ==>
      && s.sessions[key].context.projectKey == FirstProject(contexts)
      && s.sessions[key].context.channelKey == LastChannel(contexts)
      && s.sessions[key].context.sessionKey == key
  }

  lemma {:induction false} FirstProjectAppend(contexts: seq<Context>, c: Context)
    ensures FirstProject(contexts + [c])
         == if FirstProject(contexts).Some? then FirstProject(contexts) else c.projectKey
  {
    if contexts != [] {
      FirstProjectAppend(contexts[1..], c);
      assert (contexts + [c])[1..] == contexts[1..] + [c];
    }
  }

  lemma {:induction false} OneMoreContext(contexts: seq<Context>, c: Context)
    ensures FirstProject(contexts + [c])
         == if FirstProject(contexts).Some? then FirstProject(contexts) else c.projectKey
    ensures LastChannel(contexts + [c]) == if c.channelKey != "" then c.channelKey else LastChannel(contexts)
    ensures FirstProject([c]) == c.projectKey && LastChannel([c]) == c.channelKey
  {
    FirstProjectAppend(contexts, c);
    assert Init(contexts + [c]) == contexts && Init([c]) == [];
    assert [c][1..] == [];
  }

  lemma {:induction false} AcquiringKeepsSaying(w: World, context: Context, now: int, key: Key, contexts: seq<Context>)
    requires SaysWhatCallersSay(w.s, key, contexts)
    ensures
      var given := if context.sessionKey == key && key in w.s.sessions then contexts + [context] else contexts;
      SaysWhatCallersSay(BegunOn(w, context, now).s, key, given)
  {
    hide FirstProject, LastChannel, IsDirty;
    OneMoreContext(contexts, context);
  }

  lemma {:induction false} BeginKeepsSaying(w: World, context: Context, now: int, key: Key, contexts: seq<Context>)
    requires SaysWhatCallersSay(w.s, key, contexts)
    ensures SaysWhatCallersSay(Begun(w, context, now).s, key, ContextsAfter(w, Begin(context, now), key, contexts))
  {
    hide FirstProject, LastChannel, Swept, BegunOn;
    SweepKeepsRecords(w.s, now);
    AcquiringKeepsSaying(w.(s := Swept(w.s, now)), context, now, key, contexts);
  }

  lemma {:induction false} SweepKeepsRecords(s: State, now: int)
    ensures forall k :: k in Swept(s, now).sessions ==> k in s.sessions && Swept(s, now).sessions[k] == s.sessions[k]
  {
  }

  lemma {:induction false} ResumeKeepsSaying(w: World, op: Op, key: Key, contexts: seq<Context>)
    requires op.Resume? && SaysWhatCallersSay(w.s, key, contexts)
    ensures SaysWhatCallersSay(Next(w, op).s, key, ContextsAfter(w, op, key, contexts))
  {
    hide FirstProject, LastChannel;
    if op.call in w.pending && w.pending[op.call].Creating? {
      OneMoreContext(contexts, w.pending[op.call].context);
    }
  }

  lemma {:induction false} StepKeepsSaying(w: World, op: Op, key: Key, contexts: seq<Context>)
    requires SaysWhatCallersSay(w.s, key, contexts)
    ensures SaysWhatCallersSay(Next(w, op).s, key, ContextsAfter(w, op, key, contexts))
  {
    hide FirstProject, LastChannel, Begun, Resumed;
    match op
    case GetOrCreate(context, built, now) =>
      var b := Begun(w, context, now);
      BeginKeepsSaying(w, context, now, key, contexts);
      var given := ContextsAfter(w, Begin(context, now), key, contexts);
      ResumeKeepsSaying(b, Resume(w.calls, built, now), key, given);
      OneMoreContext(contexts, context);
      AtOnceGives(w, context, built, now);
    case Begin(context, now) => BeginKeepsSaying(w, context, now, key, contexts);
    case Resume(_, _, _) => ResumeKeepsSaying(w, op, key, contexts);
    case _ =>
  }

  lemma {:induction false} AtOnceGives(w: World, context: Context, built: nat, now: int)
    ensures
      var b := Begun(w, context, now);
      forall key, contexts ::
        var given := ContextsAfter(w, Begin(context, now), key, contexts);
        ContextsAfter(w, GetOrCreate(context, built, now), key, contexts) ==
        if b.calls > w.calls then ContextsAfter(b, Resume(w.calls, built, now), key, given) else given
  {
    hide Swept, MergeContext;
  }

  /** Over every interleaving a live session belongs to the first project that was named for
      it and answers on the last channel. */
  lemma {:induction false} ContextIsMerged(options: Options, ops: seq<Op>, key: Key)
    ensures SaysWhatCallersSay(Run(options, ops).s, key, Contexts(options, ops, key))
  {
    hide Next, SaysWhatCallersSay, ContextsAfter;
    if ops == [] {
      NothingSaid(options, key);
    } else {
      ContextIsMerged(options, Init(ops), key);
      StepKeepsSaying(Run(options, Init(ops)), Last(ops), key, Contexts(options, Init(ops), key));
    }
  }

  lemma {:induction false} NothingSaid(options: Options, key: Key)
    ensures SaysWhatCallersSay(Start(options).s, key, [])
  {
  }

  // Whom a mark reaches -------------------------------------------------------------------------------

  /** A mark reaches exactly the sessions that belong to its project, by what their callers
      have said, or all of them if it names none. */
  lemma {:induction false} MarkReaches(options: Options, ops: seq<Op>, project: Option<string>, reason: string,
        key: Key)
    requires key in Run(options, ops).s.sessions
    ensures
      var s, t := Run(options, ops).s, Run(options, ops + [Mark(project, reason)]).s;
      var r, reached := s.sessions[key], project.None? || FirstProject(Contexts(options, ops, key)) == project;
      && t.sessions.Keys == s.sessions.Keys
      && t.sessions[key] == r.(dirtyReason := if reached then Some(reason) else r.dirtyReason)
  {
    hide FirstProject, Contexts;
    ContextIsMerged(options, ops, key);
    assert Init(ops + [Mark(project, reason)]) == ops;
  }

  /** The count a mark returns is the number of sessions it reaches. */
  lemma {:induction false} MarksAreCounted(s: State, project: Option<string>)
    ensures |MarksAmong(s.sessions, s.sessions.Keys, project)|
         == |set k | k in s.sessions && (project.None? || s.sessions[k].context.projectKey == project)|
  {
    assert MarksAmong(s.sessions, s.sessions.Keys, project)
        == (set k | k in s.sessions && (project.None? || s.sessions[k].context.projectKey == project));
  }
}
