/** The gateway's session cache: idle eviction, turn slots, dirty marks.
    Session objects are numbers. `getOrCreate` waits for the factory or the recreator:
    its two halves are methods of their own, between which any other may run. */
module SessionRouter {
  import opened Prelude

  datatype Key = Key(text: string)

  datatype Context = Context(sessionKey: Key, projectKey: Option<string>, channelKey: string)

  datatype Record = Record(session: nat, lastUsedAt: int, context: Context, dirtyReason: Option<string>)

  datatype Reason = Idle | Closed | DirtyRecreate | ShutDown

  datatype Happening = Installed(key: Key) | Evicted(key: Key, reason: Reason)

  datatype Options = Options(idleTimeoutMs: int, canRecreate: bool)

  datatype State = State(
    options: Options,
    sessions: map<Key, Record>,
    turns: map<Key, string>,
    isShutdown: bool,
    happened: multiset<Happening>)

  predicate IsDirty(r: Record) {
    r.dirtyReason.Some? && r.dirtyReason.value != ""
  }

  function MergeContext(current: Context, next: Context): Context {
    Context(
      next.sessionKey,
      if current.projectKey.Some? then current.projectKey else next.projectKey,
      if next.channelKey != "" then next.channelKey else current.channelKey)
  }

  predicate IsIdle(s: State, key: Key, now: int) {
    key in s.sessions && key !in s.turns && now - s.sessions[key].lastUsedAt > s.options.idleTimeoutMs
  }

  /** The idle sessions among those already visited, and the state without them. */
  ghost function IdleAmong(s: State, visited: set<Key>, now: int): set<Key> {
    set k | k in visited && IsIdle(s, k, now)
  }

  ghost function SweptAmong(s: State, visited: set<Key>, now: int): State {
    s.(sessions := s.sessions - IdleAmong(s, visited, now),
       happened := s.happened + EvictAll(IdleAmong(s, visited, now), Idle))
  }

  function WithoutIfIdle(s: State, key: Key, now: int): State {
    if IsIdle(s, key, now)
    then s.(sessions := s.sessions - {key}, happened := s.happened + multiset{Evicted(key, Idle)})
    else s
  }

  lemma {:induction false} SweptNone(s: State, now: int)
    ensures SweptAmong(s, {}, now) == s
  {
    assert IdleAmong(s, {}, now) == {};
    assert s.sessions - {} == s.sessions;
  }

  lemma {:induction false} SweptOneMore(s: State, visited: set<Key>, key: Key, now: int)
    requires key in s.sessions && key !in visited
    ensures
      var t := SweptAmong(s, visited, now);
      key in t.sessions && SweptAmong(s, visited + {key}, now) == WithoutIfIdle(t, key, now)
  {
    var gone := IdleAmong(s, visited, now);
    if IsIdle(s, key, now) {
      assert IdleAmong(s, visited + {key}, now) == gone + {key};
      EvictOneMore(gone, key, Idle);
      assert s.sessions - (gone + {key}) == (s.sessions - gone) - {key};
    } else {
      assert IdleAmong(s, visited + {key}, now) == gone;
    }
  }

  ghost function EvictAll(keys: set<Key>, reason: Reason): multiset<Happening> {
    multiset(set k | k in keys :: Evicted(k, reason))
  }

  ghost function Swept(s: State, now: int): State {
    if s.isShutdown then s else SweptAmong(s, s.sessions.Keys, now)
  }

  function Touched(s: State, key: Key, now: int): State {
    if key in s.sessions
    then s.(sessions := s.sessions[key := s.sessions[key].(lastUsedAt := now)])
    else s
  }

  ghost function GotOrCreated(s: State, context: Context, built: nat, now: int): State {
    Acquired(Swept(s, now), context, built, now)
  }

  /** `built` is the object the factory or the recreator returns, if it is asked. */
  function Acquired(s: State, context: Context, built: nat, now: int): State {
    var key := context.sessionKey;
    if key in s.sessions then
      var cached := s.sessions[key];
      var merged := cached.(context := MergeContext(cached.context, context), lastUsedAt := now);
      if IsDirty(cached) && s.options.canRecreate
      then s.(sessions := s.sessions[key := merged.(session := built, dirtyReason := None)],
              happened := s.happened + multiset{Evicted(key, DirtyRecreate)})
      else s.(sessions := s.sessions[key := merged])
    else
      s.(sessions := s.sessions[key := Record(built, now, context, None)],
         happened := s.happened + multiset{Installed(key)})
  }

  // A `getOrCreate` that waits -----------------------------------------------------------------

  /** What a waiting call goes on with. `record` is the identity of the record object
      that the call holds, whether or not it is still in the cache. */
  datatype Pending = Creating(context: Context) | Recreating(key: Key, record: nat)

  /** The router between two events. `records` numbers the record objects under each
      key, `made` of which have been made; calls are numbered as they come to wait. */
  datatype World = World(s: State, records: map<Key, nat>, made: nat, pending: map<nat, Pending>, calls: nat)

  datatype Answer = HandedOut(session: nat) | Waiting(call: nat)

  function RecordAt(records: map<Key, nat>, key: Key): nat {
    if key in records then records[key] else 0
  }

  predicate MustRecreate(s: State, key: Key) {
    key in s.sessions && IsDirty(s.sessions[key]) && s.options.canRecreate
  }

  function BegunOn(w: World, context: Context, now: int): World {
    var s, key := w.s, context.sessionKey;
    if key !in s.sessions then
      w.(pending := w.pending[w.calls := Creating(context)], calls := w.calls + 1)
    else
      var cached := s.sessions[key].(context := MergeContext(s.sessions[key].context, context));
      if MustRecreate(s, key) then
        w.(s := s.(sessions := s.sessions[key := cached],
                   happened := s.happened + multiset{Evicted(key, DirtyRecreate)}),
           pending := w.pending[w.calls := Recreating(key, RecordAt(w.records, key))],
           calls := w.calls + 1)
      else w.(s := s.(sessions := s.sessions[key := cached.(lastUsedAt := now)]))
  }

  function AnswerOn(s: State, key: Key, calls: nat): Answer {
    if key !in s.sessions || MustRecreate(s, key) then Waiting(calls) else HandedOut(s.sessions[key].session)
  }

  ghost function Begun(w: World, context: Context, now: int): World {
    BegunOn(w.(s := Swept(w.s, now)), context, now)
  }

  /** The waiting call gets the object `built` and goes on. A recreated object goes into
      the record the call holds, which is in the cache or has been dropped from it. */
  function Resumed(w: World, call: nat, built: nat, now: int): World {
    if call !in w.pending then w
    else
      var s, rest := w.s, w.(pending := w.pending - {call});
      match w.pending[call]
      case Creating(context) =>
        var key := context.sessionKey;
        rest.(s := s.(sessions := s.sessions[key := Record(built, now, context, None)],
                      happened := s.happened + multiset{Installed(key)}),
              records := w.records[key := w.made],
              made := w.made + 1)
      case Recreating(key, record) =>
        if key in s.sessions && RecordAt(w.records, key) == record then
          var r := s.sessions[key].(session := built, dirtyReason := None, lastUsedAt := now);
          rest.(s := s.(sessions := s.sessions[key := r]))
        else rest
  }

  /** The factory or the recreator throws: the call is over and nothing is put in place. */
  function Failed(w: World, call: nat): World {
    w.(pending := w.pending - {call})
  }

  /** A call whose wait is over before anything else happens is a single step. */
  lemma {:induction false} ResumedAtOnce(w: World, context: Context, built: nat, now: int)
    ensures
      var b := Begun(w, context, now);
      var done := if b.calls > w.calls then Resumed(b, w.calls, built, now) else b;
      done.s == GotOrCreated(w.s, context, built, now)
  {
    var s, key := Swept(w.s, now), context.sessionKey;
    if MustRecreate(s, key) {
      var r := s.sessions[key];
      var merged := r.(context := MergeContext(r.context, context));
      assert s.sessions[key := merged][key := merged.(session := built, dirtyReason := None, lastUsedAt := now)]
          == s.sessions[key := merged.(session := built, dirtyReason := None, lastUsedAt := now)];
    }
  }

  function TurnEnded(s: State, key: Key, runId: Option<string>, now: int): State {
    var freed := runId.GetOr("") == "" || (key in s.turns && Some(s.turns[key]) == runId);
    Touched(s.(turns := if freed then s.turns - {key} else s.turns), key, now)
  }

  predicate Marks(project: Option<string>, r: Record) {
    project.None? || r.context.projectKey == project
  }

  ghost function MarksAmong(m: map<Key, Record>, visited: set<Key>, project: Option<string>): set<Key> {
    set k | k in visited && k in m && Marks(project, m[k])
  }

  ghost function MarkedAmong(s: State, visited: set<Key>, project: Option<string>, reason: string): State {
    s.(sessions := map k | k in s.sessions ::
         if k in visited && Marks(project, s.sessions[k]) then s.sessions[k].(dirtyReason := Some(reason))
         else s.sessions[k])
  }

  function MarkedAt(s: State, key: Key, project: Option<string>, reason: string): State
    requires key in s.sessions
  {
    if Marks(project, s.sessions[key])
    then s.(sessions := s.sessions[key := s.sessions[key].(dirtyReason := Some(reason))])
    else s
  }

  lemma {:induction false} MarkedNone(s: State, project: Option<string>, reason: string)
    ensures MarkedAmong(s, {}, project, reason) == s
    ensures MarksAmong(s.sessions, {}, project) == {}
  {
    assert MarkedAmong(s, {}, project, reason).sessions == s.sessions;
  }

  lemma {:induction false} MarkedOneMore(s: State, visited: set<Key>, key: Key, project: Option<string>, reason: string)
    requires key in s.sessions && key !in visited
    ensures
      var t := MarkedAmong(s, visited, project, reason);
      && key in t.sessions && t.sessions[key] == s.sessions[key]
      && MarkedAmong(s, visited + {key}, project, reason) == MarkedAt(t, key, project, reason)
  {
    assert MarkedAmong(s, visited + {key}, project, reason).sessions ==
           MarkedAt(MarkedAmong(s, visited, project, reason), key, project, reason).sessions;
  }

  lemma {:induction false} MarksOneMore(m: map<Key, Record>, visited: set<Key>, key: Key, project: Option<string>)
    requires key in m && key !in visited
    ensures |MarksAmong(m, visited + {key}, project)| ==
            |MarksAmong(m, visited, project)| + (if Marks(project, m[key]) then 1 else 0)
  {
    var marks := MarksAmong(m, visited, project);
    assert MarksAmong(m, visited + {key}, project) == if Marks(project, m[key]) then marks + {key} else marks;
  }

  ghost function Marked(s: State, project: Option<string>, reason: string): State {
    MarkedAmong(s, s.sessions.Keys, project, reason)
  }

  ghost function ShutDownState(s: State): State {
    if s.isShutdown then s
    else s.(isShutdown := true, sessions := map[], turns := map[],
            happened := s.happened + EvictAll(s.sessions.Keys, ShutDown))
  }

  class SessionRouter {
    const options: Options
    var sessions: map<Key, Record>
    var inFlightTurns: map<Key, string>
    var isShutdown: bool
    ghost var happened: multiset<Happening>
    var records: map<Key, nat>
    var made: nat
    var pending: map<nat, Pending>
    var calls: nat

    ghost function View(): State
      reads this
    {
      State(options, sessions, inFlightTurns, isShutdown, happened)
    }

    ghost function WholeView(): World
      reads this
    {
      World(View(), records, made, pending, calls)
    }

    constructor (options: Options)
      ensures WholeView() == World(State(options, map[], map[], false, multiset{}), map[], 0, map[], 0)
    {
      this.options := options;
      sessions, inFlightTurns, isShutdown, happened := map[], map[], false, multiset{};
      records, made, pending, calls := map[], 0, map[], 0;
    }

    method SweepIdle(now: int)
      modifies `sessions, `happened
      ensures View() == Swept(old(View()), now)
    {
      hide SweptAmong, IdleAmong, WithoutIfIdle, EvictAll;
      if isShutdown {
        return;
      }
      var pending := sessions.Keys;
      ghost var s: State, done: set<Key> := View(), {};
      SweptNone(s, now);
      while pending != {}
        invariant pending + done == s.sessions.Keys && pending !! done
        invariant View() == SweptAmong(s, done, now)
        decreases pending
      {
        var key :| key in pending;
        SweptOneMore(s, done, key, now);
        pending := pending - {key};
        done := done + {key};
        SweepOne(key, now);
      }
      assert done == s.sessions.Keys;
    }

    method SweepOne(key: Key, now: int)
      requires key in sessions
      modifies `sessions, `happened
      ensures View() == WithoutIfIdle(old(View()), key, now)
    {
      if key in inFlightTurns {
        return;
      }
      if now - sessions[key].lastUsedAt > options.idleTimeoutMs {
        sessions := sessions - {key};
        happened := happened + multiset{Evicted(key, Idle)};
      }
    }

    /** `getOrCreate` up to the point where it waits, or to its end. */
    method BeginGetOrCreate(context: Context, now: int) returns (answer: Answer)
      modifies `sessions, `happened, `pending, `calls
      ensures WholeView() == Begun(old(WholeView()), context, now)
      ensures answer == AnswerOn(Swept(old(View()), now), context.sessionKey, old(calls))
    {
      hide MergeContext, Swept, SweptAmong;
      SweepIdle(now);
      var key := context.sessionKey;
      if key in sessions {
        var cached := sessions[key];
        cached := cached.(context := MergeContext(cached.context, context));
        if IsDirty(cached) && options.canRecreate {
          happened := happened + multiset{Evicted(key, DirtyRecreate)};
          sessions := sessions[key := cached];
          answer := Wait(Recreating(key, RecordAt(records, key)));
          return;
        }
        cached := cached.(lastUsedAt := now);
        sessions := sessions[key := cached];
        return HandedOut(cached.session);
      }
      answer := Wait(Creating(context));
    }

    method Wait(p: Pending) returns (answer: Answer)
      modifies `pending, `calls
      ensures answer == Waiting(old(calls))
      ensures pending == old(pending)[old(calls) := p] && calls == old(calls) + 1
    {
      answer := Waiting(calls);
      pending := pending[calls := p];
      calls := calls + 1;
    }

    /** The rest of `getOrCreate`, once the factory or the recreator has returned. */
    method ResumeGetOrCreate(call: nat, built: nat, now: int) returns (session: nat)
      requires call in pending
      modifies `sessions, `happened, `records, `made, `pending
      ensures WholeView() == Resumed(old(WholeView()), call, built, now)
      ensures session == built
    {
      match pending[call] {
        case Creating(context) =>
          var key := context.sessionKey;
          sessions := sessions[key := Record(built, now, context, None)];
          happened := happened + multiset{Installed(key)};
          records := records[key := made];
          made := made + 1;
        case Recreating(key, record) =>
          if key in sessions && RecordAt(records, key) == record {
            var cached := sessions[key];
            cached := cached.(session := built);
            cached := cached.(dirtyReason := None);
            cached := cached.(lastUsedAt := now);
            sessions := sessions[key := cached];
          }
      }
      pending := pending - {call};
      return built;
    }

    method FailGetOrCreate(call: nat)
      requires call in pending
      modifies `pending
      ensures WholeView() == Failed(old(WholeView()), call)
    {
      pending := pending - {call};
    }

    /** A `getOrCreate` during whose wait nothing happens. */
    method GetOrCreate(context: Context, built: nat, now: int) returns (session: nat)
      modifies `sessions, `happened, `records, `made, `pending, `calls
      ensures View() == GotOrCreated(old(View()), context, built, now)
      ensures context.sessionKey in sessions && session == sessions[context.sessionKey].session
    {
      ResumedAtOnce(WholeView(), context, built, now);
      var answer := BeginGetOrCreate(context, now);
      match answer {
        case HandedOut(cached) => session := cached;
        case Waiting(call) => session := ResumeGetOrCreate(call, built, now);
      }
    }

    method BeginTurn(sessionKey: Key, runId: string, now: int) returns (begun: bool)
      modifies `sessions, `happened, `inFlightTurns
      ensures begun == (sessionKey !in old(inFlightTurns))
      ensures
        var t := Swept(old(View()), now);
        View() == if begun then t.(turns := t.turns[sessionKey := runId]) else t
    {
      SweepIdle(now);
      if sessionKey in inFlightTurns {
        return false;
      }
      inFlightTurns := inFlightTurns[sessionKey := runId];
      return true;
    }

    method EndTurn(sessionKey: Key, runId: Option<string>, now: int)
      modifies `sessions, `inFlightTurns
      ensures View() == TurnEnded(old(View()), sessionKey, runId, now)
    {
      if runId.None? || runId.value == ""
         || (sessionKey in inFlightTurns && inFlightTurns[sessionKey] == runId.value) {
        inFlightTurns := inFlightTurns - {sessionKey};
      }
      if sessionKey in sessions {
        sessions := sessions[sessionKey := sessions[sessionKey].(lastUsedAt := now)];
      }
    }

    method Abort(sessionKey: Key, now: int)
      modifies `sessions
      ensures View() == Touched(old(View()), sessionKey, now)
    {
      if sessionKey in sessions {
        sessions := sessions[sessionKey := sessions[sessionKey].(lastUsedAt := now)];
      }
    }

    method Close(sessionKey: Key)
      modifies `sessions, `happened
      ensures View() ==
        if sessionKey in old(sessions)
        then old(View()).(sessions := old(sessions) - {sessionKey},
                          happened := old(happened) + multiset{Evicted(sessionKey, Closed)})
        else old(View())
    {
      if sessionKey in sessions {
        sessions := sessions - {sessionKey};
        happened := happened + multiset{Evicted(sessionKey, Closed)};
      }
    }

    /** `markAllDirty` without a project, `markProjectDirty` with one. */
    method MarkDirty(project: Option<string>, reason: string) returns (count: nat)
      modifies `sessions
      ensures View() == Marked(old(View()), project, reason)
      ensures count == |MarksAmong(old(sessions), old(sessions).Keys, project)|
    {
      hide Marks, MarkedAmong, MarksAmong, MarkedAt;
      count := 0;
      var pending := sessions.Keys;
      ghost var s: State, done: set<Key> := View(), {};
      MarkedNone(s, project, reason);
      while pending != {}
        invariant pending + done == s.sessions.Keys && pending !! done
        invariant View() == MarkedAmong(s, done, project, reason)
        invariant count == |MarksAmong(s.sessions, done, project)|
        decreases pending
      {
        var key :| key in pending;
        MarkedOneMore(s, done, key, project, reason);
        MarksOneMore(s.sessions, done, key, project);
        pending := pending - {key};
        done := done + {key};
        var marked := MarkOne(key, project, reason);
        if marked {
          count := count + 1;
        }
      }
      assert done == s.sessions.Keys;
    }

    method MarkOne(key: Key, project: Option<string>, reason: string) returns (marked: bool)
      requires key in sessions
      modifies `sessions
      ensures marked == Marks(project, old(sessions)[key])
      ensures View() == MarkedAt(old(View()), key, project, reason)
    {
      if project.Some? && sessions[key].context.projectKey != project {
        return false;
      }
      sessions := sessions[key := sessions[key].(dirtyReason := Some(reason))];
      return true;
    }

    method ShutDownRouter()
      modifies `sessions, `happened, `inFlightTurns, `isShutdown
      ensures View() == ShutDownState(old(View()))
    {
      hide EvictAll;
      if isShutdown {
        return;
      }
      isShutdown := true;
      EvictNone(ShutDown);
      var pending := sessions.Keys;
      ghost var done: set<Key> := {};
      while pending != {}
        invariant pending + done == sessions.Keys && pending !! done
        invariant happened == old(happened) + EvictAll(done, ShutDown)
        invariant sessions == old(sessions) && isShutdown
        decreases pending
      {
        var key :| key in pending;
        pending := pending - {key};
        EvictOneMore(done, key, ShutDown);
        done := done + {key};
        happened := happened + multiset{Evicted(key, ShutDown)};
      }
      assert done == old(sessions).Keys;
      sessions := map[];
      inFlightTurns := map[];
    }
  }

  lemma {:induction false} EvictNone(reason: Reason)
    ensures EvictAll({}, reason) == multiset{}
  {
  }

  lemma {:induction false} EvictOneMore(keys: set<Key>, key: Key, reason: Reason)
    requires key !in keys
    ensures EvictAll(keys + {key}, reason) == EvictAll(keys, reason) + multiset{Evicted(key, reason)}
  {
    assert (set k | k in keys + {key} :: Evicted(k, reason))
        == (set k | k in keys :: Evicted(k, reason)) + {Evicted(key, reason)};
  }
}
