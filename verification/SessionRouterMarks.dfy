/** Dirty marks over any interleaving of calls: which outdated sessions are handed out. */
module SessionRouterMarks {
  import opened Prelude
  import opened SessionRouter
  import opened SessionRouterTheorems

  /** A run with its history of marks. `missed` are the calls that a mark came upon while
      they waited, `late` the session objects such calls brought back. `marks` holds, for
      every object that a mark has found in the cache, the reason of the latest one. */
  datatype Story = Story(w: World, built: set<nat>, missed: set<nat>, late: set<nat>, marks: map<nat, string>)

  /** A mark for `project` comes upon the session that a waiting call is for: one that is
      being created, or a cached one that is being recreated. */
  predicate ComesUpon(w: World, project: Option<string>, call: nat) {
    call in w.pending
    && match w.pending[call]
       case Creating(context) => project.None? || context.projectKey == project
       case Recreating(key, record) =>
         key in w.s.sessions && RecordAt(w.records, key) == record && Marks(project, w.s.sessions[key])
  }

  function FoundBy(s: State, project: Option<string>): set<nat> {
    set k | k in s.sessions && Marks(project, s.sessions[k]) :: s.sessions[k].session
  }

  function Remarked(marks: map<nat, string>, found: set<nat>, reason: string): map<nat, string> {
    map x | x in marks.Keys + found :: if x in found then reason else marks[x]
  }

  ghost function Continue(t: Story, op: Op): Story {
    var u := t.(w := Next(t.w, op));
    match op
    case GetOrCreate(_, built, _) => u.(built := t.built + {built})
    case Resume(call, built, _) =>
      if call !in t.w.pending then u
      else u.(built := t.built + {built}, late := if call in t.missed then t.late + {built} else t.late)
    case Mark(project, reason) =>
      u.(missed := t.missed + (set c | c in t.w.pending && ComesUpon(t.w, project, c)),
         marks := Remarked(t.marks, FoundBy(t.w.s, project), reason))
    case _ => u
  }

  function Opening(options: Options): Story {
    Story(Start(options), {}, {}, {}, map[])
  }

  ghost function Tell(options: Options, ops: seq<Op>): Story {
    if ops == [] then Opening(options) else Continue(Tell(options, Init(ops)), Last(ops))
  }

  /** The factory and the recreator return new objects. */
  ghost predicate BuildsAnew(options: Options, ops: seq<Op>) {
    ops == []
    || (BuildsAnew(options, Init(ops))
        && ((Last(ops).GetOrCreate? || Last(ops).Resume?) ==> Last(ops).built !in Tell(options, Init(ops)).built))
  }

  /** The session object that a call returns to its caller. */
  ghost function HandsOut(w: World, op: Op): Option<nat> {
    match op
    case GetOrCreate(context, built, now) =>
      (match AnswerOn(Swept(w.s, now), context.sessionKey, w.calls)
       case HandedOut(session) => Some(session)
       case Waiting(_) => Some(built))
    case Begin(context, now) =>
      (match AnswerOn(Swept(w.s, now), context.sessionKey, w.calls)
       case HandedOut(session) => Some(session)
       case Waiting(_) => None)
    case Resume(call, built, _) => if call in w.pending then Some(built) else None
    case _ => None
  }

  // The marks on the records are the marks of the history -----------------------------------------

  function MarkOf(t: Story, session: nat): Option<string> {
    if session in t.marks then Some(t.marks[session]) else None
  }

  ghost predicate Faithful(t: Story) {
    && t.marks.Keys <= t.built
    && (forall k :: k in t.w.s.sessions ==> FaithfulAt(t, k))
    && (forall j, k :: j in t.w.s.sessions && k in t.w.s.sessions && j != k ==>
          t.w.s.sessions[j].session != t.w.s.sessions[k].session)
  }

  predicate FaithfulAt(t: Story, k: Key)
    requires k in t.w.s.sessions
  {
    var r := t.w.s.sessions[k];
    r.session in t.built && r.dirtyReason == MarkOf(t, r.session)
  }

  /** The records that are still there hold their objects and their marks. */
  ghost predicate Survive(before: State, after: State) {
    forall k :: k in after.sessions ==> Survives(before, after, k)
  }

  predicate Survives(before: State, after: State, k: Key)
    requires k in after.sessions
  {
    && k in before.sessions
    && after.sessions[k].session == before.sessions[k].session
    && after.sessions[k].dirtyReason == before.sessions[k].dirtyReason
  }

  /** The same, except that the record under `key` may have got the object `built`. */
  ghost predicate Placed(before: State, after: State, key: Key, built: nat) {
    forall k :: k in after.sessions ==>
      || Survives(before, after, k)
      || (k == key && after.sessions[k].session == built && after.sessions[k].dirtyReason == None)
  }

  lemma {:induction false} SurvivingKeepsFaithful(t: Story, u: Story)
    requires Faithful(t) && Survive(t.w.s, u.w.s)
    requires u.marks == t.marks && t.built <= u.built
    ensures Faithful(u)
  {
    forall k | k in u.w.s.sessions ensures FaithfulAt(u, k) {
      assert Survives(t.w.s, u.w.s, k) && FaithfulAt(t, k);
    }
    forall j, k | j in u.w.s.sessions && k in u.w.s.sessions && j != k
      ensures u.w.s.sessions[j].session != u.w.s.sessions[k].session
    {
      assert Survives(t.w.s, u.w.s, j) && Survives(t.w.s, u.w.s, k);
    }
  }

  lemma {:induction false} PlacingKeepsFaithful(t: Story, u: Story, key: Key, built: nat)
    requires Faithful(t) && Placed(t.w.s, u.w.s, key, built) && built !in t.built
    requires u.marks == t.marks && u.built == t.built + {built}
    ensures Faithful(u)
  {
    forall k | k in u.w.s.sessions ensures FaithfulAt(u, k) {
      assert k in t.w.s.sessions ==> FaithfulAt(t, k);
    }
    forall j, k | j in u.w.s.sessions && k in u.w.s.sessions && j != k
      ensures u.w.s.sessions[j].session != u.w.s.sessions[k].session
    {
      assert j in t.w.s.sessions ==> FaithfulAt(t, j);
      assert k in t.w.s.sessions ==> FaithfulAt(t, k);
    }
  }

  lemma {:induction false} MarkingKeepsFaithful(t: Story, project: Option<string>, reason: string)
    requires Faithful(t)
    ensures Faithful(Continue(t, Mark(project, reason)))
  {
    var u := Continue(t, Mark(project, reason));
    var s, found := t.w.s, FoundBy(t.w.s, project);
    assert forall k :: k in s.sessions ==> FaithfulAt(t, k);
    forall k | k in u.w.s.sessions ensures FaithfulAt(u, k) {
      assert s.sessions[k].session in found <==> Marks(project, s.sessions[k]);
    }
  }

  lemma {:induction false} BeginSurvives(w: World, context: Context, now: int)
    ensures Survive(w.s, Begun(w, context, now).s)
  {
    hide MergeContext, SweptAmong;
    SweepSurvives(w.s, now);
    var s, t := Swept(w.s, now), Begun(w, context, now).s;
    forall k | k in t.sessions ensures Survives(w.s, t, k) {
      assert Survives(w.s, s, k);
    }
  }

  lemma {:induction false} SweepSurvives(s: State, now: int)
    ensures Survive(s, Swept(s, now))
  {
  }

  function KeyOf(p: Pending): Key {
    match p
    case Creating(context) => context.sessionKey
    case Recreating(key, _) => key
  }

  lemma {:induction false} ResumePlaces(w: World, call: nat, built: nat, now: int)
    requires call in w.pending
    ensures Placed(w.s, Resumed(w, call, built, now).s, KeyOf(w.pending[call]), built)
  {
  }

  lemma {:induction false} OthersSurvive(s: State, op: Op)
    requires !op.Mark?
    ensures Survive(s, NextState(s, op))
  {
    match op
    case BeginTurn(_, _, now) => SweepSurvives(s, now);
    case Sweep(now) => SweepSurvives(s, now);
    case _ =>
  }

  lemma {:induction false} StepKeepsFaithful(t: Story, op: Op)
    requires Faithful(t)
    requires (op.GetOrCreate? || op.Resume?) ==> op.built !in t.built
    ensures Faithful(Continue(t, op))
  {
    hide Faithful, Survive, Placed, Begun, Resumed, NextState;
    var u := Continue(t, op);
    match op
    case GetOrCreate(context, built, now) =>
      BeginSurvives(t.w, context, now);
      var b := t.(w := Begun(t.w, context, now));
      SurvivingKeepsFaithful(t, b);
      if b.w.calls > t.w.calls {
        CreatesOnlyWhatIsMissing(t.w, context, now);
        ResumePlaces(b.w, t.w.calls, built, now);
        PlacingKeepsFaithful(b, u, KeyOf(b.w.pending[t.w.calls]), built);
      } else {
        SurvivingKeepsFaithful(b, u) by {
          NothingMoves(b.w.s);
        }
      }
    case Begin(context, now) =>
      BeginSurvives(t.w, context, now);
      SurvivingKeepsFaithful(t, u);
    case Resume(call, built, now) =>
      if call in t.w.pending {
        ResumePlaces(t.w, call, built, now);
        PlacingKeepsFaithful(t, u, KeyOf(t.w.pending[call]), built);
      } else {
        NoCallNoChange(t.w, call, built, now);
      }
    case Mark(project, reason) => MarkingKeepsFaithful(t, project, reason);
    case Fail(_) =>
      NothingMoves(t.w.s);
      SurvivingKeepsFaithful(t, u);
    case _ =>
      OthersSurvive(t.w.s, op);
      SurvivingKeepsFaithful(t, u);
  }

  lemma {:induction false} NothingMoves(s: State)
    ensures Survive(s, s)
  {
  }

  lemma {:induction false} NoCallNoChange(w: World, call: nat, built: nat, now: int)
    requires call !in w.pending
    ensures Resumed(w, call, built, now) == w
  {
  }

  lemma {:induction false} AlwaysFaithful(options: Options, ops: seq<Op>)
    requires BuildsAnew(options, ops)
    ensures Faithful(Tell(options, ops)) && Tell(options, ops).w == Run(options, ops)
  {
    hide Continue, Faithful;
    if ops == [] {
      OpeningIsFaithful(options);
    } else {
      AlwaysFaithful(options, Init(ops));
      StepKeepsFaithful(Tell(options, Init(ops)), Last(ops));
      ContinueIsNext(Tell(options, Init(ops)), Last(ops));
    }
  }

  lemma {:induction false} OpeningIsFaithful(options: Options)
    ensures Faithful(Opening(options))
  {
  }

  lemma {:induction false} ContinueIsNext(t: Story, op: Op)
    ensures Continue(t, op).w == Next(t.w, op)
  {
  }

  // What is handed out ------------------------------------------------------------------------------

  /** A mark has been made for the object since it was asked for. */
  predicate Outdated(t: Story, session: nat) {
    session in t.late || session in t.marks
  }

  /** With a recreator, over every interleaving: the object a call hands out is outdated
      exactly when a mark was lost, because it came while the object was being built, or
      because the latest mark on its record gave an empty reason. */
  lemma {:induction false} OutdatedIsHandedOutIff(options: Options, ops: seq<Op>, op: Op, session: nat)
    requires options.canRecreate && BuildsAnew(options, ops + [op])
    requires HandsOut(Run(options, ops), op) == Some(session)
    ensures
      var t := Tell(options, ops + [op]);
      Outdated(t, session) <==> session in t.late || MarkOf(t, session) == Some("")
    ensures session in Tell(options, ops).marks ==> Tell(options, ops).marks[session] == ""
  {
    hide Next, Swept;
    var t := Tell(options, ops);
    assert Init(ops + [op]) == ops;
    AlwaysFaithful(options, ops);
    RecreatesForever(options, ops);
    if op.GetOrCreate? || op.Begin? {
      var s, key := Swept(t.w.s, op.now), op.context.sessionKey;
      SweepSurvives(t.w.s, op.now);
      SweepKeepsOptions(t.w.s, op.now);
      if key in s.sessions && !MustRecreate(s, key) {
        assert Survives(t.w.s, s, key) && FaithfulAt(t, key);
      }
    }
  }

  lemma {:induction false} SweepKeepsOptions(s: State, now: int)
    ensures Swept(s, now).options == s.options
  {
  }

  lemma {:induction false} RecreatesForever(options: Options, ops: seq<Op>)
    ensures Run(options, ops).s.options == options
  {
    if ops != [] {
      RecreatesForever(options, Init(ops));
      StepKeepsOptions(Run(options, Init(ops)), Last(ops));
    }
  }

  lemma {:induction false} StepKeepsOptions(w: World, op: Op)
    ensures Next(w, op).s.options == w.s.options
  {
  }

  predicate MarksHaveReasons(ops: seq<Op>) {
    forall n :: 0 <= n < |ops| && ops[n].Mark? ==> ops[n].reason != ""
  }

  /** With reasons in all marks, an object that a mark has ever found in the cache is
      never handed out again, in whatever order calls begin, wait and go on. */
  lemma {:induction false} DirtySessionsAreNeverHandedOut(options: Options, ops: seq<Op>, op: Op, session: nat)
    requires options.canRecreate && BuildsAnew(options, ops + [op]) && MarksHaveReasons(ops)
    requires HandsOut(Run(options, ops), op) == Some(session)
    ensures session !in Tell(options, ops).marks
  {
    hide Next, Swept;
    assert Init(ops + [op]) == ops;
    AlwaysFaithful(options, ops);
    ReasonsAreKept(options, ops);
    OutdatedIsHandedOutIff(options, ops, op, session);
  }

  lemma {:induction false} ReasonsAreKept(options: Options, ops: seq<Op>)
    requires MarksHaveReasons(ops)
    ensures forall x :: x in Tell(options, ops).marks ==> Tell(options, ops).marks[x] != ""
  {
    hide Next;
    if ops != [] {
      assert forall n :: 0 <= n < |Init(ops)| ==> Init(ops)[n] == ops[n];
      assert Last(ops).Mark? ==> ops[|ops| - 1].reason != "";
      ReasonsAreKept(options, Init(ops));
    }
  }

  /** The `n`-th operation is a mark that comes upon the session `call` waits for. */
  ghost predicate MarksWaiting(options: Options, ops: seq<Op>, call: nat, n: nat)
    requires n < |ops|
  {
    ops[n].Mark? && ComesUpon(Tell(options, ops[..n]).w, ops[n].project, call)
  }

  /** A call has missed a mark exactly when some mark came upon it while it waited. */
  lemma {:induction false} MissedIff(options: Options, ops: seq<Op>, call: nat)
    ensures call in Tell(options, ops).missed <==> exists n :: 0 <= n < |ops| && MarksWaiting(options, ops, call, n)
  {
    hide Next, ComesUpon;
    if ops != [] {
      var before := Init(ops);
      MissedIff(options, before, call);
      assert ops[..|ops| - 1] == before;
      forall n | 0 <= n < |before|
        ensures MarksWaiting(options, ops, call, n) <==> MarksWaiting(options, before, call, n)
      {
        assert before[..n] == ops[..n];
      }
      var last := |ops| - 1;
      if Last(ops).Mark? {
        OnlyWaitingCalls(Tell(options, before).w, Last(ops).project, call);
      }
      assert MarksWaiting(options, ops, call, last) || !MarksWaiting(options, ops, call, last);
    }
  }

  lemma {:induction false} OnlyWaitingCalls(w: World, project: Option<string>, call: nat)
    ensures ComesUpon(w, project, call) ==> call in w.pending
  {
  }

  /** The `n`-th operation brings back the object `session` for a call that missed a mark. */
  ghost predicate BringsBackLate(options: Options, ops: seq<Op>, session: nat, n: nat)
    requires n < |ops|
  {
    var t := Tell(options, ops[..n]);
    ops[n].Resume? && ops[n].built == session && ops[n].call in t.w.pending && ops[n].call in t.missed
  }

  /** An object is late exactly when a call that had missed a mark brought it back. */
  lemma {:induction false} LateIff(options: Options, ops: seq<Op>, session: nat)
    ensures session in Tell(options, ops).late <==>
            exists n :: 0 <= n < |ops| && BringsBackLate(options, ops, session, n)
  {
    hide Next, ComesUpon;
    if ops != [] {
      var before := Init(ops);
      LateIff(options, before, session);
      assert ops[..|ops| - 1] == before;
      forall n | 0 <= n < |before|
        ensures BringsBackLate(options, ops, session, n) <==> BringsBackLate(options, before, session, n)
      {
        assert before[..n] == ops[..n];
      }
      var lastBrings := BringsBackLate(options, ops, session, |ops| - 1);
      assert lastBrings ==> session in Tell(options, ops).late;
    }
  }

  /** A live, dirty session is replaced by the next `getOrCreate` exactly when the
      router has a recreator. */
  lemma {:induction false} DirtyIsReplacedIff(s: State, context: Context, built: nat, now: int)
    requires context.sessionKey in Swept(s, now).sessions
    requires IsDirty(s.sessions[context.sessionKey]) && built != s.sessions[context.sessionKey].session
    ensures
      var next := GotOrCreated(s, context, built, now);
      next.sessions[context.sessionKey].session != s.sessions[context.sessionKey].session <==> s.options.canRecreate
  {
  }

  // A mark that is lost --------------------------------------------------------------------------------

  function InstalledOnce(context: Context): Story {
    var key := context.sessionKey;
    var sessions := map[key := Record(10, 0, context, None)];
    var s := State(Options(1000, true), sessions, map[], false, multiset{Installed(key)});
    Story(World(s, map[key := 0], 1, map[], 1), {10}, {}, {}, map[])
  }

  function MarkedWith(t: Story, context: Context, reason: string, missed: set<nat>): Story {
    var marked := map[context.sessionKey := Record(10, 0, context, Some(reason))];
    t.(w := t.w.(s := t.w.s.(sessions := marked)), missed := missed, marks := map[10 := reason])
  }

  function RecreationBegun(t: Story, context: Context): Story {
    var key := context.sessionKey;
    var s := t.w.s.(happened := t.w.s.happened + multiset{Evicted(key, DirtyRecreate)});
    t.(w := t.w.(s := s, pending := map[1 := Recreating(key, 0)], calls := 2))
  }

  function RecreationEnded(t: Story, context: Context): Story {
    var sessions := map[context.sessionKey := Record(11, 0, context, None)];
    t.(w := t.w.(s := t.w.s.(sessions := sessions), pending := map[]), built := {10, 11}, late := {11})
  }

  lemma {:induction false} FirstInstallation(context: Context)
    ensures Continue(Opening(Options(1000, true)), GetOrCreate(context, 10, 0)) == InstalledOnce(context)
  {
    NothingIdle(Start(Options(1000, true)).s, 0);
  }

  lemma {:induction false} MarkOnce(t: Story, context: Context, reason: string)
    requires t.w.s.sessions.Keys == {context.sessionKey} && t.marks.Keys <= {10}
    requires var r := t.w.s.sessions[context.sessionKey]; r == Record(10, 0, context, r.dirtyReason)
    requires t.w.records == map[context.sessionKey := 0]
    requires t.w.pending == map[] || t.w.pending == map[1 := Recreating(context.sessionKey, 0)]
    ensures Continue(t, Mark(None, reason)) == MarkedWith(t, context, reason, t.missed + t.w.pending.Keys)
  {
    assert Marked(t.w.s, None, reason).sessions == map[context.sessionKey := Record(10, 0, context, Some(reason))];
    assert FoundBy(t.w.s, None) == {10};
    assert Remarked(t.marks, {10}, reason) == map[10 := reason];
    assert (set c | c in t.w.pending && ComesUpon(t.w, None, c)) == t.w.pending.Keys;
  }

  lemma {:induction false} BeginRecreation(context: Context)
    ensures
      var t := MarkedWith(InstalledOnce(context), context, "a", {});
      Continue(t, Begin(context, 0)) == RecreationBegun(t, context)
  {
    NothingIdle(MarkedWith(InstalledOnce(context), context, "a", {}).w.s, 0);
  }

  lemma {:induction false} EndRecreation(context: Context)
    ensures
      var begun := RecreationBegun(MarkedWith(InstalledOnce(context), context, "a", {}), context);
      var t := MarkedWith(begun, context, "b", {1});
      Continue(t, Resume(1, 11, 0)) == RecreationEnded(t, context)
  {
  }

  /** The session is marked, its recreation begins, it is marked again, and the
      recreation ends: the next call gets the object that was asked for before the second
      mark, and no mark is left. */
  lemma {:induction false} MarkIsLost(context: Context)
    ensures
      var options := Options(1000, true);
      var ops := [GetOrCreate(context, 10, 0), Mark(None, "a"), Begin(context, 0), Mark(None, "b"), Resume(1, 11, 0)];
      var t := Tell(options, ops);
      && BuildsAnew(options, ops)
      && HandsOut(t.w, Begin(context, 0)) == Some(11)
      && 11 in t.late && 11 !in t.marks
      && context.sessionKey in t.w.s.sessions && t.w.s.sessions[context.sessionKey].dirtyReason == None
  {
    hide Continue, Tell, BuildsAnew, InstalledOnce, MarkedWith, RecreationBegun, RecreationEnded;
    var options := Options(1000, true);
    var a, b, c, d, e :=
      GetOrCreate(context, 10, 0), Mark(None, "a"), Begin(context, 0), Mark(None, "b"), Resume(1, 11, 0);
    var t1 := InstalledOnce(context);
    var t2 := MarkedWith(t1, context, "a", {});
    var t3 := RecreationBegun(t2, context);
    var t4 := MarkedWith(t3, context, "b", {1});
    var t5 := RecreationEnded(t4, context);
    FirstInstallation(context);
    SecondMarkToo(context);
    BeginRecreation(context);
    EndRecreation(context);
    TellNothing(options);
    TellOneMore(options, [], a);
    assert [] + [a] == [a] && [a] + [b] == [a, b] && [a, b] + [c] == [a, b, c];
    assert [a, b, c] + [d] == [a, b, c, d] && [a, b, c, d] + [e] == [a, b, c, d, e];
    TellOneMore(options, [a], b);
    TellOneMore(options, [a, b], c);
    TellOneMore(options, [a, b, c], d);
    TellOneMore(options, [a, b, c, d], e);
    LostInTheEnd(context);
  }

  lemma {:induction false} TellNothing(options: Options)
    ensures Tell(options, []) == Opening(options) && BuildsAnew(options, [])
  {
  }

  lemma {:induction false} TellOneMore(options: Options, ops: seq<Op>, op: Op)
    requires BuildsAnew(options, ops)
    requires (op.GetOrCreate? || op.Resume?) ==> op.built !in Tell(options, ops).built
    ensures Tell(options, ops + [op]) == Continue(Tell(options, ops), op)
    ensures BuildsAnew(options, ops + [op])
  {
    hide Continue;
    assert Init(ops + [op]) == ops;
  }

  /** Both marks of the story, and the objects built before the second object comes. */
  lemma {:induction false} SecondMarkToo(context: Context)
    ensures
      var t1 := InstalledOnce(context);
      var t2 := MarkedWith(t1, context, "a", {});
      var t3 := RecreationBegun(t2, context);
      var t4 := MarkedWith(t3, context, "b", {1});
      && Continue(t1, Mark(None, "a")) == t2 && Continue(t3, Mark(None, "b")) == t4
      && 11 !in t4.built
  {
    hide Continue;
    var t1 := InstalledOnce(context);
    MarkOnce(t1, context, "a");
    MarkOnce(RecreationBegun(MarkedWith(t1, context, "a", {}), context), context, "b");
  }

  lemma {:induction false} LostInTheEnd(context: Context)
    ensures
      var t2 := MarkedWith(InstalledOnce(context), context, "a", {});
      var t := RecreationEnded(MarkedWith(RecreationBegun(t2, context), context, "b", {1}), context);
      && HandsOut(t.w, Begin(context, 0)) == Some(11)
      && 11 in t.late && 11 !in t.marks
      && context.sessionKey in t.w.s.sessions && t.w.s.sessions[context.sessionKey].dirtyReason == None
  {
    var t2 := MarkedWith(InstalledOnce(context), context, "a", {});
    NothingIdle(RecreationEnded(MarkedWith(RecreationBegun(t2, context), context, "b", {1}), context).w.s, 0);
  }
}
