/** The dashboard's aggregation: sessions, projects, everything, and the lifetime summary. */
module Dashboard {
  import opened Prelude
  import opened DashboardRecords
  import opened BucketSums

  // A session's statistics ---------------------------------------------------------------------

  datatype Stats = Stats(total: Bucket, byTier: Buckets, byScenario: Buckets, byRole: Buckets, byModel: Buckets)

  const NO_STATS := Stats(EMPTY, map[], map[], map[], map[])

  function Merged(s: Stats, e: Entry): Stats {
    Stats(
      Add(s.total, e.bucket),
      AddAt(s.byTier, e.tier, e.bucket),
      AddAt(s.byScenario, e.scenario, e.bucket),
      AddAt(s.byRole, e.role, e.bucket),
      AddAt(s.byModel, e.model, e.bucket))
  }

  class Routing {
    var total: Bucket
    var byTier: Buckets
    var byScenario: Buckets
    var byRole: Buckets
    var byModel: Buckets

    constructor ()
      ensures View() == NO_STATS
    {
      total := EMPTY;
      byTier, byScenario, byRole, byModel := map[], map[], map[], map[];
    }

    function View(): Stats
      reads this
    {
      Stats(total, byTier, byScenario, byRole, byModel)
    }

    method MergeRecord(record: Record)
      modifies this
      ensures View() == Merged(old(View()), Classify(record))
    {
      var bucket := BucketOf(record);
      total := Add(total, bucket);
      var tierKey := Label(OrElse(record.tier, OrElse(record.scenarioType, "default")));
      byTier := AddAt(byTier, tierKey, bucket);
      var scenarioKey := Label(OrElse(record.scenarioType, "default"));
      byScenario := AddAt(byScenario, scenarioKey, bucket);
      var roleKey := Label(if record.resolvedFrom == "subagent" then "sub" else "main");
      byRole := AddAt(byRole, roleKey, bucket);
      byModel := AddAt(byModel, ModelLabel(record), bucket);
    }
  }

  // The sessions of one project ------------------------------------------------------------------

  /** The statistics of every session that occurs. */
  function SessionStats(entries: seq<Entry>): map<Session, Stats> {
    if entries == [] then map[]
    else
      var before, e := SessionStats(Init(entries)), Last(entries);
      if !e.counted then before
      else before[e.session := Merged(if e.session in before then before[e.session] else NO_STATS, e)]
  }

  /** The sessions, by first appearance. */
  function SessionOrder(entries: seq<Entry>): seq<Session> {
    if entries == [] then []
    else
      var before, e := SessionOrder(Init(entries)), Last(entries);
      if e.counted && e.session !in before then before + [e.session] else before
  }

  /** What a session's statistics say about the records they come from. */
  ghost predicate Describes(s: Stats, entries: seq<Entry>, w: Where) {
    && s.total == Sum(entries, w)
    && Splits(s.byTier, entries, w, Tier)
    && Splits(s.byScenario, entries, w, Scenario)
    && Splits(s.byRole, entries, w, Role)
    && Splits(s.byModel, entries, w, Model)
  }

  lemma {:induction false} NothingDescribed(entries: seq<Entry>, w: Where)
    requires w.labels.None? && !Occurs(entries, w)
    ensures Describes(NO_STATS, entries, w)
  {
    NothingToSum(entries, w);
    forall p: Partition, l ensures SplitsAt(map[], entries, w, p, l) {
      assert !Occurs(entries, w.Under(p, {l})) by {
        if e :| e in entries && Selects(w.Under(p, {l}), e) {
          assert Selects(w, e);
        }
      }
      NothingToSum(entries, w.Under(p, {l}));
    }
  }

  lemma {:induction false} DescribesOneMore(s: Stats, entries: seq<Entry>, w: Where, e: Entry)
    requires w.labels.None? && Describes(s, entries, w)
    ensures Describes(if Selects(w, e) then Merged(s, e) else s, entries + [e], w)
  {
    hide Add;
    OneMore(entries, w, e);
    AddLaws(s.total, EMPTY, EMPTY);
    SplitsOneMore(s.byTier, entries, w, Tier, e);
    SplitsOneMore(s.byScenario, entries, w, Scenario, e);
    SplitsOneMore(s.byRole, entries, w, Role, e);
    SplitsOneMore(s.byModel, entries, w, Model, e);
  }

  function StatsOf(entries: seq<Entry>, s: Session): Stats {
    if s in SessionStats(entries) then SessionStats(entries)[s] else NO_STATS
  }

  /** Every session's total and each of its breakdowns are the exact sums of its
      records, and the sessions listed are the ones that occur, once each. */
  lemma {:induction false} SessionsAreDescribed(entries: seq<Entry>, s: Session)
    ensures Describes(StatsOf(entries, s), entries, In({s}))
    ensures s in SessionStats(entries) <==> Occurs(entries, In({s}))
    ensures s in SessionStats(entries) <==> s in SessionOrder(entries)
  {
    hide Add, Merged, Describes;
    if entries == [] {
      NothingDescribed(entries, In({s}));
    } else {
      var before, e := Init(entries), Last(entries);
      SessionsAreDescribed(before, s);
      if e.counted {
        SessionsAreDescribed(before, e.session);
      }
      assert entries == before + [e];
      DescribesOneMore(StatsOf(before, s), before, In({s}), e);
      OneMore(before, In({s}), e);
    }
  }

  predicate Distinct<T(==)>(s: seq<T>) {
    s == [] || (Last(s) !in Init(s) && Distinct(Init(s)))
  }

  lemma {:induction false} DistinctAt<T>(s: seq<T>, i: nat)
    requires Distinct(s) && i < |s|
    ensures s[i] !in s[..i]
  {
    if i < |s| - 1 {
      DistinctAt(Init(s), i);
      assert Init(s)[..i] == s[..i];
    }
  }

  lemma {:induction false} OrderIsDistinct(entries: seq<Entry>)
    ensures Distinct(SessionOrder(entries))
  {
    if entries != [] {
      OrderIsDistinct(Init(entries));
      var before, s := SessionOrder(Init(entries)), Last(entries).session;
      assert Init(before + [s]) == before;
    }
  }

  /** Sessions are listed in order of appearance: what comes later is listed later. */
  lemma {:induction false} OrderOfAppearance(entries: seq<Entry>, n: nat)
    requires n <= |entries|
    ensures SessionOrder(entries[..n]) <= SessionOrder(entries)
  {
    if n < |entries| {
      OrderOfAppearance(Init(entries), n);
      assert Init(entries)[..n] == entries[..n];
    } else {
      assert entries[..n] == entries;
    }
  }

  function SetOf(s: seq<Session>): set<Session> {
    set x | x in s
  }

  lemma {:induction false} OrderCovers(entries: seq<Entry>)
    ensures Covers(SetOf(SessionOrder(entries)), entries)
  {
    forall e | e in entries && e.counted ensures e.session in SessionOrder(entries) {
      SessionsAreDescribed(entries, e.session);
      assert Selects(In({e.session}), e);
    }
  }

  /** The routing objects are distinct and hold the statistics of their sessions. */
  ghost predicate Holds(sessions: map<Session, Routing>, stats: map<Session, Stats>)
    reads sessions.Values
  {
    && sessions.Keys == stats.Keys
    && (forall s :: s in sessions ==> sessions[s].View() == stats[s])
    && (forall s, t :: s in sessions && t in sessions && sessions[s] == sessions[t] ==> s == t)
  }

  lemma {:induction false} SessionsOneMore(entries: seq<Entry>, e: Entry)
    ensures
      var before := SessionStats(entries);
      var merged := before[e.session := Merged(StatsOf(entries, e.session), e)];
      SessionStats(entries + [e]) == if e.counted then merged else before
    ensures var before := SessionOrder(entries);
      SessionOrder(entries + [e]) == if e.counted && e.session !in before then before + [e.session] else before
  {
    assert Init(entries + [e]) == entries;
  }

  /** One counted record: its session is made first if there is none. */
  method CountRecord(sessions: map<Session, Routing>, record: Record, ghost stats: map<Session, Stats>)
    returns (all: map<Session, Routing>)
    requires Holds(sessions, stats)
    modifies sessions.Values
    ensures var key := Session(record.sessionId);
      Holds(all, stats[key := Merged(if key in stats then stats[key] else NO_STATS, Classify(record))])
    ensures fresh(all.Values - sessions.Values)
  {
    hide Merged, Classify, Contains;
    all := sessions;
    var key := Session(record.sessionId);
    if key !in sessions {
      var entry := new Routing();
      all := sessions[key := entry];
    }
    all[key].MergeRecord(record);
  }

  ghost predicate Loaded(sessions: map<Session, Routing>, order: seq<Session>, records: seq<Record>)
    reads sessions.Values
  {
    Holds(sessions, SessionStats(Entries(records))) && order == SessionOrder(Entries(records))
  }

  method LoadSessions(records: seq<Record>) returns (sessions: map<Session, Routing>, order: seq<Session>)
    ensures Loaded(sessions, order, records)
    ensures fresh(sessions.Values)
  {
    hide Classify, Merged, Holds, Entries, SessionStats, SessionOrder;
    sessions, order := map[], [];
    NoSessions();
    for i := 0 to |records|
      invariant Loaded(sessions, order, records[..i])
      invariant fresh(sessions.Values)
    {
      var record := records[i];
      LoadedOneMore(records[..i], record);
      assert records[..i + 1] == records[..i] + [record];
      if !IsSubSession(Session(record.sessionId)) {
        if Session(record.sessionId) !in order {
          order := order + [Session(record.sessionId)];
        }
        sessions := CountRecord(sessions, record, SessionStats(Entries(records[..i])));
      }
    }
    assert records[..|records|] == records;
  }

  lemma {:induction false} NoSessions()
    ensures Loaded(map[], [], [])
  {
  }

  lemma {:induction false} LoadedOneMore(records: seq<Record>, r: Record)
    ensures var before, key := SessionStats(Entries(records)), Session(r.sessionId);
      SessionStats(Entries(records + [r])) ==
      if IsSubSession(key) then before
      else before[key := Merged(if key in before then before[key] else NO_STATS, Classify(r))]
    ensures var before, key := SessionOrder(Entries(records)), Session(r.sessionId);
      SessionOrder(Entries(records + [r])) == if !IsSubSession(key) && key !in before then before + [key] else before
  {
    hide IsSubSession, Merged;
    EntriesOneMore(records, r);
    SessionsOneMore(Entries(records), Classify(r));
  }

  lemma {:induction false} EntriesOneMore(records: seq<Record>, r: Record)
    ensures Entries(records + [r]) == Entries(records) + [Classify(r)]
    ensures Init(Entries(records + [r])) == Entries(records)
  {
    assert Init(records + [r]) == records;
  }

  lemma {:induction false} EntriesAppend(a: seq<Record>, b: seq<Record>)
    ensures Entries(a + b) == Entries(a) + Entries(b)
  {
    hide Classify;
    if b == [] {
      assert a + b == a;
    } else {
      EntriesAppend(a, Init(b));
      assert a + b == (a + Init(b)) + [Last(b)];
      EntriesOneMore(a + Init(b), Last(b));
    }
  }

  // Adding maps of buckets -----------------------------------------------------------------------

  method MergeInto(target: Buckets, source: Buckets) returns (m: Buckets)
    ensures Merges(m, target, source)
  {
    hide Add;
    m := target;
    var left := source.Keys;
    while left != {}
      invariant left <= source.Keys
      invariant forall l ::
        At(m, l) == if l in source && l !in left then Add(At(target, l), source[l]) else At(target, l)
      invariant forall l :: l in m <==> l in target || (l in source && l !in left)
    {
      var key :| key in left;
      m := AddAt(m, key, source[key]);
      left := left - {key};
    }
    forall l ensures MergesAt(m, target, source, l) {
      AddLaws(At(target, l), EMPTY, EMPTY);
    }
  }

  method RegroupInto(target: Buckets, source: Buckets) returns (m: Buckets)
    ensures Regroups(m, target, source)
  {
    m := target;
    var left := source.Keys;
    assert source - left == map[];
    NothingRegrouped(m);
    while left != {}
      invariant left <= source.Keys
      invariant Regroups(m, target, source - left)
    {
      var model :| model in left;
      var provider := if HasSlash(model.text) then Label(BeforeSlash(model.text)) else model;
      ghost var before, done := m, source - left;
      m := AddAt(m, provider, source[model]);
      left := left - {model};
      assert source - left == done[model := source[model]];
      RegroupsOneMore(m, before, target, done, model, source[model]);
    }
    assert source - {} == source;
  }

  lemma {:induction false} NothingRegrouped(target: Buckets)
    ensures Regroups(target, target, map[])
  {
    hide Add;
    forall q ensures RegroupsAt(target, target, map[], q) {
      assert Restricted(map[], ModelsOf(map[], q)) == map[];
      AddLaws(At(target, q), EMPTY, EMPTY);
    }
  }

  lemma {:induction false} RegroupsOneMore(m: Buckets, before: Buckets, target: Buckets, done: Buckets, model: Label,
        b: Bucket)
    requires Regroups(before, target, done) && model !in done
    requires m == AddAt(before, ProviderOf(model), b)
    ensures Regroups(m, target, done[model := b])
  {
    hide Add, ProviderOf, MapSum;
    var after := done[model := b];
    forall q ensures RegroupsAt(m, target, after, q) {
      assert RegroupsAt(before, target, done, q);
      var was, now := Restricted(done, ModelsOf(done, q)), Restricted(after, ModelsOf(after, q));
      if q == ProviderOf(model) {
        assert model in ModelsOf(after, q);
        assert now - {model} == was;
        MapSumWithout(now, model);
        AddLaws(At(target, q), MapSum(was), b);
      } else {
        assert now == was;
        assert ModelsOf(after, q) == ModelsOf(done, q);
      }
    }
  }

  // One project -------------------------------------------------------------------------------------

  datatype Aggregate = Aggregate(total: Bucket, byTier: Buckets, byRole: Buckets, sessionCount: nat)

  datatype Project = Project(sessions: map<Session, Routing>, order: seq<Session>, aggregated: Aggregate)

  ghost predicate Aggregates(total: Bucket, byTier: Buckets, byRole: Buckets, entries: seq<Entry>, w: Where) {
    total == Sum(entries, w) && Splits(byTier, entries, w, Tier) && Splits(byRole, entries, w, Role)
  }

  /** The sum of the totals of some sessions. */
  function TotalOf(entries: seq<Entry>, sessions: seq<Session>): Bucket {
    if sessions == [] then EMPTY else Add(TotalOf(entries, Init(sessions)), StatsOf(entries, Last(sessions)).total)
  }

  ghost predicate Describe(p: Project, entries: seq<Entry>)
    reads p.sessions.Values
  {
    && Holds(p.sessions, SessionStats(entries))
    && p.order == SessionOrder(entries)
    && p.aggregated.sessionCount == |p.order|
    && p.aggregated.total == TotalOf(entries, p.order)
    && Aggregates(p.aggregated.total, p.aggregated.byTier, p.aggregated.byRole, entries, EVERYTHING)
  }

  /** One more session in the aggregate. */
  lemma {:induction false} AggregatesOneMore(entries: seq<Entry>, done: set<Session>, s: Session, stats: Stats,
        total: Bucket, byTier: Buckets, byRole: Buckets, tier: Buckets, role: Buckets)
    requires s !in done && Describes(stats, entries, In({s}))
    requires Aggregates(total, byTier, byRole, entries, In(done))
    requires Merges(tier, byTier, stats.byTier) && Merges(role, byRole, stats.byRole)
    ensures Aggregates(Add(total, stats.total), tier, role, entries, In(done + {s}))
  {
    hide Add;
    SumOfTwo(entries, In(done + {s}), In(done), In({s}));
    SplitsMoreSessions(byTier, tier, stats.byTier, entries, Tier, done, s);
    SplitsMoreSessions(byRole, role, stats.byRole, entries, Role, done, s);
  }

  lemma {:induction false} SplitsMoreSessions(before: Buckets, after: Buckets, part: Buckets, entries: seq<Entry>,
        p: Partition,
        done: set<Session>, s: Session)
    requires s !in done && Merges(after, before, part)
    requires Splits(before, entries, In(done), p) && Splits(part, entries, In({s}), p)
    ensures Splits(after, entries, In(done + {s}), p)
  {
    MergingAdds(after, before, part, entries, In({s}), p);
    SplitsAddsToNothing(before, entries, In(done), p);
    AddsOfSessions(map[], before, after, entries, p, done, {s});
    SplitsAddsToNothing(after, entries, In(done + {s}), p);
  }

  lemma {:induction false} AggregatesAll(entries: seq<Entry>, total: Bucket, byTier: Buckets, byRole: Buckets,
        sessions: set<Session>)
    requires Covers(sessions, entries) && Aggregates(total, byTier, byRole, entries, In(sessions))
    ensures Aggregates(total, byTier, byRole, entries, EVERYTHING)
  {
    SameSelection(entries, In(sessions), EVERYTHING);
    SplitsAddsToNothing(byTier, entries, In(sessions), Tier);
    SplitsAddsToNothing(byRole, entries, In(sessions), Role);
    AddsOfAllSessions(byTier, map[], entries, Tier, sessions);
    AddsOfAllSessions(byRole, map[], entries, Role, sessions);
    SplitsAddsToNothing(byTier, entries, EVERYTHING, Tier);
    SplitsAddsToNothing(byRole, entries, EVERYTHING, Role);
  }

  lemma {:induction false} NothingAggregated(entries: seq<Entry>, w: Where)
    requires w.labels.None? && !Occurs(entries, w)
    ensures Aggregates(EMPTY, map[], map[], entries, w)
  {
    NothingDescribed(entries, w);
  }

  lemma {:induction false} NextSession(order: seq<Session>, i: nat)
    requires Distinct(order) && i < |order|
    ensures order[i] !in SetOf(order[..i]) && SetOf(order[..i + 1]) == SetOf(order[..i]) + {order[i]}
    ensures Init(order[..i + 1]) == order[..i]
  {
    DistinctAt(order, i);
    assert order[..i + 1] == order[..i] + [order[i]];
  }

  /** The aggregate over the first `n` sessions. */
  ghost predicate AggregatesFirst(total: Bucket, byTier: Buckets, byRole: Buckets, entries: seq<Entry>, n: nat)
    requires n <= |SessionOrder(entries)|
  {
    var some := SessionOrder(entries)[..n];
    Aggregates(total, byTier, byRole, entries, In(SetOf(some))) && total == TotalOf(entries, some)
  }

  lemma {:induction false} AggregatesFirstMore(entries: seq<Entry>, i: nat, stats: Stats, total: Bucket,
        byTier: Buckets, byRole: Buckets,
        tier: Buckets, role: Buckets)
    requires i < |SessionOrder(entries)| && stats == StatsOf(entries, SessionOrder(entries)[i])
    requires AggregatesFirst(total, byTier, byRole, entries, i)
    requires Merges(tier, byTier, stats.byTier) && Merges(role, byRole, stats.byRole)
    ensures AggregatesFirst(Add(total, stats.total), tier, role, entries, i + 1)
  {
    hide Add, Aggregates, Describes, Splits, Adds, Merges, SetOf;
    var order := SessionOrder(entries);
    OrderIsDistinct(entries);
    NextSession(order, i);
    SessionsAreDescribed(entries, order[i]);
    AggregatesOneMore(entries, SetOf(order[..i]), order[i], stats, total, byTier, byRole, tier, role);
  }

  lemma {:induction false} AggregatesNoneAndAll(entries: seq<Entry>, total: Bucket, byTier: Buckets, byRole: Buckets)
    ensures AggregatesFirst(EMPTY, map[], map[], entries, 0)
    ensures AggregatesFirst(total, byTier, byRole, entries, |SessionOrder(entries)|) ==>
              total == TotalOf(entries, SessionOrder(entries)) && Aggregates(total, byTier, byRole, entries, EVERYTHING)
  {
    hide Add, Aggregates, Splits, Adds;
    var order := SessionOrder(entries);
    NothingAggregated(entries, In(SetOf(order[..0])));
    OrderCovers(entries);
    assert order[..|order|] == order;
    if Aggregates(total, byTier, byRole, entries, In(SetOf(order))) {
      AggregatesAll(entries, total, byTier, byRole, SetOf(order));
    }
  }

  lemma {:induction false} HeldStats(sessions: map<Session, Routing>, entries: seq<Entry>, i: nat)
    requires Holds(sessions, SessionStats(entries)) && i < |SessionOrder(entries)|
    ensures var s := SessionOrder(entries)[i]; s in sessions && sessions[s].View() == StatsOf(entries, s)
  {
    hide Describes, Add;
    SessionsAreDescribed(entries, SessionOrder(entries)[i]);
  }

  method AggregateProject(records: seq<Record>) returns (p: Project)
    ensures Describe(p, Entries(records))
    ensures fresh(p.sessions.Values)
    ensures
      var a := p.aggregated;
      Aggregates(a.total, a.byTier, a.byRole, Entries(records), EVERYTHING) && p.order == SessionOrder(Entries(records))
  {
    hide Add, AggregatesFirst, Aggregates, StatsOf, Holds, Merges, SessionOrder, SessionStats, Entries, TotalOf;
    var sessions, order := LoadSessions(records);
    ghost var entries := Entries(records);
    var total, byTier, byRole := EMPTY, map[], map[];
    AggregatesNoneAndAll(entries, total, byTier, byRole);
    for i := 0 to |order|
      invariant Loaded(sessions, order, records) && fresh(sessions.Values)
      invariant AggregatesFirst(total, byTier, byRole, entries, i)
    {
      HeldStats(sessions, entries, i);
      var routing := sessions[order[i]];
      var tier := MergeInto(byTier, routing.byTier);
      var role := MergeInto(byRole, routing.byRole);
      AggregatesFirstMore(entries, i, routing.View(), total, byTier, byRole, tier, role);
      total, byTier, byRole := Add(total, routing.total), tier, role;
    }
    AggregatesNoneAndAll(entries, total, byTier, byRole);
    p := Project(sessions, order, Aggregate(total, byTier, byRole, |order|));
  }

  // Everything ----------------------------------------------------------------------------------------

  datatype Data = Data(projects: seq<Project>, total: Bucket, byTier: Buckets, byRole: Buckets, sessionCount: nat)

  function AllRecords(stats: seq<seq<Record>>): seq<Record> {
    if stats == [] then [] else AllRecords(Init(stats)) + Last(stats)
  }

  function SessionCount(stats: seq<seq<Record>>): nat {
    if stats == [] then 0 else SessionCount(Init(stats)) + |SessionOrder(Entries(Last(stats)))|
  }

  ghost predicate DescribeAll(projects: seq<Project>, stats: seq<seq<Record>>)
    reads set p, r | p in projects && r in p.sessions.Values :: r
  {
    |projects| == |stats| && forall i :: 0 <= i < |stats| ==> Describe(projects[i], Entries(stats[i]))
  }

  lemma {:induction false} AggregatesMoreProjects(first: seq<Entry>, others: seq<Entry>, a: Aggregate,
        total: Bucket, byTier: Buckets, byRole: Buckets, tier: Buckets, role: Buckets)
    requires Aggregates(total, byTier, byRole, first, EVERYTHING)
    requires Aggregates(a.total, a.byTier, a.byRole, others, EVERYTHING)
    requires Merges(tier, byTier, a.byTier) && Merges(role, byRole, a.byRole)
    ensures Aggregates(Add(total, a.total), tier, role, first + others, EVERYTHING)
  {
    hide Add;
    SumAppend(first, others, EVERYTHING);
    MergingAdds(tier, byTier, a.byTier, others, EVERYTHING, Tier);
    MergingAdds(role, byRole, a.byRole, others, EVERYTHING, Role);
    SplitsOfLists(byTier, tier, first, others, EVERYTHING, Tier);
    SplitsOfLists(byRole, role, first, others, EVERYTHING, Role);
  }

  lemma {:induction false} AllRecordsOneMore(stats: seq<seq<Record>>, i: nat)
    requires i < |stats|
    ensures Entries(AllRecords(stats[..i + 1])) == Entries(AllRecords(stats[..i])) + Entries(stats[i])
    ensures SessionCount(stats[..i + 1]) == SessionCount(stats[..i]) + |SessionOrder(Entries(stats[i]))|
  {
    assert Init(stats[..i + 1]) == stats[..i];
    EntriesAppend(AllRecords(stats[..i]), stats[i]);
  }

  lemma {:induction false} NoRecords(stats: seq<seq<Record>>)
    ensures Entries(AllRecords(stats[..0])) == [] && SessionCount(stats[..0]) == 0
  {
  }

  method GetDashboardData(stats: seq<seq<Record>>) returns (d: Data)
    ensures DescribeAll(d.projects, stats)
    ensures forall p :: p in d.projects ==> fresh(p.sessions.Values)
    ensures Aggregates(d.total, d.byTier, d.byRole, Entries(AllRecords(stats)), EVERYTHING)
    ensures d.sessionCount == SessionCount(stats)
  {
    hide Add, Aggregates, Merges, SessionOrder, Entries, AllRecords, Splits, Describe, SessionCount;
    var projects: seq<Project> := [];
    var total, byTier, byRole, count := EMPTY, map[], map[], 0;
    NothingAggregated([], EVERYTHING);
    NoRecords(stats);
    for i := 0 to |stats|
      invariant DescribeAll(projects, stats[..i])
      invariant forall p :: p in projects ==> fresh(p.sessions.Values)
      invariant Aggregates(total, byTier, byRole, Entries(AllRecords(stats[..i])), EVERYTHING)
      invariant count == SessionCount(stats[..i])
    {
      var project := AggregateProject(stats[i]);
      var a := project.aggregated;
      var tier := MergeInto(byTier, a.byTier);
      var role := MergeInto(byRole, a.byRole);
      AggregatesMoreProjects(Entries(AllRecords(stats[..i])), Entries(stats[i]), a, total, byTier, byRole, tier, role);
      AllRecordsOneMore(stats, i);
      total, byTier, byRole := Add(total, a.total), tier, role;
      count, projects := count + |project.order|, projects + [project];
    }
    assert stats[..|stats|] == stats;
    d := Data(projects, total, byTier, byRole, count);
  }

  // The lifetime summary ---------------------------------------------------------------------------------

  datatype Summary = Summary(total: Bucket, byScenario: Buckets, byProvider: Buckets, byTier: Buckets)

  /** One more session of a project in the summary. */
  lemma {:induction false} SummaryOneMore(entries: seq<Entry>, done: set<Session>, s: Session, stats: Stats,
        was: (Buckets, Buckets), before: (Buckets, Buckets), after: (Buckets, Buckets))
    requires s !in done && Describes(stats, entries, In({s}))
    requires Adds(before.0, was.0, entries, In(done), Scenario) && Adds(before.1, was.1, entries, In(done), Provider)
    requires Merges(after.0, before.0, stats.byScenario) && Regroups(after.1, before.1, stats.byModel)
    ensures Adds(after.0, was.0, entries, In(done + {s}), Scenario)
    ensures Adds(after.1, was.1, entries, In(done + {s}), Provider)
  {
    MergingAdds(after.0, before.0, stats.byScenario, entries, In({s}), Scenario);
    RegroupingAdds(after.1, before.1, stats.byModel, entries, In({s}));
    AddsOfSessions(was.0, before.0, after.0, entries, Scenario, done, {s});
    AddsOfSessions(was.1, before.1, after.1, entries, Provider, done, {s});
  }

  lemma {:induction false} NothingAdded(m: Buckets, entries: seq<Entry>, p: Partition)
    ensures Adds(m, m, entries, In({}), p)
  {
    forall l ensures AddsAt(m, m, entries, In({}), p, l) {
      NothingToSum(entries, In({}).Under(p, {l}));
      AddLaws(At(m, l), EMPTY, EMPTY);
    }
  }

  method SummarizeProject(project: Project, ghost entries: seq<Entry>, scenarios: Buckets, providers: Buckets)
    returns (byScenario: Buckets, byProvider: Buckets)
    requires Describe(project, entries)
    ensures Adds(byScenario, scenarios, entries, EVERYTHING, Scenario)
    ensures Adds(byProvider, providers, entries, EVERYTHING, Provider)
  {
    byScenario, byProvider := scenarios, providers;
    var order := project.order;
    OrderIsDistinct(entries);
    NothingAdded(scenarios, entries, Scenario);
    NothingAdded(providers, entries, Provider);
    assert SetOf(order[..0]) == {};
    for i := 0 to |order|
      invariant Adds(byScenario, scenarios, entries, In(SetOf(order[..i])), Scenario)
      invariant Adds(byProvider, providers, entries, In(SetOf(order[..i])), Provider)
    {
      NextSession(order, i);
      SessionsAreDescribed(entries, order[i]);
      var routing := project.sessions[order[i]];
      var s := MergeInto(byScenario, routing.byScenario);
      var q := RegroupInto(byProvider, routing.byModel);
      SummaryOneMore(entries, SetOf(order[..i]), order[i], routing.View(),
                     (scenarios, providers), (byScenario, byProvider), (s, q));
      byScenario, byProvider := s, q;
    }
    assert order[..|order|] == order;
    OrderCovers(entries);
    AddsOfAllSessions(byScenario, scenarios, entries, Scenario, SetOf(order));
    AddsOfAllSessions(byProvider, providers, entries, Provider, SetOf(order));
  }

  method GetStatsSummary(stats: seq<seq<Record>>) returns (r: Summary)
    ensures r.total == Sum(Entries(AllRecords(stats)), EVERYTHING)
    ensures Splits(r.byScenario, Entries(AllRecords(stats)), EVERYTHING, Scenario)
    ensures Splits(r.byProvider, Entries(AllRecords(stats)), EVERYTHING, Provider)
    ensures Splits(r.byTier, Entries(AllRecords(stats)), EVERYTHING, Tier)
  {
    hide Add, Describe, Entries, AllRecords, Splits, Adds, Merges;
    var data := GetDashboardData(stats);
    var byScenario, byProvider: Buckets := map[], map[];
    NothingSplit(Scenario);
    NothingSplit(Provider);
    NoRecords(stats);
    for i := 0 to |data.projects|
      invariant DescribeAll(data.projects, stats)
      invariant Splits(byScenario, Entries(AllRecords(stats[..i])), EVERYTHING, Scenario)
      invariant Splits(byProvider, Entries(AllRecords(stats[..i])), EVERYTHING, Provider)
    {
      ghost var before, others := Entries(AllRecords(stats[..i])), Entries(stats[i]);
      assert Describe(data.projects[i], others);
      var s, q := SummarizeProject(data.projects[i], others, byScenario, byProvider);
      SplitsOfLists(byScenario, s, before, others, EVERYTHING, Scenario);
      SplitsOfLists(byProvider, q, before, others, EVERYTHING, Provider);
      AllRecordsOneMore(stats, i);
      byScenario, byProvider := s, q;
    }
    assert stats[..|stats|] == stats;
    r := Summary(data.total, byScenario, byProvider, data.byTier);
  }

  lemma {:induction false} NothingSplit(p: Partition)
    ensures Splits(map[], [], EVERYTHING, p)
  {
    forall l ensures SplitsAt(map[], [], EVERYTHING, p, l) {
    }
  }

  // Conservation ---------------------------------------------------------------------------------------------

  /** A bucket's saving is what its baseline leaves after its estimate. */
  predicate Consistent(b: Bucket) {
    b.savedCost == b.baselineCost - b.estimatedCost
  }

  /** Every breakdown of a described session adds up to the session's total, and every
      bucket in it is consistent. */
  lemma {:induction false} SessionConserves(records: seq<Record>, s: Session)
    ensures var t := StatsOf(Entries(records), s);
      && MapSum(t.byTier) == t.total && MapSum(t.byScenario) == t.total
      && MapSum(t.byRole) == t.total && MapSum(t.byModel) == t.total && Consistent(t.total)
  {
    var entries := Entries(records);
    var t := StatsOf(entries, s);
    SessionsAreDescribed(entries, s);
    SplitAddsUp(t.byTier, entries, In({s}), Tier);
    SplitAddsUp(t.byScenario, entries, In({s}), Scenario);
    SplitAddsUp(t.byRole, entries, In({s}), Role);
    SplitAddsUp(t.byModel, entries, In({s}), Model);
    SumsAreConsistent(records, In({s}));
  }

  /** Every breakdown of everything, in the dashboard or the summary, adds up to the
      same total; its buckets are consistent, and it counts the records of sessions that
      are not subagents'. */
  lemma {:induction false} BreakdownConserves(records: seq<Record>, m: Buckets, p: Partition, l: Label)
    requires Splits(m, Entries(records), EVERYTHING, p)
    ensures MapSum(m) == Sum(Entries(records), EVERYTHING)
    ensures MapSum(m).requestCount == CountedRecords(records)
    ensures Consistent(MapSum(m)) && Consistent(At(m, l))
  {
    SplitAddsUp(m, Entries(records), EVERYTHING, p);
    SumsAreConsistent(records, EVERYTHING);
    SumsAreConsistent(records, EVERYTHING.Under(p, {l}));
    assert SplitsAt(m, Entries(records), EVERYTHING, p, l);
  }
}
