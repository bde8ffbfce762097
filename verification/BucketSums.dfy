/** What a set of records adds up to, and maps of buckets that split it up. */
module BucketSums {
  import opened Prelude
  import opened DashboardRecords

  datatype Partition = Tier | Scenario | Role | Model | Provider

  /** The label an entry goes under, in each way of splitting the entries up. */
  function LabelOf(p: Partition, e: Entry): Label {
    match p
    case Tier => e.tier
    case Scenario => e.scenario
    case Role => e.role
    case Model => e.model
    case Provider => ProviderOf(e.model)
  }

  /** A selection of counted entries: of some sessions or all, and under some labels
      of a partition or all. */
  datatype Where = Where(sessions: Option<set<Session>>, partition: Partition, labels: Option<set<Label>>)
  {
    function Under(p: Partition, ls: set<Label>): Where {
      Where(sessions, p, Some(ls))
    }
  }

  const EVERYTHING := Where(None, Tier, None)

  function In(sessions: set<Session>): Where {
    Where(Some(sessions), Tier, None)
  }

  predicate Selects(w: Where, e: Entry) {
    && e.counted
    && (w.sessions.Some? ==> e.session in w.sessions.value)
    && (w.labels.Some? ==> LabelOf(w.partition, e) in w.labels.value)
  }

  function Share(w: Where, e: Entry): Bucket {
    if Selects(w, e) then e.bucket else EMPTY
  }

  function Sum(entries: seq<Entry>, w: Where): Bucket {
    if entries == [] then EMPTY else Add(Sum(Init(entries), w), Share(w, Last(entries)))
  }

  predicate Occurs(entries: seq<Entry>, w: Where) {
    exists e :: e in entries && Selects(w, e)
  }

  function CountedRecords(records: seq<Record>): nat {
    if records == [] then 0
    else CountedRecords(Init(records)) + (if IsSubSession(Session(Last(records).sessionId)) then 0 else 1)
  }

  /** In exact arithmetic every sum saves what it does not spend of its baseline, and
      the sum over everything counts the records of sessions that are not subagents'. */
  lemma {:induction false} SumsAreConsistent(records: seq<Record>, w: Where)
    ensures var sum := Sum(Entries(records), w); sum.savedCost == sum.baselineCost - sum.estimatedCost
    ensures Sum(Entries(records), EVERYTHING).requestCount == CountedRecords(records)
  {
    if records != [] {
      SumsAreConsistent(Init(records), w);
      assert Init(Entries(records)) == Entries(Init(records));
    }
  }

  lemma {:induction false} SumAppend(a: seq<Entry>, b: seq<Entry>, w: Where)
    ensures Sum(a + b, w) == Add(Sum(a, w), Sum(b, w))
  {
    if b == [] {
      assert a + b == a;
      AddLaws(Sum(a, w), EMPTY, EMPTY);
    } else {
      SumAppend(a, Init(b), w);
      assert Init(a + b) == a + Init(b) && Last(a + b) == Last(b);
      AddLaws(Sum(a, w), Sum(Init(b), w), Share(w, Last(b)));
    }
  }

  lemma {:induction false} NothingToSum(entries: seq<Entry>, w: Where)
    requires !Occurs(entries, w)
    ensures Sum(entries, w) == EMPTY
  {
    if entries != [] {
      assert Last(entries) in entries;
      forall e | e in Init(entries) ensures !Selects(w, e) {
        assert e in entries;
      }
      NothingToSum(Init(entries), w);
    }
  }

  ghost predicate DividesInTwo(entries: seq<Entry>, whole: Where, a: Where, b: Where) {
    forall e {:trigger Selects(whole, e)} {:trigger e in entries} :: e in entries ==>
      (Selects(whole, e) <==> Selects(a, e) || Selects(b, e)) && !(Selects(a, e) && Selects(b, e))
  }

  /** A selection made of two that do not overlap adds up to both. */
  lemma {:induction false} SumOfTwo(entries: seq<Entry>, whole: Where, a: Where, b: Where)
    requires DividesInTwo(entries, whole, a, b)
    ensures Sum(entries, whole) == Add(Sum(entries, a), Sum(entries, b))
    ensures Occurs(entries, whole) <==> Occurs(entries, a) || Occurs(entries, b)
  {
    hide Add;
    AddLaws(EMPTY, EMPTY, EMPTY);
    if entries != [] {
      var e := Last(entries);
      assert e in entries;
      SumOfTwo(Init(entries), whole, a, b);
      SharesOfTwo(Sum(Init(entries), a), Share(a, e), Sum(Init(entries), b), Share(b, e));
      AddLaws(Share(a, e), EMPTY, EMPTY);
      AddLaws(Share(b, e), EMPTY, EMPTY);
    }
  }

  lemma {:induction false} SharesOfTwo(a: Bucket, x: Bucket, b: Bucket, y: Bucket)
    ensures Add(Add(a, x), Add(b, y)) == Add(Add(a, b), Add(x, y))
  {
  }

  lemma {:induction false} SameSelection(entries: seq<Entry>, a: Where, b: Where)
    requires forall e :: e in entries ==> (Selects(a, e) <==> Selects(b, e))
    ensures Sum(entries, a) == Sum(entries, b)
    ensures Occurs(entries, a) <==> Occurs(entries, b)
  {
    if entries != [] {
      assert Last(entries) in entries;
      SameSelection(Init(entries), a, b);
    }
  }

  lemma {:induction false} OneMore(entries: seq<Entry>, w: Where, e: Entry)
    ensures Sum(entries + [e], w) == Add(Sum(entries, w), Share(w, e))
    ensures Occurs(entries + [e], w) <==> Occurs(entries, w) || Selects(w, e)
  {
    var all := entries + [e];
    assert Init(all) == entries;
    if Occurs(entries, w) {
      var q :| q in entries && Selects(w, q);
      assert q in all;
    }
    assert e in all;
  }

  // Buckets by label ----------------------------------------------------------------------------

  type Buckets = map<Label, Bucket>

  function At(m: Buckets, l: Label): Bucket {
    if l in m then m[l] else EMPTY
  }

  /** Adds `b` to the bucket under `l`, which is made first if there is none. */
  function AddAt(m: Buckets, l: Label, b: Bucket): Buckets {
    m[l := Add(At(m, l), b)]
  }

  /** The sum of all buckets of a map. */
  ghost function MapSum(m: Buckets): Bucket {
    if m == map[] then EMPTY
    else
      var l :| l in m;
      Add(MapSum(m - {l}), m[l])
  }

  lemma {:induction false} MapSumWithout(m: Buckets, l: Label)
    requires l in m
    ensures MapSum(m) == Add(MapSum(m - {l}), m[l])
    decreases |m|
  {
    var k :| k in m && MapSum(m) == Add(MapSum(m - {k}), m[k]);
    if k != l {
      MapSumWithout(m - {k}, l);
      MapSumWithout(m - {l}, k);
      assert (m - {k}) - {l} == (m - {l}) - {k};
      AddLaws(MapSum(m - {k} - {l}), m[l], m[k]);
    }
  }

  function Restricted(m: Buckets, ls: set<Label>): Buckets {
    map l | l in m && l in ls :: m[l]
  }

  // Maps of buckets that split entries up -----------------------------------------------------------

  /** `m` is `target` with each selected entry added under its label. */
  ghost predicate Adds(m: Buckets, target: Buckets, entries: seq<Entry>, w: Where, p: Partition) {
    forall l :: AddsAt(m, target, entries, w, p, l)
  }

  ghost predicate AddsAt(m: Buckets, target: Buckets, entries: seq<Entry>, w: Where, p: Partition, l: Label) {
    && At(m, l) == Add(At(target, l), Sum(entries, w.Under(p, {l})))
    && (l in m <==> l in target || Occurs(entries, w.Under(p, {l})))
  }

  /** `m` has a bucket for exactly the labels that occur among the selected entries,
      and each bucket is the sum of the entries under its label. */
  ghost predicate Splits(m: Buckets, entries: seq<Entry>, w: Where, p: Partition) {
    forall l :: SplitsAt(m, entries, w, p, l)
  }

  ghost predicate SplitsAt(m: Buckets, entries: seq<Entry>, w: Where, p: Partition, l: Label) {
    && At(m, l) == Sum(entries, w.Under(p, {l}))
    && (l in m <==> Occurs(entries, w.Under(p, {l})))
  }

  lemma {:induction false} SplitsAddsToNothing(m: Buckets, entries: seq<Entry>, w: Where, p: Partition)
    ensures Splits(m, entries, w, p) <==> Adds(m, map[], entries, w, p)
  {
    forall l ensures SplitsAt(m, entries, w, p, l) <==> AddsAt(m, map[], entries, w, p, l) {
      AddLaws(Sum(entries, w.Under(p, {l})), EMPTY, EMPTY);
    }
  }

  /** The buckets of some labels add up to the entries under these labels. */
  lemma {:induction false} RestrictedAddsUp(m: Buckets, entries: seq<Entry>, w: Where, p: Partition, ls: set<Label>)
    requires w.labels.None? && Splits(m, entries, w, p)
    requires ls <= m.Keys
    ensures MapSum(Restricted(m, ls)) == Sum(entries, w.Under(p, ls))
    decreases ls
  {
    hide Add;
    if ls == {} {
      assert Restricted(m, ls) == map[];
      NothingToSum(entries, w.Under(p, {}));
    } else {
      var l :| l in ls;
      var rest := ls - {l};
      RestrictedAddsUp(m, entries, w, p, rest);
      assert Restricted(m, ls) - {l} == Restricted(m, rest);
      MapSumWithout(Restricted(m, ls), l);
      SumOfTwo(entries, w.Under(p, ls), w.Under(p, rest), w.Under(p, {l}));
      assert SplitsAt(m, entries, w, p, l);
    }
  }

  /** Conservation: the buckets of a split add up to all the selected entries. */
  lemma {:induction false} SplitAddsUp(m: Buckets, entries: seq<Entry>, w: Where, p: Partition)
    requires w.labels.None? && Splits(m, entries, w, p)
    ensures MapSum(m) == Sum(entries, w)
  {
    hide Add;
    RestrictedAddsUp(m, entries, w, p, m.Keys);
    assert Restricted(m, m.Keys) == m;
    forall e | e in entries ensures Selects(w.Under(p, m.Keys), e) <==> Selects(w, e) {
      if Selects(w, e) {
        var l := LabelOf(p, e);
        assert Selects(w.Under(p, {l}), e);
        assert SplitsAt(m, entries, w, p, l);
      }
    }
    SameSelection(entries, w.Under(p, m.Keys), w);
  }

  /** One more entry. */
  lemma {:induction false} SplitsOneMore(m: Buckets, entries: seq<Entry>, w: Where, p: Partition, e: Entry)
    requires w.labels.None? && Splits(m, entries, w, p)
    ensures Splits(if Selects(w, e) then AddAt(m, LabelOf(p, e), e.bucket) else m, entries + [e], w, p)
  {
    hide Add;
    var after := if Selects(w, e) then AddAt(m, LabelOf(p, e), e.bucket) else m;
    forall l ensures SplitsAt(after, entries + [e], w, p, l) {
      assert SplitsAt(m, entries, w, p, l);
      AddLaws(At(m, l), EMPTY, EMPTY);
      OneMore(entries, w.Under(p, {l}), e);
    }
  }

  /** First some sessions, then others. */
  lemma {:induction false} AddsOfSessions(before: Buckets, middle: Buckets, after: Buckets, entries: seq<Entry>,
        p: Partition,
        first: set<Session>, others: set<Session>)
    requires first !! others
    requires Adds(middle, before, entries, In(first), p) && Adds(after, middle, entries, In(others), p)
    ensures Adds(after, before, entries, In(first + others), p)
  {
    hide Add;
    forall l ensures AddsAt(after, before, entries, In(first + others), p, l) {
      var a, b := In(first).Under(p, {l}), In(others).Under(p, {l});
      assert AddsAt(middle, before, entries, In(first), p, l) && AddsAt(after, middle, entries, In(others), p, l);
      SumOfTwo(entries, In(first + others).Under(p, {l}), a, b);
      AddLaws(At(before, l), Sum(entries, a), Sum(entries, b));
    }
  }

  /** First some entries, then others. */
  lemma {:induction false} SplitsOfLists(middle: Buckets, after: Buckets, first: seq<Entry>, others: seq<Entry>,
        w: Where, p: Partition)
    requires Splits(middle, first, w, p) && Adds(after, middle, others, w, p)
    ensures Splits(after, first + others, w, p)
  {
    hide Add;
    forall l ensures SplitsAt(after, first + others, w, p, l) {
      assert SplitsAt(middle, first, w, p, l) && AddsAt(after, middle, others, w, p, l);
      SumAppend(first, others, w.Under(p, {l}));
      assert forall e :: e in first + others <==> e in first || e in others;
    }
  }

  ghost predicate Covers(sessions: set<Session>, entries: seq<Entry>) {
    forall e :: e in entries && e.counted ==> e.session in sessions
  }

  /** All sessions that occur are everything. */
  lemma {:induction false} AddsOfAllSessions(m: Buckets, target: Buckets, entries: seq<Entry>, p: Partition,
        sessions: set<Session>)
    requires Covers(sessions, entries)
    requires Adds(m, target, entries, In(sessions), p)
    ensures Adds(m, target, entries, EVERYTHING, p)
  {
    forall l ensures AddsAt(m, target, entries, EVERYTHING, p, l) {
      assert AddsAt(m, target, entries, In(sessions), p, l);
      SameSelection(entries, In(sessions).Under(p, {l}), EVERYTHING.Under(p, {l}));
    }
  }

  // Adding maps to maps -------------------------------------------------------------------------------

  /** `m` adds the buckets of `target` and `source` up, label by label. */
  ghost predicate Merges(m: Buckets, target: Buckets, source: Buckets) {
    forall l :: MergesAt(m, target, source, l)
  }

  ghost predicate MergesAt(m: Buckets, target: Buckets, source: Buckets, l: Label) {
    At(m, l) == Add(At(target, l), At(source, l)) && (l in m <==> l in target || l in source)
  }

  lemma {:induction false} MergingAdds(m: Buckets, target: Buckets, source: Buckets, entries: seq<Entry>, w: Where,
        p: Partition)
    requires Merges(m, target, source) && Splits(source, entries, w, p)
    ensures Adds(m, target, entries, w, p)
  {
    hide Add;
    forall l ensures AddsAt(m, target, entries, w, p, l) {
      assert MergesAt(m, target, source, l) && SplitsAt(source, entries, w, p, l);
    }
  }

  function ModelsOf(m: Buckets, provider: Label): set<Label> {
    set l | l in m && ProviderOf(l) == provider
  }

  /** `m` is `target` with the buckets of `source` added under their providers. */
  ghost predicate Regroups(m: Buckets, target: Buckets, source: Buckets) {
    forall q :: RegroupsAt(m, target, source, q)
  }

  ghost predicate RegroupsAt(m: Buckets, target: Buckets, source: Buckets, q: Label) {
    && At(m, q) == Add(At(target, q), MapSum(Restricted(source, ModelsOf(source, q))))
    && (q in m <==> q in target || ModelsOf(source, q) != {})
  }

  lemma {:induction false} ProvidersOfModels(source: Buckets, entries: seq<Entry>, w: Where, q: Label)
    requires w.labels.None? && Splits(source, entries, w, Model)
    ensures MapSum(Restricted(source, ModelsOf(source, q))) == Sum(entries, w.Under(Provider, {q}))
    ensures ModelsOf(source, q) != {} <==> Occurs(entries, w.Under(Provider, {q}))
  {
    hide Sum, MapSum, Restricted;
    var models := ModelsOf(source, q);
    var byModel, byProvider := w.Under(Model, models), w.Under(Provider, {q});
    RestrictedAddsUp(source, entries, w, Model, models);
    forall e | e in entries ensures Selects(byModel, e) <==> Selects(byProvider, e) {
      if Selects(byProvider, e) {
        assert Selects(w.Under(Model, {e.model}), e);
        assert SplitsAt(source, entries, w, Model, e.model);
      }
    }
    SameSelection(entries, byModel, byProvider);
    if models != {} {
      var l :| l in models;
      assert SplitsAt(source, entries, w, Model, l);
      var e :| e in entries && Selects(w.Under(Model, {l}), e);
      assert Selects(byModel, e);
    }
  }

  /** A split by model, regrouped, adds a split by provider. */
  lemma {:induction false} RegroupingAdds(m: Buckets, target: Buckets, source: Buckets, entries: seq<Entry>, w: Where)
    requires Regroups(m, target, source)
    requires w.labels.None? && Splits(source, entries, w, Model)
    ensures Adds(m, target, entries, w, Provider)
  {
    forall q ensures AddsAt(m, target, entries, w, Provider, q) {
      assert RegroupsAt(m, target, source, q);
      ProvidersOfModels(source, entries, w, q);
    }
  }
}
