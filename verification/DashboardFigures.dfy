/** Where the figures of the dashboard come from: every field of every bucket is the sum of
    one field of the records that belong there, read off the records alone. */
module DashboardFigures {
  import opened Prelude
  import opened DashboardRecords
  import opened BucketSums
  import opened Dashboard

  // The figures of one record -----------------------------------------------------------------

  datatype Count = InputTokens | OutputTokens | CacheReadTokens | AllTokens | Requests

  function Present(n: Option<int>): int {
    if n.Some? then n.value else 0
  }

  function CountOf(f: Count, r: Record): int {
    match f
    case InputTokens => Present(r.inputTokens)
    case OutputTokens => Present(r.outputTokens)
    case CacheReadTokens => Present(r.cacheReadTokens)
    case AllTokens =>
      if r.totalTokens.Some? then r.totalTokens.value else Present(r.inputTokens) + Present(r.outputTokens)
    case Requests => 1
  }

  datatype Cost = Estimated | Baseline

  function CostOf(f: Cost, r: Record): real {
    var actual := if r.totalCost.Some? then r.totalCost.value else 0.0;
    match f
    case Estimated => actual
    case Baseline => if r.baselineCost.Some? then r.baselineCost.value else actual
  }

  // Which records belong where ----------------------------------------------------------------------

  /** All records, or those of one session, and of these all or those under one label. */
  datatype Pick = Pick(session: Option<Option<string>>, under: Option<(Partition, string)>)

  const ALL := Pick(None, None)

  ghost predicate Includes(text: string, part: string) {
    exists a, b :: text == a + part + b
  }

  ghost predicate OfSubagentSession(r: Record) {
    r.sessionId.Some? && Includes(r.sessionId.value, "::sub::")
  }

  function Given(text: string, otherwise: string): string {
    if text == "" then otherwise else text
  }

  /** `l` is the part of `text` before its first slash, or all of it. */
  predicate EndsAtSlash(l: string, text: string) {
    '/' !in l && (l == text || l + "/" <= text)
  }

  predicate IsUnder(r: Record, p: Partition, l: string) {
    match p
    case Tier => l == Given(r.tier, Given(r.scenarioType, "default"))
    case Scenario => l == Given(r.scenarioType, "default")
    case Role => l == if r.resolvedFrom == "subagent" then "sub" else "main"
    case Model => l == Given(r.provider, "unknown") + "/" + Given(r.model, "unknown")
    case Provider => EndsAtSlash(l, Given(r.provider, "unknown"))
  }

  ghost predicate Belongs(r: Record, pick: Pick) {
    && !OfSubagentSession(r)
    && (pick.session.Some? ==> r.sessionId == pick.session.value)
    && (pick.under.Some? ==> IsUnder(r, pick.under.value.0, pick.under.value.1))
  }

  ghost function CountIn(f: Count, records: seq<Record>, pick: Pick): int {
    if records == [] then 0
    else CountIn(f, Init(records), pick) + (if Belongs(Last(records), pick) then CountOf(f, Last(records)) else 0)
  }

  ghost function CostIn(f: Cost, records: seq<Record>, pick: Pick): real {
    if records == [] then 0.0
    else CostIn(f, Init(records), pick) + (if Belongs(Last(records), pick) then CostOf(f, Last(records)) else 0.0)
  }

  /** Every field of the bucket is the sum of its own field of the records that belong. */
  ghost predicate Shows(b: Bucket, records: seq<Record>, pick: Pick) {
    && b.inputTokens == CountIn(InputTokens, records, pick)
    && b.outputTokens == CountIn(OutputTokens, records, pick)
    && b.cacheReadTokens == CountIn(CacheReadTokens, records, pick)
    && b.totalTokens == CountIn(AllTokens, records, pick)
    && b.requestCount == CountIn(Requests, records, pick)
    && b.estimatedCost == CostIn(Estimated, records, pick)
    && b.baselineCost == CostIn(Baseline, records, pick)
    && b.savedCost == CostIn(Baseline, records, pick) - CostIn(Estimated, records, pick)
  }

  // The sums show the figures --------------------------------------------------------------------------

  lemma {:induction false} IncludesIff(text: string, part: string)
    ensures Includes(text, part) <==> Contains(text, part)
  {
    if Includes(text, part) {
      var a, b :| text == a + part + b;
      assert text[|a|..|a| + |part|] == part;
      assert ContainsAt(text, part, |a|);
    }
    if Contains(text, part) {
      var i: nat :| i <= |text| && ContainsAt(text, part, i);
      assert text == text[..i] + part + text[i + |part|..];
    }
  }

  lemma {:induction false} SubagentSessions(r: Record)
    ensures OfSubagentSession(r) <==> IsSubSession(Session(r.sessionId))
  {
    hide Includes, Contains;
    if r.sessionId.Some? {
      IncludesIff(r.sessionId.value, "::sub::");
    }
  }

  lemma {:induction false} UpToSlash(l: string, text: string)
    ensures EndsAtSlash(l, text) <==> l == BeforeSlash(text)
  {
    if text == "" {
    } else if text[0] == '/' {
      if l != "" && l + "/" <= text {
        assert (l + "/")[0] == text[0];
      }
      assert EndsAtSlash("", text);
    } else {
      UpToSlash(l[if l == "" then 0 else 1..], text[1..]);
      assert text == [text[0]] + text[1..];
      if l != "" {
        assert l == [l[0]] + l[1..];
        if EndsAtSlash(l, text) {
          assert l[0] == text[0];
          assert l != text ==> l[1..] + "/" == (l + "/")[1..];
          assert forall c :: c in l[1..] ==> c in l;
        }
        if l == BeforeSlash(text) {
          assert l[1..] == BeforeSlash(text[1..]);
          assert l[1..] + "/" <= text[1..] ==> l + "/" <= text;
        }
      }
    }
  }

  lemma {:induction false} LabelsAreTold(r: Record, p: Partition, l: string)
    ensures IsUnder(r, p, l) <==> LabelOf(p, Classify(r)) == Label(l)
  {
    if p.Provider? {
      ProviderLabelIsProviderIff(r);
      UpToSlash(l, Given(r.provider, "unknown"));
    }
  }

  function WhereOf(pick: Pick): Where {
    Where(
      if pick.session.Some? then Some({Session(pick.session.value)}) else None,
      if pick.under.Some? then pick.under.value.0 else Tier,
      if pick.under.Some? then Some({Label(pick.under.value.1)}) else None)
  }

  lemma {:induction false} BelongingIsSelected(r: Record, pick: Pick)
    ensures Belongs(r, pick) <==> Selects(WhereOf(pick), Classify(r))
  {
    hide IsUnder, OfSubagentSession, LabelOf;
    SubagentSessions(r);
    if pick.under.Some? {
      LabelsAreTold(r, pick.under.value.0, pick.under.value.1);
    }
  }

  lemma {:induction false} SumShows(records: seq<Record>, pick: Pick)
    ensures Shows(Sum(Entries(records), WhereOf(pick)), records, pick)
  {
    hide Belongs, Selects, WhereOf, Classify, CountOf, CostOf;
    if records != [] {
      var before, r, w := Init(records), Last(records), WhereOf(pick);
      SumShows(before, pick);
      BelongingIsSelected(r, pick);
      OneMore(Entries(before), w, Classify(r));
      FiguresOf(r);
    }
  }

  lemma {:induction false} FiguresOf(r: Record)
    ensures
      var b := Classify(r).bucket;
      && b.inputTokens == CountOf(InputTokens, r) && b.outputTokens == CountOf(OutputTokens, r)
      && b.cacheReadTokens == CountOf(CacheReadTokens, r) && b.totalTokens == CountOf(AllTokens, r)
      && b.requestCount == CountOf(Requests, r)
      && b.estimatedCost == CostOf(Estimated, r) && b.baselineCost == CostOf(Baseline, r)
      && b.savedCost == CostOf(Baseline, r) - CostOf(Estimated, r)
  {
  }

  // The dashboard and the summary --------------------------------------------------------------------------

  /** The overall and the lifetime total show all records that are not of subagent sessions. */
  lemma {:induction false} TotalShows(records: seq<Record>, total: Bucket)
    requires total == Sum(Entries(records), EVERYTHING)
    ensures Shows(total, records, ALL)
  {
    SumShows(records, ALL);
  }

  /** A bucket of an overall or lifetime breakdown shows the records under its label. */
  lemma {:induction false} BreakdownShows(records: seq<Record>, m: Buckets, p: Partition, l: string)
    requires Splits(m, Entries(records), EVERYTHING, p)
    ensures Shows(At(m, Label(l)), records, Pick(None, Some((p, l))))
    ensures Label(l) in m <==> exists r :: r in records && Belongs(r, Pick(None, Some((p, l))))
  {
    hide Shows, Belongs, Selects;
    var pick := Pick(None, Some((p, l)));
    assert WhereOf(pick) == EVERYTHING.Under(p, {Label(l)});
    assert SplitsAt(m, Entries(records), EVERYTHING, p, Label(l));
    SumShows(records, pick);
    OccursIff(records, pick);
  }

  lemma {:induction false} OccursIff(records: seq<Record>, pick: Pick)
    ensures Occurs(Entries(records), WhereOf(pick)) <==> exists r :: r in records && Belongs(r, pick)
  {
    hide Belongs, Selects, Classify, WhereOf, Sum;
    if records != [] {
      var before, r, w := Init(records), Last(records), WhereOf(pick);
      OccursIff(before, pick);
      OneMore(Entries(before), w, Classify(r));
      BelongingIsSelected(r, pick);
      assert records == before + [r];
      assert Entries(records) == Entries(before) + [Classify(r)];
    }
  }

  /** A session's total shows its own records, and every bucket of its breakdowns those of
      them that are under its label. */
  lemma {:induction false} SessionShows(records: seq<Record>, id: Option<string>, l: string)
    ensures
      var t := StatsOf(Entries(records), Session(id));
      && Shows(t.total, records, Pick(Some(id), None))
      && Shows(At(t.byTier, Label(l)), records, Pick(Some(id), Some((Tier, l))))
      && Shows(At(t.byScenario, Label(l)), records, Pick(Some(id), Some((Scenario, l))))
      && Shows(At(t.byRole, Label(l)), records, Pick(Some(id), Some((Role, l))))
      && Shows(At(t.byModel, Label(l)), records, Pick(Some(id), Some((Model, l))))
  {
    hide Shows, SessionStats;
    var entries, w := Entries(records), In({Session(id)});
    var t := StatsOf(entries, Session(id));
    SessionsAreDescribed(entries, Session(id));
    SumShows(records, Pick(Some(id), None));
    forall p: Partition
      ensures Shows(Sum(entries, w.Under(p, {Label(l)})), records, Pick(Some(id), Some((p, l))))
    {
      SumShows(records, Pick(Some(id), Some((p, l))));
    }
    assert SplitsAt(t.byTier, entries, w, Tier, Label(l));
    assert SplitsAt(t.byScenario, entries, w, Scenario, Label(l));
    assert SplitsAt(t.byRole, entries, w, Role, Label(l));
    assert SplitsAt(t.byModel, entries, w, Model, Label(l));
  }

  // How many sessions ---------------------------------------------------------------------------------------

  /** The sessions that have records of their own. */
  ghost function SessionsIn(records: seq<Record>): set<Session> {
    set r | r in records && !OfSubagentSession(r) :: Session(r.sessionId)
  }

  ghost function SessionsInAll(stats: seq<seq<Record>>): nat {
    if stats == [] then 0 else SessionsInAll(Init(stats)) + |SessionsIn(Last(stats))|
  }

  lemma {:induction false} SizeOfDistinct(sessions: seq<Session>)
    requires Distinct(sessions)
    ensures |SetOf(sessions)| == |sessions|
  {
    if sessions != [] {
      SizeOfDistinct(Init(sessions));
      assert sessions == Init(sessions) + [Last(sessions)];
      assert SetOf(sessions) == SetOf(Init(sessions)) + {Last(sessions)};
    }
  }

  lemma {:induction false} ListedSessions(records: seq<Record>)
    ensures SetOf(SessionOrder(Entries(records))) == SessionsIn(records)
  {
    hide OfSubagentSession, Classify, SessionOrder;
    if records == [] {
      NoSessions();
    } else {
      var before, r := Init(records), Last(records);
      ListedSessions(before);
      SubagentSessions(r);
      LoadedOneMore(before, r);
      assert records == before + [r];
      var listed := SessionOrder(Entries(before));
      assert SetOf(listed + [Session(r.sessionId)]) == SetOf(listed) + {Session(r.sessionId)};
      assert SessionsIn(records)
          == SessionsIn(before) + (if OfSubagentSession(r) then {} else {Session(r.sessionId)});
    }
  }

  /** The overall session count is the number of different sessions, project by project. */
  lemma {:induction false} SessionsAreCounted(stats: seq<seq<Record>>)
    ensures SessionCount(stats) == SessionsInAll(stats)
  {
    hide SessionsIn, SessionOrder, Entries;
    if stats != [] {
      SessionsAreCounted(Init(stats));
      ListedSessions(Last(stats));
      OrderIsDistinct(Entries(Last(stats)));
      SizeOfDistinct(SessionOrder(Entries(Last(stats))));
    }
  }
}
