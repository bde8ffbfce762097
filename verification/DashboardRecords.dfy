/** Persisted router records: what each one is worth and where it is counted. */
module DashboardRecords {
  import opened Prelude

  datatype Bucket = Bucket(
    inputTokens: int,
    outputTokens: int,
    cacheReadTokens: int,
    totalTokens: int,
    requestCount: int,
    estimatedCost: real,
    baselineCost: real,
    savedCost: real)

  const EMPTY := Bucket(0, 0, 0, 0, 0, 0.0, 0.0, 0.0)

  function Add(a: Bucket, b: Bucket): Bucket {
    Bucket(
      a.inputTokens + b.inputTokens,
      a.outputTokens + b.outputTokens,
      a.cacheReadTokens + b.cacheReadTokens,
      a.totalTokens + b.totalTokens,
      a.requestCount + b.requestCount,
      a.estimatedCost + b.estimatedCost,
      a.baselineCost + b.baselineCost,
      a.savedCost + b.savedCost)
  }

  lemma {:induction false} AddLaws(a: Bucket, b: Bucket, c: Bucket)
    ensures Add(Add(a, b), c) == Add(a, Add(b, c))
    ensures Add(Add(a, b), c) == Add(Add(a, c), b)
    ensures Add(a, EMPTY) == a && Add(EMPTY, a) == a
  {
  }

  /** One persisted router record. Absent texts are empty, as both count as false. */
  datatype Record = Record(
    sessionId: Option<string>,
    tier: string,
    scenarioType: string,
    resolvedFrom: string,
    provider: string,
    model: string,
    inputTokens: Option<int>,
    outputTokens: Option<int>,
    cacheReadTokens: Option<int>,
    totalTokens: Option<int>,
    totalCost: Option<real>,
    baselineCost: Option<real>)

  function BucketOf(r: Record): Bucket {
    var actual := r.totalCost.GetOr(0.0);
    var baseline := r.baselineCost.GetOr(actual);
    Bucket(
      r.inputTokens.GetOr(0), r.outputTokens.GetOr(0), r.cacheReadTokens.GetOr(0),
      r.totalTokens.GetOr(r.inputTokens.GetOr(0) + r.outputTokens.GetOr(0)),
      1, actual, baseline, baseline - actual)
  }

  // Labels -----------------------------------------------------------------------------

  datatype Label = Label(text: string)

  function OrElse(text: string, default: string): string {
    if text != "" then text else default
  }

  predicate HasSlash(text: string) {
    text != "" && (text[0] == '/' || HasSlash(text[1..]))
  }

  function BeforeSlash(text: string): string {
    if text == "" || text[0] == '/' then "" else [text[0]] + BeforeSlash(text[1..])
  }

  function ModelLabel(r: Record): Label {
    Label(OrElse(r.provider, "unknown") + "/" + OrElse(r.model, "unknown"))
  }

  function ProviderOf(model: Label): Label {
    if HasSlash(model.text) then Label(BeforeSlash(model.text)) else model
  }

  lemma {:induction false} BeforeFirstSlash(a: string, b: string)
    ensures HasSlash(a + "/" + b) && BeforeSlash(a + "/" + b) == BeforeSlash(a)
    ensures BeforeSlash(a) == a <==> !HasSlash(a)
  {
    if a == "" {
      assert a + "/" + b == ['/'] + b;
    } else {
      BeforeFirstSlash(a[1..], b);
      assert (a + "/" + b)[1..] == a[1..] + "/" + b;
      assert a == [a[0]] + a[1..];
    }
  }

  /** The provider breakdown, which is read off the model labels, names a record's
      provider exactly when that name has no slash; otherwise it is cut at the first. */
  lemma {:induction false} ProviderLabelIsProviderIff(r: Record)
    ensures
      var provider := OrElse(r.provider, "unknown");
      ProviderOf(ModelLabel(r)).text == provider <==> !HasSlash(provider)
    ensures ProviderOf(ModelLabel(r)).text == BeforeSlash(OrElse(r.provider, "unknown"))
  {
    BeforeFirstSlash(OrElse(r.provider, "unknown"), OrElse(r.model, "unknown"));
  }

  // What the dashboard takes from a record --------------------------------------------------

  datatype Session = Session(id: Option<string>)

  predicate ContainsAt(text: string, part: string, i: nat) {
    i + |part| <= |text| && text[i..i + |part|] == part
  }

  predicate Contains(text: string, part: string) {
    exists i: nat :: i <= |text| && ContainsAt(text, part, i)
  }

  predicate IsSubSession(s: Session) {
    s.id.Some? && Contains(s.id.value, "::sub::")
  }

  /** A record as the dashboard sees it: whether it counts at all, its session, the
      label it goes under in each breakdown, and its own bucket. */
  datatype Entry = Entry(
    counted: bool,
    session: Session,
    tier: Label,
    scenario: Label,
    role: Label,
    model: Label,
    bucket: Bucket)

  function Classify(r: Record): Entry {
    Entry(
      !IsSubSession(Session(r.sessionId)),
      Session(r.sessionId),
      Label(OrElse(r.tier, OrElse(r.scenarioType, "default"))),
      Label(OrElse(r.scenarioType, "default")),
      Label(if r.resolvedFrom == "subagent" then "sub" else "main"),
      ModelLabel(r),
      BucketOf(r))
  }

  function Entries(records: seq<Record>): seq<Entry> {
    if records == [] then [] else Entries(Init(records)) + [Classify(Last(records))]
  }
}
