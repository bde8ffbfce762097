/** Splitting a session's request log into user turns by model-call counts. */
module TurnAssignment {
  import opened Prelude

  /** One turn of the transcript: the tool names of its model calls that used tools,
      and the number of its model calls. */
  datatype Turn = Turn(tools: seq<seq<string>>, modelCalls: nat)

  datatype Role = MainRole | SubRole

  /** What a log line shows: a user's query, or the names of the tools called. */
  datatype Query = UserQuery(text: string) | ToolNames(names: seq<string>)

  datatype EntryState = EntryState(role: Role, tier: Option<string>, query: Option<Query>)

  class LogEntry {
    var role: Role
    var tier: Option<string>
    var query: Option<Query>

    constructor (s: EntryState)
      ensures View() == s
    {
      role, tier, query := s.role, s.tier, s.query;
    }

    function View(): EntryState
      reads this
    {
      EntryState(role, tier, query)
    }
  }

  /** The names without repetitions, in order of first appearance. */
  function Unique(names: seq<string>): seq<string> {
    if names == [] then []
    else if Last(names) in Init(names) then Unique(Init(names))
    else Unique(Init(names)) + [Last(names)]
  }

  // Where a log line falls ------------------------------------------------------------

  datatype Place = Place(turn: nat, position: nat)

  /** Line `i` of the log: a turn takes as many lines as it has model calls; a turn
      without model calls, or the end of the transcript, takes all the rest. */
  function Locate(turns: seq<Turn>, i: nat): Place {
    if turns == [] || turns[0].modelCalls == 0 || i < turns[0].modelCalls then Place(0, i)
    else
      var rest := Locate(turns[1..], i - turns[0].modelCalls);
      Place(rest.turn + 1, rest.position)
  }

  function Assigned(s: EntryState, at: Place, turns: seq<Turn>, queries: seq<string>): EntryState
    requires queries != []
  {
    if at.position == 0 then s.(query := Some(UserQuery(queries[Min(at.turn, |queries| - 1)])))
    else if at.turn < |turns| && at.position - 1 < |turns[at.turn].tools|
    then EntryState(SubRole, None, Some(ToolNames(Unique(turns[at.turn].tools[at.position - 1]))))
    else EntryState(SubRole, None, s.query)
  }

  predicate Distinct(entries: seq<LogEntry>) {
    forall i, j :: 0 <= i < j < |entries| ==> entries[i] != entries[j]
  }

  method AssignByModelCallCount(entries: seq<LogEntry>, queries: seq<string>, turns: seq<Turn>)
    requires queries != [] && Distinct(entries)
    modifies entries
    ensures forall i :: 0 <= i < |entries| ==>
      entries[i].View() == Assigned(old(entries[i].View()), Locate(turns, i), turns, queries)
  {
    var turnIndex, posInTurn := 0, 0;
    for i := 0 to |entries|
      invariant Place(turnIndex, posInTurn) == Locate(turns, i)
      invariant forall j :: 0 <= j < i ==>
        entries[j].View() == Assigned(old(entries[j].View()), Locate(turns, j), turns, queries)
      invariant forall j :: i <= j < |entries| ==> entries[j].View() == old(entries[j].View())
    {
      NextPlace(turns, i);
      var turnModelCalls := if turnIndex < |turns| then turns[turnIndex].modelCalls else 0;
      var entry := entries[i];
      if posInTurn == 0 {
        entry.query := Some(UserQuery(queries[Min(turnIndex, |queries| - 1)]));
        posInTurn := posInTurn + 1;
      } else {
        entry.role := SubRole;
        entry.tier := None;
        var continuationIdx := posInTurn - 1;
        if turnIndex < |turns| && continuationIdx < |turns[turnIndex].tools| {
          entry.query := Some(ToolNames(Unique(turns[turnIndex].tools[continuationIdx])));
        }
        posInTurn := posInTurn + 1;
      }
      if turnModelCalls > 0 && posInTurn >= turnModelCalls {
        turnIndex := turnIndex + 1;
        posInTurn := 0;
      }
    }
  }

  function CallsOf(turns: seq<Turn>, t: nat): nat {
    if t < |turns| then turns[t].modelCalls else 0
  }

  /** From one line to the next the position goes up, or the next turn begins. */
  lemma {:induction false} NextPlace(turns: seq<Turn>, i: nat)
    ensures
      var here, next := Locate(turns, i), Locate(turns, i + 1);
      var calls := CallsOf(turns, here.turn);
      && (calls > 0 ==> here.position < calls)
      && next == if calls > 0 && here.position + 1 >= calls then Place(here.turn + 1, 0)
                 else Place(here.turn, here.position + 1)
  {
    if turns != [] && turns[0].modelCalls > 0 {
      if i >= turns[0].modelCalls {
        NextPlace(turns[1..], i - turns[0].modelCalls);
      } else if i + 1 == turns[0].modelCalls {
        assert Locate(turns[1..], 0) == Place(0, 0);
      }
    }
  }

  // Turn heads are prefix sums ------------------------------------------------------------

  /** The turns before the first one without model calls. */
  function Counted(turns: seq<Turn>): (n: nat)
    ensures n <= |turns|
  {
    if turns == [] || turns[0].modelCalls == 0 then 0 else 1 + Counted(turns[1..])
  }

  function CallsBefore(turns: seq<Turn>, t: nat): nat
    requires t <= |turns|
  {
    if t == 0 then 0 else CallsBefore(turns, t - 1) + turns[t - 1].modelCalls
  }

  lemma {:induction false} CallsBeforeFromTheFront(turns: seq<Turn>, t: nat)
    requires 0 < t <= |turns|
    ensures CallsBefore(turns, t) == turns[0].modelCalls + CallsBefore(turns[1..], t - 1)
  {
    if t > 1 {
      CallsBeforeFromTheFront(turns, t - 1);
    }
  }

  /** Line `i` falls into turn `t`, `position` lines after the calls of the turns before. */
  lemma {:induction false} PlaceIsPrefixSum(turns: seq<Turn>, i: nat)
    ensures
      var at := Locate(turns, i);
      && at.turn <= Counted(turns)
      && i == CallsBefore(turns, at.turn) + at.position
      && (at.turn < Counted(turns) ==> at.position < turns[at.turn].modelCalls)
  {
    if turns != [] && turns[0].modelCalls > 0 && i >= turns[0].modelCalls {
      PlaceIsPrefixSum(turns[1..], i - turns[0].modelCalls);
      CallsBeforeFromTheFront(turns, Locate(turns, i).turn);
    }
  }

  lemma {:induction false} PrefixSumsGrow(turns: seq<Turn>, s: nat, t: nat)
    requires s < t <= Counted(turns)
    ensures CallsBefore(turns, s) + turns[s].modelCalls <= CallsBefore(turns, t)
    ensures turns[s].modelCalls > 0
  {
    CountedHaveCalls(turns, s);
    if s + 1 < t {
      PrefixSumsGrow(turns, s, t - 1);
    }
  }

  lemma {:induction false} CountedHaveCalls(turns: seq<Turn>, s: nat)
    requires s < Counted(turns)
    ensures turns[s].modelCalls > 0
  {
    if s > 0 {
      CountedHaveCalls(turns[1..], s - 1);
    }
  }

  /** Line `i` heads a turn exactly when it is a prefix sum of the model-call counts,
      up to the first turn without model calls; the line after all counted calls, where
      the overflow begins, is a head as well. The head of turn `t` is the sum before `t`. */
  lemma {:induction false} HeadsArePrefixSums(turns: seq<Turn>, i: nat, t: nat)
    requires t <= Counted(turns)
    ensures Locate(turns, i) == Place(t, 0) <==> i == CallsBefore(turns, t)
  {
    PlaceIsPrefixSum(turns, i);
    var at := Locate(turns, i);
    if i == CallsBefore(turns, t) {
      if at.turn < t {
        PrefixSumsGrow(turns, at.turn, t);
      } else if t < at.turn {
        PrefixSumsGrow(turns, t, at.turn);
      }
    }
  }

  /** With a model call in every turn the heads are exactly the prefix sums of all
      turns, the full sum included. */
  lemma {:induction false} HeadIffPrefixSum(turns: seq<Turn>, i: nat)
    requires forall t :: 0 <= t < |turns| ==> turns[t].modelCalls > 0
    ensures Locate(turns, i).position == 0 <==> exists t :: 0 <= t <= |turns| && i == CallsBefore(turns, t)
  {
    AllCounted(turns);
    PlaceIsPrefixSum(turns, i);
    forall t | 0 <= t <= |turns| && i == CallsBefore(turns, t) ensures Locate(turns, i).position == 0 {
      HeadsArePrefixSums(turns, i, t);
    }
  }

  lemma {:induction false} AllCounted(turns: seq<Turn>)
    requires forall t :: 0 <= t < |turns| ==> turns[t].modelCalls > 0
    ensures Counted(turns) == |turns|
  {
    if turns != [] {
      AllCounted(turns[1..]);
    }
  }

  // The whole log ------------------------------------------------------------------------------

  ghost function MainsBefore(log: seq<LogEntry>, i: nat): nat
    requires i <= |log|
    reads log
  {
    if i == 0 then 0 else MainsBefore(log, i - 1) + (if log[i - 1].role == MainRole then 1 else 0)
  }

  /** The branch for logs without turn ids: only main lines are split into turns, and
      a subagent line stays as it is. */
  method AssignQueriesToRequestLog(log: seq<LogEntry>, queries: seq<string>, turns: seq<Turn>)
    requires Distinct(log)
    modifies log
    ensures queries == [] ==> forall i :: 0 <= i < |log| ==> log[i].View() == old(log[i].View())
    ensures forall i :: 0 <= i < |log| && old(log[i].role) != MainRole ==> log[i].View() == old(log[i].View())
    ensures forall i :: queries != [] && 0 <= i < |log| && old(log[i].role) == MainRole ==>
      log[i].View() == Assigned(old(log[i].View()), Locate(turns, old(MainsBefore(log, i))), turns, queries)
  {
    if |log| == 0 || |queries| == 0 {
      return;
    }
    var mainEntries, origin := MainEntries(log);
    if |mainEntries| == 0 {
      return;
    }
    AssignByModelCallCount(mainEntries, queries, turns);
  }

  /** The main lines of the log, and where each of them stands in it. */
  method MainEntries(log: seq<LogEntry>) returns (mains: seq<LogEntry>, ghost origin: seq<nat>)
    requires Distinct(log)
    ensures Distinct(mains) && |mains| == |origin|
    ensures forall m :: 0 <= m < |origin| ==>
      origin[m] < |log| && mains[m] == log[origin[m]] && log[origin[m]].role == MainRole
    ensures forall j :: 0 <= j < |log| && log[j].role == MainRole ==>
      MainsBefore(log, j) < |origin| && origin[MainsBefore(log, j)] == j
  {
    hide Distinct;
    mains, origin := [], [];
    for i := 0 to |log|
      invariant |mains| == |origin| == MainsBefore(log, i)
      invariant forall m :: 0 <= m < |origin| ==>
        origin[m] < i && mains[m] == log[origin[m]] && log[origin[m]].role == MainRole
      invariant Rising(origin)
      invariant forall j :: 0 <= j < i && log[j].role == MainRole ==>
        MainsBefore(log, j) < |origin| && origin[MainsBefore(log, j)] == j
    {
      if log[i].role == MainRole {
        mains := mains + [log[i]];
        origin := origin + [i];
      }
    }
    RisingPicksAreDistinct(log, mains, origin);
  }

  predicate Rising(s: seq<nat>) {
    forall m, n :: 0 <= m < n < |s| ==> s[m] < s[n]
  }

  lemma {:induction false} RisingPicksAreDistinct(log: seq<LogEntry>, picks: seq<LogEntry>, origin: seq<nat>)
    requires Distinct(log) && Rising(origin) && |picks| == |origin|
    requires forall m :: 0 <= m < |origin| ==> origin[m] < |log| && picks[m] == log[origin[m]]
    ensures Distinct(picks)
  {
    forall i, j | 0 <= i < j < |picks| ensures picks[i] != picks[j] {
      assert origin[i] < origin[j];
    }
  }

  // What the lines of a turn show ---------------------------------------------------------------

  /** The names without their repetitions, in order of first appearance. */
  ghost predicate ListsOnce(names: seq<string>, all: seq<string>) {
    && (forall n :: n in names <==> n in all)
    && (forall i, j :: 0 <= i < j < |names| ==> names[i] != names[j])
  }

  lemma {:induction false} UniqueListsOnce(all: seq<string>)
    ensures ListsOnce(Unique(all), all)
    ensures forall k :: 0 <= k <= |all| ==> Unique(all[..k]) <= Unique(all)
  {
    if all != [] {
      var before := Init(all);
      UniqueListsOnce(before);
      assert all == before + [Last(all)];
      forall k | 0 <= k <= |all| ensures Unique(all[..k]) <= Unique(all) {
        if k < |all| {
          assert before[..k] == all[..k];
        } else {
          assert all[..k] == all;
        }
      }
    }
  }

  /** A turn takes as many lines as it has model calls, and the first one without takes all the
      rest. The first line of a turn shows its query, or the last query if there are not
      enough; each further line becomes a subagent line without a tier that shows the
      tools of the call before it, each once, as far as they are known. */
  lemma {:induction false} LinesOfTurn(s: EntryState, turns: seq<Turn>, queries: seq<string>, t: nat, k: nat)
    requires queries != [] && t <= Counted(turns) && (t < Counted(turns) ==> k < turns[t].modelCalls)
    ensures
      var tools := if t < |turns| then turns[t].tools else [];
      var line := Assigned(s, Locate(turns, CallsBefore(turns, t) + k), turns, queries);
      if k == 0 then
        && line.query == Some(UserQuery(if t < |queries| then queries[t] else queries[|queries| - 1]))
        && line.role == s.role && line.tier == s.tier
      else
        && line.role == SubRole && line.tier == None
        && (k <= |tools| ==>
              && line.query.Some? && line.query.value.ToolNames?
              && ListsOnce(line.query.value.names, tools[k - 1]))
        && (k > |tools| ==> line.query == s.query)
  {
    PlaceOfCall(turns, t, k);
    if t < |turns| && 0 < k <= |turns[t].tools| {
      UniqueListsOnce(turns[t].tools[k - 1]);
    }
  }

  lemma {:induction false} PlaceOfCall(turns: seq<Turn>, t: nat, k: nat)
    requires t <= Counted(turns) && (t < Counted(turns) ==> k < turns[t].modelCalls)
    ensures Locate(turns, CallsBefore(turns, t) + k) == Place(t, k)
  {
    var i := CallsBefore(turns, t) + k;
    PlaceIsPrefixSum(turns, i);
    var at := Locate(turns, i);
    if at.turn < t {
      PrefixSumsGrow(turns, at.turn, t);
    } else if t < at.turn {
      PrefixSumsGrow(turns, t, at.turn);
    }
  }
}
