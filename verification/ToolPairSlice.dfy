/** Truncating a conversation without separating tool results from their calls. */
module ToolPairSlice {
  import opened Prelude

  datatype Role = User | Assistant | System

  datatype Block =
    | ToolCall(id: string)
    | ToolResult(callId: string)
    | ToolResultReference(callId: string)
    | MediaReference(toolCallId: Option<string>)
    | OtherBlock

  datatype Message = Message(role: Role, content: seq<Block>)

  predicate AnswersCall(b: Block) {
    || b.ToolResult?
    || b.ToolResultReference?
    || (b.MediaReference? && b.toolCallId.Some? && |b.toolCallId.value| > 0)
  }

  function AnsweredCall(b: Block): string
    requires AnswersCall(b)
  {
    match b
    case ToolResult(id) => id
    case ToolResultReference(id) => id
    case MediaReference(id) => id.value
  }

  predicate IsToolResultOnly(m: Message) {
    m.role == User && |m.content| > 0 && forall b :: b in m.content ==> AnswersCall(b)
  }

  /** `TypeError` is what reading a field of `messages[-1]` throws. */
  datatype Sliced = Kept(messages: seq<Message>) | TypeError

  /** The truncation can find a message to start from. */
  predicate HasStart(messages: seq<Message>, max: int)
    requires 0 < max < |messages|
  {
    exists k :: 0 <= k <= |messages| - max && !IsToolResultOnly(messages[k])
  }

  method ToolPairSafeSlice(messages: seq<Message>, max: int) returns (r: Sliced)
    ensures |messages| <= max ==> r == Kept(messages)
    ensures max <= 0 && max < |messages| ==> r == Kept([])
    ensures 0 < max < |messages| ==> (r.TypeError? <==> !HasStart(messages, max))
    ensures 0 < max < |messages| && r.Kept? ==> StartsAtLatest(messages, max, r.messages)
  {
    if |messages| <= max {
      return Kept(messages);
    }
    var cut := |messages| - max;
    while cut < |messages|
      invariant max > 0 ==> 0 <= cut <= |messages| - max
      invariant max <= 0 ==> cut == |messages| - max
      invariant max > 0 ==> forall j :: cut < j <= |messages| - max ==> IsToolResultOnly(messages[j])
      decreases cut
    {
      if !IsToolResultOnly(messages[cut]) {
        break;
      }
      cut := cut - 1;
      if cut < 0 {
        return TypeError;
      }
    }
    if cut >= |messages| {
      return Kept([]);
    }
    return Kept(messages[cut..]);
  }

  /** `kept` is the suffix at the last position that leaves at least `max` messages
      and is not result-only. */
  ghost predicate StartsAtLatest(messages: seq<Message>, max: int, kept: seq<Message>)
    requires 0 < max < |messages|
  {
    var cut := |messages| - |kept|;
    && 0 <= cut <= |messages| - max
    && kept == messages[cut..]
    && !IsToolResultOnly(messages[cut])
    && forall j :: cut < j <= |messages| - max ==> IsToolResultOnly(messages[j])
  }

  /** Of all suffixes with at least `max` messages that start on a message that is
      not result-only, the slice is the shortest. */
  lemma {:induction false} ShortestSafeSuffix(messages: seq<Message>, max: int, kept: seq<Message>, k: nat)
    requires 0 < max < |messages|
    requires StartsAtLatest(messages, max, kept)
    requires k < |messages| && |messages[k..]| >= max && !IsToolResultOnly(messages[k])
    ensures max <= |kept| <= |messages[k..]|
  {
  }

  /** The slice starts on a message that is not a user's, that is empty, or that holds something
      else than answers to tool calls. The messages between there and the plain cut are
      users' and hold answers only: results, references to them, or media of a named call. */
  lemma {:induction false} WhereTheSliceStarts(messages: seq<Message>, max: int, kept: seq<Message>)
    requires 0 < max < |messages| && StartsAtLatest(messages, max, kept)
    ensures kept != []
    ensures kept[0].role != User || kept[0].content == []
      || exists b :: b in kept[0].content
           && (b.ToolCall? || b.OtherBlock? || (b.MediaReference? && b.toolCallId.GetOr("") == ""))
    ensures forall j :: 0 < j <= |kept| - max ==>
      && kept[j].role == User && kept[j].content != []
      && forall b :: b in kept[j].content ==>
           b.ToolResult? || b.ToolResultReference? || (b.MediaReference? && b.toolCallId.GetOr("") != "")
  {
    var cut := |messages| - |kept|;
    forall j | 0 < j <= |kept| - max ensures IsToolResultOnly(kept[j]) {
      assert kept[j] == messages[cut + j];
    }
  }

  // Calls and results --------------------------------------------------------------------

  predicate Calls(m: Message, id: string) {
    ToolCall(id) in m.content
  }

  predicate Answers(m: Message, id: string) {
    exists b :: b in m.content && AnswersCall(b) && AnsweredCall(b) == id
  }

  lemma {:induction false} AnswersIff(m: Message, id: string)
    ensures Answers(m, id) <==>
            || ToolResult(id) in m.content
            || ToolResultReference(id) in m.content
            || (id != "" && MediaReference(Some(id)) in m.content)
  {
    if ToolResult(id) in m.content {
      assert AnswersCall(ToolResult(id)) && AnsweredCall(ToolResult(id)) == id;
    } else if ToolResultReference(id) in m.content {
      assert AnswersCall(ToolResultReference(id)) && AnsweredCall(ToolResultReference(id)) == id;
    } else if id != "" && MediaReference(Some(id)) in m.content {
      assert AnswersCall(MediaReference(Some(id))) && AnsweredCall(MediaReference(Some(id))) == id;
    }
  }

  /** The result for `id` in message `i` stands in a run of result-only messages
      directly after the message `j` that holds the call. */
  ghost predicate FollowsItsCall(messages: seq<Message>, i: nat, j: nat, id: string)
    requires i < |messages|
  {
    && j < i
    && Calls(messages[j], id)
    && forall m :: j < m <= i ==> IsToolResultOnly(messages[m])
  }

  /** Every result follows the one message that makes its call. */
  ghost predicate WellPaired(messages: seq<Message>) {
    && (forall i, id :: 0 <= i < |messages| && Answers(messages[i], id) ==>
          exists j: nat :: FollowsItsCall(messages, i, j, id))
    && (forall i, j, id :: 0 <= i < |messages| && 0 <= j < |messages| ==>
          Calls(messages[i], id) && Calls(messages[j], id) ==> i == j)
  }

  ghost predicate LosesACall(kept: seq<Message>) {
    exists i, id :: 0 <= i < |kept| && Answers(kept[i], id) && forall j :: 0 <= j < |kept| ==> !Calls(kept[j], id)
  }

  lemma {:induction false} SuffixKeepsCalls(messages: seq<Message>, cut: nat)
    requires WellPaired(messages) && cut < |messages| && !IsToolResultOnly(messages[cut])
    ensures !LosesACall(messages[cut..])
  {
    var kept := messages[cut..];
    forall i, id | 0 <= i < |kept| && Answers(kept[i], id)
      ensures exists j :: 0 <= j < |kept| && Calls(kept[j], id)
    {
      assert kept[i] == messages[cut + i];
      var j: nat :| FollowsItsCall(messages, cut + i, j, id);
      assert kept[j - cut] == messages[j];
    }
  }

  /** In a well-paired conversation the slice keeps the call of every result it keeps. */
  lemma {:induction false} SliceKeepsCalls(messages: seq<Message>, max: int, kept: seq<Message>)
    requires WellPaired(messages) && 0 < max < |messages|
    requires StartsAtLatest(messages, max, kept)
    ensures !LosesACall(kept)
  {
    SuffixKeepsCalls(messages, |messages| - |kept|);
  }

  /** Taking the last `max` messages as they are would lose a call exactly when it
      starts on a result-only message: the slice departs from it only then. */
  lemma {:induction false} PlainCutLosesACallIff(messages: seq<Message>, max: int)
    requires WellPaired(messages) && 0 < max < |messages|
    ensures LosesACall(messages[|messages| - max..]) <==> IsToolResultOnly(messages[|messages| - max])
  {
    var cut := |messages| - max;
    if IsToolResultOnly(messages[cut]) {
      var kept, b := messages[cut..], messages[cut].content[0];
      var id := AnsweredCall(b);
      assert Answers(messages[cut], id);
      var j: nat :| FollowsItsCall(messages, cut, j, id);
      forall m | 0 <= m < |kept| ensures !Calls(kept[m], id) {
        assert kept[m] == messages[cut + m];
      }
      assert kept[0] == messages[cut] && Answers(kept[0], id);
    } else {
      SuffixKeepsCalls(messages, cut);
    }
  }

  function ResultMessage(id: string): Message {
    Message(User, [ToolResult(id)])
  }

  /** Two messages with results only: there is no start for a slice of one. */
  lemma {:induction false} ResultsOnlyHaveNoStart(id: string)
    ensures !HasStart([ResultMessage(id), ResultMessage(id)], 1)
  {
  }

  /** A call and its result, cut to one: two messages are kept. */
  lemma {:induction false} ResultTakesItsCallAlong(id: string)
    ensures
      var messages := [Message(Assistant, [ToolCall(id)]), ResultMessage(id)];
      WellPaired(messages) && HasStart(messages, 1) && StartsAtLatest(messages, 1, messages)
  {
    var messages := [Message(Assistant, [ToolCall(id)]), ResultMessage(id)];
    assert !IsToolResultOnly(messages[0]) && IsToolResultOnly(messages[1]);
    forall i, other | 0 <= i < |messages| && Answers(messages[i], other)
      ensures exists j: nat :: FollowsItsCall(messages, i, j, other)
    {
      assert Calls(messages[0], id);
      assert FollowsItsCall(messages, 1, 0, id);
    }
  }

  // Preparing a request ------------------------------------------------------------------------

  datatype Prepared = Prepared(messages: seq<Message>, reportedRetained: Option<int>) | PrepareFailed

  method PrepareForModel(messages: seq<Message>, maxMessages: Option<int>) returns (r: Prepared)
    ensures maxMessages.None? || |messages| <= maxMessages.value ==> r == Prepared(messages, None)
    ensures maxMessages.Some? && maxMessages.value <= 0 && maxMessages.value < |messages| ==>
      r == Prepared([], maxMessages)
    ensures maxMessages.Some? && 0 < maxMessages.value < |messages| ==>
      (r.PrepareFailed? <==> !HasStart(messages, maxMessages.value))
    ensures maxMessages.Some? && 0 < maxMessages.value < |messages| && r.Prepared? ==>
      && StartsAtLatest(messages, maxMessages.value, r.messages)
      && r.reportedRetained == maxMessages
      && (r.reportedRetained == Some(|r.messages|) <==>
          !IsToolResultOnly(messages[|messages| - maxMessages.value]))
  {
    if maxMessages.Some? && |messages| > maxMessages.value {
      var sliced := ToolPairSafeSlice(messages, maxMessages.value);
      if sliced.TypeError? {
        return PrepareFailed;
      }
      return Prepared(sliced.messages, maxMessages);
    }
    return Prepared(messages, None);
  }
}
