/** Model events, model errors and requests, as the router sees them. */
module ModelStream {
  import opened Prelude

  /** The error codes the router compares against; every other code is `Other`. */
  datatype ErrorCode =
    | Timeout | ServerError | Overloaded | ConnectionReset | ConnectionRefused
    | DnsError | TlsError | ProxyError | Unknown
    | InvalidToolArguments
    | Billing | ModelNotFound | AuthError | ProviderNotFound
    | PromptTooLong | RequestTooLarge | ContextOverflow
    | SubagentBudgetExceeded | UnsupportedModality
    | Other(name: string)

  datatype ModelError = ModelError(
    provider: string,
    model: Option<string>,
    code: ErrorCode,
    retryable: bool,
    recoverableViaCompact: bool,
    recoverableViaImageStrip: bool)

  datatype Event =
    | RequestStarted(provider: string, model: string)
    | MessageStart
    | TextDelta(text: string)
    | ThinkingDelta(text: string)
    | ToolCallStart(id: string)
    | ToolCallDelta(id: string, delta: string)
    | ToolCallEnd(id: string)
    | MessageEnd
    | UsageReport(totalTokens: nat)
    | ErrorEvent(error: ModelError)

  /** Events the consumer cannot take back. */
  predicate IsContent(e: Event) {
    e.TextDelta? || e.ThinkingDelta? || e.ToolCallStart? || e.ToolCallDelta? || e.ToolCallEnd?
  }

  predicate HasContent(events: seq<Event>) {
    exists e :: e in events && IsContent(e)
  }

  /** The text a stream delivered before it broke off. */
  function PartialText(events: seq<Event>): string {
    if events == [] then ""
    else PartialText(Init(events)) + (if Last(events).TextDelta? then Last(events).text else "")
  }

  function NonErrors(events: seq<Event>): seq<Event> {
    if events == [] then []
    else NonErrors(Init(events)) + (if Last(events).ErrorEvent? then [] else [Last(events)])
  }

  /** Another provider, or the same one later, may succeed. */
  predicate IsFallbackEligible(e: ModelError) {
    if e.code.InvalidToolArguments? then true
    else if e.code.Billing? || e.code.ModelNotFound? || e.code.AuthError? || e.code.ProviderNotFound? then true
    else
      && e.retryable
      && !e.recoverableViaCompact
      && !e.recoverableViaImageStrip
      && !e.code.PromptTooLong?
      && !e.code.RequestTooLarge?
      && !e.code.ContextOverflow?
  }

  /** The provider itself is at fault; only these codes count against a sticky pin. */
  predicate IsProviderFault(code: ErrorCode) {
    || code.Timeout? || code.ServerError? || code.Overloaded?
    || code.ConnectionReset? || code.ConnectionRefused?
    || code.DnsError? || code.TlsError? || code.ProxyError? || code.Unknown?
  }

  // Requests ----------------------------------------------------------------

  datatype Role = User | Assistant | System

  /** `ContinuationInstruction` is the text block whose text is the fixed
      instruction sent after a broken stream; `Text` is any other text block. */
  datatype Block = Text(text: string) | ContinuationInstruction | OtherBlock(tag: string)

  datatype Message = Message(role: Role, content: seq<Block>)

  datatype Request = Request(provider: string, model: string, messages: seq<Message>)

  predicate EndsWithContinuation(messages: seq<Message>) {
    && |messages| >= 2
    && messages[|messages| - 1].role == User
    && messages[|messages| - 2].role == Assistant
    && messages[|messages| - 1].content == [ContinuationInstruction]
  }

  function StripContinuation(messages: seq<Message>): seq<Message> {
    if EndsWithContinuation(messages) then messages[..|messages| - 2] else messages
  }

  /** The request that asks a model to go on from `partialText`. */
  function ContinuationRequest(original: Request, partialText: string): Request {
    original.(messages :=
      StripContinuation(original.messages)
      + [Message(Assistant, [Text(partialText)]), Message(User, [ContinuationInstruction])])
  }

  /** The already-delivered text that a request tells the model about. */
  function CarriedText(r: Request): string {
    if EndsWithContinuation(r.messages) && r.messages[|r.messages| - 2].content != []
       && r.messages[|r.messages| - 2].content[0].Text?
    then r.messages[|r.messages| - 2].content[0].text
    else ""
  }

  /** A second continuation replaces the first: only the newest text is carried,
      whatever the original request looked like. */
  lemma {:induction false} ContinuationReplacesContinuation(r: Request, first: string, second: string)
    ensures ContinuationRequest(ContinuationRequest(r, first), second) == ContinuationRequest(r, second)
    ensures CarriedText(ContinuationRequest(r, second)) == second
    ensures EndsWithContinuation(ContinuationRequest(r, first).messages)
  {
    var once := ContinuationRequest(r, first).messages;
    assert once[..|once| - 2] == StripContinuation(r.messages);
  }

  /** A continuation goes to the same model, with all messages of the original request and
      two more, of which the first is the delivered text. */
  lemma {:induction false} ContinuationKeepsMessages(r: Request, text: string)
    requires !EndsWithContinuation(r.messages)
    ensures
      var c := ContinuationRequest(r, text);
      && c.provider == r.provider && c.model == r.model
      && |c.messages| == |r.messages| + 2 && r.messages < c.messages
      && c.messages[|r.messages|] == Message(Assistant, [Text(text)])
      && c.messages[|r.messages| + 1] == Message(User, [ContinuationInstruction])
  {
  }
}
