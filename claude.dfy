/**
  The provider adapter (src/claude.rs): the request `call_claude_api` builds, the
  chain of early returns that turns the provider's answer into a reply or an error,
  and `format_conversation`. The HTTPS exchange itself is an oracle.
 */
module Claude {
  import opened Types

  const MODEL: string := "claude-3-5-sonnet-20240620"
  const MAX_TOKENS: nat := 1024

  /** What the HTTPS send produced: no response at all, or a status and the body's parse outcome. */
  datatype HttpOutcome =
    | SendFailed(reason: string)
    | Received(status: int, body: Option<ClaudeResponse>)

  /** The four ways `call_claude_api` fails. */
  datatype ApiError =
    | SendFailure(reason: string)
    | StatusFailure(status: int)
    | ParseFailure
    | NoContent

  /** `StatusCode::is_success`: the 2xx range. */
  predicate IsSuccess(status: int)
  {
    200 <= status <= 299
  }

  /** A success status is exactly one whose hundreds digit class is 2. */
  lemma SuccessIsStatusClassTwo(status: int)
    ensures IsSuccess(status) <==> status / 100 == 2
  {
  }

  /** The request sent for one user message. */
  function BuildRequest(message: string): (r: ClaudeRequest)
    ensures r.model == "claude-3-5-sonnet-20240620" && r.maxTokens == 1024
    ensures |r.messages| == 1
    ensures r.messages[0].role == "user" && r.messages[0].content == message
  {
    ClaudeRequest(MODEL, MAX_TOKENS, [ClaudeMessage("user", message)])
  }

  /** The decision chain after the send: transport, then status, then parse, then first block. */
  function DecodeReply(outcome: HttpOutcome): (r: Result<string, ApiError>)
    ensures r.Ok? <==>
              outcome.Received? && IsSuccess(outcome.status) &&
              outcome.body.Some? && |outcome.body.value.content| > 0
    ensures r.Ok? ==> r.value == outcome.body.value.content[0].text
    ensures outcome.SendFailed? ==> r == Err(SendFailure(outcome.reason))
    ensures outcome.Received? && !IsSuccess(outcome.status) ==> r == Err(StatusFailure(outcome.status))
    ensures r == Err(ParseFailure) <==> outcome.Received? && IsSuccess(outcome.status) && outcome.body.None?
    ensures r == Err(NoContent) <==>
              outcome.Received? && IsSuccess(outcome.status) &&
              outcome.body.Some? && outcome.body.value.content == []
  {
    match outcome
    case SendFailed(reason) => Err(SendFailure(reason))
    case Received(status, body) =>
      if !IsSuccess(status) then Err(StatusFailure(status))
      else match body
        case None => Err(ParseFailure)
        case Some(response) =>
          if response.content == [] then Err(NoContent) else Ok(response.content[0].text)
  }

  /** `call_claude_api`: send the one-message request through `send`, then decode the answer. */
  function CallClaudeApi(message: string, send: ClaudeRequest -> HttpOutcome): (r: Result<string, ApiError>)
    ensures var answer := send(BuildRequest(message));
            r.Ok? <==> answer.Received? && IsSuccess(answer.status) && answer.body.Some? &&
                       answer.body.value.content != []
    ensures var answer := send(BuildRequest(message));
            r.Ok? ==> r.value == answer.body.value.content[0].text
    ensures var answer := send(BuildRequest(message));
            answer.SendFailed? ==> r == Err(SendFailure(answer.reason))
    ensures var answer := send(BuildRequest(message));
            answer.Received? && !IsSuccess(answer.status) ==> r == Err(StatusFailure(answer.status))
    ensures var answer := send(BuildRequest(message));
            answer.Received? && IsSuccess(answer.status) && answer.body.None? ==> r == Err(ParseFailure)
    ensures var answer := send(BuildRequest(message));
            answer.Received? && IsSuccess(answer.status) && answer.body.Some? && answer.body.value.content == [] ==>
              r == Err(NoContent)
  {
    DecodeReply(send(BuildRequest(message)))
  }

  /** A transport failure is an error whatever else would have come back. */
  lemma SendFailureIsFinal(reason: string, message: string, send: ClaudeRequest -> HttpOutcome)
    requires send(BuildRequest(message)) == SendFailed(reason)
    ensures CallClaudeApi(message, send) == Err(SendFailure(reason))
  {
  }

  /** A non-success status is reported before the body is looked at. */
  lemma StatusCheckedBeforeBody(status: int, b1: Option<ClaudeResponse>, b2: Option<ClaudeResponse>)
    requires !IsSuccess(status)
    ensures DecodeReply(Received(status, b1)) == DecodeReply(Received(status, b2)) == Err(StatusFailure(status))
  {
  }

  /** Only the first content block is read: later blocks never matter. */
  lemma FirstBlockOnly(status: int, response: ClaudeResponse, first: ClaudeContent, rest: seq<ClaudeContent>)
    requires IsSuccess(status)
    ensures DecodeReply(Received(status, Some(response.(content := [first] + rest)))) == Ok(first.text)
    ensures DecodeReply(Received(status, Some(response.(content := [first] + rest)))) ==
            DecodeReply(Received(status, Some(response.(content := [first]))))
  {
  }

  /** `format_conversation`: each (role, content) pair becomes one provider message, in order. */
  function FormatConversation(conversation: seq<(string, string)>): (r: seq<ClaudeMessage>)
    ensures |r| == |conversation|
    ensures forall i :: 0 <= i < |r| ==> r[i].role == conversation[i].0 && r[i].content == conversation[i].1
  {
    if conversation == [] then []
    else [ClaudeMessage(conversation[0].0, conversation[0].1)] + FormatConversation(conversation[1..])
  }

  /**
    The inverse direction: a provider message back to its (role, content) pair. It is the
    same projection as `ConversationManager.RolesAndContents`, on provider messages rather
    than stored ones.
   */
  function Pairs(messages: seq<ClaudeMessage>): (r: seq<(string, string)>)
    ensures |r| == |messages|
    ensures forall i :: 0 <= i < |r| ==> r[i] == (messages[i].role, messages[i].content)
  {
    if messages == [] then []
    else [(messages[0].role, messages[0].content)] + Pairs(messages[1..])
  }

  /** Formatting loses nothing and reorders nothing: it is undone by `Pairs`. */
  lemma {:induction false} FormatConversationRoundTrip(conversation: seq<(string, string)>)
    ensures Pairs(FormatConversation(conversation)) == conversation
  {
    if conversation != [] {
      FormatConversationRoundTrip(conversation[1..]);
      assert FormatConversation(conversation)[1..] == FormatConversation(conversation[1..]);
    }
  }

  /** Formatting distributes over concatenation, so it keeps each turn where it was. */
  lemma {:induction false} FormatConversationAppend(a: seq<(string, string)>, b: seq<(string, string)>)
    ensures FormatConversation(a + b) == FormatConversation(a) + FormatConversation(b)
  {
    if a != [] {
      assert (a + b)[1..] == a[1..] + b;
      FormatConversationAppend(a[1..], b);
    } else {
      assert a + b == b;
    }
  }

  /** The three-turn conversation of the unit test in src/claude.rs. */
  lemma FormatConversationExample()
    ensures var formatted := FormatConversation([
                ("user", "Hello, Claude!"),
                ("assistant", "Hello! How can I assist you today?"),
                ("user", "Tell me about Rust programming.")]);
            |formatted| == 3 &&
            formatted[0] == ClaudeMessage("user", "Hello, Claude!") &&
            formatted[1] == ClaudeMessage("assistant", "Hello! How can I assist you today?") &&
            formatted[2] == ClaudeMessage("user", "Tell me about Rust programming.")
  {
  }
}
