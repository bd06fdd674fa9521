/**
  Data shapes shared by the handlers and the provider adapter (src/types.rs).
  Store values are already-typed records: JSON encoding is not modelled.
 */
module Types {

  datatype Option<+T> = None | Some(value: T)

  datatype Result<+T, +E> = Ok(value: T) | Err(error: E)

  /** A Worker is built for 32-bit WebAssembly, so Rust's `usize` has 2^32 values. */
  const USIZE_LIMIT: int := 0x1_0000_0000

  type Usize = x: int | 0 <= x < USIZE_LIMIT

  /** `usize + 1` in a release build (no overflow checks): wraps to 0 at the top. */
  function WrappingSucc(x: Usize): (r: Usize)
    ensures r == (x + 1) % USIZE_LIMIT
  {
    if x == USIZE_LIMIT - 1 then 0 else x + 1
  }

  /** An instant read from the clock; the model never inspects it. */
  datatype Timestamp = Timestamp(millis: int)

  /** Body of POST /api/progress/:topicId. The `reset` flag is never read by a handler. */
  datatype ProgressUpdate = ProgressUpdate(completedStep: Usize, reset: Option<bool>)

  /** Per-topic progress record, stored under the topic id. */
  datatype Progress = Progress(topicId: string, completedSteps: seq<Usize>, currentStep: Usize)

  /** One entry of a stored conversation. */
  datatype TimestampedChatMessage = TimestampedChatMessage(role: string, content: string, timestamp: Timestamp)

  /** Per-topic chat history, stored under "conversation_" + topic id. */
  datatype ConversationHistory = ConversationHistory(topicId: string, messages: seq<TimestampedChatMessage>)

  /** Body of POST /api/chat/:topicId. */
  datatype ChatMessage = ChatMessage(message: string)

  /** Body of the chat handler's success response. */
  datatype ChatResponse = ChatResponse(response: string)

  /** `{status, message}` body of the progress and reset handlers. */
  datatype GenericResponse = GenericResponse(status: int, message: string)

  /** One message of a provider request. */
  datatype ClaudeMessage = ClaudeMessage(role: string, content: string)

  /** A provider request as `call_claude_api` builds it. */
  datatype ClaudeRequest = ClaudeRequest(model: string, maxTokens: nat, messages: seq<ClaudeMessage>)

  datatype ClaudeContent = ClaudeContent(text: string, contentType: string)

  datatype ClaudeUsage = ClaudeUsage(inputTokens: nat, outputTokens: nat)

  /** A provider response body that has been parsed successfully. */
  datatype ClaudeResponse = ClaudeResponse(
    content: seq<ClaudeContent>,
    id: string,
    model: string,
    role: string,
    stopReason: Option<string>,
    stopSequence: Option<string>,
    responseType: string,
    usage: ClaudeUsage)
}
