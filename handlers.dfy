/**
  The progress and conversation handlers of src/handlers.rs. Each handler checks the
  topic id, then loads a record from the store into a local variable, changes it, and
  writes or deletes keys. Request bodies arrive already parsed (None: the JSON did not
  parse), the provider is an oracle over (role, content) pairs, and clock reads are
  parameters.
 */
module Handlers {
  import opened Types
  import opened Store
  import opened ProgressManager
  import opened ConversationManager

  const KNOWN_TOPICS: set<string> := {"github-setup", "docker-basics"}

  /** `topic_exists`: the fixed set of topic ids every handler accepts. */
  function TopicExists(topicId: string): (r: bool)
    ensures r <==> topicId in KNOWN_TOPICS
  {
    topicId == "github-setup" || topicId == "docker-basics"
  }

  const CONVERSATION_PREFIX: string := "conversation_"

  /** The key a topic's chat history is stored under. */
  function ConversationKey(topicId: string): (r: string)
    ensures |r| == |CONVERSATION_PREFIX| + |topicId|
    ensures r[..|CONVERSATION_PREFIX|] == CONVERSATION_PREFIX && r[|CONVERSATION_PREFIX|..] == topicId
  {
    CONVERSATION_PREFIX + topicId
  }

  /** Different topics never share a history key. */
  lemma ConversationKeyInjective(a: string, b: string)
    requires ConversationKey(a) == ConversationKey(b)
    ensures a == b
  {
    assert a == ConversationKey(a)[|CONVERSATION_PREFIX|..];
  }

  /** A history key is never a known topic id, so progress and history keys never collide. */
  lemma ConversationKeyIsNotTopicKey(a: string, b: string)
    requires TopicExists(b)
    ensures ConversationKey(a) != b
  {
    assert ConversationKey(a)[0] == 'c';
    assert b[0] != 'c';
  }

  /** Failure of the store layer that the handlers pass on with `?`: a stored value of the wrong shape. */
  datatype StoreError = DecodeFailure(key: string)

  /** The HTTP response a handler builds. */
  datatype Response =
    | ProgressJson(progress: Progress)
    | ConversationJson(conversation: ConversationHistory)
    | GenericJson(generic: GenericResponse)
    | ChatJson(chat: ChatResponse)
    | ErrorResponse(message: string, status: int)

  const NOT_FOUND: Response := ErrorResponse("Topic not found", 404)
  const INVALID_JSON: Response := ErrorResponse("Invalid JSON input", 400)
  const EMPTY_MESSAGE: Response := ErrorResponse("Message cannot be empty", 400)
  const PROVIDER_FAILED: Response := ErrorResponse("Failed to generate response", 500)

  /** The provider's answer to a history: the reply text, or an error description. */
  type Provider = seq<(string, string)> -> Result<string, string>

  /** `kv.get(topic_id).json::<Progress>()` followed by the zero-value fallback. */
  function DecodeProgress(topicId: string, stored: Option<Value>): (r: Result<Progress, StoreError>)
    ensures stored.None? ==> r == Ok(Progress(topicId, [], 0))
    ensures stored.Some? && stored.value.ProgressValue? ==> r == Ok(stored.value.progress)
    ensures r.Err? <==> stored.Some? && !stored.value.ProgressValue?
    ensures r.Err? ==> r.error == DecodeFailure(topicId)
  {
    match stored
    case None => Ok(ZeroProgress(topicId))
    case Some(ProgressValue(p)) => Ok(p)
    case Some(_) => Err(DecodeFailure(topicId))
  }

  /** `kv.get("conversation_" + topic_id).json::<ConversationHistory>()` followed by the empty fallback. */
  function DecodeConversation(topicId: string, stored: Option<Value>): (r: Result<ConversationHistory, StoreError>)
    ensures stored.None? ==> r == Ok(ConversationHistory(topicId, []))
    ensures stored.Some? && stored.value.ConversationValue? ==> r == Ok(stored.value.conversation)
    ensures r.Err? <==> stored.Some? && !stored.value.ConversationValue?
    ensures r.Err? ==> r.error == DecodeFailure(ConversationKey(topicId))
  {
    match stored
    case None => Ok(EmptyConversation(topicId))
    case Some(ConversationValue(c)) => Ok(c)
    case Some(_) => Err(DecodeFailure(ConversationKey(topicId)))
  }

  function Lookup(entries: map<string, Value>, key: string): Option<Value>
  {
    if key in entries then Some(entries[key]) else None
  }

  /** The progress a handler works on: the stored record, or the zero value when none is stored. */
  function LoadProgress(entries: map<string, Value>, topicId: string): (r: Result<Progress, StoreError>)
    ensures topicId !in entries ==> r == Ok(Progress(topicId, [], 0))
    ensures topicId in entries && entries[topicId].ProgressValue? ==> r == Ok(entries[topicId].progress)
    ensures r.Err? <==> topicId in entries && !entries[topicId].ProgressValue?
  {
    DecodeProgress(topicId, Lookup(entries, topicId))
  }

  /** The history a handler works on: the stored record, or an empty one when none is stored. */
  function LoadConversation(entries: map<string, Value>, topicId: string): (r: Result<ConversationHistory, StoreError>)
    ensures ConversationKey(topicId) !in entries ==> r == Ok(ConversationHistory(topicId, []))
    ensures ConversationKey(topicId) in entries && entries[ConversationKey(topicId)].ConversationValue? ==>
              r == Ok(entries[ConversationKey(topicId)].conversation)
    ensures r.Err? <==> ConversationKey(topicId) in entries && !entries[ConversationKey(topicId)].ConversationValue?
  {
    DecodeConversation(topicId, Lookup(entries, ConversationKey(topicId)))
  }

  /** The store after a reset: zero progress written, history key removed, every other key as it was. */
  function ResetEntries(entries: map<string, Value>, topicId: string): (r: map<string, Value>)
    ensures topicId in r && r[topicId] == ProgressValue(Progress(topicId, [], 0))
    ensures ConversationKey(topicId) !in r
    ensures forall k :: k != topicId && k != ConversationKey(topicId) ==>
              (k in r <==> k in entries) && (k in r ==> r[k] == entries[k])
  {
    assert topicId != ConversationKey(topicId);
    entries[topicId := ProgressValue(ZeroProgress(topicId))] - {ConversationKey(topicId)}
  }

  /** After a reset, both reads return their defaults whatever was stored before. */
  lemma ResetThenLoadGivesDefaults(entries: map<string, Value>, topicId: string)
    ensures LoadProgress(ResetEntries(entries, topicId), topicId) == Ok(ZeroProgress(topicId))
    ensures LoadConversation(ResetEntries(entries, topicId), topicId) == Ok(EmptyConversation(topicId))
  {
  }

  /** Posting to a topic's progress never touches its history. */
  lemma ProgressWriteKeepsHistory(entries: map<string, Value>, topicId: string, p: Progress)
    ensures LoadConversation(entries[topicId := ProgressValue(p)], topicId) == LoadConversation(entries, topicId)
  {
  }

  /** A chat turn's write never touches the topic's progress. */
  lemma HistoryWriteKeepsProgress(entries: map<string, Value>, topicId: string, h: ConversationHistory)
    ensures LoadProgress(entries[ConversationKey(topicId) := ConversationValue(h)], topicId) == LoadProgress(entries, topicId)
  {
  }

  /** GET /api/progress/:topicId: the stored progress or the zero value; never writes. */
  method HandleGetProgress(kv: KvStore, topicId: string) returns (r: Result<Response, StoreError>)
    modifies kv`log
    ensures kv.entries == old(kv.entries)
    ensures !TopicExists(topicId) ==> r == Ok(NOT_FOUND) && kv.log == old(kv.log)
    ensures TopicExists(topicId) ==>
              && kv.log == old(kv.log) + [Read(topicId)]
              && match LoadProgress(kv.entries, topicId)
                 case Ok(p) => r == Ok(ProgressJson(p))
                 case Err(e) => r == Err(e)
  {
    if !TopicExists(topicId) {
      return Ok(NOT_FOUND);
    }
    var stored := kv.Get(topicId);
    var progress := DecodeProgress(topicId, stored);
    match progress
    case Err(e) => return Err(e);
    case Ok(p) => return Ok(ProgressJson(p));
  }

  /** GET /api/conversation/:topicId: the stored history or an empty one; never writes. */
  method HandleGetConversation(kv: KvStore, topicId: string) returns (r: Result<Response, StoreError>)
    modifies kv`log
    ensures kv.entries == old(kv.entries)
    ensures !TopicExists(topicId) ==> r == Ok(NOT_FOUND) && kv.log == old(kv.log)
    ensures TopicExists(topicId) ==>
              && kv.log == old(kv.log) + [Read(ConversationKey(topicId))]
              && match LoadConversation(kv.entries, topicId)
                 case Ok(h) => r == Ok(ConversationJson(h))
                 case Err(e) => r == Err(e)
  {
    if !TopicExists(topicId) {
      return Ok(NOT_FOUND);
    }
    var conversationKey := ConversationKey(topicId);
    var stored := kv.Get(conversationKey);
    var conversation := DecodeConversation(topicId, stored);
    match conversation
    case Err(e) => return Err(e);
    case Ok(h) => return Ok(ConversationJson(h));
  }

  /**
    POST /api/progress/:topicId. A step already completed changes nothing and writes
    nothing; a new step is pushed, the list sorted, current_step set past it and the
    record written once, at the topic's key.
   */
  method HandlePostProgress(kv: KvStore, topicId: string, update: Option<ProgressUpdate>)
    returns (r: Result<Response, StoreError>)
    modifies kv
    ensures !TopicExists(topicId) ==> r == Ok(NOT_FOUND) && kv.entries == old(kv.entries) && kv.log == old(kv.log)
    ensures TopicExists(topicId) && update.None? ==>
              r == Ok(INVALID_JSON) && kv.entries == old(kv.entries) && kv.log == old(kv.log)
    ensures TopicExists(topicId) && update.Some? ==>
              StepRecorded(old(kv.entries), old(kv.log), kv.entries, kv.log, r, topicId, update.value.completedStep)
  {
    if !TopicExists(topicId) {
      return Ok(NOT_FOUND);
    }
    if update.None? {
      return Ok(INVALID_JSON);
    }
    r := RecordCompletedStep(kv, topicId, update.value.completedStep);
  }

  /** The confirmation body of a progress post. */
  function ProgressUpdated(topicId: string): Response
  {
    GenericJson(GenericResponse(200, "Progress updated for topic " + topicId + "."))
  }

  /**
    What a progress post leaves behind, from the store before it (`entries`, `log`) to the
    store after it (`entries'`, `log'`) and the result `r`: a read of the topic key, then
    no write when the step is already completed (or the record does not decode), and
    otherwise exactly one write of `RecordStep(p, step)` at that key.
   */
  ghost predicate StepRecorded(entries: map<string, Value>, log: seq<Op>, entries': map<string, Value>, log': seq<Op>,
                               r: Result<Response, StoreError>, topicId: string, step: Usize)
  {
    match LoadProgress(entries, topicId)
    case Err(e) =>
      r == Err(e) && entries' == entries && log' == log + [Read(topicId)]
    case Ok(p) =>
      && r == Ok(ProgressUpdated(topicId))
      && (step in p.completedSteps ==> entries' == entries && log' == log + [Read(topicId)])
      && (step !in p.completedSteps ==>
            && entries' == entries[topicId := ProgressValue(RecordStep(p, step))]
            && log' == log + [Read(topicId), Write(topicId, ProgressValue(RecordStep(p, step)))])
  }

  /** The part of `handle_post_progress` after the checks: load, push, sort, set current_step, store. */
  method RecordCompletedStep(kv: KvStore, topicId: string, step: Usize) returns (r: Result<Response, StoreError>)
    modifies kv
    ensures StepRecorded(old(kv.entries), old(kv.log), kv.entries, kv.log, r, topicId, step)
  {
    ghost var entries0, log0 := kv.entries, kv.log;
    var stored := kv.Get(topicId);
    assert stored == Lookup(entries0, topicId);
    var loaded := DecodeProgress(topicId, stored);
    assert loaded == LoadProgress(entries0, topicId);
    if loaded.Err? {
      return Err(loaded.error);
    }
    var progress := loaded.value;
    if step !in progress.completedSteps {
      progress := progress.(completedSteps := Sort(progress.completedSteps + [step]));
      progress := progress.(currentStep := WrappingSucc(step));
      assert progress == RecordStep(loaded.value, step);
      kv.Put(topicId, ProgressValue(progress));
    }
    r := Ok(ProgressUpdated(topicId));
    assert StepRecorded(entries0, log0, kv.entries, kv.log, r, topicId, step);
  }

  /**
    POST /api/chat/:topicId. A blank message or a provider failure leaves the store as it
    was; on a reply, the user message and the reply are appended, the history is cut to the
    newest 50 messages and written once, and the reply is returned.
   */
  method HandlePostChat(kv: KvStore, topicId: string, body: Option<ChatMessage>, provider: Provider,
                        sentAt: Timestamp, repliedAt: Timestamp)
    returns (r: Result<Response, StoreError>)
    modifies kv
    ensures !TopicExists(topicId) ==> r == Ok(NOT_FOUND) && kv.entries == old(kv.entries) && kv.log == old(kv.log)
    ensures TopicExists(topicId) && body.None? ==>
              r == Ok(INVALID_JSON) && kv.entries == old(kv.entries) && kv.log == old(kv.log)
    ensures TopicExists(topicId) && body.Some? && IsBlank(body.value.message) ==>
              r == Ok(EMPTY_MESSAGE) && kv.entries == old(kv.entries) && kv.log == old(kv.log)
    ensures TopicExists(topicId) && body.Some? && !IsBlank(body.value.message) ==>
              ChatTurnDone(old(kv.entries), old(kv.log), kv.entries, kv.log, r, topicId, body.value.message, provider, sentAt, repliedAt)
  {
    if !TopicExists(topicId) {
      return Ok(NOT_FOUND);
    }
    if body.None? {
      return Ok(INVALID_JSON);
    }
    var message := body.value.message;
    if IsBlank(message) {
      return Ok(EMPTY_MESSAGE);
    }
    r := ChatTurn(kv, topicId, message, provider, sentAt, repliedAt);
  }

  /**
    What a chat turn leaves behind, from the store before it (`entries`, `log`) to the
    store after it (`entries'`, `log'`) and the handler's result `r`: a read of the
    history key, then either no write (store error, provider error) or exactly one write
    of the truncated history at that key.
   */
  ghost predicate ChatTurnDone(entries: map<string, Value>, log: seq<Op>, entries': map<string, Value>, log': seq<Op>,
                               r: Result<Response, StoreError>, topicId: string, message: string,
                               provider: Provider, sentAt: Timestamp, repliedAt: Timestamp)
  {
    var key := ConversationKey(topicId);
    match LoadConversation(entries, topicId)
    case Err(e) =>
      r == Err(e) && entries' == entries && log' == log + [Read(key)]
    case Ok(h) =>
      var user := TimestampedChatMessage("user", message, sentAt);
      match provider(RolesAndContents(h.messages + [user]))
      case Err(_) =>
        r == Ok(PROVIDER_FAILED) && entries' == entries && log' == log + [Read(key)]
      case Ok(reply) =>
        var stored := AppendTurn(h, user, TimestampedChatMessage("assistant", reply, repliedAt));
        && r == Ok(ChatJson(ChatResponse(reply)))
        && entries' == entries[key := ConversationValue(stored)]
        && log' == log + [Read(key), Write(key, ConversationValue(stored))]
  }

  /** The part of `handle_post_chat` after the message checks: load, append, ask, append, cut, store. */
  method ChatTurn(kv: KvStore, topicId: string, message: string, provider: Provider,
                  sentAt: Timestamp, repliedAt: Timestamp)
    returns (r: Result<Response, StoreError>)
    modifies kv
    ensures ChatTurnDone(old(kv.entries), old(kv.log), kv.entries, kv.log, r, topicId, message, provider, sentAt, repliedAt)
  {
    ghost var entries0, log0 := kv.entries, kv.log;
    var conversationKey := ConversationKey(topicId);
    var stored := kv.Get(conversationKey);
    assert stored == Lookup(entries0, conversationKey);
    var loaded := DecodeConversation(topicId, stored);
    assert loaded == LoadConversation(entries0, topicId);
    if loaded.Err? {
      r := Err(loaded.error);
      LoadFailureDone(entries0, log0, topicId, message, provider, sentAt, repliedAt, loaded.error);
      return;
    }
    var user := TimestampedChatMessage("user", message, sentAt);
    var answer := provider(RolesAndContents(loaded.value.messages + [user]));
    match answer
    case Err(_) =>
      r := Ok(PROVIDER_FAILED);
      ProviderFailureDone(entries0, log0, topicId, message, provider, sentAt, repliedAt, loaded.value);
    case Ok(reply) =>
      ghost var log1 := kv.log;
      var assistant := TimestampedChatMessage("assistant", reply, repliedAt);
      StoreTurn(kv, conversationKey, loaded.value, user, assistant);
      ghost var stored := ConversationValue(AppendTurn(loaded.value, user, assistant));
      assert kv.log == log0 + [Read(conversationKey), Write(conversationKey, stored)] by {
        assert log1 == log0 + [Read(conversationKey)];
        assert kv.log == log1 + [Write(conversationKey, stored)];
      }
      r := Ok(ChatJson(ChatResponse(reply)));
      ReplyDone(entries0, log0, topicId, message, provider, sentAt, repliedAt, loaded.value, reply);
  }

  /** The store-error path of a chat turn is `ChatTurnDone`'s first case. */
  lemma LoadFailureDone(entries: map<string, Value>, log: seq<Op>, topicId: string, message: string,
                        provider: Provider, sentAt: Timestamp, repliedAt: Timestamp, e: StoreError)
    requires LoadConversation(entries, topicId) == Err(e)
    ensures ChatTurnDone(entries, log, entries, log + [Read(ConversationKey(topicId))], Err(e),
                         topicId, message, provider, sentAt, repliedAt)
  {
  }

  /** The provider-failure path of a chat turn is `ChatTurnDone`'s second case. */
  lemma ProviderFailureDone(entries: map<string, Value>, log: seq<Op>, topicId: string, message: string,
                            provider: Provider, sentAt: Timestamp, repliedAt: Timestamp, h: ConversationHistory)
    requires LoadConversation(entries, topicId) == Ok(h)
    requires provider(RolesAndContents(h.messages + [TimestampedChatMessage("user", message, sentAt)])).Err?
    ensures ChatTurnDone(entries, log, entries, log + [Read(ConversationKey(topicId))], Ok(PROVIDER_FAILED),
                         topicId, message, provider, sentAt, repliedAt)
  {
  }

  /** The reply path of a chat turn is `ChatTurnDone`'s third case. */
  lemma ReplyDone(entries: map<string, Value>, log: seq<Op>, topicId: string, message: string,
                  provider: Provider, sentAt: Timestamp, repliedAt: Timestamp, h: ConversationHistory, reply: string)
    requires LoadConversation(entries, topicId) == Ok(h)
    requires provider(RolesAndContents(h.messages + [TimestampedChatMessage("user", message, sentAt)])) == Ok(reply)
    ensures var key := ConversationKey(topicId);
            var stored := ConversationValue(AppendTurn(h, TimestampedChatMessage("user", message, sentAt),
                                                       TimestampedChatMessage("assistant", reply, repliedAt)));
            ChatTurnDone(entries, log, entries[key := stored], log + [Read(key), Write(key, stored)],
                         Ok(ChatJson(ChatResponse(reply))), topicId, message, provider, sentAt, repliedAt)
  {
  }

  /** When the provider replies, `ChatTurnDone` pins down the result and the one write. */
  lemma ReplyOutcome(entries: map<string, Value>, log: seq<Op>, entries': map<string, Value>, log': seq<Op>,
                     r: Result<Response, StoreError>, topicId: string, message: string, provider: Provider,
                     sentAt: Timestamp, repliedAt: Timestamp, h: ConversationHistory, reply: string)
    requires ChatTurnDone(entries, log, entries', log', r, topicId, message, provider, sentAt, repliedAt)
    requires LoadConversation(entries, topicId) == Ok(h)
    requires provider(RolesAndContents(h.messages + [TimestampedChatMessage("user", message, sentAt)])) == Ok(reply)
    ensures r == Ok(ChatJson(ChatResponse(reply)))
    ensures entries' == entries[ConversationKey(topicId) := ConversationValue(AppendTurn(h,
               TimestampedChatMessage("user", message, sentAt), TimestampedChatMessage("assistant", reply, repliedAt)))]
  {
  }

  /**
    The end of a successful turn: push both messages, keep the newest 50, write the history
    once. The provider was already shown the history with the user message pushed; since
    that push is on a local value, doing it here after the call stores the same history.
   */
  method StoreTurn(kv: KvStore, key: string, h: ConversationHistory, user: TimestampedChatMessage,
                   assistant: TimestampedChatMessage)
    modifies kv
    ensures kv.entries == old(kv.entries)[key := ConversationValue(AppendTurn(h, user, assistant))]
    ensures kv.log == old(kv.log) + [Write(key, ConversationValue(AppendTurn(h, user, assistant)))]
  {
    var conversation := h;
    conversation := conversation.(messages := conversation.messages + [user]);
    conversation := conversation.(messages := conversation.messages + [assistant]);
    assert conversation.messages == h.messages + [user, assistant];
    if |conversation.messages| > MAX_HISTORY {
      conversation := conversation.(messages := conversation.messages[|conversation.messages| - MAX_HISTORY..]);
    }
    assert conversation == AppendTurn(h, user, assistant);
    kv.Put(key, ConversationValue(conversation));
  }

  /**
    POST /api/reset/:topicId: write the zero progress at the topic's key, then delete the
    history key; nothing else changes.
   */
  method HandleResetProgress(kv: KvStore, topicId: string) returns (r: Result<Response, StoreError>)
    modifies kv
    ensures !TopicExists(topicId) ==> r == Ok(NOT_FOUND) && kv.entries == old(kv.entries) && kv.log == old(kv.log)
    ensures TopicExists(topicId) ==>
              && r == Ok(GenericJson(GenericResponse(200, "Progress and conversation reset for topic " + topicId + ".")))
              && kv.entries == ResetEntries(old(kv.entries), topicId)
              && kv.log == old(kv.log) + [Write(topicId, ProgressValue(ZeroProgress(topicId))), Remove(ConversationKey(topicId))]
  {
    if !TopicExists(topicId) {
      return Ok(NOT_FOUND);
    }
    var progress := Progress(topicId, [], 0);
    kv.Put(topicId, ProgressValue(progress));
    var conversationKey := ConversationKey(topicId);
    kv.Delete(conversationKey);
    return Ok(GenericJson(GenericResponse(200, "Progress and conversation reset for topic " + topicId + ".")));
  }
}
