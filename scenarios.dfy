/**
  Request sequences against one store, written as clients of the handler contracts:
  reset then read, the same step posted twice, and a first chat turn on a fresh topic.
 */
module Scenarios {
  import opened Types
  import opened Store
  import opened ProgressManager
  import opened ConversationManager
  import opened Handlers

  /** A reset followed by both reads yields the defaults, whatever the store held. */
  method ResetThenRead(kv: KvStore, topicId: string) returns (progress: Result<Response, StoreError>, conversation: Result<Response, StoreError>)
    requires TopicExists(topicId)
    modifies kv
    ensures progress == Ok(ProgressJson(Progress(topicId, [], 0)))
    ensures conversation == Ok(ConversationJson(ConversationHistory(topicId, [])))
  {
    var _ := HandleResetProgress(kv, topicId);
    ResetThenLoadGivesDefaults(old(kv.entries), topicId);
    progress := HandleGetProgress(kv, topicId);
    conversation := HandleGetConversation(kv, topicId);
  }

  /** Posting step 0 twice on a fresh store writes once and leaves completed_steps [0], current_step 1. */
  method PostSameStepTwice() returns (progress: Result<Response, StoreError>, kv: KvStore)
    ensures progress == Ok(ProgressJson(Progress("github-setup", [0], 1)))
    ensures kv.log == [Read("github-setup"), Write("github-setup", ProgressValue(Progress("github-setup", [0], 1))),
                       Read("github-setup"), Read("github-setup")]
  {
    kv := new KvStore(map[]);
    var zero := Some(ProgressUpdate(0, None));
    var _ := HandlePostProgress(kv, "github-setup", zero);
    ProgressManager.PostStepZeroTwice("github-setup");
    assert RecordStep(ZeroProgress("github-setup"), 0) == Progress("github-setup", [0], 1);
    var _ := HandlePostProgress(kv, "github-setup", zero);
    progress := HandleGetProgress(kv, "github-setup");
  }

  /** The facts about "hi" on a fresh topic that the handler's contract needs. */
  lemma FreshTopicHi(provider: Provider, sentAt: Timestamp, repliedAt: Timestamp)
    requires provider([("user", "hi")]) == Ok("hello")
    ensures !IsBlank("hi") && TopicExists("github-setup")
    ensures LoadConversation(map[], "github-setup") == Ok(EmptyConversation("github-setup"))
    ensures provider(RolesAndContents(EmptyConversation("github-setup").messages + [TimestampedChatMessage("user", "hi", sentAt)])) == Ok("hello")
    ensures AppendTurn(EmptyConversation("github-setup"), TimestampedChatMessage("user", "hi", sentAt),
                       TimestampedChatMessage("assistant", "hello", repliedAt)) ==
            ConversationHistory("github-setup", [TimestampedChatMessage("user", "hi", sentAt),
                                                 TimestampedChatMessage("assistant", "hello", repliedAt)])
  {
    var user := TimestampedChatMessage("user", "hi", sentAt);
    assert !IsWhitespace("hi"[0]);
    assert EmptyConversation("github-setup").messages + [user] == [user];
    assert RolesAndContents([user]) == [("user", "hi")];
    FirstTurnOnFreshTopic("github-setup", user, TimestampedChatMessage("assistant", "hello", repliedAt));
  }

  /** "hi" on a fresh topic with a provider that answers "hello": reply returned, two messages stored. */
  method FirstChat(provider: Provider, sentAt: Timestamp, repliedAt: Timestamp) returns (r: Result<Response, StoreError>, kv: KvStore)
    requires provider([("user", "hi")]) == Ok("hello")
    ensures r == Ok(ChatJson(ChatResponse("hello")))
    ensures kv.entries == map[ConversationKey("github-setup") := ConversationValue(ConversationHistory("github-setup", [
              TimestampedChatMessage("user", "hi", sentAt), TimestampedChatMessage("assistant", "hello", repliedAt)]))]
  {
    kv := new KvStore(map[]);
    FreshTopicHi(provider, sentAt, repliedAt);
    r := HandlePostChat(kv, "github-setup", Some(ChatMessage("hi")), provider, sentAt, repliedAt);
    ReplyOutcome(map[], [], kv.entries, kv.log, r, "github-setup", "hi", provider, sentAt, repliedAt,
                 EmptyConversation("github-setup"), "hello");
  }
}
