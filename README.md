# devops-ai-api: progress and conversation state, in Dafny

This project models the state manager of a small Cloudflare Worker backend (written in
Rust). The backend tracks which steps of a learning topic are completed. It also keeps a
per-topic chat history and forwards chat messages to a language-model provider.

Per-topic state lives in one key-value namespace:

- the key `topic_id` holds a `Progress` record (`completed_steps`, `current_step`);
- the key `"conversation_" + topic_id` holds a `ConversationHistory` (timestamped `user` and
  `assistant` messages).

The model has six modules:

- `Types` (types.dfy): the records of `src/types.rs`. `usize` is a 32-bit subset type,
  because a Worker is built for 32-bit WebAssembly. `WrappingSucc` is the release-build
  `usize + 1`, which wraps to 0 at the top.
- `Store` (store.dfy): the key-value namespace as a class. It holds `entries: map<string, Value>`
  and a ghost `log` of every get, put and delete. Handler contracts use the log to say
  which reads and writes happened: none, one read, one read and exactly one write, or
  (for a reset) one put followed by one delete.
- `ProgressManager` (progress.dfy): the step-recording rule as functions. `Vec::sort` is
  modelled by insertion sort. The lemmas cover sortedness, no duplicates, idempotence and
  where `current_step` points.
- `ConversationManager` (conversation.dfy): Rust's `trim`-based blank test, the 50-message
  cap, and one chat turn.
- `Handlers` (handlers.dfy): `topic_exists` and the five state handlers, as methods that read,
  change and write the store. Each handler's `ensures` gives its full result and the new
  store state for every branch: 404, 400, store decode error, provider error, and success.
- `Claude` (claude.dfy): the provider adapter. It covers the fixed request `call_claude_api`
  builds, its decoding chain (transport, then status, then parse, then first content
  block), and `format_conversation`.
- `Scenarios` (scenarios.dfy): request sequences written as clients of the handler
  contracts: reset then read, the same step posted twice, and a first chat turn.

Inputs the handlers do not compute are parameters:

- A request body arrives already parsed (`None` means the JSON did not parse).
- The chat provider is a function from the `(role, content)` pairs of the history to
  `Ok(reply)` or `Err(description)`.
- The two `Utc::now()` readings are `Timestamp` arguments.
- The HTTPS exchange of `call_claude_api` is a function from the request to an
  `HttpOutcome`.

A stored value of the wrong kind is a `StoreError`. An example is a conversation stored
under a progress key. The handlers pass this on with `?`, as a JSON decode failure.

Where a reader might expect otherwise, the model follows the code:

- `current_step` is set to the newly recorded step + 1 (src/handlers.rs:186), not to
  `max(completed_steps) + 1`.
  - `ProgressManager.CurrentStepFollowsLatestNotLargest` shows the difference: recording
    5 and then 2 gives `completed_steps = [2, 5]` and `current_step = 3`.
  - `ProgressManager.RecordLargerStepIsMaxPlusOne` shows the two agree when steps arrive
    in increasing order.
- The code never dedupes `completed_steps`. The `contains` test is the only guard.
  So a post leaves the list duplicate-free if and only if the stored list already was
  (`ProgressManager.RecordStepNoDuplicatesIff`).
- No system prompt is built anywhere in the code. The chat handler calls
  `claude::call_claude_api_with_history`, which src/claude.rs does not define. That call is
  the `Provider` oracle.
- `topic_exists` accepts `"docker-basics"`, but the topic catalogue has no entry for it.

## Model

| member | source | states |
|---|---|---|
| `Types.WrappingSucc` | src/handlers.rs:186 | `completed_step + 1` as a release build computes it on a 32-bit `usize`: the successor modulo 2^32 |
| `Store.KvStore.Get` | src/handlers.rs:221 | the value stored at the key, or none; the contents do not change and the read is logged |
| `Store.KvStore.Put` | src/handlers.rs:190 | the key now holds the value, every other key is as it was, and the write is logged |
| `Store.KvStore.Delete` | src/handlers.rs:349 | the key is gone, every other key is as it was, and the delete is logged |
| `Handlers.TopicExists` | src/handlers.rs:366-368 | true exactly for the two ids "github-setup" and "docker-basics" |
| `Handlers.ConversationKey` | src/handlers.rs:266 | the history key is "conversation_" followed by the topic id |
| `Handlers.ConversationKeyInjective` | src/handlers.rs:266 | two topics never share a history key |
| `Handlers.ConversationKeyIsNotTopicKey` | src/handlers.rs:366-368 | a history key is never a known topic id, so progress and history keys never collide |
| `Handlers.LoadProgress` | src/handlers.rs:220-228 | the stored progress record, or `{topic_id, [], 0}` when the key is absent; an error exactly when the key holds something else |
| `Handlers.DecodeProgress` | src/handlers.rs:170-176 | an absent key gives `{topic_id, [], 0}`, a stored progress record is returned as it is, and any other stored value is a decode error naming the topic key |
| `Handlers.DecodeConversation` | src/handlers.rs:269-275 | an absent key gives `{topic_id, []}`, a stored history is returned as it is, and any other stored value is a decode error naming the history key |
| `Handlers.LoadConversation` | src/handlers.rs:383-392 | the stored history, or `{topic_id, []}` when the key is absent; an error exactly when the key holds something else |
| `Handlers.ResetEntries` | src/handlers.rs:337-349 | after a reset the topic key holds zero progress, the history key is absent, and every other key is as it was |
| `Handlers.ResetThenLoadGivesDefaults` | src/handlers.rs:338-349 | after a reset both reads return their defaults, whatever was stored before |
| `Handlers.ProgressWriteKeepsHistory` | src/handlers.rs:190-191 | writing a topic's progress leaves the read of its history unchanged |
| `Handlers.HistoryWriteKeepsProgress` | src/handlers.rs:302-304 | writing a topic's history leaves the read of its progress unchanged |
| `Handlers.HandleGetProgress` | src/handlers.rs:210-231 | unknown id: 404 with no store call; otherwise one read, no write, and the stored record or the zero value |
| `Handlers.HandleGetConversation` | src/handlers.rs:370-393 | unknown id: 404 with no store call; otherwise one read, no write, and the stored history or an empty one |
| `Handlers.HandlePostProgress` | src/handlers.rs:151-198 | an unknown id (404) and a body that does not parse (400) touch nothing; otherwise the store and result are those of `RecordCompletedStep` (the predicate `StepRecorded`) |
| `Handlers.RecordCompletedStep` | src/handlers.rs:168-197 | one read of the topic key; a record that does not decode is returned as an error with no write; a step already completed means no write; a new step means exactly one write of `RecordStep(p, step)` at the topic key, nothing else changes, and the confirmation message names the topic |
| `Handlers.HandlePostChat` | src/handlers.rs:243-313 | 404, bad JSON and a whitespace-only message touch nothing; otherwise the store and result are those of `ChatTurn` (the predicate `ChatTurnDone`) |
| `Handlers.ChatTurn` | src/handlers.rs:265-312 | one read of the history key; a store error or a provider error writes nothing; a reply writes `AppendTurn(h, user, assistant)` once at the history key and returns the reply |
| `Handlers.StoreTurn` | src/handlers.rs:278-304 | the user message and the reply are pushed, the history is cut to 50, and what is written is `AppendTurn(h, user, assistant)`, at the history key, in exactly one put, and nothing else changes |
| `Handlers.ReplyOutcome` | src/handlers.rs:287-306 | whenever the provider answers, the handler returns exactly that reply and the only changed key is the history key, holding `AppendTurn` |
| `Handlers.HandleResetProgress` | src/handlers.rs:325-355 | unknown id: 404 with no store call; otherwise one put of zero progress at the topic key, then one delete of the history key, giving `ResetEntries` |
| `ProgressManager.ZeroProgress` | src/handlers.rs:172-176 | the default record: the topic id, no completed steps, current step 0 |
| `ProgressManager.Insert` | src/handlers.rs:184-185 | inserting one element adds exactly it to the list's multiset |
| `ProgressManager.Sort` | src/handlers.rs:185 | the result is ascending and a permutation of the input |
| `ProgressManager.RecordStep` | src/handlers.rs:181-186 | a step already present leaves the record unchanged; otherwise the new list is a sorted permutation of old plus the step, and `current_step` is step + 1 (wrapping) |
| `ProgressManager.RecordStepKeepsStrictlySorted` | src/handlers.rs:181-185 | a sorted, duplicate-free list stays sorted and duplicate-free after any post |
| `ProgressManager.RecordStepNoDuplicatesIff` | src/handlers.rs:181-185 | after a post the list is duplicate-free if and only if it was before: the `contains` test keeps the new step out when present, and an old duplicate survives the sort |
| `ProgressManager.RecordStepIdempotent` | src/handlers.rs:181-182 | posting the same step twice gives the same record as posting it once |
| `ProgressManager.RecordStepAddsExactlyStep` | src/handlers.rs:184 | the set of completed steps after a post is the old set plus the step |
| `ProgressManager.RecordAllStrictlySorted` | src/handlers.rs:181-191 | any sequence of posts from a sorted, duplicate-free record leaves the list sorted and duplicate-free |
| `ProgressManager.RecordLargerStepIsMaxPlusOne` | src/handlers.rs:184-186 | a step larger than all completed ones is appended, and `current_step` is then one past the maximum |
| `ProgressManager.CurrentStepFollowsLatestNotLargest` | src/handlers.rs:186 | recording 5 then 2 gives `[2, 5]` with `current_step` 3, not one past the maximum |
| `ProgressManager.PostStepZeroTwice` | src/handlers.rs:181-186 | step 0 posted twice on a fresh record gives `completed_steps = [0]`, `current_step = 1` |
| `ProgressManager.SortOfSorted` | src/handlers.rs:185 | sorting an already sorted list changes nothing |
| `ConversationManager.EmptyConversation` | src/handlers.rs:271-274 | the default history: the topic id and no messages |
| `ConversationManager.WhitespaceExamples` | src/handlers.rs:261 | space, tab, newline, carriage return, no-break space, em space and ideographic space count as white space; zero-width space, the byte-order mark, the Mongolian vowel separator, letters and digits do not |
| `ConversationManager.Trim` | src/handlers.rs:261 | everything cut from the front and from the back is white space, and a non-empty result starts and ends with a character that is not |
| `ConversationManager.TrimIsSlice` | src/handlers.rs:261 | what `trim` keeps is, character for character, the run of the message that starts right after the leading white space |
| `ConversationManager.TrimStart` | src/handlers.rs:261 | the result is a suffix of the input; only white space was dropped, and it starts with a non-white-space character |
| `ConversationManager.TrimEnd` | src/handlers.rs:261 | the result is a prefix of the input; only white space was dropped, and it ends with a non-white-space character |
| `ConversationManager.IsBlank` | src/handlers.rs:261-263 | a message is rejected as empty exactly when every character is Unicode white space |
| `ConversationManager.Truncate` | src/handlers.rs:297-299 | the result has at most 50 messages and is the newest min(n, 50) messages of the input, in order |
| `ConversationManager.AppendTurn` | src/handlers.rs:278-299 | for L = old ++ [user, assistant], the stored history is the last min(length of L, 50) elements of L; it ends with the user message and then the assistant reply; the topic id is kept |
| `ConversationManager.AppendTurnBelowCap` | src/handlers.rs:297 | with at most 48 stored messages a turn drops nothing and grows the history by two |
| `ConversationManager.AppendTurnAtCap` | src/handlers.rs:297-298 | with 50 stored messages a turn drops exactly the two oldest |
| `ConversationManager.TruncateIdempotent` | src/handlers.rs:297-298 | truncating twice is the same as truncating once |
| `ConversationManager.FirstTurnOnFreshTopic` | src/handlers.rs:269-294 | a turn on an empty history stores exactly [user, assistant] |
| `ConversationManager.RolesAndContents` | src/handlers.rs:287 | the provider sees one (role, content) pair per message, index by index |
| `ConversationManager.RolesAndContentsAppend` | src/handlers.rs:287 | the projection distributes over appending, so stored order is the order the provider sees |
| `Claude.BuildRequest` | src/claude.rs:21-28 | the model is "claude-3-5-sonnet-20240620", max_tokens is 1024, and there is exactly one message: role "user", content the input |
| `Claude.DecodeReply` | src/claude.rs:30-53 | the result is Ok exactly for a received 2xx response that parsed and has content, and then it is the first block's text; otherwise it is a transport error, a status error, a parse error or "no content", in that priority |
| `Claude.SuccessIsStatusClassTwo` | src/claude.rs:42 | `is_success` holds exactly for the statuses whose class (status / 100) is 2 |
| `Claude.CallClaudeApi` | src/claude.rs:17-54 | for the one-message request: Ok exactly when the answer arrived with a 2xx status, parsed, and has a content block, and then the reply is the first block's text; otherwise a transport failure, a non-2xx status, an unparsed body and an empty content list each give their own error |
| `Claude.SendFailureIsFinal` | src/claude.rs:38-39 | a transport failure yields the send error, with no status or body looked at |
| `Claude.StatusCheckedBeforeBody` | src/claude.rs:42-44 | a non-2xx status gives the same error whatever the body would parse to |
| `Claude.FirstBlockOnly` | src/claude.rs:51-53 | later content blocks never change the reply |
| `Claude.FormatConversation` | src/claude.rs:66-73 | the length is kept, and role and content are kept at every index |
| `Claude.Pairs` | src/claude.rs:68-71 | the inverse projection keeps length and keeps each (role, content) pair at every index |
| `Claude.FormatConversationRoundTrip` | src/claude.rs:66-73 | formatting is undone by `Pairs`: nothing is lost or reordered |
| `Claude.FormatConversationAppend` | src/claude.rs:67-72 | formatting distributes over concatenation |
| `Claude.FormatConversationExample` | src/claude.rs:80-96 | on the unit test's three-turn conversation, the messages come out as that test expects |
| `Scenarios.ResetThenRead` | src/handlers.rs:338-349 | reset followed by both GETs returns `{topic_id, [], 0}` and `{topic_id, []}` |
| `Scenarios.PostSameStepTwice` | src/handlers.rs:181-191 | step 0 posted twice on a fresh store: the store log is read, write of `{[0], 1}`, read (no second write), read; the later GET shows `[0]` and current step 1 |
| `Scenarios.FirstChat` | src/handlers.rs:243-306 | "hi" with a provider answering "hello" returns "hello" and stores exactly the user and assistant messages |

## Left out

- Routing, CORS preflight and CORS headers (src/lib.rs, src/utils.rs) are left out: they are fixed strings over the `worker` framework.
- The topic catalogue (src/topics.rs, `handle_get_topics`, `handle_get_topic`) is left out: it is static data. The set of topic ids appears as `Handlers.KNOWN_TOPICS`.
- JSON serialization and parsing are left out. A request body comes in as `Option`, with `None` standing for a parse failure. Store values are typed records. A value of the wrong kind stands for a failed decode.
- Failures of the key-value service itself are left out: a `kv.get`, `kv.put` or `kv.delete` that errors, and a missing `DATA_STORE` binding. The model's store always answers. So the partial reset (put succeeded, delete failed) is not modelled.
- `ctx.secret("ANTHROPIC_API_KEY")` and its failure path are left out, because the secret is supplied by the platform. The HTTPS call, its headers and the API key (src/claude.rs:30-37) are foreign network I/O, represented by the `send` oracle.
- `call_claude_api_with_history` is not part of this model: src/claude.rs does not define it. The chat handler's provider is an uninterpreted function over the `(role, content)` pairs instead. No system prompt is modelled, because the code builds none.
- Claude.DecodeReply: error values carry the error kind, the transport reason and the status code. They do not carry the formatted message text of `Error::from(format!(...))`.
- Fields declared in src/types.rs that the constructing code never sets are left out: `ClaudeMessage.name`, `ClaudeRequest.system`, `ChatResponse.suggested_questions` and `Step.suggested_questions`. The model follows the constructors in src/claude.rs and src/handlers.rs.
- The `reset` field of `ProgressUpdate` is carried but never read, as in the handlers.
- Clock readings and logging (`Utc::now()`, `console_log!`, `console_error!`) are left out: the timestamps are parameters and logging has no effect on state.
- Concurrency between requests is left out. Each handler is one atomic sequential step, and nothing is claimed about interleavings (such as lost updates on read-modify-write).
- `completed_step + 1` is modelled as wrapping at 2^32. That is a release build (no overflow checks) for 32-bit WebAssembly. A debug build would panic there instead.
