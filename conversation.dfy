/**
  The history rules of `handle_post_chat` (src/handlers.rs), on values: the blank
  message test, one chat turn appended, and truncation to the newest 50 messages.
 */
module ConversationManager {
  import opened Types

  const MAX_HISTORY: nat := 50

  /** The record a read returns when no history is stored. */
  function EmptyConversation(topicId: string): (r: ConversationHistory)
    ensures r.topicId == topicId && r.messages == []
  {
    ConversationHistory(topicId, [])
  }

  /** Rust's `char::is_whitespace`: the Unicode White_Space property. */
  predicate IsWhitespace(c: char)
  {
    var n := c as int;
    (0x09 <= n <= 0x0D) || n == 0x20 || n == 0x85 || n == 0xA0 || n == 0x1680 ||
    (0x2000 <= n <= 0x200A) || n == 0x2028 || n == 0x2029 || n == 0x202F ||
    n == 0x205F || n == 0x3000
  }

  /** `str::trim_start`: drop leading white space. */
  function TrimStart(s: string): (r: string)
    ensures |r| <= |s| && r == s[|s| - |r|..]
    ensures forall i :: 0 <= i < |s| - |r| ==> IsWhitespace(s[i])
    ensures r != [] ==> !IsWhitespace(r[0])
  {
    if s != [] && IsWhitespace(s[0]) then TrimStart(s[1..]) else s
  }

  /** `str::trim_end`: drop trailing white space. */
  function TrimEnd(s: string): (r: string)
    ensures |r| <= |s| && r == s[..|r|]
    ensures forall i :: |r| <= i < |s| ==> IsWhitespace(s[i])
    ensures r != [] ==> !IsWhitespace(r[|r| - 1])
  {
    if s != [] && IsWhitespace(s[|s| - 1]) then TrimEnd(s[..|s| - 1]) else s
  }

  /** The edge cases of the White_Space set: no-break spaces are in it, zero-width ones are not. */
  lemma WhitespaceExamples()
    ensures IsWhitespace(' ') && IsWhitespace('\t') && IsWhitespace('\n') && IsWhitespace('\r')
    ensures IsWhitespace('\U{00A0}') && IsWhitespace('\U{2003}') && IsWhitespace('\U{3000}')
    ensures !IsWhitespace('\U{200B}') && !IsWhitespace('\U{FEFF}') && !IsWhitespace('\U{180E}')
    ensures !IsWhitespace('a') && !IsWhitespace('0')
  {
  }

  /**
    `str::trim`: everything cut off either end is white space, and what is kept starts and
    ends with a character that is not (`TrimIsSlice` shows it is a run of `s`).
   */
  function Trim(s: string): (r: string)
    ensures var start := |s| - |TrimStart(s)|;
            && start + |r| <= |s|
            && (forall i :: 0 <= i < start ==> IsWhitespace(s[i]))
            && (forall i :: start + |r| <= i < |s| ==> IsWhitespace(s[i]))
    ensures r != [] ==> !IsWhitespace(r[0]) && !IsWhitespace(r[|r| - 1])
  {
    var t := TrimStart(s);
    var r := TrimEnd(t);
    TailOfSuffix(s, t, r);
    assert r != [] ==> r[0] == t[0];
    r
  }

  /** A prefix of a suffix of `s` is a run of `s`, read index by index. */
  lemma PrefixOfSuffix(s: string, t: string, r: string)
    requires |t| <= |s| && t == s[|s| - |t|..]
    requires |r| <= |t| && r == t[..|r|]
    ensures forall i :: 0 <= i < |r| ==> r[i] == s[|s| - |t| + i]
  {
    forall i | 0 <= i < |r| ensures r[i] == s[|s| - |t| + i] {
      assert r[i] == t[i];
    }
  }

  /** What is cut off the end of the suffix `t` is also the end of `s`. */
  lemma TailOfSuffix(s: string, t: string, r: string)
    requires |t| <= |s| && t == s[|s| - |t|..]
    requires |r| <= |t|
    requires forall i :: |r| <= i < |t| ==> IsWhitespace(t[i])
    ensures forall i :: |s| - |t| + |r| <= i < |s| ==> IsWhitespace(s[i])
  {
    forall i | |s| - |t| + |r| <= i < |s| ensures IsWhitespace(s[i]) {
      assert s[i] == t[i - (|s| - |t|)];
    }
  }

  /** What `Trim` keeps is the run of `s` that starts right after its leading white space. */
  lemma TrimIsSlice(s: string)
    ensures var start := |s| - |TrimStart(s)|;
            forall i :: 0 <= i < |Trim(s)| ==> Trim(s)[i] == s[start + i]
  {
    PrefixOfSuffix(s, TrimStart(s), TrimEnd(TrimStart(s)));
  }

  /** The handler's blank test `message.trim().is_empty()`: every character is white space. */
  function IsBlank(message: string): (b: bool)
    ensures b <==> forall i :: 0 <= i < |message| ==> IsWhitespace(message[i])
  {
    Trim(message) == []
  }

  /** Keep the newest `MAX_HISTORY` messages (`split_off(len - 50)` when longer). */
  function Truncate(messages: seq<TimestampedChatMessage>): (r: seq<TimestampedChatMessage>)
    ensures |r| <= MAX_HISTORY
    ensures |r| == if |messages| < MAX_HISTORY then |messages| else MAX_HISTORY
    ensures r == messages[|messages| - |r|..]
  {
    if |messages| > MAX_HISTORY then messages[|messages| - MAX_HISTORY..] else messages
  }

  /**
    One successful chat turn: the user message, then the reply, then truncation. What is
    stored is the newest min(|L|, 50) messages of L = old ++ [user, assistant], in order,
    with the turn's two messages last.
   */
  function AppendTurn(h: ConversationHistory, user: TimestampedChatMessage, assistant: TimestampedChatMessage): (r: ConversationHistory)
    ensures var all := h.messages + [user, assistant];
            && r.topicId == h.topicId
            && |r.messages| == (if |all| < MAX_HISTORY then |all| else MAX_HISTORY)
            && r.messages == all[|all| - |r.messages|..]
            && r.messages[|r.messages| - 2] == user
            && r.messages[|r.messages| - 1] == assistant
  {
    h.(messages := Truncate(h.messages + [user, assistant]))
  }

  /** The (role, content) projection the provider sees: timestamps dropped, order kept. */
  function RolesAndContents(messages: seq<TimestampedChatMessage>): (r: seq<(string, string)>)
    ensures |r| == |messages|
    ensures forall i :: 0 <= i < |r| ==> r[i] == (messages[i].role, messages[i].content)
  {
    if messages == [] then []
    else [(messages[0].role, messages[0].content)] + RolesAndContents(messages[1..])
  }

  /** Below the cap a turn drops nothing: the history grows by exactly two. */
  lemma AppendTurnBelowCap(h: ConversationHistory, user: TimestampedChatMessage, assistant: TimestampedChatMessage)
    requires |h.messages| <= MAX_HISTORY - 2
    ensures AppendTurn(h, user, assistant).messages == h.messages + [user, assistant]
  {
  }

  /** At the cap, a turn drops exactly the two oldest messages (51st and 52nd messages push out two). */
  lemma AppendTurnAtCap(h: ConversationHistory, user: TimestampedChatMessage, assistant: TimestampedChatMessage)
    requires |h.messages| == MAX_HISTORY
    ensures AppendTurn(h, user, assistant).messages == h.messages[2..] + [user, assistant]
  {
    var all := h.messages + [user, assistant];
    assert all[2..] == h.messages[2..] + [user, assistant];
  }

  /** Truncation is idempotent: a capped history is left alone. */
  lemma TruncateIdempotent(messages: seq<TimestampedChatMessage>)
    ensures Truncate(Truncate(messages)) == Truncate(messages)
  {
  }

  /** A turn on a fresh topic stores exactly the two messages, user first. */
  lemma FirstTurnOnFreshTopic(topicId: string, user: TimestampedChatMessage, assistant: TimestampedChatMessage)
    ensures AppendTurn(EmptyConversation(topicId), user, assistant) == ConversationHistory(topicId, [user, assistant])
  {
    assert [] + [user, assistant] == [user, assistant];
  }

  /** The projection distributes over appending, so the provider sees the turns in stored order. */
  lemma {:induction false} RolesAndContentsAppend(a: seq<TimestampedChatMessage>, b: seq<TimestampedChatMessage>)
    ensures RolesAndContents(a + b) == RolesAndContents(a) + RolesAndContents(b)
  {
    if a != [] {
      assert (a + b)[1..] == a[1..] + b;
      RolesAndContentsAppend(a[1..], b);
    } else {
      assert a + b == b;
    }
  }
}
