/** The chat endpoint's sequencing of one turn (find or start the
  * conversation, read its history, save the user's message, ask the agent,
  * save the reply) and the per-user history endpoint. Request headers, the
  * clock and "today" are passed in; the language-model call is the agent's
  * `output` and `parse` parameters. The history handed to the agent is an
  * out-parameter: the model of the agent does not read it. */
module ChatApi {
  import opened Wrappers
  import opened Text
  import opened Json
  import opened Models
  import opened Collections
  import opened Classifier
  import opened Tables
  import opened Store
  import opened Agent
  import opened HistoryApi

  datatype ChatRequest = ChatRequest(message: string, conversationId: Option<string>, userId: Option<string>, language: string)

  /** What the endpoint answers: the reply and the conversation to continue. */
  datatype ChatReply = ChatReply(response: string, conversationId: string)

  /** A history entry for the agent: a human or an AI message. */
  datatype Turn = Human(content: string) | Ai(content: string)

  // ------------------------------------------------------------ history

  /** At most this many stored messages are read as history. */
  const HistoryCap: nat := 10

  /** What `get_conversation_messages(cid, limit=10)` lists: the first
    * messages by index (skip is 0), so the oldest ones. */
  function RecentMessages(msgs: seq<Message>, cid: string): (r: seq<Message>)
    ensures |r| <= HistoryCap
  {
    Window(SortBy(Filter(msgs, MatchMsg(cid, None, None, None)), IndexKey, false), 0, HistoryCap)
  }

  /** The history as the loop builds it: user messages become human turns,
    * assistant messages AI turns, and other roles are skipped. */
  function HistoryOf(msgs: seq<Message>): seq<Turn>
    decreases |msgs|
  {
    if msgs == [] then []
    else
      var m := msgs[|msgs| - 1];
      HistoryOf(msgs[..|msgs| - 1]) +
        (if m.role == "user" then [Human(m.content)] else if m.role == "assistant" then [Ai(m.content)] else [])
  }

  /** The loop that converts the recent messages. */
  method BuildHistory(recent: seq<Message>) returns (history: seq<Turn>)
    ensures history == HistoryOf(recent)
  {
    history := [];
    var i := 0;
    while i < |recent|
      invariant 0 <= i <= |recent|
      invariant history == HistoryOf(recent[..i])
    {
      var msg := recent[i];
      assert recent[..i + 1][..i] == recent[..i];
      if msg.role == "user" {
        history := history + [Human(msg.content)];
      } else if msg.role == "assistant" {
        history := history + [Ai(msg.content)];
      }
      i := i + 1;
    }
    assert recent[..i] == recent;
  }

  predicate IsDialogue(m: Message) {
    m.role == "user" || m.role == "assistant"
  }

  function Dialogue(): Message -> bool {
    (m: Message) => IsDialogue(m)
  }

  function ToTurn(): Message -> Turn {
    (m: Message) => if m.role == "user" then Human(m.content) else Ai(m.content)
  }

  /** The history is exactly the user and assistant messages, in their
    * order, each turned into its kind of entry. */
  lemma {:induction false} HistoryIsDialogue(msgs: seq<Message>)
    ensures HistoryOf(msgs) == Map(Filter(msgs, Dialogue()), ToTurn())
    decreases |msgs|
  {
    if msgs != [] {
      var n := |msgs| - 1;
      HistoryIsDialogue(msgs[..n]);
      FilterMapSnoc(msgs, n, Dialogue(), ToTurn());
      assert msgs[..n + 1] == msgs;
    }
  }

  // ---------------------------------------------------------- the two saves

  /** The user's message: role and sender "user", the classifier's level and
    * category, stored. */
  function UserInput(message: string): (r: MessageInput)
    ensures r.role == "user" && r.sender == "user" && r.content == message && r.store
    ensures r.messageLevel == ClassifyLevel(message) && r.category == Some(DetectCategory(message))
  {
    MessageInput("user", "user", message, ClassifyLevel(message), Some(DetectCategory(message)), 0, 0.0, true, None, 0)
  }

  /** What a text column holds after a metadata value is bound to it: a
    * string as it is, a number or a boolean as the text of its value (the
    * column has text affinity, and a boolean is bound as 1 or 0); null
    * violates NOT NULL, and a list or an object cannot be bound. */
  function ColumnText(v: Json): (r: Option<string>)
    ensures r.None? <==> v.JNull? || v.JArr? || v.JObj?
    ensures v.JStr? ==> r == Some(v.s)
    ensures v.JNum? ==> r == Some(IntToString(v.n))
    ensures v.JBool? ==> r == Some(if v.b then "1" else "0")
  {
    match v
    case JStr(s) => Some(s)
    case JNum(n) => Some(IntToString(n))
    case JBool(b) => Some(if b then "1" else "0")
    case _ => None
  }

  /** The assistant's message: role, sender and store flag from the
    * metadata (defaulting to "assistant", "assistant" and true), level,
    * category, tokens and time from the analysis, no tools, no API calls; a
    * role or sender that cannot be stored as text, or a store flag that is
    * not a boolean, is an error. */
  function AssistantInput(resp: ChatResponse): (r: Result<MessageInput, string>)
    ensures var role := Get(resp.metadata, "role", JStr("assistant"));
      var sender := Get(resp.metadata, "sender", JStr("assistant"));
      var store := Get(resp.metadata, "store", JBool(true));
      (r.Ok? <==> ColumnText(role).Some? && ColumnText(sender).Some? && store.JBool?) &&
      (r.Ok? ==> Some(r.value.role) == ColumnText(role) && Some(r.value.sender) == ColumnText(sender) &&
                 r.value.store == store.b)
    ensures r.Ok? ==> r.value.content == resp.reply && r.value.messageLevel == resp.analysis.messageLevel
    ensures r.Ok? ==> r.value.category == Some(resp.analysis.category) && r.value.tokensUsed == resp.analysis.tokensEstimated
    ensures r.Ok? ==> r.value.responseTimeMs == resp.analysis.responseTimeMs && r.value.toolsUsed == None
    ensures r.Ok? ==> r.value.apiCallsMade == 0
  {
    var role := ColumnText(Get(resp.metadata, "role", JStr("assistant")));
    var sender := ColumnText(Get(resp.metadata, "sender", JStr("assistant")));
    var store := Get(resp.metadata, "store", JBool(true));
    if role.Some? && sender.Some? && store.JBool? then
      Ok(MessageInput(role.value, sender.value, resp.reply, resp.analysis.messageLevel, Some(resp.analysis.category),
                      resp.analysis.tokensEstimated, resp.analysis.responseTimeMs, store.b, None, 0))
    else Err("metadata value that cannot be stored")
  }

  /** A numeric role is stored as its decimal text, so the row is neither a
    * user's nor an assistant's. */
  lemma NumericRoleStored(resp: ChatResponse)
    requires "role" in resp.metadata && resp.metadata["role"] == JNum(7)
    requires "sender" !in resp.metadata && "store" !in resp.metadata
    ensures AssistantInput(resp).Ok? && AssistantInput(resp).value.role == "7"
  {
    assert IntToString(7) == "7";
  }

  /** Metadata without the three keys gives an assistant message from the
    * "assistant", to be stored. */
  lemma AssistantDefaults(resp: ChatResponse)
    requires "role" !in resp.metadata && "sender" !in resp.metadata && "store" !in resp.metadata
    ensures AssistantInput(resp).Ok?
    ensures AssistantInput(resp).value.role == "assistant" && AssistantInput(resp).value.sender == "assistant"
    ensures AssistantInput(resp).value.store
  {
  }

  /** The agent's error response is saved as an assistant message that is
    * not to be stored, at the critical level. */
  lemma ErrorReplySaved(conversationId: Option<string>, userId: Option<string>, language: string, elapsedMs: real)
    ensures var input := AssistantInput(ErrorResponse(conversationId, userId, language, elapsedMs));
      input.Ok? && input.value.role == "assistant" && !input.value.store &&
      input.value.messageLevel == "critical" && input.value.content == ErrorReply
  {
    var meta := ErrorMetadata();
    assert Get(meta, "role", JStr("assistant")) == JStr("assistant");
    assert Get(meta, "sender", JStr("assistant")) == JStr("assistant");
    assert Get(meta, "store", JBool(true)) == JBool(false);
  }

  // ------------------------------------------------------------- one turn

  /** The user's row as `add_message` inserts it into `msgs`. */
  function UserRow(msgs: seq<Message>, cid: string, message: string, now: int): Message {
    NewMessage(NextId(msgs), cid, NextIndex(msgs, cid), UserInput(message), now)
  }

  /** The assistant's row: the next row id and the next index after the
    * user's row. */
  function ReplyRow(msgs: seq<Message>, cid: string, input: MessageInput, at: int): Message {
    NewMessage(NextId(msgs) + 1, cid, NextIndex(msgs, cid) + 1, input, at)
  }

  /** Saving the user's row and then, with `add_message`'s numbering, the
    * assistant's row appends exactly those two rows: consecutive ids and
    * consecutive indices in the conversation. */
  lemma TurnAppends(msgs0: seq<Message>, u: Message, input: MessageInput, at: int)
    requires u.id == NextId(msgs0) && u.messageIndex == NextIndex(msgs0, u.conversationId)
    ensures var cid := u.conversationId;
      NewMessage(NextId(msgs0 + [u]), cid, NextIndex(msgs0 + [u], cid), input, at) == ReplyRow(msgs0, cid, input, at)
    ensures var cid := u.conversationId;
      (msgs0 + [u]) + [NewMessage(NextId(msgs0 + [u]), cid, NextIndex(msgs0 + [u], cid), input, at)] ==
      msgs0 + [u, ReplyRow(msgs0, cid, input, at)]
  {
    var cid := u.conversationId;
    var msgs1 := msgs0 + [u];
    NextIndexAfter(msgs0, u);
    assert NextId(msgs1) == NextId(msgs0) + 1 by {
      assert msgs1[|msgs1| - 1] == u;
    }
    var v := NewMessage(NextId(msgs1), cid, NextIndex(msgs1, cid), input, at);
    assert v == ReplyRow(msgs0, cid, input, at);
    assert msgs1 + [v] == msgs0 + [u, v];
  }

  // ------------------------------------------------- the turn's tables

  /** `get_or_create_conversation` finds the requested conversation. */
  predicate Resumes(convs: seq<Conversation>, request: ChatRequest) {
    Truthy(request.conversationId) && FindConv(convs, request.conversationId.value).Some?
  }

  /** The id of the turn's conversation: the requested one when it exists,
    * otherwise a newly generated one. */
  function TurnId(convs: seq<Conversation>, request: ChatRequest, stamp: string, hex: string): string {
    if Resumes(convs, request) then request.conversationId.value else NewConversationId(request.userId, stamp, hex)
  }

  /** Opening fails exactly when a new conversation is needed and its
    * generated id is already taken. */
  predicate OpenFails(convs: seq<Conversation>, request: ChatRequest, stamp: string, hex: string) {
    !Resumes(convs, request) && FindConv(convs, NewConversationId(request.userId, stamp, hex)).Some?
  }

  /** The conversation table after the conversation is found or started. */
  function ConvsAfterOpen(convs: seq<Conversation>, request: ChatRequest, userAgent: Option<string>,
                          ipAddress: Option<string>, stamp: string, hex: string, now: int): seq<Conversation>
  {
    if Resumes(convs, request) || OpenFails(convs, request, stamp, hex) then convs
    else
      var id := NewConversationId(request.userId, stamp, hex);
      convs + [NewConversation(id, request.userId, SessionTypeFor(request.userId), request.language, now,
                               userAgent, ipAddress)]
  }

  /** The conversation table after `m` is saved to `cid` at `at`. */
  function SavedConvs(convs: seq<Conversation>, cid: string, m: Message, at: int): seq<Conversation> {
    match FindConv(convs, cid)
    case Some(k) => convs[k := AfterAdd(convs[k], m, at)]
    case None => convs
  }

  /** The statistics table after `m` is saved to `cid`: recorded in the
    * (today, owner) bucket. */
  function SavedStats(convs: seq<Conversation>, stats: seq<DailyStatistics>, cid: string, m: Message,
                      today: string): seq<DailyStatistics>
  {
    match FindConv(convs, cid)
    case Some(k) => Recorded(stats, today, convs[k].userId, m)
    case None => stats
  }

  /** A turn's two saves raise its conversation's message count by two and
    * its tokens by both messages' tokens, and keep the row where it is. */
  lemma TurnCounts(convs: seq<Conversation>, cid: string, u: Message, v: Message, at1: int, at2: int)
    requires FindConv(convs, cid).Some? && UniqueConvIds(convs)
    ensures var k := FindConv(convs, cid).value;
      var after := SavedConvs(SavedConvs(convs, cid, u, at1), cid, v, at2);
      |after| == |convs| && FindConv(after, cid) == Some(k) &&
      after[k].totalMessages == convs[k].totalMessages + 2 &&
      after[k].totalTokensUsed == convs[k].totalTokensUsed + u.tokensUsed + v.tokensUsed &&
      forall j :: 0 <= j < |convs| && j != k ==> after[j] == convs[j]
  {
    var k := FindConv(convs, cid).value;
    var mid := convs[k := AfterAdd(convs[k], u, at1)];
    assert SavedConvs(convs, cid, u, at1) == mid;
    SameIdsUnique(convs, mid);
    FindConvExact(mid, k);
    var after := mid[k := AfterAdd(mid[k], v, at2)];
    assert SavedConvs(mid, cid, v, at2) == after;
    SameIdsUnique(mid, after);
    FindConvExact(after, k);
  }

  /** Tables with the same ids in the same places are alike in uniqueness. */
  lemma SameIdsUnique(a: seq<Conversation>, b: seq<Conversation>)
    requires UniqueConvIds(a) && |a| == |b|
    requires forall t :: 0 <= t < |a| ==> a[t].conversationId == b[t].conversationId
    ensures UniqueConvIds(b)
  {
  }

  /** The first half of `chat_endpoint`: find or start the conversation and
    * read its history; no message is written. */
  method OpenConversation(store: ChatHistoryManager, request: ChatRequest, userAgent: Option<string>,
                          ipAddress: Option<string>, stamp: string, hex: string, now: int)
    returns (r: Result<string, string>, history: seq<Turn>)
    requires store.Valid()
    modifies store
    ensures store.Valid() && store.messages == old(store.messages) && store.stats == old(store.stats)
    ensures store.conversations == ConvsAfterOpen(old(store.conversations), request, userAgent, ipAddress, stamp, hex, now)
    ensures r.Err? <==> OpenFails(old(store.conversations), request, stamp, hex)
    ensures r.Ok? ==> r.value == TurnId(old(store.conversations), request, stamp, hex)
    ensures r.Ok? ==> r.value != "" && FindConv(store.conversations, r.value).Some? &&
                      history == HistoryOf(RecentMessages(store.messages, r.value))
  {
    history := [];
    var conversation := store.GetOrCreateConversation(request.conversationId, request.userId, request.language,
                                                      userAgent, ipAddress, stamp, hex, now);
    if conversation.Err? {
      return Err(conversation.error), history;
    }
    var cid := conversation.value.conversationId;
    OpenedConversation(old(store.conversations), store.conversations, request.conversationId, request.userId,
                       stamp, hex, conversation.value);
    if cid != "" {
      var recent := store.GetConversationMessages(cid, 0, HistoryCap, None, None, None);
      history := BuildHistory(recent.messages);
    }
    r := Ok(cid);
  }

  /** The conversation `get_or_create_conversation` gives is in the table and
    * has a non-empty id. */
  lemma OpenedConversation(convs0: seq<Conversation>, convs: seq<Conversation>, conversationId: Option<string>,
                           userId: Option<string>, stamp: string, hex: string, c: Conversation)
    requires Truthy(conversationId) && FindConv(convs0, conversationId.value).Some? ==>
      c == convs0[FindConv(convs0, conversationId.value).value] && convs == convs0
    requires !(Truthy(conversationId) && FindConv(convs0, conversationId.value).Some?) ==>
      c.conversationId == NewConversationId(userId, stamp, hex) && convs == convs0 + [c]
    ensures c.conversationId != "" && FindConv(convs, c.conversationId).Some?
  {
    if !(Truthy(conversationId) && FindConv(convs0, conversationId.value).Some?) {
      NewIdNonEmpty(userId, stamp, hex);
      assert convs[|convs0|] == c;
    }
  }

  /** `add_message` on a conversation known to exist: the row is appended
    * and the conversation is still there for the next message. */
  method SaveMessage(store: ChatHistoryManager, cid: string, input: MessageInput, at: int, today: string)
    returns (m: Message)
    requires store.Valid() && FindConv(store.conversations, cid).Some?
    modifies store
    ensures store.Valid() && FindConv(store.conversations, cid).Some?
    ensures m == NewMessage(NextId(old(store.messages)), cid, NextIndex(old(store.messages), cid), input, at)
    ensures store.messages == old(store.messages) + [m]
    ensures store.conversations == SavedConvs(old(store.conversations), cid, m, at)
    ensures store.stats == SavedStats(old(store.conversations), old(store.stats), cid, m, today)
  {
    ghost var k := FindConv(store.conversations, cid).value;
    var r := store.AddMessage(cid, input, at, today);
    m := r.value;
    FindConvExact(store.conversations, k);
  }

  /** The assistant's half of `chat_endpoint`: the agent's response is
    * saved when its metadata is usable, and the reply is returned. */
  method SaveReply(store: ChatHistoryManager, cid: string, resp: ChatResponse, replyAt: int, today: string)
    returns (r: Result<ChatReply, string>)
    requires store.Valid() && FindConv(store.conversations, cid).Some?
    modifies store
    ensures store.Valid()
    ensures r.Ok? <==> AssistantInput(resp).Ok?
    ensures r.Err? ==> store.messages == old(store.messages) && store.conversations == old(store.conversations) &&
                       store.stats == old(store.stats)
    ensures r.Ok? ==> r.value == ChatReply(resp.reply, cid)
    ensures r.Ok? ==>
      var m := NewMessage(NextId(old(store.messages)), cid, NextIndex(old(store.messages), cid),
                          AssistantInput(resp).value, replyAt);
      store.messages == old(store.messages) + [m] &&
      store.conversations == SavedConvs(old(store.conversations), cid, m, replyAt) &&
      store.stats == SavedStats(old(store.conversations), old(store.stats), cid, m, today)
  {
    var input := AssistantInput(resp);
    if input.Err? {
      return Err(input.error);
    }
    var m := SaveMessage(store, cid, input.value, replyAt, today);
    r := Ok(ChatReply(resp.reply, cid));
  }

  /** `chat_endpoint`: a successful turn appends exactly two messages, the
    * user's and then the assistant's, to the turn's conversation with
    * consecutive ids and indices, and records both in the conversation's
    * counters and the (today, owner) bucket; the history given to the agent
    * is read before the user's message is saved. A turn that fails to open
    * its conversation writes nothing; one whose reply cannot be saved keeps
    * the user's message, which was already committed. */
  method ChatTurn(store: ChatHistoryManager, request: ChatRequest, userAgent: Option<string>, ipAddress: Option<string>,
                  stamp: string, hex: string, now: int, replyAt: int, today: string,
                  output: Option<string>, parse: string -> Option<Json>, elapsedMs: real)
    returns (r: Result<ChatReply, string>, history: seq<Turn>)
    requires store.Valid()
    modifies store
    ensures store.Valid()
    ensures OpenFails(old(store.conversations), request, stamp, hex) ==>
      r.Err? && store.conversations == old(store.conversations) && store.messages == old(store.messages) &&
      store.stats == old(store.stats)
    ensures !OpenFails(old(store.conversations), request, stamp, hex) ==>
      var cid := TurnId(old(store.conversations), request, stamp, hex);
      var c1 := ConvsAfterOpen(old(store.conversations), request, userAgent, ipAddress, stamp, hex, now);
      var u := UserRow(old(store.messages), cid, request.message, now);
      var c2 := SavedConvs(c1, cid, u, now);
      var s2 := SavedStats(c1, old(store.stats), cid, u, today);
      var resp := ProcessChat(request.message, Some(cid), request.userId, request.language, output, parse, elapsedMs);
      (r.Ok? <==> AssistantInput(resp).Ok?) &&
      (r.Err? ==> store.messages == old(store.messages) + [u] && store.conversations == c2 && store.stats == s2) &&
      (r.Ok? ==>
        var v := ReplyRow(old(store.messages), cid, AssistantInput(resp).value, replyAt);
        r.value.conversationId == cid &&
        store.conversations == SavedConvs(c2, cid, v, replyAt) &&
        store.stats == SavedStats(c2, s2, cid, v, today))
    ensures r.Ok? ==>
      var cid := r.value.conversationId;
      var resp := ProcessChat(request.message, Some(cid), request.userId, request.language, output, parse, elapsedMs);
      AssistantInput(resp).Ok? &&
      r.value.response == resp.reply &&
      history == HistoryOf(RecentMessages(old(store.messages), cid)) &&
      store.messages == old(store.messages) + [UserRow(old(store.messages), cid, request.message, now),
                                               ReplyRow(old(store.messages), cid, AssistantInput(resp).value, replyAt)]
  {
    ghost var convs0, stats0 := store.conversations, store.stats;
    var session: Result<string, string>;
    session, history := OpenConversation(store, request, userAgent, ipAddress, stamp, hex, now);
    if session.Err? {
      return Err(session.error), history;
    }
    var cid := session.value;
    assert cid == TurnId(convs0, request, stamp, hex);
    ghost var msgs0, c1 := store.messages, store.conversations;
    assert c1 == ConvsAfterOpen(convs0, request, userAgent, ipAddress, stamp, hex, now);
    assert store.stats == stats0;
    var userMessage := SaveMessage(store, cid, UserInput(request.message), now, today);
    assert userMessage == UserRow(msgs0, cid, request.message, now);
    ghost var c2, s2 := store.conversations, store.stats;
    assert c2 == SavedConvs(c1, cid, userMessage, now);
    assert s2 == SavedStats(c1, stats0, cid, userMessage, today);
    var resp := ProcessChat(request.message, Some(cid), request.userId, request.language, output, parse, elapsedMs);
    r := SaveReply(store, cid, resp, replyAt, today);
    if r.Ok? {
      TurnAppends(msgs0, userMessage, AssistantInput(resp).value, replyAt);
    }
  }

  // ----------------------------------------------------- a user's history

  /** What `get_user_chat_history` returns. */
  datatype UserHistory = UserHistory(userId: string, totalMessages: nat, totalConversations: nat, messages: seq<Tagged>)

  /** The conversations `get_user_chat_history` fetches: the user-id filter
    * alone (no "anonymous" pool), the most recently updated first, at most
    * `ConversationCap`. */
  function UserConversations(convs: seq<Conversation>, userId: string): seq<Conversation> {
    Window(SortBy(Filter(convs, MatchConv(Some(userId), None, None, None, None)), UpdatedKey, true), 0, ConversationCap)
  }

  /** `get_user_chat_history`: zero totals and no messages when the user has
    * no conversation; otherwise the gathered messages oldest first (ties
    * keep their gathered order), cut to `limit`, the total being the length
    * of what is returned. */
  method UserChatHistory(store: ChatHistoryManager, userId: string, limit: nat) returns (r: UserHistory)
    ensures var fetched := UserConversations(store.conversations, userId);
      (fetched == [] ==> r == UserHistory(userId, 0, 0, [])) &&
      (fetched != [] ==> (r.totalConversations == |fetched| &&
        r.messages == Take(SortBy(Gathered(fetched, store.messages), TaggedCreatedKey, false), limit)))
    ensures r.userId == userId && r.totalMessages == |r.messages| && |r.messages| <= limit
    ensures SortedBy(r.messages, TaggedCreatedKey, false)
  {
    var conversations := store.GetUserConversations(userId, 0, ConversationCap);
    if conversations.conversations == [] {
      return UserHistory(userId, 0, 0, []);
    }
    var all := GatherMessages(store, conversations.conversations);
    var sorted := SortBy(all, TaggedCreatedKey, false);
    SortedWindow(all, 0, limit, TaggedCreatedKey, false);
    assert sorted[0..] == sorted;
    r := UserHistory(userId, |Take(sorted, limit)|, |conversations.conversations|, Take(sorted, limit));
  }

  /** The history endpoint matches the id exactly: "anonymous" selects only
    * conversations whose user id is literally "anonymous". */
  lemma ExactUserMatch(convs: seq<Conversation>, userId: string)
    requires userId != ""
    ensures forall c :: c in UserConversations(convs, userId) ==> c in convs && c.userId == Some(userId)
  {
    SortedWindow(Filter(convs, MatchConv(Some(userId), None, None, None, None)), 0, ConversationCap, UpdatedKey, true);
  }
}
