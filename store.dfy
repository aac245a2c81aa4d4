/** The chat-history store: the three tables held as sequences of rows, and
  * the operations of `ChatHistoryManager` over them. Current time, the
  * formatted timestamp, the random hex suffix and "today" are passed in. */
module Store {
  import opened Wrappers
  import opened Text
  import opened Models
  import opened Collections
  import opened Pagination
  import opened Classifier
  import opened Tables

  // ------------------------------------------------------ result shapes

  /** What `get_conversation_messages` returns. */
  datatype MessagePage = MessagePage(
    conversationId: string, userId: Option<string>, language: string,
    totalMessages: nat, page: nat, perPage: nat, totalPages: nat, messages: seq<Message>)

  /** What `get_all_conversations` returns. */
  datatype ConversationPage = ConversationPage(
    totalConversations: nat, page: nat, perPage: nat, totalPages: nat, conversations: seq<Conversation>)

  /** A message joined with its conversation. */
  datatype Joined = Joined(msg: Message, conv: Conversation)

  /** What `get_user_messages_paginated` returns. */
  datatype UserMessagesPage = UserMessagesPage(
    userId: string, totalMessages: nat, conversationsCount: nat, page: nat, perPage: nat,
    totalPages: nat, hasMore: bool, nextSkip: Option<nat>, messages: seq<Joined>)

  /** What `search_messages` returns. */
  datatype SearchPage = SearchPage(
    searchTerm: string, totalResults: nat, page: nat, perPage: nat, totalPages: nat, messages: seq<Message>)

  datatype DeleteCounts = DeleteCounts(deletedConversations: nat, deletedMessages: nat)

  datatype PurgeCounts = PurgeCounts(deletedMessages: nat, deletedConversations: nat, deletedStats: nat)

  // ------------------------------------------------ ids and new rows

  /** The id of a new conversation: `user_<id>_<stamp>_<8 hex>` for a user,
    * `anonymous_<stamp>_<12 hex>` otherwise. */
  function NewConversationId(userId: Option<string>, stamp: string, hex: string): (id: string)
    ensures Truthy(userId) ==> StartsWith(id, "user_" + userId.value + "_")
    ensures !Truthy(userId) ==> StartsWith(id, "anonymous_")
  {
    if Truthy(userId) then "user_" + userId.value + "_" + stamp + "_" + Take(hex, 8)
    else "anonymous_" + stamp + "_" + Take(hex, 12)
  }

  /** A new conversation's id is never empty. */
  lemma NewIdNonEmpty(userId: Option<string>, stamp: string, hex: string)
    ensures NewConversationId(userId, stamp, hex) != ""
  {
    var id := NewConversationId(userId, stamp, hex);
    assert id[0] == (if Truthy(userId) then 'u' else 'a');
  }

  /** "user" for a conversation started with a user id, else "anonymous". */
  function SessionTypeFor(userId: Option<string>): string {
    if Truthy(userId) then "user" else "anonymous"
  }

  /** A user's conversation id and an anonymous one never coincide, and the
    * session type says which kind a conversation is. */
  lemma IdKindsDisjoint(u: Option<string>, v: Option<string>, s1: string, h1: string, s2: string, h2: string)
    requires Truthy(u) && !Truthy(v)
    ensures NewConversationId(u, s1, h1) != NewConversationId(v, s2, h2)
    ensures SessionTypeFor(u) == "user" && SessionTypeFor(v) == "anonymous"
  {
    var a := NewConversationId(u, s1, h1);
    var b := NewConversationId(v, s2, h2);
    assert a[0] == 'u' && b[0] == 'a';
  }

  /** The row `add_message` inserts. */
  function NewMessage(id: nat, cid: string, index: int, input: MessageInput, now: int): (m: Message)
    ensures m.id == id && m.conversationId == cid && m.messageIndex == index
    ensures m.role == input.role && m.sender == input.sender && m.content == input.content
    ensures m.messageLevel == input.messageLevel && m.category == input.category
    ensures m.tokensUsed == input.tokensUsed && m.responseTimeMs == input.responseTimeMs
    ensures m.store == input.store && m.apiCallsMade == input.apiCallsMade && m.createdAt == now
    ensures m.containsUserData == DetectUserData(input.content) && !m.requiresFollowUp
    ensures ReadTools(m.toolsUsed) == input.toolsUsed.GetOr([])
  {
    ToolsRoundTrip(input.toolsUsed);
    Message(id, cid, input.role, input.sender, input.content, index, input.messageLevel, input.category,
            input.tokensUsed, input.responseTimeMs, input.store, DetectUserData(input.content), false, now,
            StoredTools(input.toolsUsed), input.apiCallsMade)
  }

  // ----------------------------------------------- query predicates

  /** The conjunctive filter of `get_conversation_messages`; a filter that is
    * absent or empty does not apply. */
  predicate MessageMatches(m: Message, cid: string, role: Option<string>, level: Option<string>, category: Option<string>) {
    m.conversationId == cid &&
    (Truthy(role) ==> m.role == role.value) &&
    (Truthy(level) ==> m.messageLevel == level.value) &&
    (Truthy(category) ==> m.category == Some(category.value))
  }

  function MatchMsg(cid: string, role: Option<string>, level: Option<string>, category: Option<string>): Message -> bool {
    (m: Message) => MessageMatches(m, cid, role, level, category)
  }

  function RoleIs(role: string): Message -> bool {
    (m: Message) => m.role == role
  }

  function LevelIs(level: string): Message -> bool {
    (m: Message) => m.messageLevel == level
  }

  function CategoryIs(category: string): Message -> bool {
    (m: Message) => m.category == Some(category)
  }

  /** The conjunctive filter of `get_all_conversations`. */
  predicate ConvMatches(c: Conversation, userId: Option<string>, sessionType: Option<string>, language: Option<string>,
                        dateFrom: Option<int>, dateTo: Option<int>) {
    (Truthy(userId) ==> c.userId == userId) &&
    (Truthy(sessionType) ==> c.sessionType == sessionType.value) &&
    (Truthy(language) ==> c.language == language.value) &&
    (dateFrom.Some? ==> c.createdAt >= dateFrom.value) &&
    (dateTo.Some? ==> c.createdAt <= dateTo.value)
  }

  function MatchConv(userId: Option<string>, sessionType: Option<string>, language: Option<string>,
                     dateFrom: Option<int>, dateTo: Option<int>): Conversation -> bool {
    (c: Conversation) => ConvMatches(c, userId, sessionType, language, dateFrom, dateTo)
  }

  function UserIs(userId: Option<string>): Conversation -> bool {
    (c: Conversation) => c.userId == userId
  }

  function SessionIs(sessionType: Option<string>): Conversation -> bool {
    (c: Conversation) => sessionType.Some? && c.sessionType == sessionType.value
  }

  function LanguageIs(language: Option<string>): Conversation -> bool {
    (c: Conversation) => language.Some? && c.language == language.value
  }

  function CreatedFrom(dateFrom: Option<int>): Conversation -> bool {
    (c: Conversation) => dateFrom.Some? && c.createdAt >= dateFrom.value
  }

  function CreatedTo(dateTo: Option<int>): Conversation -> bool {
    (c: Conversation) => dateTo.Some? && c.createdAt <= dateTo.value
  }

  function IndexKey(m: Message): int { m.messageIndex }
  function CreatedKey(m: Message): int { m.createdAt }
  function UpdatedKey(c: Conversation): int { c.updatedAt }
  function JoinedCreatedKey(j: Joined): int { j.msg.createdAt }

  /** Each message paired with its conversation (the inner join on the
    * foreign key), in message table order. */
  function Join(msgs: seq<Message>, convs: seq<Conversation>): (r: seq<Joined>)
    ensures forall j :: j in r ==> j.msg in msgs && j.conv in convs && j.msg.conversationId == j.conv.conversationId
  {
    if msgs == [] then []
    else
      var rest := Join(msgs[1..], convs);
      match FindConv(convs, msgs[0].conversationId)
      case Some(k) => [Joined(msgs[0], convs[k])] + rest
      case None => rest
  }

  function JoinedSelects(userId: string): Joined -> bool {
    (j: Joined) => SelectsConv(j.conv, userId)
  }

  function ConvSelects(userId: string): Conversation -> bool {
    (c: Conversation) => SelectsConv(c, userId)
  }

  function ConvNotSelected(userId: string): Conversation -> bool {
    (c: Conversation) => !SelectsConv(c, userId)
  }

  function BucketKept(userId: string): DailyStatistics -> bool {
    (b: DailyStatistics) => !SelectsBucket(b, userId)
  }

  /** Selects the messages whose content matches `term` under `like`. */
  function Matches(term: string, like: (string, string) -> bool): Message -> bool {
    (m: Message) => like(m.content, term)
  }

  function OwnedBy(userId: Option<string>): Joined -> bool {
    (j: Joined) => j.conv.userId == userId
  }

  function MsgOf(): Joined -> Message {
    (j: Joined) => j.msg
  }

  /** The messages `search_messages` counts, in table order: those whose
    * content matches and, for a user id, only those joined to a
    * conversation owned by that id. */
  function SearchSelected(msgs: seq<Message>, convs: seq<Conversation>, term: string, userId: Option<string>,
                          like: (string, string) -> bool): seq<Message> {
    var matching := Filter(msgs, Matches(term, like));
    if Truthy(userId) then Map(Filter(Join(matching, convs), OwnedBy(userId)), MsgOf()) else matching
  }

  /** The distinct conversation ids among joined rows. */
  function JoinedConvIds(js: seq<Joined>): set<string> {
    set j | j in js :: j.msg.conversationId
  }

  /** The optional stages of `get_conversation_messages` together select
    * the messages matching every given filter. */
  lemma MsgQuery(msgs: seq<Message>, cid: string, role: Option<string>, level: Option<string>, category: Option<string>)
    ensures
      var q0 := Filter(msgs, IsOf(cid));
      var q1 := if Truthy(role) then Filter(q0, RoleIs(role.value)) else q0;
      var q2 := if Truthy(level) then Filter(q1, LevelIs(level.value)) else q1;
      var q3 := if Truthy(category) then Filter(q2, CategoryIs(category.value)) else q2;
      q3 == Filter(msgs, MatchMsg(cid, role, level, category))
  {
    FilterSame(msgs, IsOf(cid), MatchMsg(cid, None, None, None));
    RoleStage(msgs, cid, role);
    LevelStage(msgs, cid, role, level);
    CategoryStage(msgs, cid, role, level, category);
  }

  lemma RoleStage(msgs: seq<Message>, cid: string, role: Option<string>)
    ensures (if Truthy(role) then Filter(Filter(msgs, MatchMsg(cid, None, None, None)), RoleIs(role.value))
             else Filter(msgs, MatchMsg(cid, None, None, None)))
            == Filter(msgs, MatchMsg(cid, role, None, None))
  {
    FilterStage(msgs, MatchMsg(cid, None, None, None), Truthy(role),
                RoleIs(if role.Some? then role.value else ""), MatchMsg(cid, role, None, None));
  }

  lemma LevelStage(msgs: seq<Message>, cid: string, role: Option<string>, level: Option<string>)
    ensures (if Truthy(level) then Filter(Filter(msgs, MatchMsg(cid, role, None, None)), LevelIs(level.value))
             else Filter(msgs, MatchMsg(cid, role, None, None)))
            == Filter(msgs, MatchMsg(cid, role, level, None))
  {
    FilterStage(msgs, MatchMsg(cid, role, None, None), Truthy(level),
                LevelIs(if level.Some? then level.value else ""), MatchMsg(cid, role, level, None));
  }

  lemma CategoryStage(msgs: seq<Message>, cid: string, role: Option<string>, level: Option<string>, category: Option<string>)
    ensures (if Truthy(category) then Filter(Filter(msgs, MatchMsg(cid, role, level, None)), CategoryIs(category.value))
             else Filter(msgs, MatchMsg(cid, role, level, None)))
            == Filter(msgs, MatchMsg(cid, role, level, category))
  {
    FilterStage(msgs, MatchMsg(cid, role, level, None), Truthy(category),
                CategoryIs(if category.Some? then category.value else ""), MatchMsg(cid, role, level, category));
  }

  /** Applying the filters of `get_all_conversations` one after another,
    * each only when it is given, selects the conversations `ConvMatches`
    * accepts. */
  lemma ConvQuery(convs: seq<Conversation>, userId: Option<string>, sessionType: Option<string>,
                  language: Option<string>, dateFrom: Option<int>, dateTo: Option<int>)
    ensures
      var q1 := if Truthy(userId) then Filter(convs, UserIs(userId)) else convs;
      var q2 := if Truthy(sessionType) then Filter(q1, SessionIs(sessionType)) else q1;
      var q3 := if Truthy(language) then Filter(q2, LanguageIs(language)) else q2;
      var q4 := if dateFrom.Some? then Filter(q3, CreatedFrom(dateFrom)) else q3;
      var q5 := if dateTo.Some? then Filter(q4, CreatedTo(dateTo)) else q4;
      q5 == Filter(convs, MatchConv(userId, sessionType, language, dateFrom, dateTo))
  {
    FilterAll(convs, MatchConv(None, None, None, None, None));
    UserStage(convs, userId);
    SessionStage(convs, userId, sessionType);
    LanguageStage(convs, userId, sessionType, language);
    FromStage(convs, userId, sessionType, language, dateFrom);
    ToStage(convs, userId, sessionType, language, dateFrom, dateTo);
  }

  lemma UserStage(convs: seq<Conversation>, userId: Option<string>)
    ensures (if Truthy(userId) then Filter(Filter(convs, MatchConv(None, None, None, None, None)), UserIs(userId))
             else Filter(convs, MatchConv(None, None, None, None, None)))
            == Filter(convs, MatchConv(userId, None, None, None, None))
  {
    FilterStage(convs, MatchConv(None, None, None, None, None), Truthy(userId),
                UserIs(userId), MatchConv(userId, None, None, None, None));
  }

  lemma SessionStage(convs: seq<Conversation>, userId: Option<string>, sessionType: Option<string>)
    ensures (if Truthy(sessionType) then Filter(Filter(convs, MatchConv(userId, None, None, None, None)), SessionIs(sessionType))
             else Filter(convs, MatchConv(userId, None, None, None, None)))
            == Filter(convs, MatchConv(userId, sessionType, None, None, None))
  {
    FilterStage(convs, MatchConv(userId, None, None, None, None), Truthy(sessionType),
                SessionIs(sessionType), MatchConv(userId, sessionType, None, None, None));
  }

  lemma LanguageStage(convs: seq<Conversation>, userId: Option<string>, sessionType: Option<string>, language: Option<string>)
    ensures (if Truthy(language) then Filter(Filter(convs, MatchConv(userId, sessionType, None, None, None)), LanguageIs(language))
             else Filter(convs, MatchConv(userId, sessionType, None, None, None)))
            == Filter(convs, MatchConv(userId, sessionType, language, None, None))
  {
    FilterStage(convs, MatchConv(userId, sessionType, None, None, None), Truthy(language),
                LanguageIs(language), MatchConv(userId, sessionType, language, None, None));
  }

  lemma FromStage(convs: seq<Conversation>, userId: Option<string>, sessionType: Option<string>,
                  language: Option<string>, dateFrom: Option<int>)
    ensures (if dateFrom.Some? then Filter(Filter(convs, MatchConv(userId, sessionType, language, None, None)), CreatedFrom(dateFrom))
             else Filter(convs, MatchConv(userId, sessionType, language, None, None)))
            == Filter(convs, MatchConv(userId, sessionType, language, dateFrom, None))
  {
    FilterStage(convs, MatchConv(userId, sessionType, language, None, None), dateFrom.Some?,
                CreatedFrom(dateFrom), MatchConv(userId, sessionType, language, dateFrom, None));
  }

  lemma ToStage(convs: seq<Conversation>, userId: Option<string>, sessionType: Option<string>,
                language: Option<string>, dateFrom: Option<int>, dateTo: Option<int>)
    ensures (if dateTo.Some? then Filter(Filter(convs, MatchConv(userId, sessionType, language, dateFrom, None)), CreatedTo(dateTo))
             else Filter(convs, MatchConv(userId, sessionType, language, dateFrom, None)))
            == Filter(convs, MatchConv(userId, sessionType, language, dateFrom, dateTo))
  {
    FilterStage(convs, MatchConv(userId, sessionType, language, dateFrom, None), dateTo.Some?,
                CreatedTo(dateTo), MatchConv(userId, sessionType, language, dateFrom, dateTo));
  }

  // ---------------------------------------------- selection lemmas

  /** With unique ids, a conversation's id is among the selected ones exactly
    * when it is selected itself. */
  lemma SelectedIds(convs: seq<Conversation>, userId: string)
    requires UniqueConvIds(convs)
    ensures forall c :: c in convs ==>
      (c.conversationId in IdsOf(Filter(convs, ConvSelects(userId))) <==> SelectsConv(c, userId))
  {
    var targets := Filter(convs, ConvSelects(userId));
    forall c | c in convs
      ensures c.conversationId in IdsOf(targets) <==> SelectsConv(c, userId)
    {
      if c.conversationId in IdsOf(targets) {
        var t :| 0 <= t < |targets| && targets[t].conversationId == c.conversationId;
        assert targets[t] in convs;
        var a :| 0 <= a < |convs| && convs[a] == targets[t];
        var b :| 0 <= b < |convs| && convs[b] == c;
      }
    }
  }

  /** Filtering the statistics keeps one row per bucket. */
  lemma StatsFilterKeeps(stats: seq<DailyStatistics>, p: DailyStatistics -> bool)
    requires UniqueBuckets(stats)
    ensures UniqueBuckets(Filter(stats, p))
  {
    var rel := (a: DailyStatistics, b: DailyStatistics) => !(a.date == b.date && a.userId == b.userId);
    assert Pairwise(stats, rel);
    FilterPairwise(stats, p, rel);
  }

  /** A filter of conversations with unique ids has unique ids. */
  lemma ConvFilterUnique(convs: seq<Conversation>, p: Conversation -> bool)
    requires UniqueConvIds(convs)
    ensures UniqueConvIds(Filter(convs, p))
  {
    var rel := (a: Conversation, b: Conversation) => a.conversationId != b.conversationId;
    assert Pairwise(convs, rel);
    FilterPairwise(convs, p, rel);
  }

  /** One step of the deletion loop: the conversation at position `i` of a
    * list with unique ids is not among the ids before it. */
  lemma FreshTarget(targets: seq<Conversation>, i: nat)
    requires UniqueConvIds(targets) && i < |targets|
    ensures targets[i].conversationId !in IdsOf(targets[..i])
    ensures IdsOf(targets[..i + 1]) == IdsOf(targets[..i]) + {targets[i].conversationId}
    ensures SumTotals(targets[..i + 1]) == SumTotals(targets[..i]) + targets[i].totalMessages
  {
    var pre := targets[..i];
    assert targets[..i + 1][..i] == pre;
    var post := targets[..i + 1];
    forall id | id in IdsOf(post) ensures id in IdsOf(pre) + {targets[i].conversationId} {
      var t :| 0 <= t < |post| && post[t].conversationId == id;
      if t < i { assert pre[t] == post[t]; }
    }
    forall id | id in IdsOf(pre) + {targets[i].conversationId} ensures id in IdsOf(post) {
      if id in IdsOf(pre) {
        var t :| 0 <= t < |pre| && pre[t].conversationId == id;
        assert post[t] == pre[t];
      } else {
        assert post[i] == targets[i];
      }
    }
  }

  /** One step of `delete_user_messages`: the next selected conversation is
    * still present, its cached count is the number of its messages, and
    * deleting it moves every loop quantity on by that conversation. */
  lemma DeleteStep(convs0: seq<Conversation>, msgs0: seq<Message>, targets: seq<Conversation>, i: nat,
                   gone: set<string>, convs: seq<Conversation>, msgs: seq<Message>,
                   stats: seq<DailyStatistics>, deleted: nat)
    requires StoreInvariant(convs, msgs, stats)
    requires UniqueConvIds(targets) && i < |targets|
    requires forall c :: c in targets ==> c in convs0
    requires gone == IdsOf(targets[..i])
    requires convs == KeptConvs(convs0, gone) && msgs == WithoutConvs(msgs0, gone)
    requires deleted == SumTotals(targets[..i]) && deleted + |msgs| == |msgs0|
    ensures var cid := targets[i].conversationId;
      IdsOf(targets[..i + 1]) == gone + {cid} &&
      KeptConvs(convs, {cid}) == KeptConvs(convs0, gone + {cid}) &&
      WithoutConvs(msgs, {cid}) == WithoutConvs(msgs0, gone + {cid}) &&
      deleted + CountOf(msgs, cid) == SumTotals(targets[..i + 1]) &&
      deleted + CountOf(msgs, cid) + |WithoutConvs(msgs, {cid})| == |msgs0| &&
      StoreInvariant(KeptConvs(convs, {cid}), WithoutConvs(msgs, {cid}), stats)
  {
    var c := targets[i];
    FreshTarget(targets, i);
    assert c in convs0;
    assert c in convs;
    var t :| 0 <= t < |convs| && convs[t] == c;
    assert c.totalMessages == CountOf(msgs, c.conversationId);
    CountRemoved(msgs, c.conversationId);
    DeleteConvsKeeps(convs, msgs, stats, {c.conversationId}, stats);
    KeptTwice(convs0, msgs0, gone, c.conversationId);
  }

  /** When the id selects no conversation, keeping the rest keeps
    * everything. */
  lemma NothingSelected(convs: seq<Conversation>, msgs: seq<Message>, userId: string)
    requires Filter(convs, ConvSelects(userId)) == []
    ensures Filter(convs, ConvNotSelected(userId)) == convs
    ensures WithoutConvs(msgs, IdsOf([])) == msgs
  {
    forall c | c in convs ensures ConvNotSelected(userId)(c) {
      assert ConvSelects(userId)(c) ==> c in Filter(convs, ConvSelects(userId));
    }
    FilterAll(convs, ConvNotSelected(userId));
    assert IdsOf([]) == {};
    FilterAll(msgs, MsgNotIn({}));
  }

  /** Before any deletion nothing is gone, and the selected rows have unique
    * ids. */
  lemma LoopStart(convs: seq<Conversation>, msgs: seq<Message>, userId: string)
    requires UniqueConvIds(convs)
    ensures KeptConvs(convs, {}) == convs && WithoutConvs(msgs, {}) == msgs
    ensures UniqueConvIds(Filter(convs, ConvSelects(userId)))
    ensures IdsOf(Filter(convs, ConvSelects(userId))[..0]) == {}
    ensures SumTotals(Filter(convs, ConvSelects(userId))[..0]) == 0
  {
    ConvFilterUnique(convs, ConvSelects(userId));
    FilterAll(convs, ConvNotIn({}));
    FilterAll(msgs, MsgNotIn({}));
    assert Filter(convs, ConvSelects(userId))[..0] == [];
  }

  /** Once every selected id is gone, what is left is exactly the
    * conversations the id does not select. */
  lemma LoopEnd(convs: seq<Conversation>, userId: string, targets: seq<Conversation>, gone: set<string>, i: nat)
    requires UniqueConvIds(convs) && targets == Filter(convs, ConvSelects(userId))
    requires i == |targets| && gone == IdsOf(targets[..i])
    ensures gone == IdsOf(targets)
    ensures KeptConvs(convs, gone) == Filter(convs, ConvNotSelected(userId))
    ensures SumTotals(targets[..i]) == SumTotals(targets)
  {
    assert targets[..i] == targets;
    SelectedIds(convs, userId);
    FilterSame(convs, ConvNotIn(gone), ConvNotSelected(userId));
  }

  /** Dropping the selected statistics rows keeps the store invariant. */
  lemma LoopEndValid(convs: seq<Conversation>, msgs: seq<Message>, stats: seq<DailyStatistics>, userId: string)
    requires StoreInvariant(convs, msgs, stats)
    ensures StoreInvariant(convs, msgs, Filter(stats, BucketKept(userId)))
  {
    StatsFilterKeeps(stats, BucketKept(userId));
  }

  /** Deleting one more conversation from what is left is deleting both sets. */
  lemma KeptTwice(convs: seq<Conversation>, msgs: seq<Message>, gone: set<string>, id: string)
    ensures KeptConvs(KeptConvs(convs, gone), {id}) == KeptConvs(convs, gone + {id})
    ensures WithoutConvs(WithoutConvs(msgs, gone), {id}) == WithoutConvs(msgs, gone + {id})
  {
    FilterTwice(convs, ConvNotIn(gone), ConvNotIn({id}), ConvNotIn(gone + {id}));
    FilterTwice(msgs, MsgNotIn(gone), MsgNotIn({id}), MsgNotIn(gone + {id}));
  }

  // -------------------------------------------------------- the store

  /** The counter updates `update_daily_stats` makes on one bucket row for
    * one message, field by field. */
  method CountInto(b0: DailyStatistics, m: Message) returns (b: DailyStatistics)
    ensures b == Bump(b0, m)
  {
    b := b0;
    b := b.(totalMessages := b.totalMessages + 1);
    if m.role == "user" {
      b := b.(userMessages := b.userMessages + 1);
    } else {
      b := b.(assistantMessages := b.assistantMessages + 1);
    }
    b := b.(totalTokens := b.totalTokens + m.tokensUsed);
    b := b.(totalApiCalls := b.totalApiCalls + m.apiCallsMade);
    var level := m.messageLevel;
    if level == "low" {
      b := b.(lowLevelCount := b.lowLevelCount + 1);
    } else if level == "mid" {
      b := b.(midLevelCount := b.midLevelCount + 1);
    } else if level == "high" {
      b := b.(highLevelCount := b.highLevelCount + 1);
    } else if level == "critical" {
      b := b.(criticalLevelCount := b.criticalLevelCount + 1);
    } else if level == "sensitive" {
      b := b.(sensitiveLevelCount := b.sensitiveLevelCount + 1);
    }
    if m.role == "assistant" && m.responseTimeMs > 0.0 {
      var count := b.assistantMessages;
      b := b.(avgResponseTimeMs := AvgAsWritten(b.avgResponseTimeMs, count, m.responseTimeMs));
    }
  }

  /** The loop of `delete_user_messages`: each selected conversation is
    * deleted in turn, its messages going with it and being counted. */
  method DeleteTargets(convs0: seq<Conversation>, msgs0: seq<Message>, stats: seq<DailyStatistics>,
                       userId: string, targets: seq<Conversation>)
    returns (convs: seq<Conversation>, msgs: seq<Message>, deletedMessages: nat)
    requires StoreInvariant(convs0, msgs0, stats)
    requires targets == Filter(convs0, ConvSelects(userId))
    ensures StoreInvariant(convs, msgs, stats)
    ensures convs == Filter(convs0, ConvNotSelected(userId))
    ensures msgs == WithoutConvs(msgs0, IdsOf(targets))
    ensures deletedMessages == SumTotals(targets) && deletedMessages + |msgs| == |msgs0|
  {
    convs, msgs := convs0, msgs0;
    LoopStart(convs0, msgs0, userId);
    ghost var gone: set<string> := {};
    deletedMessages := 0;
    var i := 0;
    while i < |targets|
      invariant 0 <= i <= |targets|
      invariant gone == IdsOf(targets[..i])
      invariant convs == KeptConvs(convs0, gone)
      invariant msgs == WithoutConvs(msgs0, gone)
      invariant StoreInvariant(convs, msgs, stats)
      invariant deletedMessages == SumTotals(targets[..i])
      invariant deletedMessages + |msgs| == |msgs0|
    {
      var c := targets[i];
      DeleteStep(convs0, msgs0, targets, i, gone, convs, msgs, stats, deletedMessages);
      deletedMessages := deletedMessages + CountOf(msgs, c.conversationId);
      convs := KeptConvs(convs, {c.conversationId});
      msgs := WithoutConvs(msgs, {c.conversationId});
      gone := gone + {c.conversationId};
      i := i + 1;
    }
    LoopEnd(convs0, userId, targets, gone, i);
  }

  class ChatHistoryManager {
    var conversations: seq<Conversation>
    var messages: seq<Message>
    var stats: seq<DailyStatistics>

    ghost predicate Valid()
      reads this
    {
      StoreInvariant(conversations, messages, stats)
    }

    constructor ()
      ensures Valid()
      ensures conversations == [] && messages == [] && stats == []
    {
      conversations := [];
      messages := [];
      stats := [];
    }

    /** `create_conversation`: a new row with zero counters; an id that is
      * already taken violates the unique column and nothing is written. */
    method CreateConversation(userId: Option<string>, language: string, userAgent: Option<string>,
                              ipAddress: Option<string>, stamp: string, hex: string, now: int)
      returns (r: Result<Conversation, string>)
      requires Valid()
      modifies this
      ensures Valid()
      ensures messages == old(messages) && stats == old(stats)
      ensures FindConv(old(conversations), NewConversationId(userId, stamp, hex)).Some? ==>
        r.Err? && conversations == old(conversations)
      ensures FindConv(old(conversations), NewConversationId(userId, stamp, hex)).None? ==>
        r == Ok(NewConversation(NewConversationId(userId, stamp, hex), userId, SessionTypeFor(userId),
                                language, now, userAgent, ipAddress)) &&
        conversations == old(conversations) + [r.value]
    {
      var id := NewConversationId(userId, stamp, hex);
      if FindConv(conversations, id).Some? {
        return Err("UNIQUE constraint failed: conversations.conversation_id");
      }
      var c := NewConversation(id, userId, SessionTypeFor(userId), language, now, userAgent, ipAddress);
      NewConversationKeeps(conversations, messages, stats, c);
      conversations := conversations + [c];
      r := Ok(c);
    }

    /** `get_or_create_conversation`: an existing conversation when a
      * non-empty id names one, otherwise a new conversation. */
    method GetOrCreateConversation(conversationId: Option<string>, userId: Option<string>, language: string,
                                   userAgent: Option<string>, ipAddress: Option<string>,
                                   stamp: string, hex: string, now: int)
      returns (r: Result<Conversation, string>)
      requires Valid()
      modifies this
      ensures Valid()
      ensures messages == old(messages) && stats == old(stats)
      ensures Truthy(conversationId) && FindConv(old(conversations), conversationId.value).Some? ==>
        r == Ok(old(conversations)[FindConv(old(conversations), conversationId.value).value]) &&
        conversations == old(conversations)
      ensures !(Truthy(conversationId) && FindConv(old(conversations), conversationId.value).Some?) ==>
        var id := NewConversationId(userId, stamp, hex);
        (FindConv(old(conversations), id).Some? ==> r.Err? && conversations == old(conversations)) &&
        (FindConv(old(conversations), id).None? ==>
          r == Ok(NewConversation(id, userId, SessionTypeFor(userId), language, now, userAgent, ipAddress)) &&
          conversations == old(conversations) + [r.value])
    {
      if Truthy(conversationId) {
        var k := FindConv(conversations, conversationId.value);
        if k.Some? {
          return Ok(conversations[k.value]);
        }
      }
      r := CreateConversation(userId, language, userAgent, ipAddress, stamp, hex, now);
    }

    /** `add_message`: an unknown conversation is an error and changes
      * nothing. Otherwise exactly one message is appended with the next row
      * id and the next index of its conversation, the conversation's counters
      * rise by one message and its tokens, and the message is recorded in the
      * (today, owner) bucket. The `store` flag is only recorded. */
    method AddMessage(cid: string, input: MessageInput, now: int, today: string)
      returns (r: Result<Message, string>)
      requires Valid()
      modifies this
      ensures Valid()
      ensures FindConv(old(conversations), cid).None? ==>
        r.Err? && conversations == old(conversations) && messages == old(messages) && stats == old(stats)
      ensures FindConv(old(conversations), cid).Some? ==>
        var k := FindConv(old(conversations), cid).value;
        var m := NewMessage(NextId(old(messages)), cid, NextIndex(old(messages), cid), input, now);
        r == Ok(m) &&
        messages == old(messages) + [m] &&
        conversations == old(conversations)[k := AfterAdd(old(conversations)[k], m, now)] &&
        conversations[k].totalMessages == old(conversations)[k].totalMessages + 1 &&
        conversations[k].totalTokensUsed == old(conversations)[k].totalTokensUsed + input.tokensUsed &&
        stats == Recorded(old(stats), today, old(conversations)[k].userId, m)
      ensures r.Ok? ==> forall i :: InConv(old(messages), i, cid) ==> old(messages)[i].messageIndex < r.value.messageIndex
    {
      var found := FindConv(conversations, cid);
      if found.None? {
        return Err("Conversation " + cid + " not found");
      }
      var k := found.value;
      var m := NewMessage(NextId(messages), cid, NextIndex(messages, cid), input, now);
      var owner := conversations[k].userId;
      var c := conversations[k];
      c := c.(totalMessages := c.totalMessages + 1);
      c := c.(totalTokensUsed := c.totalTokensUsed + input.tokensUsed);
      c := c.(updatedAt := now);
      ghost var convs0, msgs0, stats0 := conversations, messages, stats;
      assert UniqueBuckets(stats);
      messages := messages + [m];
      conversations := conversations[k := c];
      UpdateDailyStats(owner, m, today);
      AddedValid(convs0, msgs0, stats0, k, m, now, today, c);
      r := Ok(m);
    }

    /** `_update_daily_stats`: find or create the (today, user) bucket, then
      * count the message in it. */
    method UpdateDailyStats(userId: Option<string>, m: Message, today: string)
      requires UniqueBuckets(stats)
      modifies this
      ensures stats == Recorded(old(stats), today, userId, m)
      ensures conversations == old(conversations) && messages == old(messages)
    {
      var found := FindBucket(stats, today, userId);
      var k: nat;
      if found.Some? {
        k := found.value;
      } else {
        stats := stats + [NewBucket(today, userId)];
        k := |stats| - 1;
      }
      var b := CountInto(stats[k], m);
      stats := stats[k := b];
    }

    /** `delete_message`: an unknown id returns false and changes nothing.
      * Otherwise only that message is removed, no other message is
      * renumbered, its conversation's counters drop by one message and its
      * tokens, and the statistics are left alone. */
    method DeleteMessage(id: int, now: int) returns (deleted: bool)
      requires Valid()
      modifies this
      ensures Valid()
      ensures deleted <==> FindMessage(old(messages), id).Some?
      ensures stats == old(stats)
      ensures !deleted ==> conversations == old(conversations) && messages == old(messages)
      ensures deleted ==>
        var i := FindMessage(old(messages), id).value;
        var d := old(messages)[i];
        var k := FindConv(old(conversations), d.conversationId);
        messages == RemoveAt(old(messages), i) &&
        k.Some? &&
        conversations == old(conversations)[k.value := AfterDelete(old(conversations)[k.value], d, now)] &&
        conversations[k.value].totalMessages == old(conversations)[k.value].totalMessages - 1 &&
        conversations[k.value].totalTokensUsed == old(conversations)[k.value].totalTokensUsed - d.tokensUsed
    {
      var found := FindMessage(messages, id);
      if found.None? {
        return false;
      }
      var i := found.value;
      var d := messages[i];
      var k := FindConv(conversations, d.conversationId);
      KnownConv(conversations, messages, i);
      var c := AfterDelete(conversations[k.value], d, now);
      DeletedValid(conversations, messages, stats, i, k.value, now, c);
      conversations := conversations[k.value := c];
      messages := RemoveAt(messages, i);
      deleted := true;
    }

    /** `delete_conversation`: false and no change for an unknown id;
      * otherwise the conversation and all its messages are gone. */
    method DeleteConversation(cid: string) returns (deleted: bool)
      requires Valid()
      modifies this
      ensures Valid()
      ensures deleted <==> FindConv(old(conversations), cid).Some?
      ensures stats == old(stats)
      ensures !deleted ==> conversations == old(conversations) && messages == old(messages)
      ensures deleted ==>
        conversations == KeptConvs(old(conversations), {cid}) &&
        messages == WithoutConvs(old(messages), {cid}) &&
        |conversations| == |old(conversations)| - 1 &&
        forall m :: m in messages ==> m.conversationId != cid
    {
      var k := FindConv(conversations, cid);
      if k.None? {
        return false;
      }
      DeleteConvsKeeps(conversations, messages, stats, {cid}, stats);
      CountRemoved(messages, cid);
      KeptOne(conversations, k.value);
      conversations := KeptConvs(conversations, {cid});
      messages := WithoutConvs(messages, {cid});
      deleted := true;
    }

    /** `delete_user_messages`: removes the conversations the id selects
      * (the anonymous sessions for the anonymous pool, else exactly that
      * user's), all their messages and the statistics rows the id selects;
      * the deleted message count is the sum of the removed conversations'
      * counts. When no conversation is selected nothing changes. */
    method DeleteUserMessages(userId: string) returns (r: DeleteCounts)
      requires Valid()
      modifies this
      ensures Valid()
      ensures var targets := Filter(old(conversations), ConvSelects(userId));
        r.deletedConversations == |targets| &&
        r.deletedMessages == SumTotals(targets) &&
        r.deletedMessages == |old(messages)| - |messages| &&
        conversations == Filter(old(conversations), ConvNotSelected(userId)) &&
        messages == WithoutConvs(old(messages), IdsOf(targets)) &&
        stats == (if targets == [] then old(stats) else Filter(old(stats), BucketKept(userId)))
    {
      var targets := Filter(conversations, ConvSelects(userId));
      if targets == [] {
        NothingSelected(conversations, messages, userId);
        return DeleteCounts(0, 0);
      }
      var convs, msgs, deletedMessages := DeleteTargets(conversations, messages, stats, userId, targets);
      var kept := Filter(stats, BucketKept(userId));
      LoopEndValid(convs, msgs, stats, userId);
      conversations, messages, stats := convs, msgs, kept;
      r := DeleteCounts(|targets|, deletedMessages);
    }

    /** `purge_all_data`: every table emptied; the counts are the sizes
      * before. */
    method PurgeAllData() returns (r: PurgeCounts)
      requires Valid()
      modifies this
      ensures Valid()
      ensures conversations == [] && messages == [] && stats == []
      ensures r == PurgeCounts(|old(messages)|, |old(conversations)|, |old(stats)|)
    {
      r := PurgeCounts(|messages|, |conversations|, |stats|);
      messages := [];
      conversations := [];
      stats := [];
    }

    // --------------------------------------------------------- reads

    /** `get_conversation_messages`: the messages of `cid` passing every
      * given filter, in index order, windowed; with the conversation's owner
      * and language, or none and "EN" when it does not exist. */
    method GetConversationMessages(cid: string, skip: nat, limit: nat, roleFilter: Option<string>,
                                   levelFilter: Option<string>, categoryFilter: Option<string>)
      returns (r: MessagePage)
      requires limit > 0
      ensures var selected := Filter(messages, MatchMsg(cid, roleFilter, levelFilter, categoryFilter));
        r.totalMessages == |selected| &&
        r.messages == Window(SortBy(selected, IndexKey, false), skip, limit)
      ensures forall m :: m in r.messages ==> MessageMatches(m, cid, roleFilter, levelFilter, categoryFilter)
      ensures SortedBy(r.messages, IndexKey, false)
      ensures r.conversationId == cid && r.perPage == limit
      ensures r.page == Page(skip, limit) && r.totalPages == TotalPages(r.totalMessages, limit)
      ensures match FindConv(conversations, cid)
        case Some(k) => r.userId == conversations[k].userId && r.language == conversations[k].language
        case None => r.userId == None && r.language == "EN"
    {
      MsgQuery(messages, cid, roleFilter, levelFilter, categoryFilter);
      var query := Filter(messages, IsOf(cid));
      query := if Truthy(roleFilter) then Filter(query, RoleIs(roleFilter.value)) else query;
      query := if Truthy(levelFilter) then Filter(query, LevelIs(levelFilter.value)) else query;
      query := if Truthy(categoryFilter) then Filter(query, CategoryIs(categoryFilter.value)) else query;
      var total := |query|;
      SortedWindow(query, skip, limit, IndexKey, false);
      var page := Window(SortBy(query, IndexKey, false), skip, limit);
      var conv := FindConv(conversations, cid);
      var owner := if conv.Some? then conversations[conv.value].userId else None;
      var language := if conv.Some? then conversations[conv.value].language else "EN";
      r := MessagePage(cid, owner, language, total, Page(skip, limit), limit, TotalPages(total, limit), page);
    }

    /** `get_all_conversations`: the conversations passing every given
      * filter, most recently updated first, windowed. */
    method GetAllConversations(skip: nat, limit: nat, userId: Option<string>, sessionType: Option<string>,
                               language: Option<string>, dateFrom: Option<int>, dateTo: Option<int>)
      returns (r: ConversationPage)
      requires limit > 0
      ensures var selected := Filter(conversations, MatchConv(userId, sessionType, language, dateFrom, dateTo));
        r.totalConversations == |selected| &&
        r.conversations == Window(SortBy(selected, UpdatedKey, true), skip, limit)
      ensures forall c :: c in r.conversations ==> c in conversations && ConvMatches(c, userId, sessionType, language, dateFrom, dateTo)
      ensures SortedBy(r.conversations, UpdatedKey, true)
      ensures r.perPage == limit && r.page == Page(skip, limit)
      ensures r.totalPages == TotalPages(r.totalConversations, limit)
    {
      ConvQuery(conversations, userId, sessionType, language, dateFrom, dateTo);
      var query := conversations;
      query := if Truthy(userId) then Filter(query, UserIs(userId)) else query;
      query := if Truthy(sessionType) then Filter(query, SessionIs(sessionType)) else query;
      query := if Truthy(language) then Filter(query, LanguageIs(language)) else query;
      query := if dateFrom.Some? then Filter(query, CreatedFrom(dateFrom)) else query;
      query := if dateTo.Some? then Filter(query, CreatedTo(dateTo)) else query;
      var total := |query|;
      SortedWindow(query, skip, limit, UpdatedKey, true);
      var page := Window(SortBy(query, UpdatedKey, true), skip, limit);
      r := ConversationPage(total, Page(skip, limit), limit, TotalPages(total, limit), page);
    }

    /** `get_user_conversations`: the conversations filtered by that user id
      * alone. */
    method GetUserConversations(userId: string, skip: nat, limit: nat) returns (r: ConversationPage)
      requires limit > 0
      ensures var selected := Filter(conversations, MatchConv(Some(userId), None, None, None, None));
        r.totalConversations == |selected| &&
        r.conversations == Window(SortBy(selected, UpdatedKey, true), skip, limit)
      ensures userId != "" ==> forall c :: c in r.conversations ==> c.userId == Some(userId)
    {
      r := GetAllConversations(skip, limit, Some(userId), None, None, None, None);
    }

    /** `get_user_messages_paginated`: the messages of the conversations the
      * id selects, oldest first, windowed, with the distinct conversation
      * count and the `has_more`/`next_skip` pair. */
    method GetUserMessagesPaginated(userId: string, skip: nat, limit: nat) returns (r: UserMessagesPage)
      requires limit > 0
      ensures var selected := Filter(Join(messages, conversations), JoinedSelects(userId));
        r.totalMessages == |selected| &&
        r.conversationsCount == |JoinedConvIds(selected)| &&
        r.messages == Window(SortBy(selected, JoinedCreatedKey, false), skip, limit)
      ensures forall j :: j in r.messages ==>
        j.msg in messages && j.conv in conversations &&
        j.msg.conversationId == j.conv.conversationId && SelectsConv(j.conv, userId)
      ensures SortedBy(r.messages, JoinedCreatedKey, false)
      ensures r.userId == userId && r.perPage == limit && r.page == Page(skip, limit)
      ensures r.totalPages == TotalPages(r.totalMessages, limit)
      ensures r.hasMore <==> skip + limit < r.totalMessages
      ensures r.nextSkip == NextSkip(skip, limit, r.totalMessages)
    {
      var base := Join(messages, conversations);
      if IsAnonymousId(userId) {
        FilterSame(base, (j: Joined) => j.conv.sessionType == "anonymous", JoinedSelects(userId));
        base := Filter(base, (j: Joined) => j.conv.sessionType == "anonymous");
      } else {
        FilterSame(base, (j: Joined) => j.conv.userId == Some(userId), JoinedSelects(userId));
        base := Filter(base, (j: Joined) => j.conv.userId == Some(userId));
      }
      var total := |base|;
      var count := |JoinedConvIds(base)|;
      SortedWindow(base, skip, limit, JoinedCreatedKey, false);
      var results := Window(SortBy(base, JoinedCreatedKey, false), skip, limit);
      r := UserMessagesPage(userId, total, count, Page(skip, limit), limit, TotalPages(total, limit),
                            skip + limit < total, NextSkip(skip, limit, total), results);
    }

    /** `search_messages`: the messages whose content matches the pattern
      * (`like` stands for the database's LIKE '%term%'), optionally only
      * those of conversations owned by `userId`, newest first, windowed. */
    method SearchMessages(searchTerm: string, userId: Option<string>, skip: nat, limit: nat,
                          like: (string, string) -> bool)
      returns (r: SearchPage)
      requires limit > 0
      ensures var selected := SearchSelected(messages, conversations, searchTerm, userId, like);
        r.totalResults == |selected| && r.messages == Window(SortBy(selected, CreatedKey, true), skip, limit)
      ensures forall m :: m in r.messages ==> m in messages && like(m.content, searchTerm)
      ensures Truthy(userId) ==> forall m :: m in r.messages ==>
        exists j :: j in Join(messages, conversations) && j.msg == m && j.conv.userId == userId
      ensures SortedBy(r.messages, CreatedKey, true)
      ensures |r.messages| <= limit
      ensures !Truthy(userId) ==> r.totalResults == |Filter(messages, Matches(searchTerm, like))|
      ensures r.searchTerm == searchTerm && r.perPage == limit && r.page == Page(skip, limit)
      ensures r.totalPages == TotalPages(r.totalResults, limit)
    {
      var query := Filter(messages, Matches(searchTerm, like));
      if Truthy(userId) {
        var joined := Filter(Join(query, conversations), OwnedBy(userId));
        query := Map(joined, MsgOf());
        forall m | m in query
          ensures m in messages && like(m.content, searchTerm)
          ensures exists j :: j in Join(messages, conversations) && j.msg == m && j.conv.userId == userId
        {
          var t :| 0 <= t < |query| && query[t] == m;
          var j := joined[t];
          assert j in Join(Filter(messages, Matches(searchTerm, like)), conversations);
          JoinFilter(messages, Matches(searchTerm, like), conversations, j);
        }
      }
      assert query == SearchSelected(messages, conversations, searchTerm, userId, like);
      var total := |query|;
      SortedWindow(query, skip, limit, CreatedKey, true);
      var page := Window(SortBy(query, CreatedKey, true), skip, limit);
      r := SearchPage(searchTerm, total, Page(skip, limit), limit, TotalPages(total, limit), page);
    }

    /** `get_daily_statistics`: the rows of one user (when given) and of one
      * date, or of the dates from `startDate` on (`onOrAfter` stands for the
      * database's string comparison). */
    method GetDailyStatistics(date: Option<string>, userId: Option<string>, startDate: string,
                              onOrAfter: (string, string) -> bool)
      returns (rows: seq<DailyStatistics>)
      ensures forall b :: b in rows ==> b in stats
      ensures forall b :: b in stats ==> (b in rows <==>
        (Truthy(userId) ==> b.userId == userId) &&
        (if Truthy(date) then b.date == date.value else onOrAfter(b.date, startDate)))
    {
      var query := stats;
      if Truthy(userId) {
        query := Filter(query, (b: DailyStatistics) => b.userId == userId);
      }
      if Truthy(date) {
        query := Filter(query, (b: DailyStatistics) => b.date == date.value);
      } else {
        query := Filter(query, (b: DailyStatistics) => onOrAfter(b.date, startDate));
      }
      rows := query;
    }
  }

  /** The tables after `add_message` keep the store invariant. */
  lemma AddedValid(convs: seq<Conversation>, msgs: seq<Message>, stats: seq<DailyStatistics>,
                   k: nat, m: Message, now: int, today: string, c: Conversation)
    requires StoreInvariant(convs, msgs, stats)
    requires k < |convs| && m.conversationId == convs[k].conversationId
    requires m.id == NextId(msgs) && m.messageIndex == NextIndex(msgs, m.conversationId)
    requires c.totalMessages == convs[k].totalMessages + 1 && c.updatedAt == now
    requires c.totalTokensUsed == convs[k].totalTokensUsed + m.tokensUsed
    requires c == convs[k].(totalMessages := c.totalMessages, totalTokensUsed := c.totalTokensUsed, updatedAt := now)
    ensures c == AfterAdd(convs[k], m, now)
    ensures StoreInvariant(convs[k := c], msgs + [m], Recorded(stats, today, convs[k].userId, m))
  {
    AddMessageKeeps(convs, msgs, stats, k, m, now, today);
  }

  /** Deleting one existing id removes exactly one conversation row. */
  lemma KeptOne(convs: seq<Conversation>, k: nat)
    requires UniqueConvIds(convs) && k < |convs|
    ensures |KeptConvs(convs, {convs[k].conversationId})| == |convs| - 1
  {
    var p := ConvNotIn({convs[k].conversationId});
    forall i | 0 <= i < |convs| && i != k ensures p(convs[i]) {
      DistinctIds(convs, i, k);
    }
    FilterDropOne(convs, k, p);
  }

  /** A stored message's conversation is found. */
  lemma KnownConv(convs: seq<Conversation>, msgs: seq<Message>, i: nat)
    requires ForeignKeys(convs, msgs) && i < |msgs|
    ensures FindConv(convs, msgs[i].conversationId).Some?
  {
    assert HasConv(convs, msgs[i].conversationId);
  }

  /** The tables after `delete_message` keep the store invariant. */
  lemma DeletedValid(convs: seq<Conversation>, msgs: seq<Message>, stats: seq<DailyStatistics>,
                     i: nat, k: nat, now: int, c: Conversation)
    requires StoreInvariant(convs, msgs, stats)
    requires i < |msgs| && k < |convs| && convs[k].conversationId == msgs[i].conversationId
    requires c == AfterDelete(convs[k], msgs[i], now)
    ensures StoreInvariant(convs[k := c], RemoveAt(msgs, i), stats)
    ensures c.totalMessages == convs[k].totalMessages - 1
    ensures c.totalTokensUsed == convs[k].totalTokensUsed - msgs[i].tokensUsed
  {
    DeleteMessageKeeps(convs, msgs, stats, i, k, now);
  }

  /** A joined row of a filtered message list is a joined row of the whole
    * list. */
  lemma {:induction false} JoinFilter(msgs: seq<Message>, p: Message -> bool, convs: seq<Conversation>, j: Joined)
    requires j in Join(Filter(msgs, p), convs)
    ensures j in Join(msgs, convs) && p(j.msg)
  {
    if msgs != [] {
      var f := Filter(msgs, p);
      if p(msgs[0]) {
        assert f == [msgs[0]] + Filter(msgs[1..], p);
        assert f[1..] == Filter(msgs[1..], p);
        if j !in Join(f[1..], convs) {
          assert j.msg == msgs[0];
        } else {
          JoinFilter(msgs[1..], p, convs, j);
        }
      } else {
        JoinFilter(msgs[1..], p, convs, j);
      }
    }
  }
}
