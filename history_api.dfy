/** The history endpoints' own logic on top of the store: when a
  * conversation counts as not found, how a deletion maps to a status, and
  * how a user's messages are gathered from all their conversations, tagged
  * with their conversation, sorted and cut. The web framework, the
  * `HTTPException` machinery and the 500 wrapper around unexpected errors
  * are left out; an error response is an `HttpError`. */
module HistoryApi {
  import opened Wrappers
  import opened Text
  import opened Models
  import opened Collections
  import opened Tables
  import opened Store

  datatype HttpError = HttpError(status: nat, detail: string)

  function ConversationNotFound(cid: string): HttpError {
    HttpError(404, "Conversation " + cid + " not found")
  }

  // --------------------------------------- messages of one conversation

  /** `get_conversation_messages` (the endpoint): the store's page, or 404
    * when no message matched and the conversation has no owner, which
    * includes an existing anonymous conversation with no matching message. */
  method ConversationMessages(store: ChatHistoryManager, cid: string, skip: nat, limit: nat,
                              roleFilter: Option<string>, levelFilter: Option<string>, categoryFilter: Option<string>)
    returns (r: Result<MessagePage, HttpError>)
    requires limit > 0
    ensures var selected := Filter(store.messages, MatchMsg(cid, roleFilter, levelFilter, categoryFilter));
      var owner := match FindConv(store.conversations, cid)
        case Some(k) => store.conversations[k].userId
        case None => None;
      (r.Err? <==> selected == [] && !Truthy(owner)) &&
      (r.Err? ==> r.error == ConversationNotFound(cid)) &&
      (r.Ok? ==> r.value.totalMessages == |selected| && r.value.userId == owner &&
                 r.value.messages == Window(SortBy(selected, IndexKey, false), skip, limit))
  {
    var page := store.GetConversationMessages(cid, skip, limit, roleFilter, levelFilter, categoryFilter);
    if page.totalMessages == 0 && !Truthy(page.userId) {
      return Err(ConversationNotFound(cid));
    }
    r := Ok(page);
  }

  // ------------------------------------------------- deleting a conversation

  /** `delete_conversation` (the endpoint): success exactly when the store
    * deleted something, else 404 and nothing changes. */
  method DeleteConversationEndpoint(store: ChatHistoryManager, cid: string) returns (r: Result<string, HttpError>)
    requires store.Valid()
    modifies store
    ensures store.Valid()
    ensures r.Ok? <==> FindConv(old(store.conversations), cid).Some?
    ensures r.Ok? ==> r.value == "Conversation " + cid + " deleted successfully"
    ensures r.Err? ==> r.error == ConversationNotFound(cid)
    ensures r.Err? ==> store.conversations == old(store.conversations) && store.messages == old(store.messages)
  {
    var success := store.DeleteConversation(cid);
    if success {
      r := Ok("Conversation " + cid + " deleted successfully");
    } else {
      r := Err(ConversationNotFound(cid));
    }
  }

  // ------------------------------------ messages across conversations

  /** A message with its conversation's id, creation time and language, as
    * the endpoints add them to each message's dictionary. */
  datatype Tagged = Tagged(msg: Message, conversationId: string, conversationCreated: int, language: string)

  function Tag(c: Conversation): Message -> Tagged {
    (m: Message) => Tagged(m, c.conversationId, c.createdAt, c.language)
  }

  function TaggedCreatedKey(t: Tagged): int { t.msg.createdAt }

  /** At most this many conversations are fetched. */
  const ConversationCap: nat := 1000

  /** At most this many messages of each conversation are fetched. */
  const MessageCap: nat := 500

  /** What `get_conversation_messages(cid, skip=0, limit=500)` lists: the
    * conversation's first messages by index. */
  function FirstMessages(msgs: seq<Message>, cid: string): seq<Message> {
    Window(SortBy(Filter(msgs, MatchMsg(cid, None, None, None)), IndexKey, false), 0, MessageCap)
  }

  /** The tagged messages of the conversations, conversation after
    * conversation, as the loop extends its list. */
  function Gathered(convs: seq<Conversation>, msgs: seq<Message>): seq<Tagged>
    decreases |convs|
  {
    if convs == [] then []
    else
      var last := convs[|convs| - 1];
      Gathered(convs[..|convs| - 1], msgs) + Map(FirstMessages(msgs, last.conversationId), Tag(last))
  }

  /** The loop of both history endpoints: for each fetched conversation its
    * first messages, each tagged with that conversation. */
  method GatherMessages(store: ChatHistoryManager, convs: seq<Conversation>) returns (all: seq<Tagged>)
    ensures all == Gathered(convs, store.messages)
  {
    all := [];
    var i := 0;
    while i < |convs|
      invariant 0 <= i <= |convs|
      invariant all == Gathered(convs[..i], store.messages)
    {
      var conv := convs[i];
      var page := store.GetConversationMessages(conv.conversationId, 0, MessageCap, None, None, None);
      assert convs[..i + 1][..i] == convs[..i];
      all := all + Map(page.messages, Tag(conv));
      i := i + 1;
    }
    assert convs[..i] == convs;
  }

  /** Every gathered message belongs to one of the conversations and carries
    * that conversation's id, creation time and language. */
  lemma {:induction false} GatheredTagged(convs: seq<Conversation>, msgs: seq<Message>, t: Tagged)
    requires t in Gathered(convs, msgs)
    ensures t.msg in msgs
    ensures exists k :: 0 <= k < |convs| && t.msg.conversationId == convs[k].conversationId && t == Tag(convs[k])(t.msg)
    decreases |convs|
  {
    var n := |convs| - 1;
    var first := FirstMessages(msgs, convs[n].conversationId);
    var tail := Map(first, Tag(convs[n]));
    if t in tail {
      var i :| 0 <= i < |tail| && tail[i] == t;
      SortedWindow(Filter(msgs, MatchMsg(convs[n].conversationId, None, None, None)), 0, MessageCap, IndexKey, false);
      assert first[i] in Filter(msgs, MatchMsg(convs[n].conversationId, None, None, None));
      assert t == Tag(convs[n])(t.msg);
    } else {
      GatheredTagged(convs[..n], msgs, t);
      var k :| 0 <= k < n && t.msg.conversationId == convs[..n][k].conversationId && t == Tag(convs[..n][k])(t.msg);
      assert convs[..n][k] == convs[k];
    }
  }

  /** Each conversation contributes at most `MessageCap` messages. */
  lemma {:induction false} GatheredBound(convs: seq<Conversation>, msgs: seq<Message>)
    ensures |Gathered(convs, msgs)| <= MessageCap * |convs|
    decreases |convs|
  {
    if convs != [] {
      GatheredBound(convs[..|convs| - 1], msgs);
    }
  }

  /** The conversations `get_user_all_messages` fetches: for a
    * case-insensitive "anonymous" the anonymous sessions, otherwise those the
    * user-id filter keeps; the most recently updated first, at most
    * `ConversationCap`. */
  function FetchedFor(convs: seq<Conversation>, userId: string): seq<Conversation> {
    var selector := if IsAnonymousId(userId) then MatchConv(None, Some("anonymous"), None, None, None)
                    else MatchConv(Some(userId), None, None, None, None);
    Window(SortBy(Filter(convs, selector), UpdatedKey, true), 0, ConversationCap)
  }

  /** The fetched conversations are the selected ones: anonymous sessions
    * for "anonymous" in any case, otherwise exactly the user's (for a
    * non-empty id); never more than the cap. */
  lemma FetchedSelects(convs: seq<Conversation>, userId: string)
    ensures |FetchedFor(convs, userId)| <= ConversationCap
    ensures forall c :: c in FetchedFor(convs, userId) ==> c in convs
    ensures IsAnonymousId(userId) ==> forall c :: c in FetchedFor(convs, userId) ==> c.sessionType == "anonymous"
    ensures !IsAnonymousId(userId) && userId != "" ==>
      forall c :: c in FetchedFor(convs, userId) ==> c.userId == Some(userId)
  {
    var selector := if IsAnonymousId(userId) then MatchConv(None, Some("anonymous"), None, None, None)
                    else MatchConv(Some(userId), None, None, None, None);
    SortedWindow(Filter(convs, selector), 0, ConversationCap, UpdatedKey, true);
  }

  /** What `get_user_all_messages` returns. */
  datatype AllMessages = AllMessages(userId: string, totalMessages: nat, conversationsCount: nat, messages: seq<Tagged>)

  /** `get_user_all_messages`: the gathered messages of the fetched
    * conversations, newest first (ties keep their gathered order), cut to
    * `limit`; the total is the length of what is returned and the
    * conversation count is the number fetched. */
  method UserAllMessages(store: ChatHistoryManager, userId: string, limit: nat) returns (r: AllMessages)
    ensures var fetched := FetchedFor(store.conversations, userId);
      r.conversationsCount == |fetched| &&
      r.messages == Take(SortBy(Gathered(fetched, store.messages), TaggedCreatedKey, true), limit)
    ensures r.userId == userId && r.totalMessages == |r.messages| && |r.messages| <= limit
    ensures SortedBy(r.messages, TaggedCreatedKey, true)
    ensures r.conversationsCount <= ConversationCap
  {
    var fetched: ConversationPage;
    if Lower(userId) == "anonymous" {
      fetched := store.GetAllConversations(0, ConversationCap, None, Some("anonymous"), None, None, None);
    } else {
      fetched := store.GetUserConversations(userId, 0, ConversationCap);
    }
    var all := GatherMessages(store, fetched.conversations);
    var sorted := SortBy(all, TaggedCreatedKey, true);
    SortedWindow(all, 0, limit, TaggedCreatedKey, true);
    assert sorted[0..] == sorted;
    r := AllMessages(userId, |Take(sorted, limit)|, |fetched.conversations|, Take(sorted, limit));
  }
}
