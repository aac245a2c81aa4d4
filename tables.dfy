/** Pure facts about the three tables: the counters a conversation row
  * caches, how the next message index and row id are chosen, how a daily
  * bucket is updated, and the invariant every write of the store keeps. */
module Tables {
  import opened Wrappers
  import opened Text
  import opened Models
  import opened Collections

  // -------------------------------------------------------------- counting

  /** Selects the messages of conversation `cid`. */
  function IsOf(cid: string): Message -> bool {
    (m: Message) => m.conversationId == cid
  }

  /** The messages of conversation `cid`, in table order (the ORM's
    * `conversation.messages`). */
  function OfConv(msgs: seq<Message>, cid: string): (r: seq<Message>)
    ensures forall m :: m in r <==> m in msgs && m.conversationId == cid
  {
    Filter(msgs, IsOf(cid))
  }

  /** How many messages belong to conversation `cid`. */
  function CountOf(msgs: seq<Message>, cid: string): (n: nat)
    ensures n <= |msgs|
  {
    |OfConv(msgs, cid)|
  }

  function SumTokens(ms: seq<Message>): nat {
    if ms == [] then 0 else SumTokens(ms[..|ms| - 1]) + ms[|ms| - 1].tokensUsed
  }

  /** The tokens spent by the messages of conversation `cid`. */
  function TokensOf(msgs: seq<Message>, cid: string): nat {
    SumTokens(OfConv(msgs, cid))
  }

  lemma {:induction false} SumTokensConcat(a: seq<Message>, b: seq<Message>)
    ensures SumTokens(a + b) == SumTokens(a) + SumTokens(b)
    decreases |b|
  {
    if b == [] {
      assert a + b == a;
    } else {
      assert (a + b)[..|a + b| - 1] == a + b[..|b| - 1];
      SumTokensConcat(a, b[..|b| - 1]);
    }
  }

  lemma CountConcat(a: seq<Message>, b: seq<Message>, cid: string)
    ensures CountOf(a + b, cid) == CountOf(a, cid) + CountOf(b, cid)
    ensures TokensOf(a + b, cid) == TokensOf(a, cid) + TokensOf(b, cid)
  {
    FilterConcat(a, b, IsOf(cid));
    SumTokensConcat(OfConv(a, cid), OfConv(b, cid));
  }

  /** A conversation's messages are counted once each: a message of
    * another conversation adds nothing, one of `cid` adds one and its
    * tokens. */
  lemma CountOne(m: Message, cid: string)
    ensures CountOf([m], cid) == (if m.conversationId == cid then 1 else 0)
    ensures TokensOf([m], cid) == (if m.conversationId == cid then m.tokensUsed else 0)
  {
    assert [m][1..] == [];
    assert [m][..0] == [];
    if m.conversationId == cid {
      assert OfConv([m], cid) == [m];
      assert SumTokens([m]) == SumTokens([]) + m.tokensUsed;
    } else {
      assert OfConv([m], cid) == [];
    }
  }

  /** Messages of other conversations never count towards `cid`. */
  lemma CountNone(msgs: seq<Message>, cid: string)
    requires forall i :: 0 <= i < |msgs| ==> msgs[i].conversationId != cid
    ensures CountOf(msgs, cid) == 0 && TokensOf(msgs, cid) == 0
  {
    FilterNone(msgs, IsOf(cid));
  }

  /** The positions of `s` holding a message of `cid`. */
  predicate InConv(s: seq<Message>, i: int, cid: string) {
    0 <= i < |s| && s[i].conversationId == cid
  }

  /** A conversation that has a message has a positive count, with at least
    * that message's tokens. */
  lemma CountPositive(msgs: seq<Message>, k: nat, cid: string)
    requires InConv(msgs, k, cid)
    ensures CountOf(msgs, cid) >= 1
    ensures TokensOf(msgs, cid) >= msgs[k].tokensUsed
  {
    assert msgs == msgs[..k] + [msgs[k]] + msgs[k + 1..];
    CountConcat(msgs[..k] + [msgs[k]], msgs[k + 1..], cid);
    CountConcat(msgs[..k], [msgs[k]], cid);
    CountOne(msgs[k], cid);
  }

  // ------------------------------------------------------ index and row id

  /** The largest `message_index` in conversation `cid`, if it has a message. */
  function LastIndex(msgs: seq<Message>, cid: string): (r: Option<int>)
    ensures r.None? <==> forall i :: 0 <= i < |msgs| ==> msgs[i].conversationId != cid
    ensures r.Some? ==> forall i :: InConv(msgs, i, cid) ==> msgs[i].messageIndex <= r.value
    ensures r.Some? ==> exists i :: InConv(msgs, i, cid) && msgs[i].messageIndex == r.value
  {
    if msgs == [] then None
    else
      var init := msgs[..|msgs| - 1];
      var m := msgs[|msgs| - 1];
      var prev := LastIndex(init, cid);
      assert forall i :: 0 <= i < |init| ==> init[i] == msgs[i];
      if m.conversationId != cid then prev
      else if prev.None? || prev.value < m.messageIndex then
        assert InConv(msgs, |msgs| - 1, cid);
        Some(m.messageIndex)
      else prev
  }

  /** The index a new message of `cid` gets: one past the largest, or 1. */
  function NextIndex(msgs: seq<Message>, cid: string): (n: int)
    ensures forall i :: InConv(msgs, i, cid) ==> msgs[i].messageIndex < n
    ensures n == if LastIndex(msgs, cid).Some? then LastIndex(msgs, cid).value + 1 else 1
    ensures (forall i :: 0 <= i < |msgs| ==> msgs[i].conversationId != cid) ==> n == 1
  {
    match LastIndex(msgs, cid)
    case Some(x) => x + 1
    case None => 1
  }

  /** After a message with the next index is appended, the index after it
    * is the next one: two inserts in a row get consecutive indices. */
  lemma NextIndexAfter(msgs: seq<Message>, m: Message)
    requires m.messageIndex == NextIndex(msgs, m.conversationId)
    ensures NextIndex(msgs + [m], m.conversationId) == m.messageIndex + 1
  {
    assert (msgs + [m])[..|msgs|] == msgs;
  }

  /** Deleting the newest message hands its index in the conversation, and
    * its row id, to the next message: an index can be reused. */
  lemma IndexReusedAfterDelete(msgs: seq<Message>, m: Message)
    requires m.messageIndex == NextIndex(msgs, m.conversationId) && m.id == NextId(msgs)
    ensures NextIndex(RemoveAt(msgs + [m], |msgs|), m.conversationId) == m.messageIndex
    ensures NextId(RemoveAt(msgs + [m], |msgs|)) == m.id
  {
    assert RemoveAt(msgs + [m], |msgs|) == msgs;
  }

  /** The row id the next insert gets: one past the last id, or 1 in an empty
    * table (SQLite's choice for an integer primary key). */
  function NextId(msgs: seq<Message>): nat {
    if msgs == [] then 1 else msgs[|msgs| - 1].id + 1
  }

  // ----------------------------------------------------- locating rows

  /** The position of the conversation with id `cid`, if any. */
  function FindConv(convs: seq<Conversation>, cid: string): (r: Option<nat>)
    ensures r.Some? ==> r.value < |convs| && convs[r.value].conversationId == cid
    ensures r.None? <==> forall i :: 0 <= i < |convs| ==> convs[i].conversationId != cid
  {
    if convs == [] then None
    else if convs[0].conversationId == cid then Some(0)
    else match FindConv(convs[1..], cid)
      case Some(k) => Some(k + 1)
      case None => None
  }

  /** The position of the message with id `id`, if any. */
  function FindMessage(msgs: seq<Message>, id: int): (r: Option<nat>)
    ensures r.Some? ==> r.value < |msgs| && msgs[r.value].id == id
    ensures r.None? <==> forall i :: 0 <= i < |msgs| ==> msgs[i].id != id
  {
    if msgs == [] then None
    else if msgs[0].id == id then Some(0)
    else match FindMessage(msgs[1..], id)
      case Some(k) => Some(k + 1)
      case None => None
  }

  /** The position of the (date, user) bucket, if any. */
  function FindBucket(stats: seq<DailyStatistics>, date: string, userId: Option<string>): (r: Option<nat>)
    ensures r.Some? ==> r.value < |stats| && stats[r.value].date == date && stats[r.value].userId == userId
    ensures r.None? <==> forall i :: 0 <= i < |stats| ==> !(stats[i].date == date && stats[i].userId == userId)
  {
    if stats == [] then None
    else if stats[0].date == date && stats[0].userId == userId then Some(0)
    else match FindBucket(stats[1..], date, userId)
      case Some(k) => Some(k + 1)
      case None => None
  }

  /** `s` without the element at position `k`. */
  function RemoveAt<T>(s: seq<T>, k: nat): (r: seq<T>)
    requires k < |s|
    ensures |r| == |s| - 1
    ensures forall i :: 0 <= i < k ==> r[i] == s[i]
    ensures forall i :: k <= i < |r| ==> r[i] == s[i + 1]
  {
    s[..k] + s[k + 1..]
  }

  // ------------------------------------------------- the store invariant

  predicate UniqueConvIds(convs: seq<Conversation>) {
    forall i, j :: 0 <= i < j < |convs| ==> convs[i].conversationId != convs[j].conversationId
  }

  /** Row ids are positive and increase in table order. */
  predicate IdsIncreasing(msgs: seq<Message>) {
    (forall i :: 0 <= i < |msgs| ==> msgs[i].id >= 1) &&
    forall i, j :: 0 <= i < j < |msgs| ==> msgs[i].id < msgs[j].id
  }

  /** Within a conversation, indices are positive and increase in table
    * order, so no two messages of one conversation share an index. */
  predicate IndicesIncreasing(msgs: seq<Message>) {
    (forall i :: 0 <= i < |msgs| ==> msgs[i].messageIndex >= 1) &&
    forall i, j :: 0 <= i < j < |msgs| && msgs[i].conversationId == msgs[j].conversationId ==>
      msgs[i].messageIndex < msgs[j].messageIndex
  }

  predicate HasConv(convs: seq<Conversation>, cid: string) {
    exists k :: 0 <= k < |convs| && convs[k].conversationId == cid
  }

  /** The foreign key: every message names an existing conversation. */
  predicate ForeignKeys(convs: seq<Conversation>, msgs: seq<Message>) {
    forall i :: 0 <= i < |msgs| ==> HasConv(convs, msgs[i].conversationId)
  }

  /** Each conversation's cached counters agree with its messages. */
  predicate CountersMatch(convs: seq<Conversation>, msgs: seq<Message>) {
    forall k :: 0 <= k < |convs| ==>
      convs[k].totalMessages == CountOf(msgs, convs[k].conversationId) &&
      convs[k].totalTokensUsed == TokensOf(msgs, convs[k].conversationId)
  }

  /** At most one statistics row per (date, user). */
  predicate UniqueBuckets(stats: seq<DailyStatistics>) {
    forall i, j :: 0 <= i < j < |stats| ==> !(stats[i].date == stats[j].date && stats[i].userId == stats[j].userId)
  }

  predicate StoreInvariant(convs: seq<Conversation>, msgs: seq<Message>, stats: seq<DailyStatistics>) {
    UniqueConvIds(convs) && IdsIncreasing(msgs) && IndicesIncreasing(msgs) &&
    ForeignKeys(convs, msgs) && CountersMatch(convs, msgs) && UniqueBuckets(stats)
  }

  lemma EmptyStoreInvariant()
    ensures StoreInvariant([], [], [])
  {
  }

  // ------------------------------------------------ daily-bucket update

  /** The running average as the code computes it from the assistant count
    * it reads; the store reads that count after raising it for the new
    * message, so it is never 0 there. */
  function AvgAsWritten(avg: real, count: nat, rt: real): real {
    if count > 0 then (avg * (count as real) + rt) / ((count + 1) as real) else rt
  }

  /** The running average the comment beside it describes: the count before
    * the new message, so the result is the mean of all response times. This
    * is the corrected formula; the store keeps the code's. */
  function AvgCorrected(avg: real, before: nat, rt: real): (r: real)
    ensures before == 0 ==> r == rt
  {
    (avg * (before as real) + rt) / ((before + 1) as real)
  }

  /** The averages the two formulas reach after a run of response times. */
  function RunAsWritten(rts: seq<real>): real {
    if rts == [] then 0.0 else AvgAsWritten(RunAsWritten(rts[..|rts| - 1]), |rts|, rts[|rts| - 1])
  }

  function RunCorrected(rts: seq<real>): real {
    if rts == [] then 0.0 else AvgCorrected(RunCorrected(rts[..|rts| - 1]), |rts| - 1, rts[|rts| - 1])
  }

  function Sum(rts: seq<real>): real {
    if rts == [] then 0.0 else Sum(rts[..|rts| - 1]) + rts[|rts| - 1]
  }

  /** With the count taken before the increment, the corrected formula's
    * value is the mean response time. */
  lemma {:induction false} RunCorrectedIsMean(rts: seq<real>)
    requires rts != []
    ensures RunCorrected(rts) == Sum(rts) / (|rts| as real)
  {
    var n := |rts|;
    var init := rts[..n - 1];
    if n > 1 {
      RunCorrectedIsMean(init);
      var a := RunCorrected(init);
      assert a * ((n - 1) as real) == Sum(init);
    }
  }

  /** As written, three assistant replies of 100, 200 and 300 ms record an
    * average of 150 ms instead of 200. */
  lemma AsWrittenIsNotMean()
    ensures RunAsWritten([100.0, 200.0, 300.0]) == 150.0
    ensures RunCorrected([100.0, 200.0, 300.0]) == 200.0
    ensures Sum([100.0, 200.0, 300.0]) / 3.0 == 200.0
  {
    assert [100.0, 200.0, 300.0][..2] == [100.0, 200.0];
    assert [100.0, 200.0][..1] == [100.0];
    assert [100.0][..0] == [];
  }

  /** The bucket after one more message is recorded in it. */
  function Bump(b: DailyStatistics, m: Message): (r: DailyStatistics)
    ensures r.date == b.date && r.userId == b.userId
    ensures r.totalConversations == b.totalConversations
    ensures r.totalMessages == b.totalMessages + 1
    ensures r.userMessages == b.userMessages + (if m.role == "user" then 1 else 0)
    ensures r.assistantMessages == b.assistantMessages + (if m.role == "user" then 0 else 1)
    ensures r.totalTokens == b.totalTokens + m.tokensUsed
    ensures r.totalApiCalls == b.totalApiCalls + m.apiCallsMade
    ensures forall l :: l in Levels ==> LevelCount(r, l) == LevelCount(b, l) + (if l == m.messageLevel then 1 else 0)
    ensures LevelSum(r) == LevelSum(b) + (if m.messageLevel in Levels then 1 else 0)
    ensures m.role == "assistant" && m.responseTimeMs > 0.0 ==>
      r.avgResponseTimeMs == AvgAsWritten(b.avgResponseTimeMs, r.assistantMessages, m.responseTimeMs) &&
      r.avgResponseTimeMs * ((b.assistantMessages + 2) as real) ==
        b.avgResponseTimeMs * ((b.assistantMessages + 1) as real) + m.responseTimeMs
    ensures !(m.role == "assistant" && m.responseTimeMs > 0.0) ==> r.avgResponseTimeMs == b.avgResponseTimeMs
  {
    var level := m.messageLevel;
    b.(totalMessages := b.totalMessages + 1,
       userMessages := if m.role == "user" then b.userMessages + 1 else b.userMessages,
       assistantMessages := if m.role == "user" then b.assistantMessages else b.assistantMessages + 1,
       totalTokens := b.totalTokens + m.tokensUsed,
       totalApiCalls := b.totalApiCalls + m.apiCallsMade,
       lowLevelCount := if level == "low" then b.lowLevelCount + 1 else b.lowLevelCount,
       midLevelCount := if level == "mid" then b.midLevelCount + 1 else b.midLevelCount,
       highLevelCount := if level == "high" then b.highLevelCount + 1 else b.highLevelCount,
       criticalLevelCount := if level == "critical" then b.criticalLevelCount + 1 else b.criticalLevelCount,
       sensitiveLevelCount := if level == "sensitive" then b.sensitiveLevelCount + 1 else b.sensitiveLevelCount,
       avgResponseTimeMs :=
         if m.role == "assistant" && m.responseTimeMs > 0.0
         then AvgAsWritten(b.avgResponseTimeMs, b.assistantMessages + 1, m.responseTimeMs)
         else b.avgResponseTimeMs)
  }

  /** In a fresh bucket, the first timed assistant reply records half its
    * time: the count it divides by already includes that reply. */
  lemma FirstReplyHalved(today: string, userId: Option<string>, m: Message)
    requires m.role == "assistant" && m.responseTimeMs > 0.0
    ensures Bump(NewBucket(today, userId), m).avgResponseTimeMs == m.responseTimeMs / 2.0
    ensures Bump(NewBucket(today, userId), m).avgResponseTimeMs != m.responseTimeMs
  {
  }

  /** A bucket whose average is the code's run over the assistant replies it
    * counted moves, with one more timed reply, to the code's run over one
    * more: the store reaches `RunAsWritten`, not the mean. */
  lemma BumpRunsAsWritten(b: DailyStatistics, m: Message, rts: seq<real>)
    requires b.assistantMessages == |rts| && b.avgResponseTimeMs == RunAsWritten(rts)
    requires m.role == "assistant" && m.responseTimeMs > 0.0
    ensures Bump(b, m).assistantMessages == |rts + [m.responseTimeMs]|
    ensures Bump(b, m).avgResponseTimeMs == RunAsWritten(rts + [m.responseTimeMs])
  {
    assert (rts + [m.responseTimeMs])[..|rts|] == rts;
  }

  /** The statistics table after `m` is recorded for (`today`, `userId`):
    * the bucket is found or created, then bumped. */
  function Recorded(stats: seq<DailyStatistics>, today: string, userId: Option<string>, m: Message): seq<DailyStatistics> {
    match FindBucket(stats, today, userId)
    case Some(k) => stats[k := Bump(stats[k], m)]
    case None => stats + [Bump(NewBucket(today, userId), m)]
  }

  /** Recording keeps one row per bucket, leaves every other bucket alone and
    * changes the (today, user) bucket by exactly one message: a table that
    * had no such bucket gains one row, whose counters count just `m`. */
  lemma RecordedShape(stats: seq<DailyStatistics>, today: string, userId: Option<string>, m: Message)
    requires UniqueBuckets(stats)
    ensures var r := Recorded(stats, today, userId, m);
      UniqueBuckets(r) &&
      FindBucket(r, today, userId).Some? &&
      (forall i :: 0 <= i < |stats| && !(stats[i].date == today && stats[i].userId == userId) ==> r[i] == stats[i]) &&
      match FindBucket(stats, today, userId)
      case Some(k) => |r| == |stats| && r[k] == Bump(stats[k], m)
      case None =>
        |r| == |stats| + 1 && r[|stats|] == Bump(NewBucket(today, userId), m) && r[|stats|].totalMessages == 1
  {
    var r := Recorded(stats, today, userId, m);
    match FindBucket(stats, today, userId)
    case Some(k) =>
      assert r[k].date == today && r[k].userId == userId;
    case None =>
      assert r[|stats|].date == today && r[|stats|].userId == userId;
  }

  // ------------------------------------------- selection by user id

  /** Whether `userId` names the anonymous pool (compared case-insensitively). */
  predicate IsAnonymousId(userId: string) {
    Lower(userId) == "anonymous"
  }

  /** The conversations a user id selects: the anonymous sessions for the
    * anonymous pool, otherwise those owned by exactly that id. */
  predicate SelectsConv(c: Conversation, userId: string) {
    if IsAnonymousId(userId) then c.sessionType == "anonymous" else c.userId == Some(userId)
  }

  /** The statistics rows a user id selects: the rows without a user for the
    * anonymous pool, otherwise those of exactly that id. */
  predicate SelectsBucket(b: DailyStatistics, userId: string) {
    if IsAnonymousId(userId) then b.userId == None else b.userId == Some(userId)
  }

  /** The ids of a list of conversations. */
  function IdsOf(convs: seq<Conversation>): (ids: set<string>)
    ensures forall k :: 0 <= k < |convs| ==> convs[k].conversationId in ids
    ensures forall id :: id in ids ==> HasConv(convs, id)
  {
    set k | 0 <= k < |convs| :: convs[k].conversationId
  }

  /** Keeps the conversations whose id is not in `ids`. */
  function ConvNotIn(ids: set<string>): Conversation -> bool {
    (c: Conversation) => c.conversationId !in ids
  }

  /** Keeps the messages whose conversation id is not in `ids`. */
  function MsgNotIn(ids: set<string>): Message -> bool {
    (m: Message) => m.conversationId !in ids
  }

  /** The conversations left after deleting those with an id in `ids`. */
  function KeptConvs(convs: seq<Conversation>, ids: set<string>): (r: seq<Conversation>)
    ensures forall c :: c in r <==> c in convs && c.conversationId !in ids
  {
    Filter(convs, ConvNotIn(ids))
  }

  /** The messages that survive deleting the conversations `ids` (the
    * cascade). */
  function WithoutConvs(msgs: seq<Message>, ids: set<string>): (r: seq<Message>)
    ensures forall m :: m in r <==> m in msgs && m.conversationId !in ids
  {
    Filter(msgs, MsgNotIn(ids))
  }

  /** Sum of the cached message counters of a list of conversations. */
  function SumTotals(convs: seq<Conversation>): nat {
    if convs == [] then 0 else SumTotals(convs[..|convs| - 1]) + convs[|convs| - 1].totalMessages
  }

  // ------------------------------------------- counting after a filter

  /** A filter that keeps every message of `cid` keeps its count and tokens. */
  lemma CountFilterKeeps(msgs: seq<Message>, p: Message -> bool, cid: string)
    requires forall i :: InConv(msgs, i, cid) ==> p(msgs[i])
    ensures CountOf(Filter(msgs, p), cid) == CountOf(msgs, cid)
    ensures TokensOf(Filter(msgs, p), cid) == TokensOf(msgs, cid)
  {
    forall x | x in msgs ensures IsOf(cid)(x) == (p(x) && IsOf(cid)(x)) {
      var i :| 0 <= i < |msgs| && msgs[i] == x;
      assert IsOf(cid)(x) ==> InConv(msgs, i, cid);
    }
    FilterTwice(msgs, p, IsOf(cid), IsOf(cid));
  }

  /** Deleting one conversation's messages removes exactly its count. */
  lemma CountRemoved(msgs: seq<Message>, cid: string)
    ensures |WithoutConvs(msgs, {cid})| + CountOf(msgs, cid) == |msgs|
  {
    FilterSplit(msgs, MsgNotIn({cid}), IsOf(cid));
  }

  // --------------------------------------------- writes keep the invariant

  /** No message names a conversation that is not in the table. */
  lemma NoOrphans(convs: seq<Conversation>, msgs: seq<Message>, cid: string)
    requires ForeignKeys(convs, msgs)
    requires FindConv(convs, cid).None?
    ensures forall i :: 0 <= i < |msgs| ==> msgs[i].conversationId != cid
    ensures CountOf(msgs, cid) == 0 && TokensOf(msgs, cid) == 0
  {
    forall i | 0 <= i < |msgs| ensures msgs[i].conversationId != cid {
      assert HasConv(convs, msgs[i].conversationId);
    }
    CountNone(msgs, cid);
  }

  /** With unique ids, looking a conversation up by its own id finds it. */
  lemma FindConvExact(convs: seq<Conversation>, k: nat)
    requires UniqueConvIds(convs) && k < |convs|
    ensures FindConv(convs, convs[k].conversationId) == Some(k)
  {
    var r := FindConv(convs, convs[k].conversationId);
    assert r.Some?;
  }

  /** Adding a conversation with a fresh id and zero counters keeps the
    * invariant. */
  lemma NewConversationKeeps(convs: seq<Conversation>, msgs: seq<Message>, stats: seq<DailyStatistics>, c: Conversation)
    requires StoreInvariant(convs, msgs, stats)
    requires FindConv(convs, c.conversationId).None?
    requires c.totalMessages == 0 && c.totalTokensUsed == 0
    ensures StoreInvariant(convs + [c], msgs, stats)
  {
    var cs := convs + [c];
    NoOrphans(convs, msgs, c.conversationId);
    forall i | 0 <= i < |msgs| ensures HasConv(cs, msgs[i].conversationId) {
      var k :| 0 <= k < |convs| && convs[k].conversationId == msgs[i].conversationId;
      assert cs[k] == convs[k];
    }
    forall k | 0 <= k < |cs|
      ensures cs[k].totalMessages == CountOf(msgs, cs[k].conversationId)
      ensures cs[k].totalTokensUsed == TokensOf(msgs, cs[k].conversationId)
    {
      if k < |convs| { assert cs[k] == convs[k]; }
    }
  }

  /** The conversation row after `m` is added to it at time `now`. */
  function AfterAdd(c: Conversation, m: Message, now: int): Conversation {
    c.(totalMessages := c.totalMessages + 1, totalTokensUsed := c.totalTokensUsed + m.tokensUsed, updatedAt := now)
  }

  /** Replacing a row by one with the same id keeps ids unique and keeps
    * every message's conversation. */
  lemma ReplaceConvKeeps(convs: seq<Conversation>, msgs: seq<Message>, k: nat, c: Conversation)
    requires UniqueConvIds(convs) && ForeignKeys(convs, msgs)
    requires k < |convs| && c.conversationId == convs[k].conversationId
    ensures UniqueConvIds(convs[k := c]) && ForeignKeys(convs[k := c], msgs)
  {
    var cs := convs[k := c];
    assert forall t :: 0 <= t < |cs| ==> cs[t].conversationId == convs[t].conversationId;
    forall i | 0 <= i < |msgs| ensures HasConv(cs, msgs[i].conversationId) {
      var t :| 0 <= t < |convs| && convs[t].conversationId == msgs[i].conversationId;
      assert cs[t].conversationId == msgs[i].conversationId;
    }
  }

  /** Two rows at different positions have different ids. */
  lemma DistinctIds(convs: seq<Conversation>, j: nat, k: nat)
    requires UniqueConvIds(convs) && j < |convs| && k < |convs| && j != k
    ensures convs[j].conversationId != convs[k].conversationId
  {
    if j > k {
      assert convs[k].conversationId != convs[j].conversationId;
    }
  }

  /** A message with the next row id keeps ids increasing. */
  lemma AppendIdKeeps(msgs: seq<Message>, m: Message)
    requires IdsIncreasing(msgs) && m.id == NextId(msgs)
    ensures IdsIncreasing(msgs + [m])
    ensures forall i :: 0 <= i < |msgs| ==> msgs[i].id < m.id
  {
    forall i | 0 <= i < |msgs| ensures msgs[i].id < m.id {
      if i < |msgs| - 1 { assert msgs[i].id < msgs[|msgs| - 1].id; }
    }
  }

  /** A message with the next index of its conversation keeps indices
    * increasing, so it repeats no index of that conversation. */
  lemma AppendIndexKeeps(msgs: seq<Message>, m: Message)
    requires IndicesIncreasing(msgs) && m.messageIndex == NextIndex(msgs, m.conversationId)
    ensures IndicesIncreasing(msgs + [m])
    ensures m.messageIndex >= 1
  {
    var cid := m.conversationId;
    var ms := msgs + [m];
    assert m.messageIndex >= 1 by {
      match LastIndex(msgs, cid)
      case Some(x) =>
        var i :| InConv(msgs, i, cid) && msgs[i].messageIndex == x;
      case None =>
    }
    forall i, j | 0 <= i < j < |ms| && ms[i].conversationId == ms[j].conversationId
      ensures ms[i].messageIndex < ms[j].messageIndex
    {
      if j == |msgs| {
        assert InConv(msgs, i, cid);
      }
    }
  }

  /** Adding `m` to conversation `k` and raising that row's counters keeps
    * every row's counters right. */
  lemma AppendCountersKeep(convs: seq<Conversation>, msgs: seq<Message>, k: nat, m: Message, now: int)
    requires UniqueConvIds(convs) && CountersMatch(convs, msgs)
    requires k < |convs| && m.conversationId == convs[k].conversationId
    ensures CountersMatch(convs[k := AfterAdd(convs[k], m, now)], msgs + [m])
  {
    var cs := convs[k := AfterAdd(convs[k], m, now)];
    forall j | 0 <= j < |cs|
      ensures cs[j].totalMessages == CountOf(msgs + [m], cs[j].conversationId)
      ensures cs[j].totalTokensUsed == TokensOf(msgs + [m], cs[j].conversationId)
    {
      var cj := convs[j].conversationId;
      CountConcat(msgs, [m], cj);
      CountOne(m, cj);
      if j != k {
        DistinctIds(convs, j, k);
      }
    }
  }

  /** Adding a message with the next row id and the next index of its
    * conversation, bumping that conversation's counters and recording it in
    * the daily bucket, keeps the invariant. */
  lemma AddMessageKeeps(convs: seq<Conversation>, msgs: seq<Message>, stats: seq<DailyStatistics>,
                        k: nat, m: Message, now: int, today: string)
    requires StoreInvariant(convs, msgs, stats)
    requires k < |convs| && m.conversationId == convs[k].conversationId
    requires m.id == NextId(msgs) && m.messageIndex == NextIndex(msgs, m.conversationId)
    ensures StoreInvariant(convs[k := AfterAdd(convs[k], m, now)], msgs + [m],
                           Recorded(stats, today, convs[k].userId, m))
  {
    var c := AfterAdd(convs[k], m, now);
    ReplaceConvKeeps(convs, msgs, k, c);
    var cs := convs[k := c];
    assert HasConv(cs, m.conversationId) by { assert cs[k].conversationId == m.conversationId; }
    assert ForeignKeys(cs, msgs + [m]) by {
      forall i | 0 <= i < |msgs + [m]| ensures HasConv(cs, (msgs + [m])[i].conversationId) {
        if i < |msgs| { assert (msgs + [m])[i] == msgs[i]; }
      }
    }
    AppendIdKeeps(msgs, m);
    AppendIndexKeeps(msgs, m);
    AppendCountersKeep(convs, msgs, k, m, now);
    RecordedShape(stats, today, convs[k].userId, m);
  }

  function Max0(x: int): nat {
    if x > 0 then x else 0
  }

  /** The conversation row after its message `d` is deleted at time `now`:
    * `max((total or 1) - 1, 0)` messages and `max(tokens - d.tokens, 0)`
    * tokens. */
  function AfterDelete(c: Conversation, d: Message, now: int): Conversation {
    c.(totalMessages := Max0((if c.totalMessages == 0 then 1 else c.totalMessages) - 1),
       totalTokensUsed := Max0(c.totalTokensUsed - d.tokensUsed),
       updatedAt := now)
  }

  /** Removing one message keeps ids and indices increasing and keeps every
    * remaining message's conversation. */
  lemma RemoveMessageKeeps(convs: seq<Conversation>, msgs: seq<Message>, i: nat)
    requires IdsIncreasing(msgs) && IndicesIncreasing(msgs) && ForeignKeys(convs, msgs)
    requires i < |msgs|
    ensures IdsIncreasing(RemoveAt(msgs, i)) && IndicesIncreasing(RemoveAt(msgs, i))
    ensures ForeignKeys(convs, RemoveAt(msgs, i))
  {
    RemoveIdsKeep(msgs, i);
    RemoveIndicesKeep(msgs, i);
  }

  lemma RemoveIdsKeep(msgs: seq<Message>, i: nat)
    requires IdsIncreasing(msgs) && i < |msgs|
    ensures IdsIncreasing(RemoveAt(msgs, i))
  {
    var ms := RemoveAt(msgs, i);
    forall a | 0 <= a < |ms| ensures ms[a] == msgs[if a < i then a else a + 1] {
    }
  }

  lemma RemoveIndicesKeep(msgs: seq<Message>, i: nat)
    requires IndicesIncreasing(msgs) && i < |msgs|
    ensures IndicesIncreasing(RemoveAt(msgs, i))
  {
    var ms := RemoveAt(msgs, i);
    forall a | 0 <= a < |ms| ensures ms[a] == msgs[if a < i then a else a + 1] {
    }
  }

  /** Removing message `i` and lowering its row's counters keeps every row's
    * counters right, and the clamps at 0 never take effect. */
  lemma RemoveCountersKeep(convs: seq<Conversation>, msgs: seq<Message>, i: nat, k: nat, now: int)
    requires UniqueConvIds(convs) && CountersMatch(convs, msgs)
    requires i < |msgs| && k < |convs| && convs[k].conversationId == msgs[i].conversationId
    ensures CountersMatch(convs[k := AfterDelete(convs[k], msgs[i], now)], RemoveAt(msgs, i))
    ensures AfterDelete(convs[k], msgs[i], now).totalMessages == convs[k].totalMessages - 1
    ensures AfterDelete(convs[k], msgs[i], now).totalTokensUsed == convs[k].totalTokensUsed - msgs[i].tokensUsed
  {
    var d := msgs[i];
    var cs := convs[k := AfterDelete(convs[k], d, now)];
    CountPositive(msgs, i, d.conversationId);
    forall j | 0 <= j < |cs|
      ensures cs[j].totalMessages == CountOf(RemoveAt(msgs, i), cs[j].conversationId)
      ensures cs[j].totalTokensUsed == TokensOf(RemoveAt(msgs, i), cs[j].conversationId)
    {
      RemoveCounts(msgs, i, convs[j].conversationId);
      if j != k {
        DistinctIds(convs, j, k);
      }
    }
  }

  /** Removing message `i` lowers the counts of its own conversation by one
    * message and its tokens, and no other conversation's. */
  lemma RemoveCounts(msgs: seq<Message>, i: nat, cid: string)
    requires i < |msgs|
    ensures CountOf(RemoveAt(msgs, i), cid) == CountOf(msgs, cid) - (if msgs[i].conversationId == cid then 1 else 0)
    ensures TokensOf(RemoveAt(msgs, i), cid) == TokensOf(msgs, cid) - (if msgs[i].conversationId == cid then msgs[i].tokensUsed else 0)
  {
    var d := msgs[i];
    assert msgs == msgs[..i] + [d] + msgs[i + 1..];
    CountConcat(msgs[..i] + [d], msgs[i + 1..], cid);
    CountConcat(msgs[..i], [d], cid);
    CountConcat(msgs[..i], msgs[i + 1..], cid);
    CountOne(d, cid);
  }

  /** Deleting one message and adjusting its conversation's counters keeps
    * the invariant; neither clamp at 0 ever takes effect, so the counters
    * drop by exactly one message and its tokens. */
  lemma DeleteMessageKeeps(convs: seq<Conversation>, msgs: seq<Message>, stats: seq<DailyStatistics>,
                           i: nat, k: nat, now: int)
    requires StoreInvariant(convs, msgs, stats)
    requires i < |msgs| && k < |convs| && convs[k].conversationId == msgs[i].conversationId
    ensures StoreInvariant(convs[k := AfterDelete(convs[k], msgs[i], now)], RemoveAt(msgs, i), stats)
    ensures AfterDelete(convs[k], msgs[i], now).totalMessages == convs[k].totalMessages - 1
    ensures AfterDelete(convs[k], msgs[i], now).totalTokensUsed == convs[k].totalTokensUsed - msgs[i].tokensUsed
  {
    var c := AfterDelete(convs[k], msgs[i], now);
    RemoveMessageKeeps(convs, msgs, i);
    ReplaceConvKeeps(convs, RemoveAt(msgs, i), k, c);
    RemoveCountersKeep(convs, msgs, i, k, now);
  }

  /** The cascade keeps ids and indices increasing. */
  lemma CascadeOrderKeeps(msgs: seq<Message>, ids: set<string>)
    requires IdsIncreasing(msgs) && IndicesIncreasing(msgs)
    ensures IdsIncreasing(WithoutConvs(msgs, ids)) && IndicesIncreasing(WithoutConvs(msgs, ids))
  {
    var p := MsgNotIn(ids);
    var idLess := (a: Message, b: Message) => a.id < b.id;
    assert Pairwise(msgs, idLess);
    FilterPairwise(msgs, p, idLess);
    var idxLess := (a: Message, b: Message) => a.conversationId == b.conversationId ==> a.messageIndex < b.messageIndex;
    assert Pairwise(msgs, idxLess);
    FilterPairwise(msgs, p, idxLess);
  }

  /** Deleting conversations keeps the remaining ids unique, and every
    * message the cascade keeps still has its conversation. */
  lemma CascadeKeysKeep(convs: seq<Conversation>, msgs: seq<Message>, ids: set<string>)
    requires UniqueConvIds(convs) && ForeignKeys(convs, msgs)
    ensures UniqueConvIds(KeptConvs(convs, ids))
    ensures ForeignKeys(KeptConvs(convs, ids), WithoutConvs(msgs, ids))
  {
    CascadeUnique(convs, ids);
    CascadeForeignKeys(convs, msgs, ids);
  }

  lemma CascadeUnique(convs: seq<Conversation>, ids: set<string>)
    requires UniqueConvIds(convs)
    ensures UniqueConvIds(KeptConvs(convs, ids))
  {
    var cidDiff := (a: Conversation, b: Conversation) => a.conversationId != b.conversationId;
    assert Pairwise(convs, cidDiff);
    FilterPairwise(convs, ConvNotIn(ids), cidDiff);
  }

  lemma CascadeForeignKeys(convs: seq<Conversation>, msgs: seq<Message>, ids: set<string>)
    requires ForeignKeys(convs, msgs)
    ensures ForeignKeys(KeptConvs(convs, ids), WithoutConvs(msgs, ids))
  {
    var cs := KeptConvs(convs, ids);
    var ms := WithoutConvs(msgs, ids);
    forall a | 0 <= a < |ms| ensures HasConv(cs, ms[a].conversationId) {
      assert ms[a] in msgs;
      var a' :| 0 <= a' < |msgs| && msgs[a'] == ms[a];
      var t :| 0 <= t < |convs| && convs[t].conversationId == msgs[a'].conversationId;
      assert convs[t] in cs;
      var u :| 0 <= u < |cs| && cs[u] == convs[t];
    }
  }

  /** The cascade leaves the counters of every remaining row right. */
  lemma CascadeCountersKeep(convs: seq<Conversation>, msgs: seq<Message>, ids: set<string>)
    requires CountersMatch(convs, msgs)
    ensures CountersMatch(KeptConvs(convs, ids), WithoutConvs(msgs, ids))
  {
    var cs := KeptConvs(convs, ids);
    forall j | 0 <= j < |cs|
      ensures cs[j].totalMessages == CountOf(WithoutConvs(msgs, ids), cs[j].conversationId)
      ensures cs[j].totalTokensUsed == TokensOf(WithoutConvs(msgs, ids), cs[j].conversationId)
    {
      assert cs[j] in convs;
      var t :| 0 <= t < |convs| && convs[t] == cs[j];
      CountFilterKeeps(msgs, MsgNotIn(ids), cs[j].conversationId);
    }
  }

  /** Deleting the conversations `ids` together with all their messages (the
    * cascade), and keeping any statistics table without duplicate buckets,
    * keeps the invariant. */
  lemma DeleteConvsKeeps(convs: seq<Conversation>, msgs: seq<Message>, stats: seq<DailyStatistics>,
                         ids: set<string>, stats2: seq<DailyStatistics>)
    requires StoreInvariant(convs, msgs, stats)
    requires UniqueBuckets(stats2)
    ensures StoreInvariant(KeptConvs(convs, ids), WithoutConvs(msgs, ids), stats2)
  {
    CascadeOrderKeeps(msgs, ids);
    CascadeKeysKeep(convs, msgs, ids);
    CascadeCountersKeep(convs, msgs, ids);
  }
}
