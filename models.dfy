/** The three tables of the chat-history database: conversations, messages
  * and per-user daily statistics, with the defaults their columns declare.
  * Timestamps are whole microseconds since the epoch; the ISO text the
  * service prints for them is not modelled. */
module Models {
  import opened Wrappers

  /** One row of `conversations`. The surrogate integer key is not modelled:
    * rows are kept in insertion order instead, and `conversationId` is the
    * key every query uses. */
  datatype Conversation = Conversation(
    conversationId: string,
    userId: Option<string>,
    sessionType: string,
    language: string,
    createdAt: int,
    updatedAt: int,
    totalMessages: nat,
    totalTokensUsed: nat,
    userAgent: Option<string>,
    ipAddress: Option<string>)

  /** One row of `messages`. `toolsUsed` is the stored JSON list of tool
    * names, absent when no tool was named. */
  datatype Message = Message(
    id: nat,
    conversationId: string,
    role: string,
    sender: string,
    content: string,
    messageIndex: int,
    messageLevel: string,
    category: Option<string>,
    tokensUsed: nat,
    responseTimeMs: real,
    store: bool,
    containsUserData: bool,
    requiresFollowUp: bool,
    createdAt: int,
    toolsUsed: Option<seq<string>>,
    apiCallsMade: nat)

  /** One row of `daily_statistics`: the counters of one (date, user) bucket. */
  datatype DailyStatistics = DailyStatistics(
    date: string,
    userId: Option<string>,
    totalConversations: nat,
    totalMessages: nat,
    userMessages: nat,
    assistantMessages: nat,
    totalTokens: nat,
    lowLevelCount: nat,
    midLevelCount: nat,
    highLevelCount: nat,
    criticalLevelCount: nat,
    sensitiveLevelCount: nat,
    totalApiCalls: nat,
    avgResponseTimeMs: real)

  /** The five message levels with a counter of their own. */
  const Levels: seq<string> := ["low", "mid", "high", "critical", "sensitive"]

  /** Python truthiness of an optional string: present and not empty. */
  predicate Truthy(s: Option<string>) {
    s.Some? && s.value != ""
  }

  /** The arguments of `add_message` besides the conversation id; `DefaultInput`
    * fills in the declared defaults. */
  datatype MessageInput = MessageInput(
    role: string,
    sender: string,
    content: string,
    messageLevel: string,
    category: Option<string>,
    tokensUsed: nat,
    responseTimeMs: real,
    store: bool,
    toolsUsed: Option<seq<string>>,
    apiCallsMade: nat)

  /** The input for a message given only its role, sender and text. */
  function DefaultInput(role: string, sender: string, content: string): (r: MessageInput)
    ensures r.role == role && r.sender == sender && r.content == content
    ensures r.messageLevel == "low" && r.category == None
    ensures r.tokensUsed == 0 && r.responseTimeMs == 0.0 && r.apiCallsMade == 0
    ensures r.store && r.toolsUsed == None
  {
    MessageInput(role, sender, content, "low", None, 0, 0.0, true, None, 0)
  }

  /** How a list of tool names is stored: serialised when it is non-empty,
    * NULL otherwise. */
  function StoredTools(tools: Option<seq<string>>): Option<seq<string>> {
    if tools.Some? && tools.value != [] then tools else None
  }

  /** How the stored column is read back: the list, or `[]` for NULL. */
  function ReadTools(stored: Option<seq<string>>): seq<string> {
    stored.GetOr([])
  }

  /** Reading back what was stored gives the tool names, with "none" and
    * "empty" both read as the empty list, and a stored value is never empty. */
  lemma ToolsRoundTrip(tools: Option<seq<string>>)
    ensures ReadTools(StoredTools(tools)) == tools.GetOr([])
    ensures StoredTools(tools).Some? ==> StoredTools(tools).value != []
  {
  }

  /** A fresh conversation row: no messages and no tokens yet. */
  function NewConversation(id: string, userId: Option<string>, sessionType: string, language: string,
                           now: int, userAgent: Option<string>, ipAddress: Option<string>): (c: Conversation)
    ensures c.conversationId == id && c.userId == userId && c.sessionType == sessionType
    ensures c.language == language && c.userAgent == userAgent && c.ipAddress == ipAddress
    ensures c.createdAt == now && c.updatedAt == now
    ensures c.totalMessages == 0 && c.totalTokensUsed == 0
  {
    Conversation(id, userId, sessionType, language, now, now, 0, 0, userAgent, ipAddress)
  }

  /** A fresh statistics bucket: every counter 0. */
  function NewBucket(date: string, userId: Option<string>): (b: DailyStatistics)
    ensures b.date == date && b.userId == userId
    ensures b.totalConversations == 0 && b.totalMessages == 0
    ensures b.userMessages == 0 && b.assistantMessages == 0 && b.totalTokens == 0
    ensures b.lowLevelCount == 0 && b.midLevelCount == 0 && b.highLevelCount == 0
    ensures b.criticalLevelCount == 0 && b.sensitiveLevelCount == 0
    ensures b.totalApiCalls == 0 && b.avgResponseTimeMs == 0.0
  {
    DailyStatistics(date, userId, 0, 0, 0, 0, 0, 0, 0, 0, 0, 0, 0, 0.0)
  }

  /** The counter kept for `level`, or none for a level outside the five. */
  function LevelCount(b: DailyStatistics, level: string): nat {
    if level == "low" then b.lowLevelCount
    else if level == "mid" then b.midLevelCount
    else if level == "high" then b.highLevelCount
    else if level == "critical" then b.criticalLevelCount
    else if level == "sensitive" then b.sensitiveLevelCount
    else 0
  }

  /** Sum of the five level counters. */
  function LevelSum(b: DailyStatistics): nat {
    b.lowLevelCount + b.midLevelCount + b.highLevelCount + b.criticalLevelCount + b.sensitiveLevelCount
  }
}
