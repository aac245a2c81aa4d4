# ISP chat assistant: chat history, agent post-processing and analytics

A Dafny model of the core of an ISP customer-support chat service. A user chats with
a language-model assistant through an HTTP API. Each message is classified by keyword
rules for sensitivity level and category. The service keeps three SQL tables:

- conversations;
- messages;
- per-user daily statistics.

It serves history queries over those tables and diagnoses the user's internet
connection from the ISP account API. A separate offline script summarises the JSON day
files of the old file-based history.

Modules, one per file:

| module | file | models |
|---|---|---|
| `Wrappers` | wrappers.dfy | `Option` and `Result` |
| `Json` | json.dfy | decoded JSON values and `dict.get` with a default |
| `Text` | text.dfy | ASCII `lower()`, `strip()`, `split()`, substring search, decimal digits |
| `Collections` | collections.dfy | filter, map, take, the offset/limit window, and a stable sort by an integer key, with its correctness |
| `Models` | models.dfy | the rows of the three tables and their column defaults (app/db/models.py) |
| `Pagination` | pagination.dfy | `page`, `total_pages`, `has_more` and `next_skip` |
| `Classifier` | classifier.dfy | the level and category keyword rules and the user-data keyword rule |
| `Tables` | tables.dfy | pure functions over the tables: cached counters, next index and next row id, the daily bucket update, and the store invariant with a lemma for every write |
| `Store` | store.dfy | class `ChatHistoryManager`, whose fields are the three tables and whose methods are the operations of app/db/crud.py |
| `Agent` | agent.dfy | what `process_chat` does around the model call: prompt text, fence stripping, JSON parsing with fallbacks, the error response |
| `IspData` | ispdata.dfy | the decision logic of app/db/data.py |
| `HistoryApi` | history_api.dfy | the history endpoints' own rules (app/api/endpoints/history.py) |
| `ChatApi` | chat_api.dfy | the chat endpoint's turn and the per-user history endpoint (app/api/endpoints/chat.py) |
| `Analytics` | analytics.dfy | the offline analysis script (analyze_chats.py) |

The store invariant, `Tables.StoreInvariant`, is kept by every write (`ChatHistoryManager.Valid()`). It requires:

- conversation ids are unique;
- message row ids increase in table order;
- within a conversation, message indices increase;
- every message names an existing conversation;
- each conversation's cached `total_messages` and `total_tokens_used` equal the count
  and token sum of its messages;
- there is at most one statistics row per (date, user).

A database `ORDER BY` is modelled as the stable sort `Collections.SortBy` over table
order. Python's `list.sort` is that same stable sort.

Inputs that the service reads from its environment become parameters:

- the clock (`now`, `today`, the formatted timestamp) and the random hex suffix of a
  conversation id;
- the request headers;
- the model's raw output (`output`, None when the call raised);
- `json.loads` (`parse`, None on a decode error);
- the database's `LIKE` and date-string comparison (`like`, `onOrAfter`);
- `str()` of a list or dictionary (`show`);
- the HTTP status and body of each ISP API answer;
- for the analysis script, the directory of day files (a map from path to decoded file).

Where the code and the system's documentation disagree, the model follows the code:

- **Index reuse.** The column comment at models.py:64 calls the message index the order within the
  conversation, and one might expect an index never to be reused after a deletion.
  `add_message` takes one past the current largest index (crud.py:104-109). So deleting
  the newest message hands its index to the next one; `Tables.IndexReusedAfterDelete`
  states this. Row ids behave the same way: an integer primary key without
  AUTOINCREMENT takes one past the last id.
- **History order.** The comment at chat.py:50 speaks of the last 10 messages.
  `get_conversation_messages(limit=10)` orders by index and skips nothing, so the history
  is the first 10 messages of the conversation. `ChatApi.RecentMessages` models that.
- **Running average.** The comment beside the running average of response times says
  the assistant count is read before it is incremented. The code reads it after
  (crud.py:403, 423). The store's model does the same (`Tables.Bump`,
  `Store.CountInto`), and the corrected formula is stated beside it. See Findings.

## Model

| member | source | states |
|---|---|---|
| Models.DefaultInput | app/db/crud.py:80-92 | `add_message` defaults: level "low", no category, zero tokens, time and API calls, stored, no tools |
| Models.ToolsRoundTrip | app/db/crud.py:127 | a tool list stored as JSON (NULL when empty) reads back as the same list, or `[]` for NULL (crud.py:200) |
| Models.NewConversation | app/db/crud.py:41-50 | a new conversation row carries the given id, owner, type, language and client data, with zero counters |
| Models.NewBucket | app/db/crud.py:393-396 | a new daily bucket has every counter at 0 |
| Pagination.Page | app/db/crud.py:186 | `skip // limit + 1` is the page whose window holds `skip` |
| Pagination.TotalPages | app/db/crud.py:188 | `(total + limit - 1) // limit` pages hold all items |
| Pagination.TotalPagesIsCeiling | app/db/crud.py:188 | the page count is the unique ceiling of total / limit, and is 0 exactly for no items |
| Pagination.NextSkip | app/db/crud.py:331-332 | `next_skip` is present exactly when `has_more`, and is then `skip + limit`, below the total |
| Pagination.NextSkipPages | app/db/crud.py:328-332 | following `next_skip` from 0 visits pages 1, 2, 3, ... within `total_pages` |
| Pagination.Example45 | app/db/crud.py:328-332 | 45 items at 20 per page: page 3 of 3 from skip 40, with no more; skip 20 has more, next at 40 |
| Json.Get | app/services/agent.py:284 | `dict.get(key, default)`: the value when the key is present, else the default |
| Text.Lower | app/services/agent.py:33 | `lower()` maps each character by ASCII case folding and keeps the length |
| Text.LowerIdempotent | app/services/agent.py:33 | lower-casing twice is lower-casing once |
| Text.StripShape | app/services/agent.py:268 | `strip()` leaves no outer whitespace, is a substring of its input, and is empty exactly for all-space input |
| Text.StripSurrounded | app/services/agent.py:277 | stripping whitespace around a clean text gives that text |
| Text.Words | app/services/agent.py:342 | `split()` gives non-empty words without whitespace |
| Text.WordsBound | app/services/agent.py:342 | a text has at most as many words as characters |
| Text.NatToStringRoundTrip | analyze_chats.py:213 | the decimal text of a number reads back as that number |
| Collections.Filter | app/db/crud.py:160-168 | a filter keeps exactly the elements satisfying the predicate |
| Collections.Window | app/db/crud.py:174 | `offset(skip).limit(limit)`: at most `limit` elements from position `skip` |
| Collections.SortByCorrect | app/api/endpoints/chat.py:175 | the sort's result is ordered by the key and is a permutation of its input |
| Collections.SortedWindow | app/db/crud.py:238 | a window of a sorted list is sorted and holds only input elements |
| Classifier.ClassifyLevel | app/services/agent.py:24-56 | the level is one of five, and each is given exactly when its group's keyword occurs and no earlier group's does: sensitive, critical, high, mid; "low" exactly when no keyword of any group occurs |
| Classifier.DetectCategory | app/services/agent.py:58-73 | the category is one of six, and each is given exactly when its group's word occurs and no earlier group's does: billing, technical, packages, entertainment, account; "general" exactly when no word of any group occurs |
| Classifier.DetectUserData | app/db/crud.py:434-441 | the flag is set exactly when one of the eight keywords occurs at some position of the lower-cased text |
| Classifier.AnyInIffOccurs | app/db/crud.py:441 | `any(k in text for k in words)` holds exactly when some word occurs at some position of the text |
| Classifier.CaseInsensitive | app/services/agent.py:33 | lower-casing the text first changes no classification |
| Classifier.EmptyText | app/services/agent.py:55-56 | empty text is "low", "general" and has no user data |
| Classifier.KeywordAnywhere | app/services/agent.py:37 | a keyword is found anywhere in the text, even inside a longer word |
| Classifier.SensitiveWins | app/services/agent.py:36-38 | "password" makes the level sensitive whatever else the text holds |
| Classifier.CriticalUnlessSensitive | app/services/agent.py:41-43 | any critical keyword, anywhere in the text, makes the level critical when no sensitive keyword occurs |
| Classifier.PayInsideWord | app/services/agent.py:62-63 | "pay" inside any word makes the category billing |
| Classifier.UserDataAnywhere | app/db/crud.py:436-441 | each user-data keyword anywhere in the text sets the flag |
| Tables.OfConv | app/db/crud.py:450 | the messages of a conversation are exactly the rows naming it |
| Tables.CountConcat | app/db/crud.py:131-135 | message counts and token sums add over concatenated tables |
| Tables.CountOne | app/db/crud.py:131-135 | one message adds one to its own conversation's count and its tokens, and nothing to any other |
| Tables.CountPositive | app/db/crud.py:470 | a conversation with a message has a positive count |
| Tables.LastIndex | app/db/crud.py:105-107 | the largest index of the conversation, present exactly when it has a message |
| Tables.NextIndex | app/db/crud.py:104-109 | the new index is one past the conversation's largest, or 1 when it has no message, so it exceeds every index of the conversation |
| Tables.NextIndexAfter | app/db/crud.py:104-109 | two inserts in a row get consecutive indices |
| Tables.IndexReusedAfterDelete | app/db/crud.py:104-109 | after the newest message is deleted, the next insert gets its index and its row id again |
| Tables.FindConv | app/db/crud.py:97-102 | the lookup finds a row with the id, or reports that none exists |
| Tables.FindMessage | app/db/crud.py:459-461 | the lookup finds a message row with the id, or reports that none exists |
| Tables.FindBucket | app/db/crud.py:386-391 | the lookup finds the (date, user) row, or reports that none exists |
| Tables.FindConvExact | app/db/crud.py:97 | with unique ids, a conversation is found at its own position |
| Tables.EmptyStoreInvariant | app/db/models.py:142-164 | empty tables satisfy the invariant |
| Tables.Bump | app/db/crud.py:399-429 | recording a message raises the total, the role counter, the tokens, the API calls and its level's counter by exactly its share; the average moves only for an assistant message with positive time, and then as the code computes it, dividing by the assistant count that already includes the new reply |
| Tables.FirstReplyHalved | app/db/crud.py:403-429 | in a fresh bucket, the first timed assistant reply records half its time, not its time |
| Tables.BumpRunsAsWritten | app/db/crud.py:399-429 | bucket after bucket update, the stored average follows the code's run over the assistant replies |
| Tables.RecordedShape | app/db/crud.py:381-431 | recording keeps one row per bucket; only the (today, user) bucket changes, by one message; a missing bucket is created with just that message |
| Tables.AvgCorrected | app/db/crud.py:420-429 | the corrected formula, with the count taken before the increment: a first timed reply would set the average to its own time |
| Tables.RunCorrectedIsMean | app/db/crud.py:420-429 | with the count taken before the increment, the corrected formula gives the mean of the response times |
| Tables.AsWrittenIsNotMean | app/db/crud.py:403 | as written, replies of 100, 200 and 300 ms record 150 ms, not their mean 200 |
| Tables.IdsOf | app/db/crud.py:482-485 | the id set of a conversation list holds exactly their ids |
| Tables.KeptConvs | app/db/crud.py:444-454 | deleting conversations keeps exactly the rows whose id is not deleted |
| Tables.WithoutConvs | app/db/models.py:41 | the cascade keeps exactly the messages of conversations that are not deleted |
| Tables.CountRemoved | app/db/crud.py:491-493 | deleting a conversation's messages removes exactly its count |
| Tables.NoOrphans | app/db/crud.py:469 | with the foreign key, an unknown conversation has no messages |
| Tables.NewConversationKeeps | app/db/crud.py:52-54 | adding a conversation with a fresh id and zero counters keeps the invariant |
| Tables.AppendIdKeeps | app/db/crud.py:115-129 | a message with the next row id keeps ids increasing |
| Tables.AppendIndexKeeps | app/db/crud.py:109 | a message with the next index keeps indices increasing, so it repeats no index of its conversation |
| Tables.AppendCountersKeep | app/db/crud.py:131-135 | raising the counters of the message's own conversation keeps every row's counters right |
| Tables.AddMessageKeeps | app/db/crud.py:80-145 | `add_message` keeps the invariant |
| Tables.RemoveMessageKeeps | app/db/crud.py:468 | removing one message keeps ids, indices and foreign keys, and renumbers nothing |
| Tables.RemoveCountersKeep | app/db/crud.py:469-474 | lowering the row's counters on deletion keeps every row right, and the clamps at 0 never take effect |
| Tables.RemoveCounts | app/db/crud.py:468-473 | removing a message lowers only its own conversation's count and tokens |
| Tables.DeleteMessageKeeps | app/db/crud.py:457-477 | `delete_message` keeps the invariant and lowers the counters by exactly one message and its tokens |
| Tables.CascadeOrderKeeps | app/db/models.py:41 | the cascade keeps ids and indices increasing |
| Tables.CascadeKeysKeep | app/db/models.py:41 | after the cascade, ids stay unique and no message is orphaned |
| Tables.CascadeCountersKeep | app/db/models.py:41 | the cascade leaves the remaining rows' counters right |
| Tables.DeleteConvsKeeps | app/db/crud.py:444-508 | deleting conversations with their messages keeps the invariant |
| Store.NewConversationId | app/db/crud.py:32-39 | a user's id starts `user_<id>_`, an anonymous one starts `anonymous_` |
| Store.NewIdNonEmpty | app/db/crud.py:32-39 | a generated conversation id is never empty |
| Store.IdKindsDisjoint | app/db/crud.py:32-39 | a user id and an anonymous id never coincide, and the session type says which kind an id is |
| Store.NewMessage | app/db/crud.py:115-129 | the inserted row carries the given id, conversation, index and every input field, with the detected user-data flag |
| Store.Join | app/db/crud.py:542 | each joined row pairs a message with the conversation its foreign key names |
| Store.MsgQuery | app/db/crud.py:160-168 | the optional filter stages together select exactly the messages matching every given filter |
| Store.ConvQuery | app/db/crud.py:221-232 | the optional conversation filters together select exactly the rows `ConvMatches` accepts |
| Store.SelectedIds | app/db/crud.py:482-485 | with unique ids, an id is among the selected ones exactly when its row is selected |
| Store.DeleteStep | app/db/crud.py:491-493 | each step of the deletion loop removes a present conversation and adds its cached count |
| Store.DeleteTargets | app/db/crud.py:490-493 | the deletion loop removes every selected conversation with all its messages and counts them |
| Store.CountInto | app/db/crud.py:399-429 | the bucket update step by step, reading the assistant count after raising it, equals `Bump` |
| Store.ChatHistoryManager.constructor | app/db/models.py:142-164 | the store starts with empty tables and valid |
| Store.ChatHistoryManager.CreateConversation | app/db/crud.py:20-57 | a new row with the generated id and zero counters; an id that is already taken writes nothing |
| Store.ChatHistoryManager.GetOrCreateConversation | app/db/crud.py:59-78 | the existing row when a non-empty id names one, otherwise a newly created conversation |
| Store.ChatHistoryManager.AddMessage | app/db/crud.py:80-145 | unknown conversation: error, no change. Otherwise one row is appended with the next id and the next index; its conversation's counters rise by one and its tokens; the (today, owner) bucket records it |
| Store.ChatHistoryManager.UpdateDailyStats | app/db/crud.py:381-431 | the statistics become `Recorded(old, today, user, m)`, and nothing else changes |
| Store.ChatHistoryManager.DeleteMessage | app/db/crud.py:457-477 | false and no change for an unknown id. Otherwise only that message goes; its conversation loses one message and its tokens; statistics stay as they were |
| Store.ChatHistoryManager.DeleteConversation | app/db/crud.py:444-454 | false and no change for an unknown id; otherwise that conversation and all its messages are gone |
| Store.ChatHistoryManager.DeleteUserMessages | app/db/crud.py:480-508 | removes exactly the selected conversations (anonymous pool or exact owner), their messages and the selected statistics rows; the count is the sum of their counters |
| Store.ChatHistoryManager.PurgeAllData | app/db/crud.py:511-526 | every table emptied; the counts are the sizes before |
| Store.ChatHistoryManager.GetConversationMessages | app/db/crud.py:147-206 | the messages passing every filter, in index order, windowed; the total counts every match; the owner and language, or none and "EN" |
| Store.ChatHistoryManager.GetAllConversations | app/db/crud.py:209-258 | the conversations passing every filter, most recently updated first, windowed, with the page arithmetic |
| Store.ChatHistoryManager.GetUserConversations | app/db/crud.py:261-270 | the conversations owned by exactly that user id, in the same shape |
| Store.ChatHistoryManager.GetUserMessagesPaginated | app/db/crud.py:273-335 | the messages of the selected conversations, oldest first, windowed, with the distinct conversation count and `has_more`/`next_skip` |
| Store.ChatHistoryManager.SearchMessages | app/db/crud.py:529-564 | the matching messages (for a user, only that user's), newest first, windowed; the total counts them all |
| Store.ChatHistoryManager.GetDailyStatistics | app/db/crud.py:337-356 | a row is returned exactly when it has the user (when given) and the date, or a date from the start date on |
| Store.AddedValid | app/db/crud.py:131-142 | the tables after `add_message` keep the invariant |
| Store.KeptOne | app/db/crud.py:450-453 | deleting an existing id removes exactly one conversation row |
| Store.KnownConv | app/db/crud.py:463-465 | a stored message's conversation is always found |
| Store.DeletedValid | app/db/crud.py:468-476 | the tables after `delete_message` keep the invariant |
| Agent.ContextMessage | app/services/agent.py:244-246 | the context line is empty exactly without a usable user id |
| Agent.LanguageInstruction | app/services/agent.py:249 | Bangla for "BN", English for every other code |
| Agent.EnhancedMessage | app/services/agent.py:253 | context, language instruction and message joined by single spaces; a leading space when there is no context |
| Agent.StripFences | app/services/agent.py:268-277 | the text handed to the parser has no outer whitespace |
| Agent.UnwrapReply | app/services/agent.py:284-291 | a reply that is not a string, or does not start with "{", is left alone |
| Agent.ParseOutput | app/services/agent.py:266-315 | text not starting with "{", or rejected by the parser, becomes the raw output with the default metadata; it is an error exactly when the parse gives a non-object |
| Agent.ParseText | app/services/agent.py:280-315 | the same, for the stripped text |
| Agent.Outcome | app/services/agent.py:257-263 | no usable reply when the model call raised |
| Agent.ErrorResponse | app/services/agent.py:349-372 | the error response: fixed reply, not stored, critical, "error", zero tokens |
| Agent.ProcessChat | app/services/agent.py:200-372 | the usable reply with the message's level and category, a word-count token estimate and the store flag (true when absent); otherwise exactly the error response |
| Agent.PlainTextKept | app/services/agent.py:298-315 | output that is not parsed JSON is kept unstripped with the default metadata, and is stored |
| Agent.BareJson | app/services/agent.py:268-277 | clean JSON text reaches the parser unchanged |
| Agent.UnfenceOpening | app/services/agent.py:269-272 | an opening "```json" or "```" fence is removed |
| Agent.FenceRoundTrip | app/services/agent.py:268-277 | JSON text wrapped in either fence reaches the parser exactly as bare |
| Agent.FencedUnstripped | app/services/agent.py:268 | a fenced text has no outer whitespace to strip |
| Agent.ClosedBody | app/services/agent.py:274-277 | the closing fence and its surrounding newlines are removed |
| Agent.WellFormedAnswer | app/services/agent.py:280-297 | the answer shape the prompt asks for comes back as its reply and metadata |
| Agent.WellFormedText | app/services/agent.py:280-297 | the same, for the stripped text |
| Agent.DoubleEncodedReply | app/services/agent.py:283-289 | a reply that is itself JSON with a "reply" string is replaced by that string |
| Agent.DoubleEncodedText | app/services/agent.py:283-289 | the same, for the stripped text |
| Agent.MissingReplyKey | app/services/agent.py:284-297 | JSON without reply or metadata, fenced or bare, falls back to the raw output with the default metadata; the fallback reply is not unwrapped again |
| Agent.MissingReplyText | app/services/agent.py:284-297 | the same, for the stripped text |
| Agent.MissingReplyBare | app/services/agent.py:284-297 | bare JSON text without those keys is kept whole as the reply, with the default metadata |
| Agent.WrongTypesFail | app/services/agent.py:284-297 | a non-string reply or non-object metadata makes the turn fail although the output parsed |
| Agent.WrongTypesText | app/services/agent.py:284-297 | the same, for the stripped text |
| IspData.LoopItems | app/db/data.py:196 | a `for` loop over a list iterates its items; a non-empty dict or string raises; other values are not iterable |
| IspData.ParseUserData | app/db/data.py:36-84 | `{}` for an empty answer; an error when "details" is not an object; otherwise the status fields and details taken from the answer |
| IspData.ParseDefaults | app/db/data.py:69-77 | missing payments and tickets read as 0, a missing fund as "0.00", a missing detail as None |
| IspData.GetUserById | app/db/data.py:86-99 | no user for a failed request or a falsy body; otherwise the parsed record |
| IspData.IssueTextInjective | app/db/data.py:135-145 | different issues never read the same |
| IspData.IssueHead | app/db/data.py:135-145 | the first character tells the kind of issue |
| IspData.IssuesFor | app/db/data.py:130-160 | each issue is listed exactly when its check fails; the "no issues" entry, alone, exactly when every check passes |
| IspData.AdviceFor | app/db/data.py:130-161 | each piece of advice is listed exactly when its check fails; the restart steps exactly when only the connection is down; the "working normally" entry, alone, exactly when every check passes |
| IspData.Diagnose | app/db/data.py:130-161 | the checks, appending issue and advice one by one, compute `IssuesFor` and `AdviceFor` |
| IspData.LowerStatus | app/db/data.py:126-128 | `.lower()` of a status is its lower case; anything but a string raises |
| IspData.CheckInternetStatus | app/db/data.py:101-165 | "User not found" when there is no user; otherwise success exactly when every status is a string, with the lower-cased statuses, the user's name, pending payment and expiry, and the issues and advice `IssuesFor` and `AdviceFor` give for those statuses |
| IspData.PartitionFinds | app/db/data.py:196-200 | a current package exists exactly when some package has the id |
| IspData.PartitionLast | app/db/data.py:197-198 | the current package is the last one with the id |
| IspData.PartitionCandidates | app/db/data.py:199-200 | the candidates are exactly the packages without the id, in order |
| IspData.PartitionPackages | app/db/data.py:196-200 | the loop succeeds exactly when every package has an id, and then gives that partition |
| IspData.PartitionCounts | app/db/data.py:196-200 | every package is the current one or a candidate, never both |
| IspData.Available | app/db/data.py:214-223 | the listed candidates, in order and described; a listed one lacking a key raises |
| IspData.CurrentInfo | app/db/data.py:205-210 | the current package's four fields, or "Unknown", "Unknown", "0", "monthly" |
| IspData.GetSubscriptionPackages | app/db/data.py:167-235 | an error reply for a non-200 status; for a 200 object answer, success exactly when it is readable, with the user's name, the current package, the subscription status, expiry and last renewal from the details, and the available list |
| IspData.SplitOtt | app/db/data.py:264-267 | the OTT list is the lines of the servers with details "OTT", in order |
| IspData.SplitFtp | app/db/data.py:264-269 | the FTP list is the lines of all other servers, in order |
| IspData.SplitCount | app/db/data.py:264-269 | every server lands on exactly one side |
| IspData.SplitServers | app/db/data.py:261-269 | the loop succeeds exactly when every server is an object, and then gives that split |
| IspData.GetMovieServers | app/db/data.py:237-295 | error replies for a non-200 status, a body that is not an object, or a non-success body; for a success body, success exactly when the data is a list of objects, with the total and the OTT/FTP split, which add up to it |
| IspData.FormatTicketMessage | app/db/data.py:317 | the ticket text names the user and ends with the issue as given |
| IspData.TicketMessageInjective | app/db/data.py:317 | different issues never give the same ticket text |
| HistoryApi.ConversationMessages | app/api/endpoints/history.py:100-114 | 404 exactly when nothing matched and the conversation has no owner; otherwise the store's page |
| HistoryApi.DeleteConversationEndpoint | app/api/endpoints/history.py:313-322 | success exactly when the conversation existed; otherwise 404 and no change |
| HistoryApi.GatherMessages | app/api/endpoints/history.py:191-204 | the loop's list is each fetched conversation's first 500 messages, tagged, conversation after conversation |
| HistoryApi.GatheredTagged | app/api/endpoints/history.py:200-203 | every gathered message is a stored message tagged with its own conversation's id, creation time and language |
| HistoryApi.GatheredBound | app/api/endpoints/history.py:193-198 | each conversation contributes at most 500 messages |
| HistoryApi.FetchedSelects | app/api/endpoints/history.py:176-189 | "anonymous" in any case fetches anonymous sessions, any other id exactly that user's; at most 1000 |
| HistoryApi.UserAllMessages | app/api/endpoints/history.py:174-217 | the gathered messages newest first, cut to `limit`; the total is the returned length; the conversation count is the number fetched |
| ChatApi.RecentMessages | app/api/endpoints/chat.py:51-55 | the history read is at most 10 messages |
| ChatApi.BuildHistory | app/api/endpoints/chat.py:59-63 | the loop builds `HistoryOf` the recent messages |
| ChatApi.HistoryIsDialogue | app/api/endpoints/chat.py:59-63 | the history is exactly the user and assistant messages, in order, as human and AI turns |
| ChatApi.UserInput | app/api/endpoints/chat.py:67-80 | the user's message: role and sender "user", the classifier's level and category, stored |
| ChatApi.ColumnText | app/db/models.py:61-62 | a string is stored as it is, a number or boolean as the text of its value; null, a list or an object cannot be stored |
| ChatApi.AssistantInput | app/api/endpoints/chat.py:94-112 | metadata role and sender as their column text and store (defaults "assistant", "assistant", true); the analysis's level, category, tokens and time; a value the columns cannot hold raises |
| ChatApi.NumericRoleStored | app/db/models.py:61 | a numeric role is stored as its decimal text |
| ChatApi.AssistantDefaults | app/api/endpoints/chat.py:102-109 | metadata without the three keys gives a stored assistant message |
| ChatApi.ErrorReplySaved | app/api/endpoints/chat.py:99-112 | the agent's error response is saved as a critical, unstored assistant message |
| ChatApi.TurnAppends | app/api/endpoints/chat.py:71-112 | two saves in a row append exactly the two rows, with consecutive ids and indices, the second being the assistant's row |
| ChatApi.TurnCounts | app/db/crud.py:133-136 | a turn's two saves keep the conversation row in place, raise its message count by two and its tokens by both messages' tokens, and leave every other row as it was |
| ChatApi.OpenConversation | app/api/endpoints/chat.py:38-63 | the conversation is found (when a truthy requested id exists) or one new row is appended with the generated id, the user's session type and language; it fails exactly when the generated id is already taken, and then nothing changes; the history is built from its recent messages before anything is written |
| ChatApi.OpenedConversation | app/db/crud.py:59-78 | the conversation given back is in the table with a non-empty id |
| ChatApi.SaveMessage | app/api/endpoints/chat.py:71-80 | the row is appended with the next id and index; the conversation row gets the message count, tokens and update time, the (today, owner) bucket records the message, and nothing else changes |
| ChatApi.SaveReply | app/api/endpoints/chat.py:99-121 | saved exactly when the metadata is usable, with the conversation and stats rows updated as by a save; otherwise no table changes; the reply and conversation id are returned |
| ChatApi.ChatTurn | app/api/endpoints/chat.py:13-125 | a turn whose conversation cannot be opened changes nothing; otherwise the user's row is committed (conversation counters and stats recorded) whether or not the reply is saved; a successful turn appends exactly the user's row, then the assistant's with the agent's reply, and records both in the conversation and stats rows; the history was read before the user's row was saved |
| ChatApi.UserChatHistory | app/api/endpoints/chat.py:140-185 | zero totals without conversations; otherwise the gathered messages oldest first, cut to `limit`; the total is the returned length |
| ChatApi.ExactUserMatch | app/api/endpoints/chat.py:142-147 | this endpoint matches the user id exactly, with no anonymous pool |
| Analytics.DaysIn | analyze_chats.py:105 | months have 28 to 31 days |
| Analytics.NextDay | analyze_chats.py:105 | the next calendar day is a later valid date; none only after 9999-12-31 |
| Analytics.NoDateBetween | analyze_chats.py:105 | no date lies between a day and the next |
| Analytics.AddDays | analyze_chats.py:96 | adding days gives a valid date, when in range |
| Analytics.DaysIncrease | analyze_chats.py:104-105 | the seven days of a week are increasing |
| Analytics.Pad4Value | analyze_chats.py:20-21 | `%Y` gives four digits that read back as the year |
| Analytics.Pad2Value | analyze_chats.py:20-21 | `%m` and `%d` give two digits that read back as their value |
| Analytics.DayFileNameFields | analyze_chats.py:21 | `DD-MM-YYYY.json` is 15 characters whose fields read back as day, month and year |
| Analytics.DayFileNameInjective | analyze_chats.py:21 | different dates give different file names |
| Analytics.DatePathShape | analyze_chats.py:19-23 | the path is the month folder under the data directory, then the day file |
| Analytics.DatePathInjective | analyze_chats.py:19-23 | different dates load different files |
| Analytics.LoadDateFile | analyze_chats.py:17-29 | a file exactly when its path exists; None otherwise |
| Analytics.Minutes | analyze_chats.py:207-209 | `int(seconds / 60)` truncates toward zero in both directions |
| Analytics.ShortDuration | analyze_chats.py:210-211 | under a minute reads "< 1 minute" |
| Analytics.MinutesTextInjective | analyze_chats.py:210-217 | different whole-minute durations read differently |
| Analytics.MinutesInjective | analyze_chats.py:212-213 | the same, below an hour |
| Analytics.HoursInjective | analyze_chats.py:214-217 | the same, from an hour on |
| Analytics.PowerSessionsSelect | analyze_chats.py:178-182 | the power sessions are exactly those above the minimum, as a permutation, sorted by count descending |
| Analytics.PowerUsers | analyze_chats.py:167-200 | a report exactly when the file has data; one row per power session, each with more than the minimum |
| Analytics.CriticalOf | analyze_chats.py:146-147 | a session's critical list is exactly its user messages at level "critical" |
| Analytics.FindCriticalMessages | analyze_chats.py:131-165 | the loop gives `CriticalReport`; "found" exactly when the report is non-empty |
| Analytics.CriticalReportSelects | analyze_chats.py:145-160 | the report lists the sessions with a critical message, in order |
| Analytics.NothingFound | analyze_chats.py:162-163 | nothing is found exactly when no session has a critical user message |
| Analytics.BumpLookup | analyze_chats.py:75-77 | `counter[key] += n` raises that key's count by n and no other |
| Analytics.BumpKeys | analyze_chats.py:86 | keys keep their order of first insertion |
| Analytics.BumpTotal | analyze_chats.py:75-77 | a bump raises the counter's total by the amount |
| Analytics.AddCountsLookup | analyze_chats.py:76-77 | adding a session's level counts raises each level by its total count |
| Analytics.AddLevelCounts | analyze_chats.py:76-77 | the inner loop computes `AddCounts` |
| Analytics.Aggregate | analyze_chats.py:64-77 | the session loop computes the level and language counters |
| Analytics.LevelsAfterLookup | analyze_chats.py:64-77 | each level's count is the sum of that level over all sessions |
| Analytics.LanguagesAfterCounts | analyze_chats.py:70-75 | each language's count is the number of its sessions; the counts total the sessions |
| Analytics.Bar | analyze_chats.py:82 | the bar is `count // 2` blocks, or empty when the count is not positive |
| Analytics.LevelRows | analyze_chats.py:79-83 | four rows, low, mid, high and critical, with their counts and bars |
| Analytics.DailySummary | analyze_chats.py:42-89 | a report exactly when the file has data: the totals, the level rows and the language counts |
| Analytics.WeeklySummary | analyze_chats.py:91-129 | an error exactly when the week's last day is out of range; otherwise the sum over the seven days |
| Analytics.NoDataAddsNothing | analyze_chats.py:109 | a day without data adds nothing |
| Analytics.EmptyWeek | analyze_chats.py:99-116 | a week without data sums to zero |
| Analytics.WeekFilesDistinct | analyze_chats.py:104-107 | the seven days read seven different files |

## Left out

- HTTP, the web framework, SQLAlchemy sessions and transactions are left out. So are `HTTPException`s and the 500 wrappers around unexpected errors, and printing and logging. Each store operation is one atomic change of the tables.
- The language-model call, its tools and the prompt template are outside the model (app/services/tools.py is not part of this model). The model's output is a parameter. The chat history handed to the agent is built and returned, but the agent model does not read it.
- Time is whole microseconds, and the timestamp text is a parameter. ISO rendering, `fromisoformat` parsing and microseconds are not modelled. In the analysis, a started or last-activity time is an optional number of seconds, and None stands for a missing or unparsable value.
- `strftime('%Y')` is taken to give four zero-padded digits, for years 1 to 9999.
- Fractional JSON numbers and floating-point rounding are not modelled. Response times are reals, and JSON numbers are integers.
- `lower()` is ASCII case folding. Python's full Unicode case mapping is not modelled.
- `str()` of a list or dictionary inside an f-string is the `show` parameter.
- `create_support_ticket`: only the ticket text is modelled. The HTTP post and the handling of its answer are left out.
- `fetch_user_from_api`: the request is left out. Its result is the `fetched` parameter.
- The legacy `HistoryManager` constructor, which creates a directory, is left out.
- The history endpoints' listing, statistics, search and health wrappers only forward to the store, and are left out. That also covers `get_conversations`' parsing of its date parameters.
- The analysis script is modelled only in part:
  - `get_all_files`, file reading and JSON decoding are left out. A loaded file is taken to be an object of the modelled shape.
  - The weekly averages and percentages are not modelled.
  - The CSV export and the command-line menu are not modelled.
- IspData.AdviceText: the texts of the advice are modelled, but their pairwise distinctness is not stated. The restart-steps text is long, and comparing it is too costly.
- Store.ChatHistoryManager.GetDailyStatistics: states which rows are returned, but not their descending date order. The date column is text, ordered by the database's string comparison.
- Collections.SortBy: the sort is an insertion sort that keeps ties in input order. Its ordering and permutation are proved, but its stability is not stated. Where the database orders rows, the order of ties is unspecified.
- Analytics.MinutesTextInjective: stated for durations of at least a minute; all shorter durations read "< 1 minute".
- ChatApi.AssistantInput: a `store` flag is accepted only as a JSON boolean. The Boolean column would also take 0, 1 and null, and those cases are not modelled.
- `tokens_used` and `api_calls_made` are natural numbers here, while the columns and `add_message`'s parameters are plain integers. Every caller in the code passes a count of words or calls, which is never negative.
- The endpoint's fallbacks for a missing analysis entry (level "low", no category, zero tokens and time, at chat.py:105-108) are not modelled: the agent's response always carries those keys.

## Findings

| source | as written | input that shows it | evidently intended | confidence | as-written member | corrected member |
|---|---|---|---|---|---|---|
| app/db/crud.py:420-429 | `assistant_messages` is incremented (line 403) before the running average reads it, so the update divides by one more message than it should | three assistant replies of 100, 200 and 300 ms record an average of 150 ms | the mean response time, 200 ms, with the count taken before the increment (the comment beside the formula) | not executed | Tables.AsWrittenIsNotMean | Tables.RunCorrectedIsMean |
