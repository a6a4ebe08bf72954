# Verified models of a personal-finance backend

This project models, in Dafny, the parts of the application in which state, order or arithmetic can go wrong, and
proves what they promise. `dafny verify dfyconfig.toml` checks all of it.

* **Transaction sync** (`PlaidFeed`, `PlaidService`, `Store`, `Categorization`, `AccountSync`, `TransactionSync`,
  `SyncRuns`, `SyncRows`, `SyncReplay`, `SyncOverlap`, `SyncHistory`). The provider is a feed of add, modify and
  remove events that it may rewrite beyond every final cursor it has handed out; the database is a committed copy and
  a session. The service classes are written step by step as the program does it and are proved against functions on
  the tables. The main theorems are about every run of feed changes, syncs, page failures, login failures, lost
  enrichment and crashes: the committed rows of an item are the projection of the feed up to the committed cursor, and
  after a committed sync they are so to the letter.
* **Rate limiting** (`RateLimit`). The limiter with lazy eviction and pruning refines one that keeps its whole log;
  the bound and the exact waiting time are proved of the latter.
* **Assistant** (`ChatSchemas`, `ChatService`, `FinanceAgent`, `AgentTranscripts`, `OpenAiClient`, `OpenAiStream`,
  `LlmClient`, `ProviderRequests`, `JsonText`, `JsonParse`, `AssistantStream`, `AssistantChat`, `AssistantBubbles`,
  `AssistantExchanges`, `AssistantRuns`). The tool loop, both wire translations, the stream accumulator, the event
  printer and its parser, and the page's reducer over every run; ending in one statement from the agent's run to the
  bubble on the page, however its stream is cut, broken off or interleaved with others.
* **Receipts** (`Receipts`). Rows in the database and bytes in object storage, with failures and crashes at every
  effect.
* **Queries** (`LikePattern`, `Pagination`, `Rollup`, `Analytics`, `Recurring`). Escaping for LIKE, stable pages,
  rollups that neither lose nor double-count, rounding bounds, recurring charges.
* **Connections** (`PlaidLink`). Linking, retiring, breaking and reviving, and how many connections to a bank are
  live.

Money is a whole number of ten-thousandths (the column is NUMERIC(19,4)) and dates are day numbers. Network, clock,
random ids and collaborators that cannot be seen are inputs: a schedule of what the provider does at each call, a
script of model turns, a list of effects that may fail.

Where the code and its comments differ, the model follows the code. Three cases: a status of SYNCING can be committed,
because the nested account sync commits when the login is lost (`app/services/account_sync.py:74-79`); a payload
skipped for its account is kept "so it can be reprocessed", but no sync revisits it
(`SyncRuns.SkippedIsNotRevisited`); same-day duplicates are said to collapse to one occurrence, but only their dates
do, so a duplicate can hide a recurring charge (`Recurring.DuplicateMayHidePattern`).

## Model

| member | source | states |
|---|---|---|
| RateLimit.SlidingWindowLimiter.Check | app/core/rate_limit.py:25-40 | answers as a limiter that keeps the whole log of allowed attempts would, and that log grows exactly by the allowed attempt |
| RateLimit.SlidingWindowLimiter.Evict | app/core/rate_limit.py:31-34 | what is left of a key's queue is exactly the counted part of its full log |
| RateLimit.SlidingWindowLimiter.Prune | app/core/rate_limit.py:42-47 | pruning is invisible to every later call and leaves no empty queue |
| RateLimit.NeverOverLimit | app/core/rate_limit.py:25-40 | for any interleaving of keys under a non-decreasing clock no interval (t - window, t] holds more than the limit of allowed attempts for a key |
| RateLimit.IndexErrorIffNoBudget | app/core/rate_limit.py:35-36 | the first element of an empty queue is asked for if and only if the limiter was built with a limit below one |
| RateLimit.RefusedMeanwhile | app/core/rate_limit.py:31-37 | between a refusal and the end of its wait no attempt on the key is recorded, whatever other keys do |
| RateLimit.WaitIsExact | app/core/rate_limit.py:31-37 | the returned wait lies in (0, window]; the next attempt on the key is allowed if and only if it comes at or after now + wait |
| RateLimit.RetryAfterSuffices | app/api/errors.py:93-100 | the rounded Retry-After header is always long enough and at most a second too long unless it is the minimum |
| PlaidFeed.CollapseIsReplay | app/services/transaction_sync.py:129-139 | upserting all added, then all modified, then deleting all removed gives the table that replaying the window event by event gives, from any table, whenever removed ids are not re-added; the landed payloads are the latest ones |
| PlaidFeed.CollapseIsReplayIff | app/services/transaction_sync.py:129-139 | whatever the feed promises: the two give the same table, from any table, if and only if every transaction whose last event in the window is no removal is removed nowhere in it and has that event's payload last when the added come before the modified |
| PlaidFeed.ReAddIsLost | app/services/transaction_sync.py:136-139 | a window that fails the condition: an id re-added after its removal is lost by the collapse |
| PlaidFeed.OverlappingWindowsConverge | app/services/transaction_sync.py:129-139 | on the live payloads: windows that start before what has been replayed and run to the end reach the map of one straight pass (SyncOverlap.OverlapConverges says it of the tables) |
| SyncOverlap.OverlapConverges | app/services/transaction_sync.py:186-272 | on the tables: from a ledger standing for the feed up to a later cursor, processing windows that start before it and run to the end leaves exactly the rows, categories and classifications, payloads and statuses of one straight pass |
| SyncOverlap.TwiceIsOnce | app/services/transaction_sync.py:186-272 | processing the last stretch of what has been applied a second time leaves each row and each payload exactly as it is |
| SyncOverlap.ResyncChangesNothing | app/services/transaction_sync.py:106-155 | in every run, right after a committed sync, going over the feed again from any earlier position to the new cursor changes no row and no payload of the item |
| PlaidService.PlaidServer.TransactionsSync | app/services/plaid.py:190-195 | the provider as assumed: a page is a slice of the current feed, a page with more to come moves the cursor, a rewrite during a pass is reported, nothing before a final cursor ever changes |
| PlaidService.SyncFrom | app/services/plaid.py:179-199 | one pass returns exactly the slice of one feed version between the given cursor and a final one, never pages of two versions, and ends because the remaining feed shrinks |
| PlaidService.SyncTransactions | app/services/plaid.py:160-177 | the result is such a slice from the original cursor, after at most two passes |
| Categorization.NamesAreFaithful | app/services/categorization.py:54-60 | codes without spaces get equal readable names if and only if they differ in letter case at most |
| Categorization.NamesGoWordByWord | app/services/categorization.py:54-60 | the first word is capitalised; each further word follows after a space, minor words in lower case |
| Categorization.MinorWordsStaySmall | app/services/categorization.py:21-60 | the eight minor words, and no others, stay in lower case after the first word |
| Categorization.FoodAndDrink | app/services/categorization.py:54-60 | the documented example: FOOD_AND_DRINK is called "Food and Drink" |
| Categorization.SuffixIsWhatFollows | app/services/categorization.py:63-65 | under its primary code a detailed code names exactly what follows it, and nothing when it adds nothing |
| Categorization.ResolveDerives | app/services/categorization.py:74-85 | resolving yields the category the payload stands for and creates nothing when the table already holds it |
| Categorization.CategoriesAreNamed | app/services/categorization.py:74-85 | the resolved category is named after what follows the primary code, under a parent named after the primary code; when nothing follows it is that parent |
| Categorization.NothingIsNamed | app/services/categorization.py:74-85 | without a primary code there is no category and the table stays |
| Categorization.DerivedIsStable | app/services/categorization.py:68-95 | a derived category never changes as the table grows |
| Categorization.ResolveKeepsDistinct | app/services/categorization.py:87-95 | no category id comes to name two (parent, name) pairs |
| Categorization.CategoryResolver.Resolve | app/services/categorization.py:74-85 | the cache is invisible: answer and table are those of resolving against the table alone, and every cached id is the table's |
| Categorization.CategoryResolver.LookUp | app/services/categorization.py:87-95 | a cached or found category is returned, an absent one created once |
| AccountSync.UpsertAccounts | app/services/account_sync.py:84-103 | exactly the accounts of the kept types end up under the item; it fails if and only if it would insert an account id that is there already, be it another item's or one it has itself just inserted |
| AccountSync.SnapshotIsTaken | app/services/account_sync.py:84-103 | account by account: the depository and credit accounts of the snapshot become the item's, all others stay whose they are |
| AccountSync.DistinctClashIffForeign | app/services/account_sync.py:84-103 | for a snapshot that lists no account twice that means: if and only if one of them belongs to another item |
| AccountSync.NewAccountTwiceClashes | app/services/account_sync.py:84-103 | a new account listed twice makes it fail, because the accounts looked up beforehand are not looked up again |
| AccountSync.SyncItem | app/services/account_sync.py:69-120 | success makes the item active and adds its accounts without committing; a lost login commits the status and nothing else |
| TransactionSync.MapByPlaidIds | app/repositories/transaction.py:32-40 | the chunked lookup finds exactly the entries whose ids the table holds |
| TransactionSync.DeleteFrom | app/repositories/transaction.py:196-204 | the chunked delete removes exactly the listed ids and counts the rows that were there |
| TransactionSync.SignsAgree | app/services/transaction_sync.py:274-289 | sign, direction and classification of a normalised row agree; it is unknown if and only if the payload has no category |
| TransactionSync.TransactionSyncService.LandAndNormalize | app/services/transaction_sync.py:186-248 | the loop with its two live dictionaries and three counters does what the payload-by-payload specification does |
| SyncRows.PayloadIsApplied | app/services/transaction_sync.py:186-289 | field by field, for the last payload of a transaction in a window: a synced one leaves a row with its account, date, amount and pending flag, the merchant's name or else the descriptor, its currency or else USD, the direction of the money and the meaning of its primary code; it is kept, processed, with the item that sent it first; one of no synced account is kept, skipped, and leaves the rows alone |
| SyncRows.CountersCount | app/services/transaction_sync.py:186-248 | added is the number of rows that are new, skipped the number of payloads of no synced account |
| SyncRows.ModifiedCounts | app/services/transaction_sync.py:186-248 | modified is the number of earlier rows that have changed, when the window mentions no transaction twice |
| SyncRows.ReportCounts | app/services/transaction_sync.py:136-184 | the report gives these numbers, the number of rows deleted, and the new cursor, each in its place |
| TransactionSync.TransactionSyncService.BackfillEnrichment | app/services/transaction_sync.py:250-272 | every row of the item's accounts with a stored payload lacks nothing its payload derives; what was present stays, nothing else moves; the count returned is the number of rows that changed |
| SyncRows.BackfillFills | app/services/transaction_sync.py:250-272 | field by field: a row without a category gets the one its stored payload derives, if there is one, a row of unknown meaning the meaning of the payload's code; all else about every row stays |
| TransactionSync.TransactionSyncService.RecordFailure | app/services/transaction_sync.py:119-127 | a provider error commits the old cursor with an error status, and the broken login if it was one |
| TransactionSync.TransactionSyncService.SyncItem | app/services/transaction_sync.py:106-184 | either the exact window between old and new cursor is processed and committed together with the new cursor, and the summary returned counts what that window added, modified, removed and skipped; or nothing but statuses is committed; at most one commit |
| TransactionSync.CommitTakesAccounts | app/services/transaction_sync.py:129-134 | a committed sync takes the item's depository and credit accounts exactly when there are changes and no account yet; all other accounts stay |
| TransactionSync.TransactionSyncService.Apply | app/services/transaction_sync.py:129-155 | from the fetched window to its commit: the accounts of a first sync, the window, the cursor and the summary together, or at most a status |
| SyncRuns.WindowOver | app/services/transaction_sync.py:129-155 | processing a window turns tables standing for any live transactions and payloads into tables standing for those with the window's events replayed, every row exact even if its category or classification had been lost, no payload left pending |
| SyncRuns.WindowAdvances | app/services/transaction_sync.py:129-155 | in particular tables standing for a prefix of the feed become tables standing for the longer prefix |
| SyncRuns.WindowLeavesOthers | app/services/transaction_sync.py:136-143 | a window of one item disturbs no other item's transactions |
| SyncRuns.SkippedIsNotRevisited | app/services/transaction_sync.py:224-231 | a window never gives a row to a transaction it does not mention, nor moves its processing status |
| SyncRuns.StepKeepsWorldOk | app/services/transaction_sync.py:106-155 | every step of the world keeps the invariant of all items |
| SyncRuns.CommittedRowsAreTheProjection | app/services/transaction_sync.py:106-155 | at every moment of every run an item, linked before the run or during it, has exactly one row per live synced transaction its committed cursor covers, with the fields of its latest payload (category and classification at worst lost, never wrong), and the row's payload is landed and processed |
| SyncRuns.CommittedSyncIsExact | app/services/transaction_sync.py:106-155 | right after a committed sync the item's rows equal the projection of the feed at the new cursor |
| SyncRows.CommittedRowsRead | app/services/transaction_sync.py:106-155 | in every run, right after a committed sync, each row of the item reads its live payload, field by field |
| SyncHistory.OnlyItsCommitsMoveAnItem | app/services/transaction_sync.py:106-155 | as long as no sync of an item commits, whatever else happens in a run (its own failing syncs, crashes, feed changes, links, account syncs, other items' committed syncs), its cursor, rows and payloads stay, save that rows may lose category or classification |
| SyncHistory.Request | app/services/transaction_sync.py:82-155 | one request that syncs an item is, on the world, a change of the feed followed by a committed sync, after which the item is exact, a recorded failure or nothing; on an error ledger, accounts and cursor are unchanged; either way every item is as the run theorems say |
| SyncHistory.RequestAll | app/services/transaction_sync.py:82-106 | one request over several items with one resolver: it stops at the first failure; the items synced before it are committed for good, each with exactly the rows of its feed at the cursor reported; the failing one and those not reached keep their cursors; all of it is steps of the world |
| SyncHistory.OthersStayUpToDate | app/services/transaction_sync.py:104-106 | whatever one item's sync does, an item that is exact at its cursor stays so |
| SyncRuns.PayloadsAreKept | app/services/transaction_sync.py:213-222 | no step of any run deletes a landed payload |
| SyncReplay.SameRowIffSameFields | app/services/transaction_sync.py:291-298 | re-applying a payload over another's row reports a change if and only if their fields or category names differ |
| SyncReplay.SecondPassIsSilentIff | app/services/transaction_sync.py:129-143 | applying a window twice reports (0, 0, 0) the second time if and only if each payload of it is unsynced, or not removed later and equal in fields to the window's last payload for its id |
| SyncReplay.DistinctIdsAreSilent | app/services/transaction_sync.py:129-143 | in particular when every id occurs once in the window |
| SyncReplay.CommittedWindowIsSilentIff | app/services/transaction_sync.py:129-184 | in every run, the summary of a sync that meets the window just committed once more is (0, 0, 0) if and only if it is such a window |
| ChatSchemas.PairedConcat | app/ai/agent.py:83-141 | transcripts in which every call is answered right away, in order, concatenate to such transcripts |
| ChatService.History | app/ai/chat_service.py:121-131 | the replayed history is the text of the stored user and assistant messages, the last 30, and seeds a paired transcript |
| ChatService.ReplaySpeaks | app/ai/chat_service.py:121-131 | stored messages of the user and the assistant that are not blank are replayed one for one, each by its role and text |
| ChatService.OthersAreNotReplayed | app/ai/chat_service.py:121-131 | tool messages and blank ones leave no trace |
| ChatService.WindowKeepsTheNewest | app/ai/chat_service.py:131 | of the replayed messages the newest thirty are kept, in order |
| ChatService.Conversation.Persist | app/ai/chat_service.py:133-143 | the messages of a run are kept, in order, if the commit goes through, and otherwise none of them |
| FinanceAgent.ExecuteCalls | app/ai/agent.py:117-138 | one result per call, in order, in one message; the audit trail and, when streaming, the announcements beside it |
| FinanceAgent.FinanceAgent.RunRounds | app/ai/agent.py:88-141 | tool rounds until the first turn without calls, a failure or the bound; one model call for each round and one for the last turn, each sent the history plus everything created so far |
| FinanceAgent.FinanceAgent.Loop | app/ai/agent.py:76-150 | the result depends on the model's turns alone, so streaming and not streaming give the same; exactly the model calls up to the first turn without calls are made, never more than the bound |
| AgentTranscripts.EveryRequestIsPaired | app/ai/agent.py:88-141 | every request of every run is the history plus what the run has created so far, and in it each assistant turn with calls is immediately followed by one message answering exactly those calls in order |
| AgentTranscripts.FaultIsReported | app/ai/agent.py:88-102 | a run ends with a provider's failure exactly when the turn it stops at is that failure, with its very words |
| AgentTranscripts.QuietRunYieldsItsResult | app/ai/agent.py:58-67 | without streaming nothing but the result is yielded |
| AgentTranscripts.SuccessEndsInAnswer | app/ai/agent.py:108-150 | a successful run starts with the user's message, ends in an assistant turn without calls and is paired throughout |
| AgentTranscripts.AnswerIsTheText | app/ai/agent.py:104-113 | a successful run answers with the text of its last message, whose content is the last turn's; when the model has said nothing, with the refusal if it refused and else with the apology |
| AgentTranscripts.CallsAreReported | app/ai/agent.py:115-138 | each call is answered by what its execution yielded, is named in the trail with whether it failed, and is shown running and then finished |
| AgentTranscripts.MessagesOfRounds | app/ai/agent.py:82-141 | a run creates the question, then for every tool round the model's turn and one message with the answers to its calls |
| AgentTranscripts.ExhaustedIff | app/ai/agent.py:143-146 | the run gives up if and only if each of the allowed turns makes calls |
| AgentTranscripts.StreamShowsAuditTrail | app/ai/agent.py:118-131 | the finished tool events of a live stream are exactly the audit trail of its result |
| OpenAiClient.ToWireMessages | app/ai/openai_client.py:88-140 | the loop computes the message-by-message translation after the system message |
| OpenAiClient.WireIsAccepted | app/ai/openai_client.py:88-140 | a paired transcript becomes a request in which every entry with calls is followed at once by one tool message per call, in order, and tool messages come nowhere else |
| OpenAiClient.WireKeepsEverything | app/ai/openai_client.py:88-140 | no call and no result is dropped, duplicated or reordered |
| OpenAiClient.WireSpeaks | app/ai/openai_client.py:110-139 | the entries of the wire are the messages with something to say, in order, each in its own role |
| OpenAiClient.TextsAreSent | app/ai/openai_client.py:110-134 | a text goes out as it is, blank ones left out, two on lines of their own |
| OpenAiClient.NoTextIsSent | app/ai/openai_client.py:131-139 | a message of calls only has no text |
| OpenAiClient.ResultsAreTold | app/ai/openai_client.py:93-108 | the tool messages of the wire are the results, all of them, in order, each with its call's id and its content, marked "Error: " exactly when it is an error |
| OpenAiClient.CallsAreTold | app/ai/openai_client.py:116-126 | the calls of the wire are those of the messages, each with its id, its name and its arguments as JSON text |
| OpenAiClient.DroppedIffNothingToSay | app/ai/openai_client.py:131-139 | a message is dropped if and only if it makes no call and all its text is blank |
| OpenAiClient.ToResponse | app/ai/openai_client.py:156-180 | text, function calls and content blocks of the response agree with one another |
| OpenAiClient.ArgumentsAreRead | app/ai/openai_client.py:69-76 | arguments are the object their text spells; malformed text, anything but an object and no text are no arguments |
| OpenAiClient.CallsComeBack | app/ai/openai_client.py:116-174 | a call that is sent and comes back is the same call: id, name and arguments |
| OpenAiClient.ReasonsAreTranslated | app/ai/openai_client.py:46-51 | each finish reason has its word, and filtered content is a refusal |
| OpenAiStream.Collect | app/ai/openai_client.py:239-247 | the dictionary of partial calls is the fold of the fragments |
| OpenAiStream.Stream | app/ai/openai_client.py:217-267 | the emitted deltas concatenate to the response's text, and the response has the accumulated calls in order of index |
| OpenAiStream.AccumulatesByIndex | app/ai/openai_client.py:239-247 | each index holds what the fragments addressed to it spell, however they interleave |
| OpenAiStream.FragmentsSpell | app/ai/openai_client.py:237-245 | the id and the name come with the first fragment of a call and its arguments are joined in order |
| OpenAiStream.ChunkTells | app/ai/openai_client.py:225-236 | one more chunk adds its first choice's text, fragments and finish reason, and nothing without a choice |
| OpenAiStream.FragmentsRebuildCalls | app/ai/openai_client.py:217-267 | for every way of cutting up a message and interleaving its calls the accumulated calls are the message's, in order |
| OpenAiStream.StreamedIsWholeIff | app/ai/openai_client.py:156-180 | the streamed response equals the translation of the whole message if and only if the message has function calls only |
| LlmClient.ToParams | app/ai/llm_client.py:84-119 | the nested loops compute the message-by-message translation |
| LlmClient.NothingBlankIsSent | app/ai/llm_client.py:90-112 | exactly the blocks that are not blank text go out |
| LlmClient.BlocksAreSent | app/ai/llm_client.py:88-113 | a message without blank text is sent block by block as it is |
| LlmClient.BlankLeavesNoTrace | app/ai/llm_client.py:88-91 | a blank text leaves no trace |
| LlmClient.ParamsSpeak | app/ai/llm_client.py:84-119 | the request is the messages with more than blank text, in order, the assistant's as the assistant's and all others as the user's |
| LlmClient.ParamsAreAccepted | app/ai/llm_client.py:84-119 | a paired transcript becomes a request in which every assistant message with calls is followed at once by a user message answering exactly those, answers come nowhere else and no message is empty |
| LlmClient.ParamsKeepEverything | app/ai/llm_client.py:84-119 | no call and no answer is dropped, duplicated or reordered, in any list of messages |
| LlmClient.ToResponse | app/ai/llm_client.py:121-145 | the blocks the agent understands are kept in order, and text and calls agree with them |
| LlmClient.RepliesAreUnderstood | app/ai/llm_client.py:126-138 | text, calls and thinking become the blocks they are, in order |
| LlmClient.OthersAreIgnored | app/ai/llm_client.py:126-139 | blocks of other kinds leave no trace |
| ProviderRequests.EveryRequestIsAccepted | app/ai/agent.py:88-102 | every request of every run seeded with a paired history is one that either provider accepts |
| ProviderRequests.Chat | app/ai/chat_service.py:53-143 | whatever is stored and whatever the model does, everything the model has been sent when a chat request ends is acceptable to either provider; a result counts only once its messages are stored, which extend the replayed history to a paired transcript; without a result the conversation is as it was |
| JsonText.DumpsIsPrintable | app/api/v1/routes/ai.py:27-28 | a printed payload is one line of printable ASCII, whatever its strings hold |
| JsonText.ItemsAreSeparated | app/api/v1/routes/ai.py:27-28 | a list of any length is printed as its items between brackets, with a comma and a blank between neighbours |
| JsonText.FieldsAreSeparated | app/api/v1/routes/ai.py:27-28 | an object likewise, each key printed as a string and followed by a colon and a blank |
| JsonParse.StringReadsBack | app/api/v1/routes/ai.py:27-28 | reading a printed string gives it back and stops at its closing quote, whatever characters it holds, surrogate pairs included |
| JsonParse.ValueReadsBack | app/api/v1/routes/ai.py:27-28 | reading a printed value gives it back and stops where it ends |
| JsonParse.ParseUndoesDumps | frontend/src/lib/api/assistant.ts:124-130 | a recursive reader of the JSON grammar (with white space, all escapes and no leading zeros; numbers are integers) undoes the printer for every value |
| AssistantStream.DrainFrames | frontend/src/lib/api/assistant.ts:58-75 | the splitting loop yields all complete frames and the rest of the buffer |
| AssistantStream.BlocksAreRead | frontend/src/lib/api/assistant.ts:64-72 | a block's event is what its event line names, or else message; two data lines are joined by a line feed, other lines skipped, and a block without data is no frame |
| AssistantStream.PaddingIsTrimmed | frontend/src/lib/api/assistant.ts:64-72 | white space before and after an event's name or its data does not count |
| AssistantStream.OthersAreIgnored | frontend/src/lib/api/assistant.ts:124-148 | wherever it stands, a frame with unreadable data or of another event name calls nothing |
| AssistantStream.ParseLines | frontend/src/lib/api/assistant.ts:64-72 | the line loop yields a block's frame, or none without data |
| AssistantStream.DrainAppend | frontend/src/lib/api/assistant.ts:150-158 | draining what has arrived and later the remainder plus more is draining everything at once |
| AssistantStream.DrainUndoesPrint | app/api/v1/routes/ai.py:27-28 | draining printed events gives their frames in order and an empty remainder |
| AssistantStream.EventText | app/api/v1/routes/ai.py:27-28 | the text of an event, to the letter |
| AssistantStream.PrefixDrains | frontend/src/lib/api/assistant.ts:58-75 | wherever a printed stream breaks off, exactly the frames of the events that have arrived completely are drained |
| AssistantStream.StreamMessage | frontend/src/lib/api/assistant.ts:119-167 | the reading loop calls back for exactly the frames of the text, however it was cut into chunks; unless the user aborted, some callback concludes the exchange |
| AssistantStream.ChunkingIsInvisible | frontend/src/lib/api/assistant.ts:122-166 | for every list of events, every way of cutting the printed stream and every place where it breaks off, the calls are the events that have arrived completely, all of them if nothing is missing; after a part of a stream the error of the stream is called back too, unless the user has aborted |
| AssistantBubbles.ToolsAreTheTrail | frontend/src/lib/useAssistantChat.ts:112-123 | until the final answer, whatever else arrives, a bubble's tools are the calls finished so far, in order, and at most one running entry, however often a name repeats |
| AssistantBubbles.TurnsInOrder | app/ai/agent.py:89-131 | a run streams its turns one after the other, and of each turn all it said before anything it called |
| AssistantBubbles.TextIsTheTokens | frontend/src/lib/useAssistantChat.ts:72-78 | until the final answer its text is the concatenation of its tokens, in one part |
| AssistantBubbles.StreamsWhileProgress | frontend/src/lib/useAssistantChat.ts:136-166 | it streams exactly as long as nothing but tokens and tools has arrived |
| AssistantBubbles.StreamsAreProper | app/ai/agent.py:118-131 | every stream of the agent announces and reports calls one at a time |
| AssistantBubbles.TokensSayTheDeltas | app/ai/agent.py:91-97 | the tokens of a turn say its deltas, in order, and none is empty |
| AssistantChat.ChangeKeepsPage | frontend/src/lib/useAssistantChat.ts:80-168 | whatever arrives for whatever exchange keeps ids unique and at most one bubble streaming |
| AssistantChat.SendKeepsPage | frontend/src/lib/useAssistantChat.ts:82-103 | so does a new exchange when nothing is streaming |
| AssistantChat.RunKeepsPage | frontend/src/lib/useAssistantChat.ts:213-246 | over every run of sends, retries and arrivals in any order at most one bubble is streaming, ids are unique and the remembered text is the last question's |
| AssistantBubbles.PageIsWhatArrived | frontend/src/lib/useAssistantChat.ts:80-168 | after every run, exchanges interleaved in any way, the page is exactly the questions sent, in order, each followed by a bubble that has been fed what has arrived for it since its send or the last retry that took it, and nothing else |
| AssistantBubbles.BubbleShowsItsArrivals | frontend/src/lib/useAssistantChat.ts:213-246 | so in every run, until its answer, a bubble shows the tokens and calls since it was last started, and streams exactly while nothing else has arrived |
| AssistantBubbles.BubbleShowsItsAnswer | frontend/src/lib/useAssistantChat.ts:124-135 | and once its answer has arrived, the text and calls of the answer |
| AssistantBubbles.CommandsAreGuarded | frontend/src/lib/useAssistantChat.ts:215-237 | a question is accepted exactly when nothing streams and there is a text; a retry exactly when nothing streams, some bubble has failed and a question has been sent |
| AssistantBubbles.CommandsAsk | frontend/src/lib/useAssistantChat.ts:213-246 | in every run an accepted command continues the conversation of the latest answer, a question with its text, a retry with that of the last question |
| AssistantExchanges.StepKeepsIff | frontend/src/lib/useAssistantChat.ts:207-238 | from a page on which at most one exchange runs and its bubble streams, a step keeps it so if and only if it is not an exchange that is over settling a bubble that a later one is streaming into |
| AssistantExchanges.RunKeepsIff | frontend/src/lib/useAssistantChat.ts:176-246 | at every moment at most one exchange runs, and the guard of send and retry sees it, for exactly the runs without such a late settling |
| AssistantExchanges.WaitingKeepsStep | frontend/src/lib/useAssistantChat.ts:232-246 | it is enough that a retry waits until the exchange it retries has settled |
| AssistantExchanges.LateSettlingBreaks | frontend/src/lib/useAssistantChat.ts:207-238 | the guard alone is not enough: a retry between an error and its settling is marked as stopped while its stream runs, and the next question starts a second stream |
| AssistantChat.RetryAsksOwnQuestionIff | frontend/src/lib/useAssistantChat.ts:233-246 | a retry asks the failed bubble's own question if and only if that equals the last question, so certainly for the last exchange |
| AssistantChat.RetryMayAskAnotherQuestion | frontend/src/lib/useAssistantChat.ts:233-246 | after a failed exchange and an answered one a retry asks the second question in the first bubble |
| AssistantChat.ChatHook.Dispatch | frontend/src/lib/useAssistantChat.ts:195-209 | an arrival moves the page as specified and keeps its invariant |
| AssistantChat.ChatHook.Send | frontend/src/lib/useAssistantChat.ts:215-230 | the guarded send: new exchange and request, or nothing at all |
| AssistantChat.ChatHook.Retry | frontend/src/lib/useAssistantChat.ts:233-246 | the guarded retry of the last failed bubble |
| AssistantRuns.EventsOnTheWire | app/ai/chat_service.py:88-98 | the fields of every event, to the letter, and the details of the errors |
| AssistantRuns.ItemReadsBack | frontend/src/lib/useAssistantChat.ts:195-205 | what a callback dispatches for a sent event is the change the event stands for |
| AssistantRuns.MissingFields | frontend/src/lib/api/assistant.ts:134-147 | a token without text adds none and an error without detail shows the client's own words |
| AssistantRuns.ProgressIsProper | app/ai/agent.py:88-131 | a run's items before its result are proper and finish exactly the calls of the audit trail |
| AssistantRuns.BubbleShowsTheRun | frontend/src/lib/useAssistantChat.ts:182-211 | however the printed stream is cut, wherever it breaks off and however it ends, what is called back is the events that have arrived completely, then the error of the stream if it broke off and was not stopped; the bubble they feed shows the calls finished and the tokens so far, a part of the run's trail, with at most one call running; after `done` the tools are unchanged and equal the run's and the text is the stored answer; after an error everything shown stays |
| AssistantRuns.PageShowsTheRun | frontend/src/lib/useAssistantChat.ts:182-246 | in every run, whatever other exchanges do meanwhile, with the reader of JSON texts: while what has arrived for a bubble since it was last started is what an exchange dispatches for a part of its stream, the bubble shows that part of the agent's run; once settled it does not stream, and a stopped one is done or failed by whether it has text |
| AssistantRuns.ExchangeShowsTheRun | frontend/src/lib/useAssistantChat.ts:182-246 | the whole way: an exchange started by a question or by a retry, its stream in any chunks and broken off anywhere, and its settling leave its bubble showing the run as far as it has arrived, and every other bubble as it was |
| LikePattern.ChainIsOnePass | app/repositories/transaction.py:26-28 | the three chained replacements equal one per-character escape |
| LikePattern.BackslashLastIsWrong | app/repositories/transaction.py:26-28 | their order matters: with the backslash last a percent sign becomes a wildcard |
| LikePattern.EscapedIsLiteral | app/repositories/transaction.py:26-28 | an escaped text parses as exactly its own characters, each literal |
| LikePattern.SearchIsContainment | app/repositories/transaction.py:88-91 | for all texts and names the pattern is valid and matches if and only if the text occurs in the name up to case |
| Pagination.ListingIsUnique | app/repositories/transaction.py:130-137 | with the id as tiebreaker the rows determine the order |
| Pagination.ListingIsSorted | app/repositories/transaction.py:130-137 | the listing goes by the sort key in the direction asked for, and by increasing id among equal keys |
| Pagination.PagesCoverTheListing | app/services/queries.py:84-94 | the pages up to the total concatenate to the listing; a page is empty if and only if it lies beyond the total |
| Rollup.GroupingConserves | app/repositories/analytics.py:132-157 | the rows of a grouped query, in any order, sum and count to all its lines |
| Analytics.ScopedAre | app/repositories/analytics.py:36-55 | counted are exactly the user's transactions, of the account asked for, from the first day to the last, both included |
| Analytics.GroupsTotal | app/repositories/analytics.py:107-157 | each group totals the outflow of exactly the transactions that belong to it: by the user's own mapping of their category, else by their category, else uncategorized |
| Analytics.LinesConserveIff | app/repositories/analytics.py:146-153 | the joined lines sum to the gross outflow if and only if no outflow joins two mapping rows, and never to less |
| Analytics.KeyGivesOneJoin | app/models/user_category.py:27-46 | under the mapping's primary key a transaction joins at most one mapping row |
| Analytics.RollupConserves | app/repositories/analytics.py:57-157 | category totals through any user's mapping and monthly totals both sum to the period's gross outflow |
| Analytics.RollupDoubleCountsIff | app/repositories/analytics.py:132-157 | without the key the category totals exceed the outflow exactly when some outflow's category is mapped twice |
| Analytics.MoneyIsNearest | app/services/analytics.py:31-32 | rounding gives the nearest cent, and the even one of two nearest |
| Analytics.BreakdownAddsUpNearly | app/services/analytics.py:86-104 | the rounded lines differ from the rounded total by at most (n + 1) / 2 cents |
| Analytics.ShiftMoves | app/services/analytics.py:39-41 | shifting a month moves exactly that many months on the calendar, across years and backwards |
| Analytics.ByMonth | app/services/analytics.py:135-135 | the dictionary gives each month its row's spending, absent months zero |
| Analytics.MonthOverMonth | app/services/analytics.py:126-154 | exactly the consecutive months ending with the current one, each with its rounded spending, its difference to the month before, and a percentage that leads from that month to this one exactly when that month is not zero |
| Analytics.ChangesTelescope | app/services/analytics.py:139-153 | the changes sum to last minus first |
| Analytics.PointsCoverTheWindow | app/services/analytics.py:132-153 | the points sum to the outflow of exactly those months, up to half a cent a month |
| Recurring.DetectedIsRecurring | app/services/insights.py:227-267 | a detected charge has enough dates, last minus first within (n - 1) times (median gap ± 4), an average within a fifth of the median amount plus half a cent, a cadence whose band alone holds the median gap, and a next date after the last by that gap |
| Recurring.MedianIsMiddle | app/services/insights.py:240-241 | the median of a list is the middle number once ordered, or the mean of the two in the middle |
| Recurring.CadenceIsUnique | app/services/insights.py:41-47 | a cadence is found if and only if the median is in its band; bands do not overlap |
| Recurring.RoundDivIsNear | app/services/insights.py:257-266 | averages and the next gap are rounded to the nearest whole, ties to even |
| Recurring.DetectIgnoresOrder | app/services/insights.py:236-255 | detection does not depend on the order of the rows |
| Recurring.SameDayChargeIff | app/services/insights.py:235-255 | another charge on a day that has one leaves dates, cadence and next date; the pattern is still detected if and only if the amounts are still steady |
| Recurring.TightIgnoresDuplicates | app/services/insights.py:251-255 | when any two amounts are within a fifth of the smaller, a duplicate never hides the pattern |
| Recurring.DuplicateMayHidePattern | app/services/insights.py:251-255 | in general a same-day duplicate of equal amount can hide it |
| Recurring.PeriodicIsDetected | app/services/insights.py:227-267 | charges of one amount on exactly the days of a progression with period in a band and enough dates are detected, with that cadence, amount and next date, whatever their order and however many fall on one day |
| Recurring.DriftingIsDetected | app/services/insights.py:227-267 | charges on enough days whose gaps drift by at most four days within a cadence's band, of amounts within a fifth of each other, are detected with that cadence, first and last day and number, and the next one is expected a gap after the last |
| Recurring.EveryMonthIsDetected | app/services/insights.py:41-51 | in particular a charge on a fixed day of every month, its gaps being 28 to 31 days, is monthly |
| Recurring.GroupByMerchant | app/services/insights.py:212-214 | the dictionary holds each merchant's charges, all of them, in order |
| Recurring.ChargesAre | app/services/insights.py:212-214 | a merchant's charges are exactly its rows', in their order |
| Recurring.ItemsAre | app/services/insights.py:216-220 | listed are exactly the merchants with a pattern, each with it and the currency of its last charge |
| Recurring.SortByAverage | app/services/insights.py:221-221 | largest average first, equal averages in their old order, nothing lost |
| Recurring.GetRecurring | app/services/insights.py:200-224 | every merchant's charges are judged once, together, and the items come largest first |
| Recurring.NarrowingLosesNothing | app/repositories/transaction.py:167-172 | merchants the query leaves out have no pattern |
| Receipts.ReceiptService.Add | app/services/receipts.py:131-187 | refuses in order of ownership, upload and cap without a trace, and otherwise does the put, commit and cleanup as specified, ending with no uncommitted work |
| Receipts.FileName | app/services/receipts.py:171-171 | the stored name is never empty and fits its column |
| Receipts.NamesAreKept | app/services/receipts.py:163-173 | the name is the one given, cut to its column, or "receipt" with the type's extension |
| Receipts.UploadsAre | app/services/receipts.py:31-54 | accepted are the four types, not empty, not too long, with their signatures, byte by byte |
| Receipts.RefusedIff | app/services/receipts.py:151-161 | refused are exactly somebody else's transaction, what is no upload, and an attachment over the cap |
| Receipts.AddDoes | app/services/receipts.py:131-187 | an attachment comes behind those that are there, with its type, name and size, under a key nobody has had, its bytes under that key; details and all other receipts and objects stay; without a commit that took effect all rows do |
| Receipts.AddReports | app/services/receipts.py:131-187 | the stored receipt is returned exactly when the upload and the commit succeed; a refused upload, a failed commit and a crash each have their own error |
| Receipts.ReceiptService.Remove | app/services/receipts.py:189-199 | row first, object after the commit; a failed cleanup is not an error |
| Receipts.RemoveDoes | app/services/receipts.py:189-199 | exactly the attachment's row goes, the others staying in order, and after the commit exactly its object |
| Receipts.ReceiptService.RemoveReceipt | app/services/receipts.py:113-129 | the receipt with its rows, then the objects one by one, whatever fails between |
| Receipts.RemoveReceiptDoes | app/services/receipts.py:113-129 | exactly that receipt goes, and after the commit the objects of its attachments, each deletion tried whatever became of those before it, short of a crash; no other object is touched, and each failure has its own error |
| Receipts.ReceiptService.SetDetails | app/services/receipts.py:90-111 | details change and attachments do not |
| Receipts.SetDetailsDoes | app/services/receipts.py:90-111 | the receipt has the new details and exactly the attachments it had; every other receipt and every object stays; without a commit that took effect everything does |
| Receipts.ReceiptService.Get | app/services/receipts.py:76-86 | in a safe state an existing row always yields bytes of the recorded size: the divergence branch is dead |
| Receipts.AddIsSafeIff | app/services/receipts.py:163-181 | adding keeps every row backed by its object unless, and only unless, a commit raises although it applied and the cleanup then deletes the object |
| Receipts.RemoveIsSafe | app/services/receipts.py:189-199 | removing an attachment is safe whatever fails or crashes |
| Receipts.RemoveReceiptIsSafe | app/services/receipts.py:119-129 | removing a receipt is safe even when the cleanup stops halfway |
| Receipts.RunIsSafe | app/services/receipts.py:88-199 | over every run with failures and crashes at any effect, assuming only that an adding commit that raises did not apply, no row is without its object of the recorded size and no receipt exceeds the cap |
| PlaidLink.PlaidLinkService.ExchangePublicToken | app/services/plaid_link.py:49-101 | re-link in place, reject, or retire and create; a rejected link or a failed commit changes nothing |
| PlaidLink.PlaidLinkService.RejectDuplicateInstitution | app/services/plaid_link.py:103-137 | rejects if and only if the user has an active item of a known institution; otherwise retires exactly that institution's items |
| PlaidLink.PlaidLinkService.SyncItem | app/services/account_sync.py:69-82 | success revives the item, a lost login breaks it and is committed, any other failure commits nothing |
| PlaidLink.PlaidLinkService.SyncItems | app/services/account_sync.py:56-67 | retired items are skipped; the first lost login commits what was reached, any other failure commits nothing |
| PlaidLink.LinkDoes | app/services/plaid_link.py:75-137 | refused exactly when the connection is somebody else's or is a second one to an active bank; else it is the user's, active, of the institution told or else known; a new one retires the user's others to that bank; nothing else changes |
| PlaidLink.SyncDoes | app/services/account_sync.py:69-82 | only the status of the item named changes, and only if it is the user's: active, or without a login |
| PlaidLink.SyncedAllDoes | app/services/account_sync.py:56-82 | the user's items that are not retired become active, in order, up to the first that does not work, which is marked if its login is lost; after another failure nothing changes; nobody else's items ever do |
| PlaidLink.FreshLinkKeepsOneLive | app/services/plaid_link.py:85-95 | a fresh link keeps at most one item per user and known institution that is not disconnected |
| PlaidLink.RelinkKeepsIff | app/services/plaid_link.py:75-84 | an update-mode re-link keeps it if and only if no other live item of the owner has the institution it ends up with |
| PlaidLink.SyncKeepsIff | app/services/account_sync.py:74-82 | a sync of an item, retired or not, keeps it if and only if no other live item of the owner has its institution; a sync of its transactions that loses the login marks it in the same way (`app/services/transaction_sync.py:119-121`) |
| PlaidLink.StepKeepsOneLiveIff | app/services/plaid_link.py:75-137 | a step keeps it if and only if the guard holds before it: an explicit sync or re-link that takes effect is of an item whose owner has no other live item of the institution it ends up with |
| PlaidLink.RunKeepsOneLiveIff | app/services/plaid_link.py:75-137 | so it holds at every moment of exactly the runs in which every step is guarded |
| PlaidLink.LiveTargetsAreAllowed | app/services/account_sync.py:51-63 | explicit syncs and re-links of live items are always guarded, as long as a re-link tells no other institution |
| PlaidLink.RunKeepsOwners | app/services/plaid_link.py:75-95 | over every run whatever, no item disappears, changes its owner or shares its id |
| PlaidLink.RevivingARetiredItemBreaks | app/services/account_sync.py:81-82 | the guard is needed for retired items: reviving one by an explicit sync or a re-link leaves two live items |
| PlaidLink.LearningTheBankBreaks | app/services/plaid_link.py:79-82 | and for live ones: an item linked while its institution was unknown, re-linked once it is known, leaves two live items when the bank has been linked meanwhile |
| PlaidLink.LearningTheBankIsAllowed | app/services/plaid_link.py:79-82 | while learning the institution is allowed when no rival is live |

## Left out

Assumptions about the outside, stated in the model as such:

- Feed: an id is added once and first and not re-added after its removal, and its account is fixed (`PlaidFeed.WellFormed`); an item's account snapshot is fixed.
- Commits: either the whole session is published or nothing is; only in `Receipts` may a commit raise and have applied.
- `JSON.parse`: assumed to read the texts of this stream as the reader in `JsonParse` does, which is proved to undo json.dumps; fractions and exponents are never printed here and not read, and an object with a repeated key, which is never sent, would be read with both. UTF-8 decoding is not part of this model.
- Providers: their demand on a request is the adjacency of calls and answers stated by the two predicates named Accepted; SDK exception translation is not modelled.

Behaviour that is not modelled:

- Requests running at the same time on one item or receipt: the code takes no locks; operations are sequential with crashes between their effects.
- AccountSync.SyncItem: keeps which accounts exist and under which item; their fields, balances and the created, updated and skipped counts are not modelled.
- TransactionSync.TransactionSyncService.SyncItem: sets and reports no timestamps.
- Letters outside ASCII in category names and multi-character case folding in LIKE.
- Numbers that are not integers in tool arguments and the duration of tool calls.
- ChatService.History: takes the stored list as given, because messages of one run share a timestamp and the database breaks the tie by a random id, so the order of replay is not fixed by the code.
- React's closures: a command sees the state of the last dispatch; two clicks within one render are not modelled.
- Exchanges whose request gets no stream (the fetch fails or answers with an error status); each dispatches one error and settles.
- SyncHistory.RequestAll: takes the items to be synced as given; how they are chosen is not modelled.
- Callbacks whose payload does not have the sent shape (the client casts without checking), and `sendMessage`.
- Recurring.GetRecurring: of the currency it only says that it is the last row's.
- Analytics.MonthOverMonth: gives the percentage as an exact number; its rounding to two places is floating point.
- The order of category rows and their shares, which are floating point; top merchants, comparisons of two periods and summaries.
- `compare_spending`, which keys rows by category name, so that rows with equal names overwrite one another.
- Object storage and encryption internals, receipt reads other than an attachment's bytes, the text of error messages except those a bubble shows.
- Authentication, e-mail, labels, nicknames, user-category editing, routing, configuration, migrations and the rest of the user interface.
