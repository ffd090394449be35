# kami-agent, verified

A Dafny model of kami-agent and proofs about it. kami-agent turns a stateless model API into a
run of sessions, each of which may die at any moment; what it promises rests on an append-only
event log, on readers that pick up where they left off, and on loops with caps. The model
follows the program's own modules, and imperative code stays imperative here: each method is
proved equal to a function, and the lemmas are about those functions.

| file | what it models |
|---|---|
| `Keeper`, `KeeperLimits`, `KeeperRun` | the incremental ledger reader, what exactly it does not find, and its whole life as a state machine: growing books, failed reads, partial emission, process death, a lost cache |
| `Telemetry`, `Observer` | the log, the folds over it, and the automaton of well-formed logs |
| `Governor`, `Repetition` | prices and the stop boundary; the repetition breaker |
| `Conversation`, `AgentLoop`, `LoopAccounting`, `LoopConversation`, `LoopTranscript`, `LoopAnswers`, `LoopErrors`, `LoopBounds`, `LoopCalls`, `LoopRows` | the session loop against arbitrary adapters and tools: what it logs, what it sends, which answers it retries, what it counts as errors, when it ends, which calls it executes and what follows from them |
| `Anthropic`, `CacheBreakpoints`, `Google` | the wire mappings of a conversation |
| `Recovery`, `Lifecycle`, `LifecycleSafety`, `LifecycleJournal`, `LifecycleEntries`, `LifecycleKeeper`, `LifecycleCalls`, `LifecycleBoundary`, `LifecycleOutcome`, `Runner` | recovery and the lifecycle over every crash schedule |
| `Demux` | the multiplexed docker stream and its capped sinks |
| `Spans`, `Paragraphs`, `Csv`, `Search`, `SearchOrder`, `Reference`, `Workspace` | the search over the reference tree: chunking, ranking, reading back |
| `Journal`, `Truncation` | the rolling journal file and the UTF-8 cut |
| `Options`, `Bytes`, `Numerals` | shared helpers |

## Where the code keeps less than it says

Each of these is proved as an exact condition, or shown by a concrete case.

- Invariant I34 of the repository says that every session is journaled. A session that ended has
  an entry exactly when the invocation that wrote its end recovered the session, or served it with
  the harness, and did not die with that end as its last effect; nothing that follows changes it
  (`EntryIsDecidedByItsAttempt`, `EverySessionIsJournaledExactly`). Both ways of losing an entry
  do occur (`AbortedSessionIsNeverJournaled`, which needs no death, and
  `DyingAtTheEndLosesTheEntry`).
- An incremental read of the keeper's ledger does not see rows without a lens block. A complete
  one leaves a pending, unrecorded hash open exactly when the read was whole or a row with a lens
  block has it pending, and records a final receipt exactly when the read was whole, the hash was
  recorded before, or a row with a lens block names it (`CompleteReadOpensExactly`,
  `CompleteReadFindsExactly`). Both conditions can fail (`PendingWithoutLensStaysUnseen`, on a
  ledger that keeps all its promises, and `UnannouncedReceiptIsMissed`, on one that does not
  announce a late receipt).
- The journal entry that recovery rebuilds counts the same tool calls as the live one exactly
  when no intent was skipped (`RebuiltJournalAgrees`); one that was is in `SkippedCallIsCounted`.
- A Gemini turn whose calls get minted ids may collide with an id of the provider's; its
  results carry their own calls' names exactly when calls with one id share one name
  (`TurnIsNamedExactly`, `MintedIdCanCollide`).
- A request of a session carries an Anthropic message with no content exactly when an earlier
  answer the loop listened to made a silent turn, as a billed response with neither text nor
  calls does (`SilentTurnReachesTheWire`, `SilentTurnKeepsGoing`). A session that starts with one
  sends it back in its second request (`SilentAnswerIsSentBack`, `SomeSessionIsSilent`).
- One intermediate cache breakpoint does not always keep the chain of cache entries connected:
  for a turn without provider state it does exactly when the turn makes at most 20 blocks; 21
  parallel calls break it (`ChainStaysConnectedExactly`, `TurnStaysConnectedExactly`,
  `TwentyOneCallsBreakTheChain`).
- The comment on CSV chunks says the first one starts at byte 0. It does exactly when the file
  does not begin with an empty line (`FirstSpanStartsTheFile`, `LeadingEmptyLineIsLeftOut`).
- The overspend at the end of a run is at most what its last session cost exactly when the
  budget is not negative or some session was started (`OverspendIsOneSession`,
  `NegativeBudgetOverspends`).

## Model

| member | source | states |
|---|---|---|
| `Keeper.Take` | src/kami_agent/keeper.py:213-247 | the row loop, with its in-place updates, is the closed form: which hashes are recorded, which stay open, where the cursor ends |
| `Keeper.ReadKeeperReceipts` | src/kami_agent/keeper.py:153-197 | reading the books in turn, with the conditional whole re-read, for any answers and failures; nothing changes when the books request fails |
| `Keeper.NewEventsOnce` | src/kami_agent/keeper.py:228-239 | one answer emits each final hash not recorded before, once, and no other hash |
| `Keeper.NewEventsExact` | src/kami_agent/keeper.py:228-263 | every event names its book and has the values of the first final row of its hash: the status, and the others as one value |
| `Keeper.TakeOpensExactly` | src/kami_agent/keeper.py:213-247 | after an answer a hash is open exactly when no row of it is its final receipt and it was open before, or some row has it pending and it was not recorded; other books are untouched |
| `Keeper.ServesTheBook` | tests/unit/fake_keeper.py:166-190 | a since-read says nothing final or pending that the book does not say, and finds the same top block |
| `Keeper.TakeCovers` | src/kami_agent/keeper.py:131-150 | after the read the cursor called for, the cursor accounts for every row the book holds: recorded, or still open |
| `Keeper.CompleteReadIsWholeRead` | src/kami_agent/keeper.py:181-197 | a read that is complete records exactly what reading the book whole would, for any history of earlier reads, and leaves open every unrecorded hash that a row with a lens block has pending |
| `Keeper.FailedSecondReadLosesNothing` | src/kami_agent/keeper.py:185-196 | when the second read of a book fails, whatever it would have added is still open and the next read is whole |
| `Keeper.ReadBookIsWholeRead` | src/kami_agent/keeper.py:181-197 | one book read as the cursor calls for, with the second read when needed and the book growing between the two, records what a whole read records and leaves open every unrecorded hash that a row with a lens block has pending |
| `KeeperLimits.TakeLensCovers` | src/kami_agent/keeper.py:131-150 | every read the cursor calls for keeps accounting for the rows with a lens block, on any ordered book |
| `KeeperLimits.CompleteReadFindsExactly` | src/kami_agent/keeper.py:131-150 | on any ordered book, a complete read has a final receipt recorded exactly when it was recorded before, the read was whole, or a row with a lens block names its hash |
| `KeeperLimits.CompleteReadOpensExactly` | src/kami_agent/keeper.py:213-247 | a complete read leaves a pending, unrecorded hash open exactly when the read was whole or a row with a lens block has it pending |
| `KeeperLimits.ReadBookFindsExactly` | src/kami_agent/keeper.py:181-197 | the same of one book read with its second read when needed: that one finds every final receipt |
| `KeeperLimits.ReadBookOpensExactly` | src/kami_agent/keeper.py:181-197 | and opens every pending hash |
| `KeeperLimits.PendingWithoutLensStaysUnseen` | src/kami_agent/keeper.py:131-150 | a broadcast without a lens block after a whole read: the complete since-read leaves it closed, a whole read would open it |
| `KeeperLimits.UnannouncedReceiptIsMissed` | src/kami_agent/keeper.py:131-150 | a final receipt without a lens block and without an earlier broadcast: the complete since-read does not record it |
| `KeeperRun.ReachableWorlds` | src/kami_agent/runner.py:764-778 | the invariant of every interleaving of ledger appends, reads, emissions, saves, crashes and cache losses |
| `KeeperRun.ExactlyOnce` | src/kami_agent/state.py:50-78 | no hash is recorded twice, every recorded receipt is a final receipt of its book, and the saved cursor never runs ahead of the log |
| `KeeperRun.ReadPointComplete` | src/kami_agent/runner.py:644-662 | when a read's emissions are done, every final receipt of every book it read completely is in the log |
| `KeeperRun.NothingIsLost` | src/kami_agent/keeper.py:153-197 | after anything at all, one undisturbed pass over a book brings every final receipt it holds into the log |
| `KeeperRun.SavedCursorIsCarried` | src/kami_agent/state.py:50-78 | the next read begins at the saved cursor and with the hashes of the log, even when the process dies in between, and with nothing read after the cache is lost |
| `KeeperRun.ReadBooksIsRun` | src/kami_agent/keeper.py:153-197 | what the reader computes while the books grow between any two of its requests is a run of the state machine |
| `Telemetry.TelemetryWriter.Emit` | src/kami_agent/telemetry.py:100-116 | the log only grows, by the one event |
| `Telemetry.FoldTelemetry` | src/kami_agent/state.py:103-130 | the loop is the left fold of the log |
| `Telemetry.CrashedSession` | src/kami_agent/state.py:133-145 | the highest session that has a start and no end after it |
| `Telemetry.PhantomRequests` | src/kami_agent/state.py:148-175 | the requests never completed, in increasing order |
| `Telemetry.SessionTotals` | src/kami_agent/state.py:178-202 | one session's totals, from its rows |
| `Governor.CostIsNonNegative` | src/kami_agent/governor.py:38-62 | a consistent usage never has a negative cost, at any non-negative prices and with or without cache rates |
| `Governor.CostWithoutCaching` | src/kami_agent/governor.py:38-62 | with no cached tokens, whatever the cache rates, and wherever a cache rate is the input rate, the cost is the plain formula |
| `Governor.CostPricesTokens` | src/kami_agent/governor.py:38-62 | nothing used costs nothing; one more token of the answer, of the prompt, read from a cache or written to one adds its rate, the last two in place of the input rate, an absent rate being the input rate |
| `Governor.PricingIsUnique` | src/kami_agent/governor.py:38-62 | no other pricing of usages does that |
| `Repetition.SignatureStreakIsLongest` | src/kami_agent/repetition.py:113-157 | the first counter is the length of the longest tail with one signature |
| `Repetition.ErrorStreakIsLongest` | src/kami_agent/repetition.py:113-157 | the second counter is the length of the longest tail of one tool that went wrong every time |
| `Repetition.TripsExactlyWhenARuleHolds` | src/kami_agent/repetition.py:113-157 | a call trips exactly when a rule holds of the history it ends, and names the first that does |
| `Repetition.UntrippedHistoryHasNoViolation` | src/kami_agent/repetition.py:98-157 | a session that never tripped has no violating stretch of calls anywhere |
| `Repetition.RepetitionTracker.Record` | src/kami_agent/repetition.py:113-157 | the streaming tracker, with its deque and counters, gives the verdict of the whole history |
| `AgentLoop.SessionLoop.CallModel` | src/kami_agent/loop.py:743-909 | the attempts of one model call: write-ahead row, request, outcome row, retry or give up |
| `AgentLoop.SessionLoop.ExecuteIntent` | src/kami_agent/loop.py:1165-1247 | one tool call: its effects, its result message, its row, the journal material, the error counter |
| `AgentLoop.SessionLoop.CheckCaps` | src/kami_agent/loop.py:1107-1144 | the checks after a call, in their order, and the reason they end the session for |
| `AgentLoop.SessionLoop.ExecuteBatch` | src/kami_agent/loop.py:1019-1144 | the calls of one turn, including what is skipped after `end_session` and what a cap leaves unexecuted |
| `AgentLoop.SessionLoop.CarryWake` | src/kami_agent/loop.py:1417-1442 | the last wake request among the unexecuted calls is applied, clamped, or marked invalid |
| `AgentLoop.ClampIsNearest` | src/kami_agent/tools/scaffold.py:529-545 | a wake within the bounds is taken as it is, any other becomes the bound it is beyond |
| `AgentLoop.SessionLoop.CollectJournalTxs` | src/kami_agent/loop.py:1146-1163 | hashes are collected in order, each once |
| `AgentLoop.SessionLoop.InjectPair` | src/kami_agent/loop.py:472-526 | an injected call enters as a paired turn and a numbered row |
| `AgentLoop.SessionLoop.OneTurn` | src/kami_agent/loop.py:436-468 | one turn of the loop, and the reason it may end for |
| `AgentLoop.SessionLoop.RunLoop` | src/kami_agent/loop.py:424-468 | the whole loop, which ends against every adapter and every tool |
| `AgentLoop.TurnProgress` | src/kami_agent/loop.py:436-468 | a turn that does not end the session executes a call below the tool cap, or adds one error below the error cap |
| `AgentLoop.SessionExtends` | src/kami_agent/loop.py:424-468 | a session only appends to the log, and only requests, calls, workspace rows and numbered tool rows under its own number |
| `LoopRows.EveryRowIsRight` | src/kami_agent/loop.py:743-909 | of every row a session adds: a request is directly followed by its outcome; a heard answer is billed its tokens at the session's prices, any other nothing; the injected calls come first and say what was injected; the n-th executed call's row has the n-th outcome, with the tool's own write right before it; a skipped call is a failure without transactions |
| `LoopAnswers.TokenCapEndsTheSession` | src/kami_agent/loop.py:451-456 | a call whose tokens reach the session's cap is its last row and ends it for that reason, and only such a call does |
| `LoopAnswers.RejectedAnswersAreRetried` | src/kami_agent/loop.py:798-884 | an answer is the last of its call exactly when it is fatal or the last of 1 + R rejected ones in a row; any other rejected answer is asked again, and giving up ends the session for errors |
| `LoopErrors.ErrorsEndTheSession` | src/kami_agent/loop.py:1107-1112 | the errors counted are the failed calls and the heard answers without calls since the last call that went well; the one that brings them to their cap is the last thing of its session, which ends for errors exactly then or when a call is given up |
| `LoopTranscript.SentIsTheTranscript` | src/kami_agent/loop.py:424-468 | every request carries exactly the kickoff, the injected pairs and, for each answer heard before it, its turn with texts, calls and state and then the results of its calls with their contents and error flags, or the continuation |
| `LoopBounds.SessionsTerminate` | src/kami_agent/loop.py:436-468 | at most T * M * (R + 1) model requests, for T executed calls, M consecutive errors and R retries |
| `LoopBounds.MeasureOfTurn` | src/kami_agent/loop.py:798-884 | the measure (T - executed) * M - errors falls with every turn of the loop that does not end the session, and stays positive |
| `LoopBounds.SessionsEndForTheirReason` | src/kami_agent/loop.py:424-468 | the reason a session ends for holds at its end: the agent ended it, the last call used the token cap up and nothing of its turn was executed, the tool cap was reached, the errors reached their cap or the last call gave up after all its retries, or a breaker rule tripped on the last call and on none before |
| `LoopAccounting.SessionIsAccounted` | src/kami_agent/loop.py:885-909 | a session's log is well formed and its result is what the folds of that log compute |
| `LoopAccounting.RebuildJournal` | src/kami_agent/runner.py:905-923 | the journal material recomputed from a session's rows |
| `LoopAccounting.RebuiltJournalAgrees` | src/kami_agent/runner.py:886-935 | the rebuilt journal names the live one's transactions in order, and counts the same calls exactly when none was skipped |
| `LoopAccounting.SkippedCallIsCounted` | src/kami_agent/loop.py:1101-1106 | a turn that ends the session and asks for one more call: the rebuilt counts differ from the live ones |
| `LoopAccounting.SomeSessionSkips` | src/kami_agent/loop.py:1101-1106 | such a session, concretely |
| `LoopConversation.EveryRequestIsWellPaired` | src/kami_agent/loop.py:1066-1076 | each request carries a history in which every turn is followed by one result per call in order, or by the continuation |
| `LoopConversation.AnthropicRequestsAreValid` | src/kami_agent/adapters/anthropic.py:126-171 | every request of every session is a strictly alternating conversation with each tool use answered in the next message |
| `LoopConversation.GeminiRequestsNameTheirCalls` | src/kami_agent/adapters/google.py:132-184 | every response sent in a session names the call it answers, when ids are unambiguous within each turn |
| `LoopConversation.SilentTurnReachesTheWire` | src/kami_agent/loop.py:743-909 | a request of a session carries a message with no content to Anthropic exactly when one of the answers before it made a silent turn |
| `LoopConversation.SilentTurnKeepsGoing` | src/kami_agent/loop.py:436-468 | a billed answer that says and calls nothing does not end the session below its caps |
| `LoopConversation.SilentAnswerIsSentBack` | src/kami_agent/loop.py:436-468 | a whole session whose first answer is such a one sends a second request, with an empty message in it |
| `LoopConversation.SomeSessionIsSilent` | src/kami_agent/loop.py:436-468 | such a session, concretely |
| `LoopCalls.CallsAreExecutedInOrder` | src/kami_agent/loop.py:1019-1144 | what a session executes is a prefix of what its answers asked for, missing calls of the last answer only; each executed call has its row with its outcome, and the others have a skipped row exactly when the agent ended the session, which an accepted `end_session`, the last executed call, does |
| `LoopCalls.BreakerJudgesTheCalls` | src/kami_agent/loop.py:1107-1144 | the breaker judges the executed calls other than waits, in order, all but a last one that ended the session or brought the errors to their cap |
| `LoopCalls.WakeIsTheLastRequest` | src/kami_agent/loop.py:1417-1442 | the wake of a session is the clamp of the last wake request, carried from the unexecuted calls after a cap or else the last accepted one of the executed, or none; it stays between the bounds, and what is recorded of the carrying says whether the last request was applied or discarded |
| `LoopCalls.LiveJournalIsOfTheCalls` | src/kami_agent/loop.py:1146-1163 | the journal material of a session has its executed calls and their transactions |
| `LoopCalls.JournalTxsAreFirstMentions` | src/kami_agent/loop.py:1146-1163 | the journal names every transaction that a result named, once, in the order of their first mention |
| `LoopCalls.RebuiltAtEveryCut` | src/kami_agent/runner.py:886-935 | wherever the log of a session is cut, the journal rebuilt from it has exactly the calls whose rows it kept, a prefix of what was asked for, and their transactions |
| `LoopCalls.CutLosesTheNewest` | src/kami_agent/runner.py:886-935 | the transactions rebuilt from a cut log are a prefix of those the live session collected |
| `Anthropic.ToWireMessages` | src/kami_agent/adapters/anthropic.py:126-163 | the mapping loop, with results grouped into the last message |
| `Anthropic.BlocksSayTheMessage` | src/kami_agent/adapters/anthropic.py:126-163 | a turn is its text, when there is one, and then a use per call with its id, name and arguments, or the replayed payload; a result is its block with its error flag |
| `Anthropic.MapsToAConversation` | src/kami_agent/adapters/anthropic.py:126-171 | a well-paired history maps to alternating roles, with each turn's uses answered in order in the very next message, and no block lost, added or moved |
| `Anthropic.WirePreservesBlocks` | src/kami_agent/adapters/anthropic.py:126-163 | for any history the flattened block sequence is preserved |
| `Anthropic.EmptyContentExactly` | src/kami_agent/adapters/anthropic.py:126-163 | a message on the wire is empty exactly when the history holds a silent turn |
| `Anthropic.SilentTurn` | src/kami_agent/adapters/anthropic.py:141-148 | a turn without provider state is silent exactly when it said nothing and called nothing |
| `Anthropic.NormalizedIsReplayable` | src/kami_agent/adapters/anthropic.py:247-259 | what the adapter keeps for replay holds the turn's tool uses in order |
| `Anthropic.NormalizedSaysTheContent` | src/kami_agent/adapters/anthropic.py:247-259 | the calls of a response are its tool uses with their names and arguments, and a response that thinks is replayed whole, block by block |
| `CacheBreakpoints.Request.AnnotateLastCacheableBlock` | src/kami_agent/adapters/anthropic.py:214-229 | the last block that may carry a marker is replaced by a marked copy; nothing else changes |
| `CacheBreakpoints.Request.PlaceMessageBreakpoints` | src/kami_agent/adapters/anthropic.py:182-206 | which messages of a request get a marker |
| `CacheBreakpoints.PlacingSaysTheSame` | src/kami_agent/adapters/anthropic.py:214-229 | the model sees the same request with markers as without |
| `CacheBreakpoints.AtMostTwoMarkers` | src/kami_agent/adapters/anthropic.py:182-206 | at most two markers on the messages, and one at the end of the last whenever it can carry one |
| `CacheBreakpoints.ChainStaysConnectedExactly` | src/kami_agent/adapters/anthropic.py:58-62 | when exactly the next request's markers reach the previous entry within the look-back window |
| `CacheBreakpoints.TurnOnTheWire` | src/kami_agent/adapters/anthropic.py:191-198 | a turn with calls adds exactly two messages to the wire |
| `CacheBreakpoints.TurnStaysConnectedExactly` | src/kami_agent/adapters/anthropic.py:191-198 | a turn without provider state keeps the chain connected exactly when it makes at most 20 blocks |
| `CacheBreakpoints.TwentyOneCallsBreakTheChain` | src/kami_agent/adapters/anthropic.py:191-198 | 21 parallel calls break the chain after any history |
| `Google.ToWireContents` | src/kami_agent/adapters/google.py:132-184 | the mapping loop, with the id-to-name map kept over the whole history |
| `Google.PiecesBecomeContents` | src/kami_agent/adapters/google.py:132-184 | the contents are the history piece by piece: a run of results is one content of its responses, a turn is its text and then a signed part per call with its name and arguments, or the replayed payload, a user message its text |
| `Google.RunsBecomeContents` | src/kami_agent/adapters/google.py:170-184 | each maximal run of results becomes one content, its responses in order |
| `Google.ResponsesNameTheirCalls` | src/kami_agent/adapters/google.py:132-184 | with unambiguous turns, each response names its own call, however ids recur across turns |
| `Google.TurnIsNamedExactly` | src/kami_agent/adapters/google.py:132-184 | one turn's responses carry their own calls' names exactly when the turn is unambiguous |
| `Google.WireCarriesTheNames` | src/kami_agent/adapters/google.py:170-184 | the wire's response parts carry exactly the resolved names, in order |
| `Google.NormalizeCalls` | src/kami_agent/adapters/google.py:200-207 | a call without an id is given one by its position |
| `Google.MintedTurnsAreUnambiguous` | src/kami_agent/adapters/google.py:200-207 | a turn with only minted ids has distinct ids |
| `Google.MintedIdCanCollide` | src/kami_agent/adapters/google.py:170-207 | when a minted id meets the provider's, both results reach the wire under the second call's name, after any history |
| `Google.MintedCollision` | src/kami_agent/adapters/google.py:200-207 | the calls of such a turn, concretely |
| `Observer.PrefixesAreWellFormed` | src/kami_agent/telemetry.py:100-116 | a well-formed log cut anywhere is well formed, and each next row was allowed |
| `Observer.FoldOfLog` | src/kami_agent/state.py:103-130 | what the fold of a well-formed log says |
| `Observer.OneOpenSession` | src/kami_agent/state.py:133-145 | at most one session is open |
| `Observer.CrashedIsOpen` | src/kami_agent/state.py:133-145 | the session recovery would close is the open one |
| `Observer.RequestsOfLastSession` | src/kami_agent/state.py:148-175 | the requests are 1, 2, 3, ... and all but possibly the latest are completed |
| `Observer.RequestsAreNumbered` | src/kami_agent/loop.py:755-757 | in every session each request has the next number and is made only when all earlier ones are completed |
| `Observer.CallsArePaired` | src/kami_agent/loop.py:763-909 | each call row completes an earlier request of its session and number, once |
| `Observer.PhantomsOfLog` | src/kami_agent/state.py:148-175 | only the latest request of the open session can be unpaired |
| `Observer.NumbersAreNew` | src/kami_agent/runner.py:243-248 | a session starts under a number above every number before it |
| `Observer.OneEndEach` | src/kami_agent/runner.py:332-385 | every session starts at most once and has exactly one end unless it is the open one |
| `Observer.RunCompleteIsLast` | src/kami_agent/runner.py:388-436 | nothing follows the end of the run |
| `Observer.LiveAccountingIsTheFold` | src/kami_agent/loop.py:1446-1461 | the running totals on each row, a session's end row and the run's end row are what the folds of the log before them compute |
| `Observer.OverspendIsOneSession` | src/kami_agent/governor.py:65-89 | the overspend is at most the last session's cost exactly when the budget is not negative or a session was started |
| `Recovery.RecoveryIsConfluent` | src/kami_agent/runner.py:350-377 | on any log, recovery cut after any number of rows is finished by writing exactly the remaining ones |
| `Recovery.InterruptedRecoveryEndsTheSame` | src/kami_agent/runner.py:332-385 | interrupted any number of times, recovery ends with the same log |
| `Recovery.RecoveryKeepsTheFold` | src/kami_agent/runner.py:350-377 | recovery closes the crashed session and changes no folded field |
| `Recovery.RecoveryIsWellFormed` | src/kami_agent/runner.py:350-385 | on a well-formed log it writes at most one phantom row and one end, and the log stays well formed |
| `Recovery.RecoveryRowsAre` | src/kami_agent/runner.py:350-377 | recovery writes phantom calls billed nothing and then one end that says crash |
| `LifecycleSafety.InvocationIsWellFormed` | src/kami_agent/runner.py:171-329 | one whole invocation of any kind keeps the log well formed |
| `LifecycleSafety.CutIsWellFormed` | src/kami_agent/runner.py:171-329 | so does one that dies after any of its effects |
| `LifecycleSafety.EveryRunIsWellFormed` | src/kami_agent/runner.py:171-329 | over every crash schedule of every mix of invocations, with arbitrary adapters, tools, clocks and keepers |
| `LifecycleSafety.LifecycleIsSafe` | src/kami_agent/runner.py:197-270 | over every run at most one session is open and each has at most one start and one end |
| `LifecycleSafety.StartsAreNew` | src/kami_agent/runner.py:246-251 | over every run a session starts under a number above every number before it |
| `LifecycleSafety.EveryRowIsSafe` | src/kami_agent/state.py:103-202 | of every row of every run: the end of the run is the last, requests are numbered and paired, and the live accounting is what the folds compute |
| `LifecycleSafety.RecoveryClosesEverySession` | src/kami_agent/runner.py:332-385 | once an invocation is past recovery every session ever started has exactly one end |
| `LifecycleSafety.RefusalConsumesNoNumber` | src/kami_agent/runner.py:598-622 | a refused attempt, with the recovery it may perform first and wherever it dies, leaves the folded state as it was, the counter included |
| `LifecycleSafety.CompleteRunsAreSilent` | src/kami_agent/runner.py:303-327 | after the end of the run no invocation appends anything |
| `LifecycleSafety.OverspendIsBounded` | src/kami_agent/runner.py:225-245 | the spend at the end of a run exceeds the budget by no more than its last session cost, however it was interrupted |
| `LifecycleSafety.NegativeBudgetOverspends` | src/kami_agent/governor.py:65-89 | with a negative budget the first invocation ends the run over it, and no session has cost anything |
| `LifecycleBoundary.BoundaryDecides` | src/kami_agent/runner.py:225-245 | an invocation that is let in ends the run for the budget exactly when that is spent, for the time exactly when it is not and the first session is old enough, and otherwise does not end it |
| `LifecycleBoundary.ManualEndDecides` | src/kami_agent/runner.py:275-329 | `end_run` ends a run that has not ended, as manual |
| `LifecycleBoundary.SessionsStartInTime` | src/kami_agent/governor.py:80-83 | over every crash schedule a session starts less than the maximal time after the first |
| `LifecycleBoundary.SessionsStartWithinBudget` | src/kami_agent/governor.py:78-79 | and only while less than the budget is spent on the rows before it |
| `LifecycleOutcome.TurnedAway` | src/kami_agent/runner.py:197-223 | an invocation reports a held lock, a wake not due or an ended run exactly when there is one, and then does nothing |
| `LifecycleOutcome.OutcomeIsTheLastEffect` | src/kami_agent/runner.py:171-271 | any other outcome is told by the last thing the invocation does: a run ended, a session refused, aborted or run |
| `LifecycleOutcome.SessionIsServedExactly` | src/kami_agent/runner.py:225-270 | a session is served exactly when the run goes on at the boundary, the prompts are there and the harness serves |
| `LifecycleOutcome.ServedSessionOpens` | src/kami_agent/runner.py:644-662 | a served session opens with its start at the moment of the invocation, the shell's state and the keeper's receipts, where there are such; the loop's rows follow |
| `LifecycleOutcome.ServedSessionCloses` | src/kami_agent/runner.py:706-754 | it closes with the shell's state, its end with the loop's totals and the reason by its name, and the schedule |
| `LifecycleOutcome.AbortedSessionIsWritten` | src/kami_agent/runner.py:555-575 | an aborted session is its start, an end for errors with no call, and the default wake |
| `LifecycleOutcome.RefusalIsWritten` | src/kami_agent/runner.py:598-622 | a refused pairing is one row under the number of the session before |
| `LifecycleOutcome.EndOfRunIsWritten` | src/kami_agent/runner.py:388-436 | the end of a run stops and revokes the keeper, records its receipts and the shell's state, where there are such, and says what was spent and overspent |
| `LifecycleJournal.RecoveryWindow` | src/kami_agent/runner.py:332-385 | recovery cut short has closed its session exactly when at most one effect is missing, and journaled it exactly when none is |
| `LifecycleJournal.LostEntryIsLostForGood` | src/kami_agent/runner.py:886-935 | a session with its end but not its entry never gets the entry |
| `LifecycleEntries.ServedEffects` | src/kami_agent/runner.py:724-754 | the effects of a served session are rows without an end, its end row, its journal entry and its schedule, in this order |
| `LifecycleEntries.ServedEnds` | src/kami_agent/runner.py:724-754 | a served session is ended two effects before its last, journaled right after, and no other session is touched, wherever the attempt is cut |
| `LifecycleEntries.AbortedEnds` | src/kami_agent/runner.py:555-575 | an aborted session is ended by its second effect and never journaled |
| `LifecycleEntries.JournaledAreEnded` | src/kami_agent/runner.py:724-746 | over every run only ended sessions have an entry |
| `LifecycleEntries.EntryOfNewEnd` | src/kami_agent/runner.py:332-385 | the attempt that writes a session's end writes its entry exactly when the session was recovered or served and the attempt does not die right after the end |
| `LifecycleEntries.EntryIsDecidedByItsAttempt` | src/kami_agent/runner.py:886-935 | over every run an ended session has an entry exactly under that condition on the attempt that ended it, whatever followed |
| `LifecycleEntries.EverySessionIsJournaledExactly` | src/kami_agent/journal.py:160-162 | every ended session of a run is journaled exactly when every attempt that ended one met the condition |
| `LifecycleEntries.RecoveredSessionKeepsItsEntry` | src/kami_agent/runner.py:332-385 | a session that an invocation recovers keeps its entry even when the same invocation then aborts the next one at the handshake |
| `LifecycleEntries.AbortedSessionIsNeverJournaled` | src/kami_agent/runner.py:555-575 | a failed handshake leaves an ended session that no later invocation journals |
| `LifecycleEntries.DyingAtTheEndLosesTheEntry` | src/kami_agent/runner.py:724-746 | so does dying right after the end row of a served session |
| `LifecycleKeeper.ReadReceiptsAreNew` | src/kami_agent/runner.py:764-778 | a read that starts from the hashes of the log returns distinct receipts that are not in it, whatever the keeper answers |
| `LifecycleKeeper.AttemptRecordsAPrefix` | src/kami_agent/runner.py:644-662 | however far an invocation comes, the log gains a prefix of the receipts it read, in order and nothing else of the keeper's |
| `LifecycleKeeper.KeeperRowsAreDistinct` | src/kami_agent/state.py:72-78 | over every crash schedule no transaction of the keeper is in the log twice |
| `LifecycleCalls.NextWakeIsTheLastRequest` | src/kami_agent/runner.py:525-551 | after a whole served session the next scheduled invocation is due exactly from the wake asked for last, carried or not and clamped, or else from the default |
| `LifecycleCalls.RecoveryRebuildsTheLoggedCalls` | src/kami_agent/runner.py:886-935 | wherever an invocation that serves a session dies, the journal material that recovery finds is of the calls whose rows reached the log |
| `Runner.Runner.Recover` | src/kami_agent/runner.py:332-385 | recovery performs its effects in order |
| `Runner.Runner.CompleteRun` | src/kami_agent/runner.py:388-436 | the end of the run performs its rows in order |
| `Runner.Runner.RunOneSession` | src/kami_agent/runner.py:439-761 | one session attempt: missing prompts, a harness that does not start, a refused pairing, or a served session |
| `Runner.Runner.ServeSession` | src/kami_agent/runner.py:624-761 | a served session: opening rows, the loop, closing rows, journal entry, schedule |
| `Runner.Runner.RunSession` | src/kami_agent/runner.py:171-271 | `run_session` performs its program, effect by effect, and returns its outcome |
| `Runner.Runner.EndTheRun` | src/kami_agent/runner.py:275-329 | so does `end_run` |
| `Demux.FramesResume` | src/kami_agent/docker_api.py:272-288 | parsing can be resumed from the unparsed rest, wherever the stream was split |
| `Demux.DemuxInvertsMux` | src/kami_agent/docker_api.py:46-50 | multiplexed frames under 2^32 bytes parse back to themselves, whatever incomplete frame follows |
| `Demux.HeadEndIsStable` | src/kami_agent/docker_api.py:256-271 | the end of the response head, once found, does not move as more arrives |
| `Demux.NothingWithoutAHead` | src/kami_agent/docker_api.py:256-262 | a stream that stops before a blank line brings no answer, or fails when it was cut off |
| `Demux.FramesAreDelivered` | src/kami_agent/docker_api.py:263-299 | after a head with status 101 or 200, multiplexed frames reach the sinks, whatever incomplete frame follows, and the result counts the bytes of stream 1 and of stream 2 |
| `Demux.RefusalIsReported` | src/kami_agent/docker_api.py:263-271 | after any other head nothing does: an unreadable status is reported at once, another one with all that follows the head |
| `Demux.StreamSink.Write` | src/kami_agent/environment.py:148-168 | the head and the log stay the exact prefixes of the stream at their caps |
| `Demux.Drain` | src/kami_agent/docker_api.py:272-288 | the frame loop feeds the sinks exactly the complete frames of the buffer and leaves none in the rest |
| `Demux.StreamExec` | src/kami_agent/docker_api.py:225-299 | for every split into received pieces, the result and what the sinks see are those of the whole stream parsed at once |
| `Paragraphs.Trim` | src/kami_agent/tools/search.py:236-241 | what is trimmed is exactly the whitespace at both ends |
| `Paragraphs.RawParagraphs` | src/kami_agent/tools/search.py:221-233 | the paragraphs hold all text, begin and end in text, and two bytes of text share one exactly when no blank line lies between them |
| `Paragraphs.BlankLinesSeparate` | src/kami_agent/tools/search.py:64 | every byte that is no white space is in a paragraph, and two share one exactly when no two newlines lie between them with only spaces, tabs and carriage returns in between |
| `Paragraphs.ParagraphsAreTrimmed` | src/kami_agent/tools/search.py:236-241 | a paragraph begins and ends in bytes that are no white space |
| `Paragraphs.ParagraphsAreUnique` | src/kami_agent/tools/search.py:221-233 | a file has one such list of paragraphs |
| `Paragraphs.PackingIsUnique` | src/kami_agent/tools/search.py:196-218 | and they have one greedy packing |
| `Paragraphs.CutIsAtTheLastSpace` | src/kami_agent/tools/search.py:248-257 | a cut takes 1001 to 1200 bytes, ending at the last space or newline of the window, or 1200 when there is none |
| `Paragraphs.SplitOversized` | src/kami_agent/tools/search.py:244-260 | the splitting loops give the pieces of each span in turn |
| `Paragraphs.PiecesTile` | src/kami_agent/tools/search.py:244-260 | the pieces of a span cover just that span, in order, none too long |
| `Paragraphs.ChunksAreABoundedCover` | src/kami_agent/tools/search.py:196-260 | for every byte string the chunks are in bounds, increasing, disjoint, 1 to 1200 bytes long, and hold every byte of text |
| `Paragraphs.ProseSpansAreUnique` | src/kami_agent/tools/search.py:196-260 | a file has one list of spans: paragraphs, packing and cuts leave no choice |
| `Paragraphs.ParagraphSpans` | src/kami_agent/tools/search.py:196-218 | packing takes each next paragraph while it fits and only then; with splitting, the result is that bounded cover |
| `Csv.Lines` | src/kami_agent/tools/search.py:265-273 | the non-empty lines, whole, in order, none missed |
| `Csv.CsvSpans` | src/kami_agent/tools/search.py:263-287 | group g runs from line 20 g + 1 (the first from line 0) to the line before the next group's, and the groups take every line |
| `Csv.SpansAreWholeLines` | src/kami_agent/tools/search.py:276-287 | each span begins and ends on a line boundary and holds exactly its 20 lines, the first 21, the last what is left |
| `Csv.EveryLineIsInOneSpan` | src/kami_agent/tools/search.py:276-287 | every non-empty line lies in exactly one span |
| `Csv.FirstSpanStartsTheFile` | src/kami_agent/tools/search.py:40-43 | the first span starts at byte 0 exactly when the file does not begin with an empty line |
| `Csv.LeadingEmptyLineIsLeftOut` | src/kami_agent/tools/search.py:40-43 | a newline and then a letter: the first span starts at byte 1 |
| `Csv.GroupsAreOrdered` | src/kami_agent/tools/search.py:263-287 | the spans are in bounds, in order and apart |
| `Csv.LinesAreUnique` | src/kami_agent/tools/search.py:265-273 | a file has one list of lines |
| `Csv.GroupsAreUnique` | src/kami_agent/tools/search.py:276-287 | and they have one grouping |
| `Csv.CsvSpansAreUnique` | src/kami_agent/tools/search.py:263-287 | a CSV file has one list of spans |
| `Search.DfCountsChunks` | src/kami_agent/tools/search.py:95-101 | the document frequency of a term is the number of chunks that hold it |
| `Search.ScoreInAnyOrder` | src/kami_agent/tools/search.py:161-170 | in exact arithmetic the query terms may be added in any order |
| `Search.ScoresWhenTermsMatch` | src/kami_agent/tools/search.py:151-171 | a chunk's score is positive exactly when it holds a query term, for any logarithm positive above 1 |
| `Search.PathsAreTotal` | src/kami_agent/tools/search.py:173-174 | the order of paths that breaks ties is total and strict |
| `Search.StatsOfPermutation` | src/kami_agent/tools/search.py:95-101 | the statistics do not depend on the order of the chunks |
| `Search.RowsOfPermutation` | src/kami_agent/tools/search.py:160-172 | neither do the scored rows, as a collection |
| `Search.SortedIsUnique` | src/kami_agent/tools/search.py:173-174 | rows of distinct places have one order under score, path and offset |
| `Search.RankingIsDetermined` | src/kami_agent/tools/search.py:144-183 | the ranking depends on which chunks and which terms there are, not on the order of either or on repeated terms |
| `Search.RankedWhenTermsMatch` | src/kami_agent/tools/search.py:160-172 | a chunk is ranked exactly when it holds a query term |
| `Search.TopKIsAPrefix` | src/kami_agent/tools/search.py:175-183 | the top k hits are a prefix of the top k + 1 |
| `SearchOrder.PathLessIs` | src/kami_agent/tools/search.py:173-174 | a path is before another when it ends at their first difference or has the smaller character there |
| `SearchOrder.RankingIsInOrder` | src/kami_agent/tools/search.py:173-174 | of two rows the earlier has the higher score, on equal scores the smaller path, and in one file the smaller offset |
| `SearchOrder.TopIsBest` | src/kami_agent/tools/search.py:175-183 | no matching chunk left out of the first k scores above one among them |
| `SearchOrder.WeightIs` | src/kami_agent/tools/search.py:151-157 | a term in df of n chunks weighs log((n + 1) / (df + 0.5)) |
| `SearchOrder.RarerTermsWeighMore` | src/kami_agent/tools/search.py:151-157 | so rarer terms weigh more, for any growing logarithm |
| `SearchOrder.TotalCountsTokens` | src/kami_agent/tools/search.py:95-101 | the average length is that of the chunks' tokens |
| `SearchOrder.NormIs` | src/kami_agent/tools/search.py:161-170 | the length of a chunk counts evenly, around 1.5 at the average |
| `SearchOrder.NormOfNothing` | src/kami_agent/tools/search.py:161-170 | where no chunk has a token, every length counts as average |
| `SearchOrder.NothingToGain` | src/kami_agent/tools/search.py:161-170 | a term that the chunk, or every chunk, lacks gains nothing |
| `SearchOrder.GainIs` | src/kami_agent/tools/search.py:161-170 | a term held tf times gains the share tf / (tf + norm) of 2.5 times its weight |
| `SearchOrder.OnceInAnAverageChunk` | src/kami_agent/tools/search.py:161-170 | held once in a chunk of average length, it gains just its weight |
| `SearchOrder.MoreOccurrencesGainMore` | src/kami_agent/tools/search.py:161-170 | more occurrences gain more |
| `SearchOrder.LongerChunksGainLess` | src/kami_agent/tools/search.py:161-170 | longer chunks gain less |
| `Reference.SpansOf` | src/kami_agent/tools/search.py:123-124 | the spans of a file by its kind |
| `Reference.SpansAreDetermined` | src/kami_agent/tools/search.py:11-13 | chunking is a function of the file's bytes |
| `Reference.BuildChunks` | src/kami_agent/tools/search.py:105-140 | the index holds, file by file, the chunks of every span with a token; unreadable and other files add nothing |
| `Reference.SpanIsIndexedExactly` | src/kami_agent/tools/search.py:121-140 | a span is indexed exactly when it has a token, and its chunk has the span's place, text, term counts and number of tokens |
| `Reference.PlacesAreDistinct` | src/kami_agent/tools/search.py:105-140 | no two chunks of an index begin at one place of one file |
| `Reference.BuildIsOrderIndependent` | src/kami_agent/tools/search.py:109-111 | the files visited in any order give the same chunks |
| `Reference.SearchIsAFunctionOfTheTree` | src/kami_agent/tools/search.py:144-149 | the hits depend on the tree and the set of query terms and on nothing else |
| `Reference.MoreHitsKeepTheFirst` | src/kami_agent/tools/search.py:175-183 | asking for one more hit keeps those there were, in their places |
| `Reference.HitsAreTheBest` | src/kami_agent/tools/search.py:144-183 | the hits of a search quote the best matching chunks, best first, ties by path and offset, and no chunk left out scores above one of them |
| `Reference.ChunkIsReadBack` | src/kami_agent/tools/search.py:17-21 | reading a chunk's file at its offset and length gives the text that was indexed |
| `Reference.HitIsReadBack` | src/kami_agent/tools/search.py:17-21 | every hit can be read back, and quotes the beginning of what is read |
| `Reference.ReferenceIndex.constructor` | src/kami_agent/tools/search.py:95-101 | the document frequencies and the average length are those of the chunks |
| `Reference.ReferenceIndex.Weights` | src/kami_agent/tools/search.py:151-157 | a weight for each query term that occurs, whatever order the terms are visited in |
| `Reference.ReferenceIndex.ScoreChunk` | src/kami_agent/tools/search.py:161-170 | the accumulated score is the sum over the terms, whatever order they are visited in |
| `Reference.ReferenceIndex.Search` | src/kami_agent/tools/search.py:144-183 | the hits are the first k of the ranking, including the three early returns |
| `Workspace.SpanIsReadBack` | src/kami_agent/tools/scaffold.py:429-442 | reading a span of a file gives exactly its bytes, decoded |
| `Workspace.ReadIs` | src/kami_agent/tools/scaffold.py:429-442 | every read: which error comes first, and which bytes an offset and a length, either absent or beyond the end, give |
| `Workspace.LastEntryIsReadBack` | src/kami_agent/journal.py:141-157 | reading the journal at its last slice gives the entry appended last, however often the file was rolled |
| `Journal.JournalFile.Append` | src/kami_agent/journal.py:173-200 | appending an entry and rolling the file |
| `Journal.FindNewlineIs` | src/kami_agent/journal.py:195-199 | where a line is cut off |
| `Journal.RollKeepsTheLongestSuffix` | src/kami_agent/journal.py:188-200 | rolling keeps the longest suffix of whole lines that fits, or just the newest line |
| `Journal.RollOfAnyBytes` | src/kami_agent/journal.py:188-200 | any bytes are cut after the first newline, but not the last byte, from which the rest fits, or after the last such newline |
| `Journal.RollingIsOneShot` | src/kami_agent/journal.py:173-200 | rolling after every append is rolling the complete history once |
| `Journal.LastEntryOfLines` | src/kami_agent/journal.py:141-157 | the slice of a file of lines addresses its last line |
| `Journal.NoEntryExactly` | src/kami_agent/journal.py:141-157 | a file has no last entry exactly when it holds nothing but newlines |
| `Journal.LastAppendIsAddressed` | src/kami_agent/journal.py:141-157 | after any appends the slice addresses exactly the bytes of the newest entry |
| `Truncation.FirstOfEncoded` | src/kami_agent/tools/truncation.py:22-45 | the first character of an encoding decodes to itself (section 3 of RFC 3629) |
| `Truncation.EncodingRoundTrips` | src/kami_agent/tools/truncation.py:22-45 | decoding an encoding gives the text back |
| `Truncation.DecodedIsAnEncoding` | src/kami_agent/tools/truncation.py:22-45 | only the encoding of a character decodes to it, never a longer form (section 3 of RFC 3629) |
| `Truncation.CutDecodesToWhatFits` | src/kami_agent/tools/truncation.py:22-45 | cut anywhere, it decodes to the characters that fit |
| `Truncation.FitIsTheMost` | src/kami_agent/tools/truncation.py:22-45 | those are exactly the prefixes whose encoding fits |
| `Truncation.LessThanOneCharacterIsLost` | src/kami_agent/tools/truncation.py:22-45 | less than one character of the cap is lost |
| `Truncation.CapIsTheBestCut` | src/kami_agent/tools/truncation.py:22-55 | content within the cap is unchanged; over it, the longest prefix that fits is kept, at most 3 bytes short of the cap, with the marker after it |

## Left out

- Sockets, HTTP, MCP, subprocesses, cron, provider SDKs and threads: each is an oracle that answers or fails; a tool timeout is a failed call.
- The clock is read once for what happens before and during a session and once after it.
- Torn or invalid log lines and schema validation: an emit is one atomic, durable, valid append.
- The lock file: taking it is one atomic test, and a session is shorter than the staleness limit.
- Keeper ledger: the books keep the promises the reader states (append-only, non-decreasing lens blocks, a receipt without a lens block follows a broadcast of its hash), and one request is answered by one state of the book. Open hashes are sets, where the program keeps sorted lists.
- `state.json`: only the keeper cursor matters to a run, because everything else in it is folded again from the log; the counter it saves is not read back.
- Rows: latencies, provider error texts, lens and container details, paths, prompt hashes and the transcript file are not modelled.
- `NewEventsExact`: action, block, nonce, gas, ledger time and receipt stage of an event are one value taken from the row.
- `ExecuteIntent`: argument validation, timeouts and the byte cap of a result belong to the tool oracle's outcome.
- `InjectPair`: the byte cap of injected content is applied before the content reaches the model.
- The loop: the `continuation` flag, sleep and backoff between attempts, and argument validation are not modelled; an intent's outcome, valid or not, is the tool oracle's.
- `EveryRunIsWellFormed`: the log in it is the one the runner writes; rows that an operator's `init` may add before a run are not in it.
- Journal: a line is a byte string without newlines, not JSON; in the lifecycle the journal is the set of sessions it has an entry for, since retention there changes nothing about the log.
- `Csv`: a line is a row, as in the program; quoted newlines inside a field are not recognized by either.
- `Paragraphs`: the regular expression engine is replaced by its meaning, the leftmost match.
- `ScoreChunk`: scores are exact reals and the logarithm is a parameter, so rounding cannot make or break a tie.
- `SortRows`: the program's built-in sort is modelled by an insertion sort that meets its specification.
- `tokenize` and the decoding of invalid UTF-8 in search are parameters; path sandboxing and the file index are not modelled.
- `CapToolResult`: a negative cap is not modelled, and ignored bytes are dropped one at a time, which decodes to the same text.
- `CostUsd`: money is exact, where the program rounds in floating point.
- `_stream_text` and `clamp_shell_timeout`: one-branch facts.
