# Verified model of the XTokenHub gateway

XTokenHub is a gateway between clients and upstreams that speak three chat protocols (OpenAI chat completions, OpenAI
responses, Anthropic messages). This project models its logic in Dafny and proves what that logic promises. Nothing of
the original program is needed to check it: `dafny verify dfyconfig.toml` checks everything.

| files | part of the system |
|---|---|
| `Common`, `Folds` | the optional value and facts about sequences; sums, selections and concatenations |
| `Upstream`, `Meaning`, `ChatStream`, `MessagesStream`, `ResponsesStream` | the stream parsers and the three streaming converters; `Meaning` says, without the converters, what text and calls an upstream stream carries |
| `Sse`, `Pipeline` | the splitter of upstream bytes, and the whole path from bytes to client events |
| `Convert` | request conversion through the intermediate conversation |
| `DayBucket`, `Rollup`, `RollupLimits`, `Store` | the daily roll-up, its watermark and retention: a state machine, its invariant, the exact limits of that invariant, and the programs that take the steps |
| `Readers`, `ModelUsage`, `Lifetime` | statistics that read complete days from the roll-up and today from the log |
| `PeakWindow`, `Costs`, `PriceIndex`, `PriceCache` | peak pricing, costs and their recomputation, price lookup, the cached index |
| `Permutations`, `Selector`, `Executor` | choosing candidates and trying them |
| `GatewayWS`, `EventBus`, `Throughput` | the browser's reconnecting socket, the event bus, the live token meter |
| `UpstreamLaws`, `StreamLaws`, `SseLaws`, `ConvertLaws`, `RollupLaws`, `ReadersLaws`, `PeakWindowLaws`, `CostLaws`, `PriceLaws`, `RoutingLaws`, `GatewayLaws`, `EventBusLaws`, `ThroughputLaws` | what the single decisions of those parts mean: which deltas a chunk's events are, which days a rebuild covers, which weekday a day is, which status fails over |

Code that changes fields is a class whose methods are proved equal to a step function on the class's contents; the
theorems are then about runs of those steps. The three converters are judged by clients written from the protocols
alone: a strict client keeps the open items, indexes and block order itself, and rejects any event that does not fit.
What it holds at the end is compared with what `Meaning` says about the upstream. The functions that the step functions
and these references have in common are in turn characterised in the `…Laws` modules, from the fields of payloads, rows
and rules alone.

Times are seconds, money is `real`, JSON payloads are datatypes, and random draws, upstream outcomes and the database's
choice of rows are arbitrary.

## What the proofs show about the code

Some promises hold only under a condition; each of these is proved in both directions or with a concrete run.

- A converter for messages or responses clients that is finalized without ever being fed sends a stream no client
  accepts (`MessagesStream.StreamConveysTheUpstream`, `ResponsesStream.StreamConveysTheUpstream`).
- Messages clients get argument fragments for a closed block exactly when the upstream interleaves fragments
  (`MessagesStream.StreamConveysTheUpstream`, `MessagesStream.InterleavedFragmentsNameAClosedBlock`).
- Argument text is counted for the usage estimate but reaches no client when it cannot be given to a call: a responses
  delta that names no item, or a messages delta of another kind than input JSON; all other argument text does
  (`UpstreamLaws.ArgumentsAreConserved`).
- Responses clients get every sequence number once, but in order only when no call is announced before the first text
  (`ResponsesStream.NumbersAreUsedOnce`, `ResponsesStream.TextAfterACallIsOutOfOrder`).
- The comment on `RebuildDay` says it may be called for any past day. It may exactly when retention has not cut through
  that day (`RollupLimits.RebuildKeepsSealExactly`, `RollupLimits.PartlyCleanedDayExists`), and a full rebuild only
  while nothing was removed (`RollupLimits.RebuildAllIsSafeExactly`).
- The settings promise that deleting old log rows leaves cumulative statistics alone, and accept 1 to 3650 days. The tick
  after a cleanup gives right tables exactly when each day it rebuilds has all of its rows left, or none and a right row
  already (`RollupLimits.TickAfterCleanupSealsExactly`). Over all logs a cleanup loses nothing exactly when its cutoff is
  no later than the end of the watermark day (`RollupLimits.CleanupLosesNothingExactly`). So with a tick earlier on the
  same day two days are enough, with the last tick on the day before it takes three, and one day is never enough
  (`RollupLimits.SafeSettingsExactly`); a concrete run keeps one day and loses a request (`RollupLimits.KeepingOneDayLosesARow`).
- Between midnight and the first tick of the day the trend misses what was logged after the last tick, and exactly then
  (`Readers.TrendIsStaleExactly`, `Readers.TrendBeforeTheFirstTick`); month spending misses just those rows
  (`Readers.PeriodSpentMisses`).
- Without the roll-up table the daily average reads one day more than with it (`Readers.LogCountsOneMoreDay`,
  `Readers.AveragesDiffer`).
- A request's conversation and parameters survive conversion exactly when they are normal; in particular the tool
  choice "any" of a chat client reaches no converted upstream (`Convert.ChatRoundTrip`, `Convert.MessagesRoundTrip`).
- A channel that declares no protocols and whose provider's default is what the client speaks is a candidate, yet every
  attempt on it fails (`Executor.ConvertsExactly`, `Executor.CannotConvertAlwaysFails`).
- The comment on `Publish` promises that a queued event is consumed. When a consumer leaves, everything ever queued for
  it is handled exactly when no publish in progress still has it to serve (`EventBus.NothingIsStrandedExactly`); otherwise
  an event may be queued that nothing handles any more (`EventBus.AnEventIsStranded`, `EventBus.ExitedHandlesNothing`).
- The comment on `nextSwitch` says that nothing found means no switch at all. It does exactly when no day after the 32
  looked at counts (`PeakWindow.NothingFoundIsNoSwitchExactly`), and not when a holiday outlasts them
  (`PeakWindow.LongHolidayHidesASwitch`).

## Model

| member | source | states |
|---|---|---|
| `Upstream.StreamParser.Feed` | internal/provider/usage.go:165-275 | feeding a payload appends exactly the payload's text and its tool-argument text to what was received, moves the finish reason and updates the reported usage, for both upstream dialects |
| `UpstreamLaws.TextIsTheDeltas` | internal/provider/usage.go:165-253 | a payload's text is its choices' contents in order and a responses text delta, or a messages text delta; a payload with the other dialect's form of delta says nothing |
| `UpstreamLaws.FinishIsTheLast` | internal/provider/usage.go:188-266 | the finish reason is the last one that is not empty |
| `UpstreamLaws.UsageIsTheLastReported` | internal/provider/usage.go:203-215 | over a whole chat or responses stream the usage is the last one reported |
| `UpstreamLaws.UsageOfAMessage` | internal/provider/usage.go:254-273 | over a whole messages stream input and cache counts are those of the last start, output counts those of the last end after it, and the total is their sum |
| `UpstreamLaws.ReportedCounts` | internal/provider/usage.go:60-86 | as a consequence of the definition, chat names win over the others, and a cache count of its own over the one in the details |
| `Upstream.ExtractToolEvents` | internal/provider/convert_stream.go:99-178 | the loops collect the events that the laws below characterise |
| `UpstreamLaws.ChunkEventsAreItsDeltas` | internal/provider/convert_stream.go:136-147 | a chat chunk's events are, delta by delta and in order, the announcement of each delta with an id or a name and then its own fragment when it has arguments; nothing is left out or added |
| `UpstreamLaws.ChunkArgumentsByIndex` | internal/provider/convert_stream.go:129-147 | the fragments under an index's key, one after another, are the arguments of the deltas with that index, a missing index counting as 0; all fragments together are the arguments the parser counts |
| `UpstreamLaws.ArgumentsAreConserved` | internal/provider/convert_stream.go:99-178 | for either parser a payload's fragments are the argument text it counts, after that of choices the messages parser ignores, exactly when the extraction can give the text to a call |
| `UpstreamLaws.EventsSayOneThing` | internal/provider/convert_stream.go:148-175 | of a messages or responses event: a call starts exactly when a tool-use block or a function-call item does, with its id and name, and a fragment is the whole argument text under its block's or item's key |
| `UpstreamLaws.ChoicesAndEvents` | internal/provider/convert_stream.go:136-175 | as a consequence of the definition, a payload with choices and an event says the one, then the other |
| `UpstreamLaws.NumbersAreDecimal` | internal/provider/convert_stream.go:129-134 | index keys are decimal numbers without leading zeros |
| `UpstreamLaws.KeysTellIndexesApart` | internal/provider/convert_stream.go:129-134 | two deltas have the same key exactly when they have the same index, negative ones included |
| `Upstream.FragmentsAreNonEmpty` | internal/provider/convert_stream.go:99-178 | no argument fragment is empty, so no client ever gets an empty argument delta |
| `Meaning.TextBeforeCallsIsPrefix` | internal/provider/convert_stream.go:488-493 | the text a messages client may get is a prefix of the whole text, and all of it when no call starts |
| `Meaning.CallsAfterArgs` | internal/provider/convert_stream.go:99-178 | a fragment extends the call of its own key and no other, and announces nothing |
| `StreamLaws.CallArgumentsAreTheDeltas` | internal/provider/convert_stream.go:99-178 | over a whole chat stream a call's arguments are those of all deltas with its index, when none of them comes before the announcement |
| `StreamLaws.FragmentsAreAll` | internal/provider/convert_stream.go:99-178 | the same for any events and any key: a call that is announced before its first fragment gets every fragment under its key |
| `StreamLaws.InventedIdsDiffer` | internal/provider/convert_stream.go:280-300 | announced ids are kept, and ids invented for calls without one differ from call to call |
| `StreamLaws.FirstInventedIds` | internal/provider/convert_stream.go:280-300 | concrete ids: calls are counted from one, items from zero |
| `StreamLaws.FinishReasonsShown` | internal/provider/convert_stream.go:64-75 | as a consequence of the definitions, every client is told of the token limit exactly when the upstream hit it, and of calls when the upstream says so or made some; reasons of no known kind reach chat clients only |
| `ChatStream.ChatChunkConverter.Feed` | internal/provider/convert_stream.go:241-317 | one payload takes the chat converter from its state to the next of the step function the theorem is about, with the same chunks |
| `ChatStream.ChatChunkConverter.Finalize` | internal/provider/convert_stream.go:319-345 | the same for the end of the stream |
| `ChatStream.StreamConveysTheUpstream` | internal/provider/convert_stream.go:241-345 | for every stream a strict chat client ends with the whole text, every call once in announcement order with all its fragments, and the finish reason |
| `ChatStream.Convert` | internal/gateway/executor.go:493-553 | feeding all payloads and finalizing gives that stream |
| `MessagesStream.AnthropicEventConverter.Feed` | internal/provider/convert_stream.go:414-495 | one payload takes the messages converter to the next state of its step function, with the same events |
| `MessagesStream.AnthropicEventConverter.Finalize` | internal/provider/convert_stream.go:497-530 | the same for the end of the stream |
| `MessagesStream.StreamConveysTheUpstream` | internal/provider/convert_stream.go:414-530 | a client that insists on one open block, block indexes 0, 1, 2, … and the envelope order ends with the text before the first call and every call with all its fragments, for streams fed at least once; with the open-block rule for fragments too, exactly when fragments never interleave; otherwise it rejects |
| `MessagesStream.InterleavedFragmentsNameAClosedBlock` | internal/provider/convert_stream.go:449-486 | a concrete chat chunk after which a fragment names a closed block |
| `MessagesStream.Convert` | internal/gateway/executor.go:493-553 | feeding all payloads and finalizing gives that stream, with both clauses about the client |
| `ResponsesStream.ResponsesEventConverter.Feed` | internal/provider/convert_stream.go:649-738 | one payload takes the responses converter to the next state of its step function, with the same events |
| `ResponsesStream.ResponsesEventConverter.FeedTool` | internal/provider/convert_stream.go:691-722 | one announcement or fragment: at most one event, the next output index for a new call, the call's own index for a fragment |
| `ResponsesStream.ResponsesEventConverter.Finalize` | internal/provider/convert_stream.go:740-840 | the same for the end of the stream: closing events are numbered first and then ordered by output index |
| `ResponsesStream.ClosersSplit` | internal/provider/convert_stream.go:755-807 | ordering the closing events puts the message item's at its own index among the calls' |
| `ResponsesStream.StreamConveysTheUpstream` | internal/provider/convert_stream.go:566-840 | a strict client (created and in_progress first, dense indexes, one added and one done per item, deltas only for items not yet done, done events repeating the deltas, done in index order, final output equal to the done items) accepts every stream fed at least once and ends with the upstream's items; a stream never fed is rejected |
| `ResponsesStream.NumbersAreUsedOnce` | internal/provider/convert_stream.go:566-575 | over a whole stream the sequence numbers 0 to n-1 are used once each, and in sending order exactly when no call precedes the first text |
| `ResponsesStream.TextAfterACallIsOutOfOrder` | internal/provider/convert_stream.go:755-807 | a concrete stream, a call and then text, whose events are sent out of order |
| `ResponsesStream.Convert` | internal/gateway/executor.go:493-553 | feeding all payloads and finalizing gives that stream |
| `Sse.SSESplitter.Write` | internal/gateway/sse.go:24-37 | after any write the splitter's buffers and deliveries are those of all bytes written so far |
| `Sse.SSESplitter.Flush` | internal/gateway/sse.go:40-46 | flushing delivers what the line-by-line specification delivers for the whole stream, the unfinished event included |
| `Sse.SSESplitter.HandleLine` | internal/gateway/sse.go:48-69 | the splitter after one more line is that of all lines so far; what lines mean is said by the laws below |
| `SseLaws.LineEndsDoNotMatter` | internal/gateway/sse.go:48-49 | a stream without CR delivers the same when every LF is preceded by a CR |
| `SseLaws.OtherLinesAreIgnored` | internal/gateway/sse.go:64-68 | a line that is neither blank nor data can be put anywhere between two lines without changing what is delivered |
| `SseLaws.EndIsABlankLine` | internal/gateway/sse.go:40-46 | the end of a stream delivers what a blank line would |
| `Sse.Split` | internal/gateway/executor.go:511-541 | however the stream is cut into chunks, the same payloads come out |
| `Sse.WireRoundTrip` | internal/gateway/executor.go:694-714 | splitting what the gateway writes to its clients gives the written payloads back, in order, and drops the marker that ends a chat stream |
| `SseLaws.CRLFRoundTrip` | internal/gateway/executor.go:694-714 | the same for frames whose lines end in CR LF |
| `SseLaws.TextsReadBack` | internal/gateway/sse.go:54-63 | texts of any number of lines, each line written as a data line with or without a space, read back as they were, but for the marker |
| `Pipeline.ForwardToResponses` | internal/gateway/executor.go:493-553 | for every cutting of the upstream's bytes the client gets the stream of the whole payload sequence, and a strict client ends with the upstream's items once any payload arrived |
| `Pipeline.ForwardToMessages` | internal/gateway/executor.go:493-553 | the same for messages clients, who end with the text before the first call, the calls and the stop reason exactly when a payload arrived and, for a strict client, no fragments interleave |
| `Pipeline.ForwardToChat` | internal/gateway/executor.go:493-553 | the same for chat clients: a strict one always ends with the upstream's text, calls and finish reason |
| `Convert.ParseOpenAIMessages` | internal/provider/convert.go:200-236 | the conversation a chat request holds |
| `ConvertLaws.ChatMessagesAreKept` | internal/provider/convert.go:202-236 | of a chat message: instructions, answers without text and calls, tool messages without an id and function messages without text are dropped, every other one becomes one message of its role, with its text, calls and id |
| `ConvertLaws.ChatMessagesInOrder` | internal/provider/convert.go:202-236 | and messages are read one after another, however the list is cut |
| `ConvertLaws.InstructionsAreLines` | internal/provider/convert.go:204-208 | the system text is the instructions' texts, wherever they stand, each on its own line from the first that is not empty on |
| `ConvertLaws.CallsAreKept` | internal/provider/convert.go:211-216 | the calls of an answer are those with an id or a name, in order |
| `ConvertLaws.PartsAreLines` | internal/provider/convert.go:135-161 | the text of a list of parts is its non-empty parts' texts, each on its own line; a string is its own text |
| `Convert.ParseBlocks` | internal/provider/convert.go:447-468 | text, calls and results of one turn's blocks |
| `Convert.ParseAnthropicMessages` | internal/provider/convert.go:423-484 | the loop reads the turns in order; what a turn holds and in which order is said by the laws below |
| `ConvertLaws.ResultsBeforeText` | internal/provider/convert.go:473-481 | of any user turn: first the results that name their call, in order, then the turn's text as one user message if it has any; no tool message follows a user message |
| `ConvertLaws.AnswersAreOneMessage` | internal/provider/convert.go:468-472 | of any assistant turn: one message with its text and calls, unless it has neither |
| `ConvertLaws.BlocksAreKept` | internal/provider/convert.go:447-468 | the calls of a turn are its tool-use blocks with an id or a name, its results the result blocks that name a call, each with its own text, in order |
| `ConvertLaws.TextBlocksAreLines` | internal/provider/convert.go:449-453 | the text of a turn is its text blocks', each on its own line from the first that is not empty on |
| `ConvertLaws.ToolMessagesFollowTheirCalls` | internal/provider/convert.go:474-476 | in the chat request made of any messages request, the tool messages of a turn stand directly after what the turns before it produced, in the order of its results |
| `Convert.WriteOpenAIMessages` | internal/provider/convert.go:547-579 | the chat messages of a conversation, missing call ids filled in |
| `Convert.WriteAnthropicMessages` | internal/provider/convert.go:632-667 | the turns of a conversation, tool results merged by the inner loop |
| `ConvertLaws.CallsAreWritten` | internal/provider/convert.go:561-570 | the calls of an answer sent to a chat upstream, one by one: name, arguments, and the id or one made of the position |
| `ConvertLaws.UsesAreWritten` | internal/provider/convert.go:651-657 | the same for the tool-use blocks sent to a messages upstream, whose input is the arguments' value or an empty object |
| `ConvertLaws.AnswersAreWritten` | internal/provider/convert.go:647-658 | an answer's text goes before its tool uses, and is left out when empty; a chat upstream then gets no content |
| `ConvertLaws.ChatParamsAsMessages` | internal/provider/convert.go:669-719 | every parameter of a chat request in the messages request made of it: system text, limits, stops in all their forms, tools and tool choice |
| `ConvertLaws.MessagesParamsAsChat` | internal/provider/convert.go:580-629 | every parameter of a messages request in the chat request made of it |
| `ConvertLaws.ToolsAreSent` | internal/provider/convert.go:672-686 | the tools with a name are sent as they are, but for schemas that are absent or null |
| `Convert.ChatConversationReads` | internal/provider/convert.go:177-250 | for every conversation, what the chat writer wrote reads back message by message, in order, with the same system text |
| `Convert.MessagesConversationReads` | internal/provider/convert.go:389-505 | the same for the messages writer, although runs were merged |
| `Convert.ChatRoundTrip` | internal/provider/convert.go:547-627 | conversation and parameters read back unchanged exactly when every message fits its role, tool messages and calls have ids, assistant turns are not empty, tools are named, no tool schema is null, max tokens is not negative and the tool choice is not "any" |
| `Convert.MessagesRoundTrip` | internal/provider/convert.go:632-720 | the same for messages, exactly when also user turns are not empty, arguments are printed values other than null, tools have schemas other than null and max tokens is positive |
| `Convert.ChatToMessagesToChat` | internal/provider/convert.go:823-832 | for every chat request: converted to messages and back it says the same exactly when what it says is normal for messages |
| `Convert.MessagesToChatToMessages` | internal/provider/convert.go:823-832 | for every messages request: converted to chat and back it says the same under the same condition |
| `Convert.NormalRequestsStay` | internal/provider/convert.go:823-832 | as a consequence, a chat request written from a normal conversation comes back as the same request |
| `Convert.RereadIsNormal` | internal/provider/convert.go:632-720 | whatever the messages writer wrote is read as a normal conversation, so a second conversion changes nothing more |
| `Convert.OneResultMessagePerRun` | internal/provider/convert.go:632-646 | one tool-result message per maximal run of tool messages, no two in a row, their blocks the tool messages in order |
| `DayBucket.BucketAndRangeAreInverse` | internal/repository/day_bucket.go:10-21 | day number and day range are inverse exactly for local times from 1970 on, and before that only at midnight |
| `Rollup.StepKeepsInv` | internal/aggregation/aggregate.go:74-167 | every allowed insert, tick, start, cleanup and rebuild keeps the invariant and never moves the watermark back |
| `Rollup.TickSeals` | internal/aggregation/aggregate.go:101-130 | after a tick every day up to today shows all rows ever inserted, and the watermark is the day before yesterday |
| `Rollup.RebuildDaySeals` | internal/repository/daily_stats_repo.go:86-111 | rebuilding a day that is whole in the log makes its row right and spoils no other |
| `Rollup.RebuildAllSeals` | internal/aggregation/aggregate.go:133-145 | a full rebuild while every row is there makes every day right |
| `RollupLaws.RowsAreSelected` | internal/repository/log_repo.go:120-122 | the log queries select exactly the rows of a local day, from a moment on, or of a model, in order |
| `RollupLaws.ColumnsAreSums` | internal/repository/daily_stats_repo.go:26-39 | each column of a day is the sum over all its rows, errors the number of failed ones |
| `RollupLaws.LongestIsOfASuccess` | internal/repository/daily_stats_repo.go:26-39 | the longest duration is the largest of the successful rows, and zero without one |
| `RollupLaws.ModelEntriesSummarise` | internal/repository/daily_stats_repo.go:42-53 | each model has one entry of a day, which adds up that model's rows |
| `Rollup.SealedDaysSurvive` | internal/repository/daily_stats_repo.go:82-111 | in every allowed run, whatever was cleaned, each day up to the watermark has the summary, and per model the summary, of all rows ever inserted for it |
| `Rollup.WatermarkNeverFalls` | internal/aggregation/aggregate.go:116-130 | over every allowed run the watermark only grows |
| `RollupLimits.RebuildKeepsSealExactly` | internal/repository/daily_stats_repo.go:86-111 | rebuilding a sealed day keeps it right exactly when retention has not cut through it |
| `RollupLimits.RebuildShrinksPartlyCleanedDay` | internal/repository/daily_stats_repo.go:86-111 | otherwise its request count falls |
| `RollupLimits.PartlyCleanedDayExists` | internal/cleanup/cleanup.go:210-212 | a concrete run in which a cutoff cuts through a sealed day |
| `RollupLimits.RebuildAllIsSafeExactly` | internal/aggregation/aggregate.go:131-145 | a full rebuild keeps all sealed days exactly while nothing was removed |
| `RollupLimits.TickAfterCleanupSealsExactly` | internal/aggregation/aggregate.go:101-130 | for any cutoff: the next tick gives right tables up to a day exactly when every day it rebuilds up to there has all of its rows left, or none and a right row already |
| `RollupLimits.TickShowsWhatIsLeft` | internal/repository/daily_stats_repo.go:86-111 | otherwise it shows the summary of the rows that are left |
| `RollupLimits.CleanupLosesNothingExactly` | internal/cleanup/cleanup.go:201-229 | over all allowed runs with the same watermark, the tick after a cleanup gives right tables exactly when the cutoff is no later than the end of the watermark day |
| `RollupLimits.SafeSettingsExactly` | internal/service/data_settings.go:85-87 | a number of kept days loses nothing at any moment of a day exactly when it is at least two more than the days since the last tick: two with a tick on the same day, three with one on the day before, one never |
| `RollupLimits.KeepingOneDayLosesARow` | internal/model/data_settings.go:28-29 | a concrete run with one kept day in which a day of two requests is sealed with one |
| `RollupLimits.CleanupIsAllowedExactly` | internal/cleanup/cleanup.go:201-212 | the arithmetic of it: at every moment of a day the cutoff is no later than the end of the watermark day exactly when the watermark is no older than the days kept |
| `RollupLimits.CleanupAfterTick` | internal/cleanup/cleanup.go:201-266 | as a consequence, with a tick on the same or the previous day three days keep the invariant |
| `RollupLimits.LateRowsAreAllowed` | internal/aggregation/aggregate.go:116-130 | as a consequence, rows logged up to a day late still land after the watermark |
| `Store.Tables.RebuildDay` | internal/repository/daily_stats_repo.go:86-111 | delete and insert give the rebuilt day; nothing happens when the log has no row of it |
| `Store.Tables.BackfillAll` | internal/repository/daily_stats_repo.go:115-134 | both tables hold exactly the groups of the rows still there, and the day count is returned |
| `Store.Tables.DeleteBefore` | internal/repository/log_repo.go:33-41 | deletes as many rows from before the cutoff as there are, up to the limit, and nothing else, whichever the database picks |
| `Store.Aggregation.TickOnce` | internal/aggregation/aggregate.go:95-130 | the loops of a tick give the ticked state |
| `Store.Aggregation.EnsureBackfill` | internal/aggregation/aggregate.go:74-91 | rebuilds everything only while the watermark is not set |
| `RollupLaws.FirstStartRebuildsEverything` | internal/aggregation/aggregate.go:74-91 | the first start makes every day right and sets the watermark to the day before yesterday; a later one changes nothing |
| `RollupLaws.DefaultsAre` | internal/cleanup/cleanup.go:201-212 | the lag of the watermark is two days, and a setting that is not positive keeps 90 |
| `Store.Aggregation.RebuildRange` | internal/aggregation/aggregate.go:149-167 | the method takes that step, which `RollupLaws.RangeIsRebuilt` describes |
| `RollupLaws.RangeIsRebuilt` | internal/aggregation/aggregate.go:149-167 | after any allowed rebuild of a range every day from the first to the last one it touches, the last included, is right when it is whole in the log; up to 400 days no other day changes in either table, and beyond that every day is right |
| `Store.Retention.DeleteAllBefore` | internal/cleanup/cleanup.go:214-229 | the batch loop ends and leaves exactly the rows since the cutoff |
| `Store.Retention.Once` | internal/cleanup/cleanup.go:201-229 | one cleanup with defaults for settings that are not positive, and its count |
| `Store.Serve` | internal/aggregation/aggregate.go:53-72 | any allowed mix of steps on the real objects ends in the run's state, sealed days right |
| `Readers.TickBringsUpToDate` | internal/aggregation/aggregate.go:101-130 | a tick brings the tables up to date for its day |
| `Readers.StaysUpToDate` | internal/cleanup/cleanup.go:201-229 | rows of today and allowed cleanups keep them so |
| `Readers.DaysAddUp` | internal/repository/daily_stats_repo.go:138-154 | the table's days and the rows after them add up to all rows since the first of those days |
| `Readers.PeriodSpentIsExact` | internal/service/forecast.go:186-200 | month spending read from table and log is that of all rows ever logged since its start |
| `Readers.TrendByDayIsExact` | internal/service/service.go:283-312 | the trend by day is the grouped query over all rows ever logged |
| `ReadersLaws.TotalsAreSums` | internal/repository/log_repo.go:211-243 | totals are the sums over all rows, and their errors, longest duration and cost those of the table's columns |
| `ReadersLaws.PointsAreDays` | internal/repository/log_repo.go:211-243 | the grouped query has exactly the days with rows in its range, each with the totals of its rows |
| `ReadersLaws.TrendCoversItsDays` | internal/service/service.go:283-312 | a trend of 1 to 400 days covers those up to today; other settings mean 7 or 400 |
| `Readers.DaysThenTodayIsStaleExactly` | internal/service/service.go:402-427 | with rows logged since the tables were up to date, the table's days and today's rows, as the trend and the lifetime figures read them, are those of all rows exactly when no such row belongs to one of those complete days |
| `Readers.TrendIsStaleExactly` | internal/service/service.go:283-312 | with rows logged since the tables were up to date, the trend is exact under the same condition on the days it covers |
| `Readers.TrendBeforeTheFirstTick` | internal/aggregation/aggregate.go:101-130 | before the first tick of a day, exactly when nothing was logged after the last tick of the day before |
| `Readers.PeriodSpentMisses` | internal/service/forecast.go:186-200 | month spending then misses exactly the rows of its complete days that were logged since |
| `Readers.RecentDayCostsAreExact` | internal/service/forecast.go:204-218 | the recent complete days' costs are those of all rows ever logged |
| `Readers.LogCountsOneMoreDay` | internal/service/forecast.go:219-230 | without the table one more day counts; both agree exactly when it has no rows |
| `Readers.AveragesDiffer` | internal/service/forecast.go:219-230 | a concrete log for which they do not agree |
| `ModelUsage.Merge` | internal/service/model_usage.go:106-144 | the merging loops: each model's windows are its recent ones and its days plus today |
| `ModelUsage.ModelDaysAddUp` | internal/repository/daily_stats_repo.go:168-174 | a model's entries and its rows after them add up to all its rows |
| `ModelUsage.RecentIsDirect` | internal/repository/log_repo.go:349-393 | the grouped live query gives each model the direct sums of its windows |
| `ReadersLaws.WindowsAreSums` | internal/repository/log_repo.go:349-393 | a window counts the requests, tokens and cached tokens of the model's own rows |
| `ModelUsage.UsageHybrid` | internal/service/model_usage.go:96-149 | per model the 1-hour, 24-hour, 7-day and 30-day windows are the sums over all rows ever logged, and exactly the models used in 30 days are listed |
| `Lifetime.LifetimeFromDays` | internal/service/service.go:430-469 | for ascending days: true total, true longest duration, the largest day and the first of those that are as large, the longest run of consecutive days, and the run ending at the last day when that is today or yesterday, else 0 |
| `Lifetime.LifetimeOf` | internal/service/service.go:402-427 | from table and log, these are the figures of all rows ever logged: their tokens, the longest duration of their successful requests, and the peak and streaks of their days |
| `PeakWindow.IsPeak` | internal/model/peak_window.go:82-112 | the method answers by the period that `PeakWindowLaws.PeakExactly` describes |
| `PeakWindowLaws.PeakExactly` | internal/model/peak_window.go:82-112 | an instant is peak exactly when its second lies in a span and its day is no holiday the rule skips, and is a weekday of the rule, counted from Thursday 1 January 1970, or a make-up workday it counts |
| `PeakWindowLaws.WeekdaysFollow` | XTokenHubMenuBar/Shared/PeakWindow.swift:85-88 | as a consequence of the definition, day 0 is a Thursday and Monday follows Sunday |
| `PeakWindowLaws.WeekendsAreOffPeak` | internal/model/peak_window.go:82-112 | a concrete Monday-to-Friday rule: Saturday 10 January 1970 is off-peak, Monday 12 January is peak |
| `PeakWindow.NextSwitch` | XTokenHubMenuBar/Shared/PeakWindow.swift:110-141 | returns the next switch: later than the query, with the period it names, and the period constant and different before it; nothing when the period is constant to the end of day 31 |
| `PeakWindow.NextSwitchIsUnique` | XTokenHubMenuBar/Shared/PeakWindow.swift:110-141 | that specification has one answer |
| `PeakWindow.NothingFoundIsNoSwitchExactly` | XTokenHubMenuBar/Shared/PeakWindow.swift:103-141 | for every rule and calendar: when nothing is found there is no switch ever exactly when no day after those looked at counts |
| `PeakWindow.NoSwitchEver` | XTokenHubMenuBar/Shared/PeakWindow.swift:103-141 | as a consequence, without calendar entries nothing found means no switch ever |
| `PeakWindow.LongHolidayHidesASwitch` | XTokenHubMenuBar/Shared/PeakWindow.swift:110-141 | with a holiday past the horizon nothing is found although a switch comes |
| `Costs.OpenAITokensAreBilledOnce` | internal/service/cost.go:66-75 | as a consequence of the split, every input token is billed once exactly when no more are cached than sent |
| `CostLaws.RatesByRank` | internal/model/model_price.go:76-119 | input and output have the rate above the threshold if set, else the off-peak one, else the base one; cache reads and writes the rate above the threshold, else that of the period itself, else the input rate in force |
| `CostLaws.OneMorePrompt` | internal/service/cost.go:87-102 | one more input token adds the input rate, as long as no rate changes and, for OpenAI, no more are cached than sent |
| `CostLaws.OneMoreCached` | internal/service/cost.go:66-102 | one more cached token adds the cache-read rate, and for OpenAI saves the input rate |
| `CostLaws.OneMoreCacheWrite` | internal/service/cost.go:66-102 | one more cache write adds its rate for Anthropic and nothing for OpenAI |
| `CostLaws.OneMoreCompletion` | internal/service/cost.go:87-102 | one more output token adds the output rate, in dollars |
| `CostLaws.NothingCostsNothing` | internal/service/cost.go:87-102 | no tokens cost nothing, whatever the price |
| `CostLaws.StyleExactly` | internal/service/cost.go:251-272 | as a consequence of the definition, which rows are counted the Anthropic way |
| `Costs.RecomputedRows` | internal/service/cost.go:547-563 | as a consequence of `Costs.Recompute`, afterwards every row of the window has the cost, style and period of its own fields; other rows and columns are unchanged |
| `CostLaws.WindowExactly` | internal/repository/log_repo.go:500-519 | row by row: from the start up to but not at the end, and on request only without a positive cost; such a row gets the bill and period of its price, or costs nothing without one; any other row stays |
| `Costs.SecondRunUpdatesNothing` | internal/service/cost.go:554-559 | a second run with the same prices, rate, providers and calendar changes and writes nothing |
| `Costs.LogTable.RecomputeBatch` | internal/repository/log_repo.go:500-519 | the first rows of the window past the cursor, in id order |
| `Costs.LogTable.UpdateCost` | internal/repository/log_repo.go:522-530 | three columns of one row change |
| `Costs.Recompute` | internal/service/cost.go:517-576 | the cursor loop ends, visits each row of the window once, updates exactly the outdated ones; a window that ends before it starts is refused |
| `PriceIndex.IndexPrices` | internal/provider/pricing.go:192-222 | for every key: the first entry of that name, else the first with that alias, else nothing |
| `PriceIndex.MatchPrice` | internal/provider/pricing.go:226-233 | the first candidate name the index knows |
| `PriceIndex.ExactNameWins` | internal/provider/pricing.go:186-222 | an exact name gets the first entry of that name, whatever aliases others have |
| `PriceIndex.MissedOnlyWithoutAnyName` | internal/provider/pricing.go:224-256 | a miss happens exactly when no candidate name is the name or an alias of any entry |
| `PriceLaws.VendorPrefixes` | internal/provider/pricing.go:257-263 | the vendor is what stands before the last slash, unless nothing follows it |
| `PriceLaws.DatesAreTrimmed` | internal/provider/pricing.go:116-117 | a dash and a date at the end of a name are cut off |
| `PriceLaws.OnlyDatesAreTrimmed` | internal/provider/pricing.go:116-117 | and nothing else is |
| `PriceLaws.NamesTried` | internal/provider/pricing.go:235-256 | the four names tried for a model with vendor and date, best first |
| `PriceCache.StepKeepsInv` | internal/service/cost.go:283-326 | every step of lookups, writes and expiry keeps the cache no older than the last returned write unless marked stale |
| `PriceCache.LookupSeesReturnedWrites` | internal/service/cost.go:283-326 | in every interleaving a lookup uses an index at least as new as the last write that had returned when it started |
| `PriceCache.CommitAloneIsNotSeen` | internal/service/cost.go:321-326 | a concrete interleaving in which a committed write that has not returned yet is missed |
| `PriceLaws.StaleIndexIsNotTaken` | internal/service/cost.go:283-326 | as a consequence of the steps, a lookup that starts after an expiry or invalidation waits for a new index |
| `PriceLaws.FreshIndexIsTaken` | internal/service/cost.go:283-326 | as a consequence of the steps, the next lookup takes an installed index without waiting |
| `Selector.DrawsPerIndex` | internal/gateway/selector.go:155-175 | in every round exactly max(weight, 1) of the possible draws select a given index |
| `Selector.Draw` | internal/gateway/selector.go:163-175 | the walk over the shares finds the position the draw falls on |
| `Selector.WeightedOrder` | internal/gateway/selector.go:148-180 | ends, for any draws, with every index once |
| `Selector.ShuffleRuns` | internal/gateway/selector.go:128-144 | shuffling inside runs of equal keys keeps the elements and the order of keys |
| `Selector.SelectCandidates` | internal/gateway/selector.go:29-65 | without a group: a permutation of exactly the eligible channels, native first, then by priority |
| `Selector.SelectGroupCandidates` | internal/gateway/selector.go:71-122 | with a group: a permutation of exactly the eligible pairs, by member priority, channel priority, native first |
| `RoutingLaws.EligibleExactly` | internal/gateway/selector.go:33-48 | as a consequence of the definition, a channel is eligible when it is enabled, has the model, and declares nothing, the client's protocol, chat or messages |
| `RoutingLaws.CandidatesAreTheEligible` | internal/gateway/selector.go:29-65 | each eligible channel is one candidate, passed through exactly when it speaks the client's protocol |
| `RoutingLaws.EntriesAreTheEligible` | internal/gateway/selector.go:71-91 | each member is paired once with each channel eligible for its model, in order |
| `RoutingLaws.EntriesOfAllMembers` | internal/gateway/selector.go:71-91 | the pairs of a group are those of a member and a channel eligible for its model |
| `RoutingLaws.NativeFirst` | internal/gateway/selector.go:50-65 | what the order of candidates means: no native one after a converted one, and lower priority numbers first |
| `RoutingLaws.MembersFirst` | internal/gateway/selector.go:88-96 | what the order of a group's candidates means: member priority, then channel priority, then native ones |
| `Executor.AttemptAnswersOrFails` | internal/gateway/executor.go:313-575 | an attempt either answers with one head and one row, or fails having written nothing |
| `RoutingLaws.FailsExactly` | internal/gateway/executor.go:681-692 | an attempt fails, so that the next candidate is tried, exactly when its request cannot be built, nothing comes back, or the status is 401, 403, 408, 429, 500, 502, 503 or 504 |
| `RoutingLaws.HeadShows` | internal/gateway/executor.go:313-402 | the status a client gets from an attempt that answers: the upstream's own, 200 for a stream, 502 when it has none or its answer cannot be converted |
| `RoutingLaws.LogShows` | internal/gateway/executor.go:313-575 | the row of an attempt: its channel, mode, model and status, and committed exactly for an opened stream |
| `RoutingLaws.ProblemShows` | internal/gateway/executor.go:313-575 | the problem in the row of an attempt that answers |
| `RoutingLaws.StreamEnds` | internal/gateway/executor.go:493-553 | a forwarded stream ends at the first read that ends it or that the client refuses, with that read's problem, and every read with bytes before it was written |
| `Executor.HandleShape` | internal/gateway/executor.go:139-242 | one response head always; one row, about the last attempt, unless a lookup failed; the candidates tried are a prefix, all but the last having failed over; no body before the head, no attempt after it |
| `RoutingLaws.RequestEnds` | internal/gateway/executor.go:139-242 | the status a request ends with: 500 for a failed lookup, 503 without candidates, the last candidate's answer, or 502 with the reason in the row |
| `Executor.FailedAttemptsAreSilent` | internal/gateway/executor.go:136-138 | as a consequence of `Executor.AttemptAnswersOrFails`, a candidate after which the next is tried has written nothing and is not committed |
| `Executor.StreamConverterIsAlwaysThere` | internal/gateway/executor.go:459-468 | the error branch after the head was sent is never taken |
| `Executor.ConvertsExactly` | internal/gateway/executor.go:665-679 | as a consequence of the protocol choice, an eligible channel that must convert can, exactly when it declares protocols or its provider's default is not the client's protocol |
| `RoutingLaws.ConversionTarget` | internal/gateway/executor.go:665-679 | as a consequence of the definition, a converted request goes to chat when the channel declares it, else to messages, else to the provider's own protocol |
| `Executor.CannotConvertAlwaysFails` | internal/gateway/executor.go:602-607 | on a channel without declared protocols whose provider's default is the client's protocol every converted attempt fails, whatever the upstream does; a consequence of the same choice |
| `Executor.Executor.HandleNonStream` | internal/gateway/executor.go:313-402 | events and row of a non-streamed attempt |
| `Executor.Executor.HandleStream` | internal/gateway/executor.go:406-575 | events and row of a streamed attempt |
| `Executor.Executor.Handle` | internal/gateway/executor.go:139-242 | the loop gives the trace of the request |
| `GatewayWS.StepKeepsInv` | frontend/src/api/ws.ts:88-260 | every socket, timer and page event keeps the invariant |
| `GatewayWS.NeverStuck` | frontend/src/api/ws.ts:88-260 | in every interleaving the started client is connecting under a watchdog, open with a heartbeat, or waiting for its reconnect timer, with that one timer armed and at most one socket alive |
| `GatewayWS.ExactlyOne` | frontend/src/api/ws.ts:88-260 | the three situations exclude each other |
| `GatewayWS.TimersLeadOn` | frontend/src/api/ws.ts:183-253 | each situation's timer leads to the next situation; a wait whose socket cannot be made leads to the next wait |
| `GatewayWS.DelaysGrowToTheCap` | frontend/src/api/ws.ts:248-253 | delays never shrink between opens and forced reconnects and never exceed the cap |
| `GatewayLaws.DelaysDouble` | frontend/src/api/ws.ts:248-253 | the first delay is the base, each next one twice the one before until the cap |
| `GatewayLaws.PageEventsReconnect` | frontend/src/api/ws.ts:132-166 | a page that becomes visible or online while not connected drops its sockets and connects at once, with the delays starting over |
| `GatewayLaws.OtherPageEventsDoNothing` | frontend/src/api/ws.ts:151-166 | a hidden page, and a connection that is open and was heard, are left alone |
| `GatewayLaws.HeardConnectionsLive` | frontend/src/api/ws.ts:219-246 | a connection that opened or heard something outlives every heartbeat up to the limit and none after it |
| `GatewayLaws.ReconnectsAreReported` | frontend/src/api/ws.ts:275-293 | the page is told of a reconnect at every opening that follows a loss, and at no other step |
| `GatewayWS.ClosedForGood` | frontend/src/api/ws.ts:328-340 | over every run, after close() no timer is armed and no socket opened any more |
| `GatewayWS.GatewayWS.On` | frontend/src/api/ws.ts:88-260 | the event handlers, timers included, take the steps |
| `EventBus.StepKeepsInv` | internal/eventbus/eventbus.go:59-137 | every step of publishers, subscribers and consumers keeps queues and counts consistent, and a subscriber's order of leaving: unsubscribed, told to quit, gone |
| `EventBus.HandledInOrder` | internal/eventbus/eventbus.go:84-150 | in every interleaving what was handled is a prefix of what was accepted, pending is the difference plus publishes in progress, and zero pending means all handled |
| `EventBus.DroppedOnlyWhenFull` | internal/eventbus/eventbus.go:127-136 | an offered event is accepted as the newest, or dropped exactly when the queue holds 1024 |
| `EventBusLaws.SubscribersGetTheirOwnTypes` | internal/eventbus/eventbus.go:113-137 | in every interleaving a subscriber accepts, and so handles, events of its own type only |
| `EventBusLaws.EveryPublishIsOffered` | internal/eventbus/eventbus.go:113-137 | in every interleaving each publish offers its event once to each subscriber of its snapshot: accepted, dropped and still owed events add up to those publishes |
| `EventBusLaws.SnapshotExactly` | internal/eventbus/eventbus.go:118-125 | as a consequence of the definition, a snapshot has a subscriber exactly when it is subscribed to the event's type |
| `EventBusLaws.NothingOffered` | internal/eventbus/eventbus.go:59-83 | the bus starts in a state both of these laws apply to |
| `EventBus.ExitDrains` | internal/eventbus/eventbus.go:89-97 | a consumer leaves only with everything accepted handled |
| `EventBus.ExitedHandlesNothing` | internal/eventbus/eventbus.go:89-97 | over every run after that nothing is handled for it, and what is in its queue stays |
| `EventBus.NothingIsStrandedExactly` | internal/eventbus/eventbus.go:113-137 | when a consumer leaves, every state reachable from there has everything accepted for it handled, exactly when no publish in progress still has it to serve |
| `EventBus.AnEventIsStranded` | internal/eventbus/eventbus.go:113-137 | a concrete run after which a queued event is never handled and still counted as pending |
| `EventBus.Bus.BeginPublish` | internal/eventbus/eventbus.go:118-125 | the snapshot holds exactly the subscriptions of the type, each once |
| `EventBus.Bus.Count` | internal/eventbus/eventbus.go:127-128 | counts the event before it is offered |
| `EventBus.Bus.Offer` | internal/eventbus/eventbus.go:127-136 | queue or drop, with the count taken back |
| `EventBus.Bus.Consume` | internal/eventbus/eventbus.go:84-111 | one round of a consumer |
| `Throughput.TokensAreConserved` | internal/gateway/throughput.go:58-140 | over every run, counts rotated out plus the current one are the live sessions' totals plus exact totals of finished, last totals of ended sessions and one-off adds |
| `Throughput.BucketsAreTheLastCounts` | internal/gateway/throughput.go:132-139 | the buckets are always the last window of rotated counts |
| `ThroughputLaws.LiveSessionsCountTheirLargest` | internal/gateway/throughput.go:58-83 | a session that is not closed counts the largest total it reported, whatever others do in between |
| `ThroughputLaws.RotationMovesTheCount` | internal/gateway/throughput.go:132-139 | as a consequence of the step, the count becomes the newest bucket and starts over |
| `Throughput.Meter.StreamBegin` | internal/gateway/throughput.go:58-65 | a new session with a new number and nothing counted |
| `Throughput.Meter.StreamUpdate` | internal/gateway/throughput.go:69-83 | only growth of a live session counts |
| `Throughput.Meter.StreamEnd` | internal/gateway/throughput.go:86-90 | the session is removed and what it counted stays |
| `Throughput.Meter.StreamFinish` | internal/gateway/throughput.go:94-105 | the exact total replaces what was counted, downwards too |
| `Throughput.Meter.AddTokens` | internal/gateway/throughput.go:108-115 | a one-off number counts when it is positive |
| `Throughput.Meter.RotateOut` | internal/gateway/throughput.go:132-162 | the in-place shift keeps the window, and the published sum is the window's, never below zero |

## Left out

- The usage figures the converted streams report and their estimates, response ids, model names and timestamps: values copied or guessed, no state of their own.
- Conversion of non-streamed responses: the same fields, copied once.
- Payload fields of a wrong JSON type, and numbers that lose precision when re-encoded: payloads are datatypes, and printing and parsing are taken to be inverse on printed values.
- Responses requests as an inbound form, message parts other than text, and the reasoning tier of a request.
- `ResponsesStream.ResponsesEventConverter.FeedTool`: the key map holds positions in the call list where the source holds references to its entries.
- `Convert.ChatRoundTrip`: tool schemas other than null are compared as values, not as spelled; the model name is replaced by the caller.
- `Rollup.StepKeepsInv`: each tick, cleanup and rebuild is one step; a cleanup between two days of one tick, and database errors in the middle of either, are not modelled.
- Trimming of request headers, VACUUM, the schedule that decides when a cleanup is due, and what a cost recomputation does to the roll-up beyond rebuilding its range.
- `Readers.PeriodSpentIsExact`: the local offset is fixed and a period starts at a local midnight; the calendar that finds the first of a month is not part of this model.
- `Readers.TrendIsStaleExactly`: what the windows per model miss before the first tick of a day is not repeated; they miss the same rows.
- `Readers.TrendByDayIsExact`: days are numbers, not date strings, and the loops that copy query rows into points are functions.
- `PriceCache.StepKeepsInv`: the cached fields are values and each locked section is a step, because the interleaving of the sections is what is proved.
- `Lifetime.LifetimeOf`: days are numbers, not date strings; durations are measured and so not negative.
- Parsing of peak-window rule strings and of calendar date strings; `PeakWindow.IsPeak` takes a parsed rule.
- `PriceCache.LookupSeesReturnedWrites`: reads of the price table do not fail; the exchange-rate cache, which is built the same way, is not repeated.
- `PriceIndex.IndexPrices`: names are in lower case and trimmed, and a price stands for all its rates.
- `Executor.HandleShape`: response bodies are one event for any number of writes, headers and timeouts are not modelled, and saving a row does not fail.
- `GatewayWS.NeverStuck`: a socket on which close() was called never fires open, connect() is called once, and message handlers are not modelled.
- `EventBus.HandledInOrder`: a channel handing an event straight to a waiting consumer is an enqueue and a take; handlers finish.
- `Selector.SelectCandidates`: which of the equally likely orders comes up is not weighted beyond one draw.
- HTTP transport, authentication, balance queries, probing, price fetching, settings, the memory bank and all views.
