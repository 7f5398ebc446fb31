# Verified model of the kirocc proxy

This project models, in Dafny 4.11, the parts of the proxy where a mistake is hard to see:

1. **Response conversion** (`internal/respconv`). Cumulative upstream chunks become deltas by a
   Knuth–Morris–Pratt overlap; deltas are split into thinking and text across chunk boundaries,
   filtered for stop sequences through a hold-back buffer and cut at a rune budget; the result goes
   out as a stream of content blocks or as one message.
   Files: `Text`, `ChunkDelta`, `ThinkingTags`, `ThinkingGrammar`, `StopSequence`, `TokenBudget`, `ToolCalls`,
   `ToolCallOrder`, `Accumulator`, `Streaming`, `Transcript`, `Blocks`, `Signatures`, `Drivers`, `Records`, `Limits`,
   `EndToEnd`, `LimitedText`, `Reasoning`, `Interleaving`, `Witnesses`.
2. **Account reservations** (`internal/pool`). Three atomic Redis scripts used by many processes, the
   local scheduler that hands in-flight counts across reloads, and the tracker of granted reservations.
   Files: `RuntimeState`, `LeaseCounter`, `LeaseLife`, `LocalPool`, `ReservationTracker`.
3. **Prompt cache** (`internal/promptcache`). A bounded, expiring index of prefix fingerprints, and the
   projection of its figures onto the reported usage.
   Files: `CacheKeys`, `PromptCache`, `PromptTracker`, `PromptReplay`, `CacheTargets`, `Reporter`,
   `ReportFigures`.
4. **Requests, frames, usage** (`internal/reqconv`, `internal/kiroproto`, `internal/usage`). The message
   normaliser and payload builder, the event-stream frame codec, and the usage ring with its roll-ups.
   Files: `Normalizer`, `NormalForm`, `Payload`, `PayloadOrder`, `PayloadText`, `EventStream`, `EventHeaders`,
   `UsageStats`, `UsageFigures`, `UsageRotation`, `UsageStore`.
5. **Attempts and gated output** (`internal/app/messages`). The gate and the two-attempt machine built
   on the streaming and buffering drivers. Files: `Gate`, `Retry`, `Attempts`.

`Collections` and `Wrappers` hold small helpers.

Objects whose methods update fields are classes; their methods are proved equal to functions on values
(`ResponseAccumulator`, `SSEWriter`, `GateWriter`, `RedisRuntimeStore`, `Tracker`, `MemoryStore`, …), and the
theorems about whole runs are proved of those functions. `dafny verify dfyconfig.toml` checks everything.

Conventions: text is a sequence of runes; JSON and its normal form, schema validation, hashes, checksums, clocks and random
draws are parameters or arbitrary functions; SHA-256 is taken to be free of collisions (the unambiguity of
what is hashed is proved); floating-point ratios are reals rounded to the nearest integer; integers are
unbounded except where the width matters (frame lengths, header lengths).

Where the code does less than its comments say, the code is followed and the exact condition is proved:

- `kmpOverlap` never reports an overlap of all of `b` (`internal/respconv/chunk_delta.go:63-67`), so it is
  not always the longest: `ChunkDelta.OverlapIsLongestOfAll`.
- White space before `<thinking>` is shown or swallowed depending on the chunking
  (`internal/respconv/thinking_tags.go:71-74`): `ThinkingTags.ChunkingIndependence` gives the exact condition.
- With several stop sequences the first in list order wins, not the first in the text
  (`internal/respconv/stop_sequence.go:14`): `StopSequence.ChunkingIndependence`,
  `StopSequence.SeveralStopsDependOnChunking`.
- A reply can exceed the token limit: text behind a stop set in the same event is not cut
  (`internal/respconv/event_processor.go:32`), nor is a tool input, nor text drained from the tag buffer after
  a stop. `Limits.ExceedsExactly` gives the exact condition, `Witnesses.ExceedsBehindThinking`,
  `Witnesses.ExceedsBeforeStop`, `Witnesses.ExceedsByToolInput` and `Witnesses.ExceedsAtTheEnd` a run for each.
- With a token limit the reply depends on the chunking once the limit is reached before the last segment of
  the text, even if the visible text is empty: `LimitedText.LimitedChunkingIndependence`,
  `Witnesses.EmptyTextIsNotEnough`.
- The buffered reply deduplicates tool calls (`internal/respconv/nonstreaming.go:107`), the stream does not:
  `Drivers.DriversAgree`, `Witnesses.RepeatedCall`.
- A signature that arrives when thinking is not the last block shown is not passed on
  (`internal/respconv/streaming.go:379-398`): `Signatures.SignedExactly`.
- The Redis counter is an upper bound of the live leases, not their number: `LeaseCounter.CounterIsExact` says
  what else it counts, `RuntimeState.ExpiredLeaseStaysCounted` shows it.
- A completed stream without visible output never opens the gate, so that the client receives nothing
  (`internal/app/messages/response.go:127-166`): `Retry.SilentExactly`, `Retry.EmptyReplyIsSilent`.
- Tool results in messages with a role other than user or assistant are not matched against tool uses:
  `Normalizer.NormalizedAnswers`. For the same reason normalising twice can differ from normalising once:
  `NormalForm.IdempotentExactly`. The system prompt placed without an acknowledgement breaks the alternation of
  the history: `Payload.HistoryAlternates`.
- Of several results for one tool use only the last is sent (`internal/reqconv/tool_results.go:65-87`):
  `Payload.ReorderedPermutes`, `Payload.DoubleAnswerIsLost`.
- An event type of 65536 bytes or more is printed with a truncated length: `EventHeaders.EventTypeRoundTrip`.
- The in-memory fast path of the usage query can miss records with equal or falling timestamps:
  `UsageStore.MemoryAgreesExactly`. The device label of a query can be a stale one once the ring has wrapped:
  `UsageStore.MemoryStore.Query`, `UsageStore.StaleCaption`.

## Model

| member | source | states |
|---|---|---|
| `ChunkDelta.BuildFailureTable` | internal/respconv/chunk_delta.go:37-49 | every entry of the failure table is the longest proper border of its prefix |
| `ChunkDelta.KmpOverlap` | internal/respconv/chunk_delta.go:30-70 | the result is the longest k below the length of b such that b's first k elements end a |
| `ChunkDelta.OverlapIsLongestOfAll` | internal/respconv/chunk_delta.go:63-67 | it is the longest overlap of any length exactly when b is empty or not an end of a |
| `ChunkDelta.ComputeDelta` | internal/respconv/chunk_delta.go:5-26 | the loop-based computation gives the case split over the longest overlap |
| `ChunkDelta.DeltaLosesNothing` | internal/respconv/chunk_delta.go:5-26 | the text shown ends with the chunk unless it shrank, and nothing is emitted exactly for shrunk or repeated chunks |
| `ChunkDelta.CumulativeDeltas` | internal/respconv/chunk_delta.go:5-26 | over every chain of cumulative chunks the deltas concatenate to the last chunk |
| `ThinkingTags.PartialTagSuffix` | internal/respconv/thinking_tags.go:101-109 | the descending search finds the longest proper tag prefix that ends the text |
| `ThinkingTags.FastPathAgrees` | internal/respconv/thinking_tags.go:14-20 | skipping the scan for text without `<` changes nothing |
| `ThinkingTags.ParseTags` | internal/respconv/thinking_tags.go:14-83 | the buffer-consuming loop computes the recursive scan |
| `ThinkingTags.ScanMeaning` | internal/respconv/thinking_tags.go:30-80 | scanning a prefix of a steady stream and reading on gives the whole-text reference split |
| `ThinkingTags.SteadySplit` | internal/respconv/thinking_tags.go:14-109 | a stream whose white space never stands before a `<` at a tag position gives the reference split for every chunking |
| `ThinkingTags.UnsteadySplits` | internal/respconv/thinking_tags.go:55-80 | every other stream has two chunkings with different visible text |
| `ThinkingTags.ChunkingIndependence` | internal/respconv/thinking_tags.go:14-109 | the outcome is the same for all chunkings exactly for steady streams |
| `ThinkingGrammar.StreamGrammar` | internal/respconv/thinking_tags.go:14-109 | for every chunking the outputs rebuild the input as (space, open tag, thought, close tag)* then space and text or an open thought, no thought holding a close tag |
| `StopSequence.InitStopSequences` | internal/respconv/stop_sequence.go:68-81 | empty sequences are dropped and the hold-back length suffices for all others |
| `StopSequence.UsableInOrder` | internal/respconv/stop_sequence.go:68-81 | what is kept of two lists is what is kept of each, in order |
| `StopSequence.UsableOne` | internal/respconv/stop_sequence.go:68-81 | of single sequences exactly the empty one is dropped |
| `StopSequence.FilterExact` | internal/respconv/stop_sequence.go:10-42 | the filter stops on exactly the first chunk that completes any sequence; until then emitted plus pending is the input |
| `StopSequence.SingleStop` | internal/respconv/stop_sequence.go:10-48 | with one sequence, output plus flush is the input before its first occurrence, for every chunking |
| `StopSequence.ChunkingIndependence` | internal/respconv/stop_sequence.go:10-48 | with several, the outcome is the same for all chunkings exactly when no prefix selects another sequence |
| `StopSequence.SeveralStopsDependOnChunking` | internal/respconv/stop_sequence.go:14-31 | one text with two sequences: in one chunk the first of the list is reported with text before it, in two chunks the other with none |
| `TokenBudget.ApplyBudget` | internal/respconv/token_budget.go:8-45 | the counting loop keeps exactly the runes that fit and reports exhaustion exactly then |
| `TokenBudget.SpendAllIsPrefix` | internal/respconv/token_budget.go:8-45 | from any point of a run the output stays a prefix of the input |
| `TokenBudget.BudgetIsPrefix` | internal/respconv/token_budget.go:8-45 | over any deltas the output is the first min(total, 4B) runes and exhaustion means 4B reached |
| `ToolCalls.DeduplicateToolCalls` | internal/respconv/tool_calls.go:15-51 | the map-and-order loops compute the deduplicated list, in which ids and keys differ |
| `ToolCalls.PerIdLongest` | internal/respconv/tool_calls.go:20-32 | per id one of the calls with the longest input is kept |
| `ToolCalls.DedupRepresents` | internal/respconv/tool_calls.go:15-51 | what remains was called, and every call is represented by the name and normalised input of one of its id with no shorter an input |
| `ToolCalls.DedupKeeps` | internal/respconv/tool_calls.go:15-51 | deduplication leaves a list alone exactly when all ids and all pairs of name and normalised input differ, and is idempotent |
| `ToolCallOrder.PerIdKeepsFirstLongest` | internal/respconv/tool_calls.go:20-32 | of the calls of an id the first one with the longest input is kept |
| `ToolCallOrder.DedupInOrder` | internal/respconv/tool_calls.go:20-50 | the kept calls stand in the order in which their ids were first called |
| `ToolCallOrder.DedupKeepsFirst` | internal/respconv/tool_calls.go:36-50 | of the calls per id exactly the first of each name and normalised input is kept |
| `Accumulator.ResponseAccumulator.ProcessEvent` | internal/respconv/event_processor.go:13-96 | one event changes the accumulator as the step function says, for every event kind |
| `Accumulator.ResponseAccumulator.ProcessAssistantEvent` | internal/respconv/event_processor.go:17-45 | assistant text passes delta, tag parser, stop filter and budget in this order |
| `Accumulator.ResponseAccumulator.ProcessReasoningEvent` | internal/respconv/event_processor.go:47-65 | reasoning, signature and redacted content, and their suppression after tags |
| `Accumulator.ResponseAccumulator.ProcessToolUseEvent` | internal/respconv/event_processor.go:100-177 | thinking tool, dropped tool, rejected and accepted calls |
| `Accumulator.ResponseAccumulator.ApplyStopSequenceFilter` | internal/respconv/stop_sequence.go:10-42 | the in-place hold-back buffer behaves as the filter on values |
| `Accumulator.ResponseAccumulator.FinalizeStream` | internal/respconv/accumulator.go:148-181 | drains the tag buffer and then the held-back text |
| `Gate.GateDelivers` | internal/app/messages/gate_writer.go:28-80 | over every run the client has nothing before promotion and afterwards exactly the writes since the last discard before it |
| `Streaming.SSEWriter.HandleEvent` | internal/respconv/streaming.go:76-181 | one event is processed, written and, on a stop signal, followed by the closing events |
| `Streaming.SSEWriter.Finish` | internal/respconv/streaming.go:193-229 | the closing events after whatever finalisation still had to say |
| `Transcript.StepReports` | internal/respconv/event_processor.go:13-96 | what a step reports is exactly what it records |
| `Transcript.FinalizeReports` | internal/respconv/accumulator.go:148-181 | the same of finalisation |
| `Transcript.PutMirrors` | internal/respconv/streaming.go:76-181 | each contribution keeps the transcript well formed and the client's content equal to the accumulator's |
| `Transcript.TranscriptWellFormed` | internal/respconv/streaming.go:76-311 | every run: one start, blocks 0,1,2,… opened and closed in order, deltas naming the open block, proper ending unless an error ended it |
| `Blocks.StreamIsReport` | internal/respconv/streaming.go:76-229 | for all events without errors the blocks of the stream are exactly what the accumulator reports, in order, thinking before text, neighbouring pieces of one kind joined, calls and redacted thinking in blocks of their own |
| `Blocks.ReportsExactly` | internal/respconv/event_processor.go:47-65 | an event reports its redacted content, its signature if it is a new one, and its tool call |
| `Signatures.SignedExactly` | internal/respconv/streaming.go:92-122 | the client gets a signature exactly when thinking is shown with one known, or one arrives in plain words while thinking is the last block; and only signatures upstream sent |
| `Drivers.BuildNonStreamingResponse` | internal/respconv/nonstreaming.go:88-168 | the buffered reply is the finalised fold over all events, its calls deduplicated |
| `Drivers.StreamResponse` | internal/app/messages/response.go:56-129 | the streaming loop stops at the first stop signal or error and closes the stream otherwise |
| `Drivers.StoppedAbsorbsAll` | internal/respconv/event_processor.go:13-177 | after a stop no event changes text, thinking, tools or reason |
| `Drivers.StreamingKeepsMessage` | internal/respconv/streaming.go:76-229 | wherever the streaming driver stops it holds the buffered driver's reply |
| `Drivers.DriversAgree` | internal/respconv/nonstreaming.go:88-168 | for all events without errors the read stream has the buffered reply's text, thinking and stop reason; the reply's calls are the deduplicated calls of the stream, and equal to them exactly when those all differ |
| `Records.ToolsExactly` | internal/respconv/event_processor.go:100-177 | in every run the calls recorded are those of the events up to the stop, in order, with ids, restored names and normalised inputs; invalid calls are withheld in order; a call is noted exactly when there is one |
| `Records.ReasonExactly` | internal/respconv/stop_sequence.go:50-66 | every reply ends at a listed stop sequence, at the limit, or else for tool use exactly if it has a call and with the end of the turn exactly if it has none |
| `Records.LatestText` | internal/respconv/event_processor.go:17-50 | in every run the remembered content is that of the last assistant event and the signature the last non-empty one |
| `Records.MetaExactly` | internal/respconv/event_processor.go:70-90 | conversation and context usage are the latest; token counts come from the last metadata event or, without any, from the last metering event |
| `Witnesses.RepeatedCall` | internal/respconv/nonstreaming.go:106-107 | a call repeated under another id stands twice in the stream and once in the buffered reply |
| `Limits.RunCounts` | internal/respconv/event_processor.go:13-177 | in every run, until the response stops, the rune counter is exactly the text, thinking and tool input produced, and below the limit |
| `Limits.ThinkingWithinLimit` | internal/respconv/accumulator.go:132-181 | the thinking of every finalised reply is within four runes per allowed token |
| `Limits.ExceedsExactly` | internal/respconv/event_processor.go:13-177 | text, thinking and tool inputs recorded by a finished run exceed four runes per allowed token exactly when one event passed more text behind a stop set in it, or a longer tool input, than there was room for, or the final draining of the tag buffer did |
| `Limits.FinishesWhenStopped` | internal/respconv/streaming.go:76-181 | for events without errors the streaming driver finishes early exactly when the accumulator fed with all of them has stopped |
| `Witnesses.ExceedsBehindThinking` | internal/respconv/event_processor.go:22-39 | every steady text in one chunk with visible text behind thinking that reaches the limit gives a reply over it |
| `Witnesses.SomeTextExceeds` | internal/respconv/event_processor.go:22-39 | for every limit there is such a text |
| `Witnesses.ExceedsBeforeStop` | internal/respconv/event_processor.go:25-35 | for every limit, text before a completed stop sequence exceeds it |
| `Witnesses.ExceedsByToolInput` | internal/respconv/event_processor.go:149-176 | for every limit, a long tool input exceeds it |
| `Witnesses.ExceedsAtTheEnd` | internal/respconv/accumulator.go:148-181 | for every limit, a held-back `<` drained behind a stop exceeds it |
| `EndToEnd.ReplyIsFunctionOfText` | internal/respconv/event_processor.go:17-45 | for steady text, settled stops and a limit that text and thinking stay below, or none, the reply depends on the final text only, not on the chunks |
| `EndToEnd.StreamIsFunctionOfText` | internal/respconv/streaming.go:76-229 | the same of what a client reads from the stream |
| `LimitedText.LimitedReplyIsFunctionOfText` | internal/respconv/event_processor.go:17-45 | without stop sequences, if the limit is not reached before the last segment, the reply to every chunking is the reference split cut at the limit |
| `LimitedText.TwoReplies` | internal/respconv/event_processor.go:22-39 | otherwise there are two chunkings with different text |
| `LimitedText.LimitedChunkingIndependence` | internal/respconv/event_processor.go:17-45 | for steady text without stop sequences the reply is the same for all chunkings exactly when there is no limit or the thinking before the last segment stays below it |
| `Reasoning.ReasoningExactly` | internal/respconv/event_processor.go:47-65 | for every chain of cumulative reasoning texts, with any events in between that add no thinking, the thinking is the last reasoning text heard, whole, or cut at the limit if it reached it |
| `Reasoning.ReasoningWhole` | internal/respconv/event_processor.go:47-65 | the last reasoning text of all if the response was not stopped |
| `Reasoning.ReasoningAlone` | internal/respconv/event_processor.go:47-65 | with reasoning alone, exactly its first four runes per allowed token, or all of it without a limit |
| `Interleaving.TextOfAnyRun` | internal/respconv/event_processor.go:13-177 | without a limit the reply's text depends on the assistant's text only, whatever reasoning, calls and metadata arrive in between |
| `Interleaving.ThinkingIsWoven` | internal/respconv/event_processor.go:47-118 | without a limit and tags the thinking is what reasoning and the thinking tool add, in order of arrival |
| `Interleaving.TagsWin` | internal/respconv/event_processor.go:56-60 | after text that begins with a thinking tag, in whatever chunks, reasoning events change nothing in the reply |
| `Witnesses.EmptyTextIsNotEnough` | internal/respconv/event_processor.go:22-30 | two chunkings of a text of thoughts only, the limit reached by the first thought, with different replies |
| `Retry.HandleStreamingResponse` | internal/app/messages/response.go:39-167 | the callback loop and what follows it decide outcome and delivery as specified |
| `Retry.JudgeStream` | internal/app/messages/response.go:99-166 | error, broken stream, withheld tool calls, empty turn and success, in this order |
| `Retry.WriteStreamingOrJSONError` | internal/app/messages/toolsearch.go:541-550 | the error goes into the stream exactly when it has passed the gate |
| `Retry.HandleNonStreamingResponse` | internal/app/messages/response.go:169-266 | the buffered attempt's outcome and body |
| `Retry.CallAndHandle` | internal/app/messages/execute.go:44-77 | one attempt, refused by upstream or judged by its driver |
| `Retry.ExecuteWithRetry` | internal/app/messages/execute.go:84-162 | runs the two attempts as specified: at most two, at most one response, exactly one when not streaming or on failure |
| `Retry.StreamAttemptSafe` | internal/app/messages/response.go:99-166 | a streaming attempt that asks for a retry left no byte at the client; a final one gave one well-formed response or none |
| `Retry.OneResponseAtMost` | internal/app/messages/execute.go:84-162 | the same over whole requests, whatever upstream does |
| `Attempts.SecondAttempt` | internal/app/messages/execute.go:84-162 | a second attempt is made exactly when the first asks for it and can be prepared; front and result are then those of the second attempt alone on an untouched client, or one error |
| `Attempts.GoodSecondReply` | internal/app/messages/execute.go:142-146 | after a retry a visible second reply reaches the client whole, streamed or buffered, and nothing else does |
| `Attempts.BufferedOutcome` | internal/app/messages/response.go:169-266 | buffered: three invalid states are retried and other failures reported, then withheld calls and turns of thoughts only are retried, and every other reply is sent |
| `Attempts.StreamedOutcome` | internal/app/messages/response.go:99-166 | streaming: final once the response has stopped or anything was shown, and otherwise the outcome of the buffered attempt |
| `Attempts.StreamDelivers` | internal/app/messages/response.go:127-166 | a settled stream with something to show has shown exactly the buffered reply |
| `Attempts.LastWord` | internal/app/messages/execute.go:107-161 | what the client is told when both attempts ask for another one |
| `Retry.SilentExactly` | internal/app/messages/response.go:127-166 | a completed stream delivers nothing exactly when the buffered reply has no text and no call and the attempt is not retried |
| `Retry.EmptyReplyIsSilent` | internal/app/messages/response.go:127-166 | an empty upstream reply leaves the client with nothing |
| `RuntimeState.RedisRuntimeStore.ReserveScript` | internal/pool/runtime_state.go:138-170 | the script refuses or grants as the step function on the key space says |
| `RuntimeState.RedisRuntimeStore.ExtendScript` | internal/pool/runtime_state.go:216-233 | only a live lease is renewed, with its counters |
| `RuntimeState.RedisRuntimeStore.ReleaseScript` | internal/pool/runtime_state.go:259-285 | only a live lease is released, lowering its counters |
| `RuntimeState.RunKeeps` | internal/pool/runtime_state.go:138-303 | every run of the scripts by any processes keeps the invariant over leases, counters and deadlines |
| `RuntimeState.NeverOverAdmitted` | internal/pool/runtime_state.go:138-170 | live leases never exceed the counter or the limit; the counter covers model counters and model-less leases |
| `RuntimeState.QuietReturnsToZero` | internal/pool/runtime_state.go:138-303 | one lease duration without reserve or extend returns every account and model counter to zero |
| `RuntimeState.LateReleaseIsNothing` | internal/pool/runtime_state.go:259-285 | a second or late release, at any later time, changes nothing |
| `RuntimeState.ReleaseEndsLease` | internal/pool/runtime_state.go:259-285 | after a release the lease is not live |
| `RuntimeState.ExpiredLeaseStaysCounted` | internal/pool/runtime_state.go:138-170 | a run in which the counter exceeds the live leases |
| `LeaseCounter.CounterIsExact` | internal/pool/runtime_state.go:138-285 | in every run the counter is the live leases plus those granted since the counter was created that expired unreleased, and equals the live leases exactly when there is none of the latter |
| `LeaseLife.AliveExactly` | internal/pool/runtime_state.go:138-285 | over any run a lease is live exactly when it was not given back and less than one lease duration passed between its renewals and since the last |
| `LeaseLife.TendedLeaseIsLive` | internal/pool/runtime_state.go:216-233 | a reservation granted in any run stays live while its holder renews it in time and keeps it |
| `LeaseLife.RenewedLeaseIsLive` | internal/pool/runtime_state.go:216-233 | a live lease that is renewed stays live for less than one duration more, whatever else happens |
| `LeaseLife.TendedRelease` | internal/pool/runtime_state.go:259-285 | giving back a tended reservation lowers the account's and the model's counter by one and no other |
| `LeaseLife.GrantedExactly` | internal/pool/runtime_state.go:138-170 | in every run a reservation is granted exactly when nothing cools down and live and lapsed leases are below the limit; it raises two counters by one and otherwise changes nothing |
| `LeaseLife.ReleaseLowers` | internal/pool/runtime_state.go:259-285 | in every run releasing a live lease removes it and lowers exactly its two counters by one |
| `LeaseLife.RenewalCountsSame` | internal/pool/runtime_state.go:216-233 | a renewal changes no count |
| `LeaseLife.CooldownLasts` | internal/pool/runtime_state.go:305-325 | over any run a cooldown lasts exactly as long as it was last set for, unless it is cleared |
| `LocalPool.Credential.Reserve` | internal/pool/types.go:243-270 | a slot is taken exactly when the credential is ready for the model |
| `LocalPool.Credential.ReleaseReservation` | internal/pool/types.go:275-289 | gives back one slot and one model slot, never below zero |
| `LocalPool.Credential.CopyRuntimeState` | internal/pool/scheduler_default.go:93-130 | the in-flight counters carry over to the reloaded credential |
| `LocalPool.Scheduler.TryReserve` | internal/pool/conductor_default.go:244-246 | a reservation on a registered credential is one loan more |
| `LocalPool.Scheduler.Acquire` | internal/pool/conductor_default.go:122-160 | gives the first pick that is registered and ready, adding one loan of its identity; none exactly when no pick is ready, and then nothing changes |
| `LocalPool.Scheduler.Release` | internal/pool/conductor_default.go:300-324 | ends one loan and touches no credential of another identity, even one that reuses the id |
| `LocalPool.Scheduler.Adopt` | internal/pool/scheduler_default.go:61-130 | a reloaded id keeps identity, counters and standing, a new id gets a new identity |
| `LocalPool.Scheduler.Register` | internal/pool/scheduler_default.go:61-90 | a reload keeps every count equal to the loans of its identity |
| `LocalPool.Scheduler.Add` | internal/pool/scheduler_default.go:374-388 | refuses a missing or known credential and gives others a fresh identity |
| `LocalPool.Scheduler.Remove` | internal/pool/scheduler_default.go:392-406 | removes one credential and keeps all loans |
| `LocalPool.RunPool` | internal/pool/scheduler_default.go:61-150 | over every run a registered credential's count is the number of loans of its identity and within its limit |
| `ReservationTracker.Conductor.Pop` | internal/pool/runtime_state.go:347-364 | takes the newest reservation of the model, the last of its credential's list, or finds none |
| `ReservationTracker.Conductor.Acquired` | internal/pool/conductor_default.go:163-188 | a granted id is tracked, or returned at once if the credential was disabled |
| `ReservationTracker.Conductor.Release` | internal/pool/conductor_default.go:300-324 | a request in flight returns one tracked id that was not returned before; any other returns nothing |
| `ReservationTracker.AllReturned` | internal/pool/runtime_state.go:341-364 | with no request in flight nothing is tracked and each id was returned once |
| `ReservationTracker.RunConductor` | internal/pool/conductor_default.go:163-188 | over every run the granted ids, one per grant, are exactly the tracked ones plus the returned ones, each once; all are returned when no request is open |
| `CacheKeys.FramingInjective` | internal/promptcache/tracker.go:239-245 | the length-prefixed framing that is hashed is unambiguous |
| `CacheKeys.BuildProfile` | internal/promptcache/tracker.go:226-280 | one lookup point per prefix with fingerprint and tokens, breakpoint lifetimes and total |
| `CacheKeys.SamePrefix` | internal/promptcache/tracker.go:239-250 | equal fingerprints mean equal canonical prefixes |
| `PromptCache.TargetTokens` | internal/promptcache/tracker.go:734-744 | a non-zero target is at least the minimum and below the total |
| `CacheTargets.TargetExactly` | internal/promptcache/tracker.go:734-744 | a non-zero target is within half a token of its portion of the total, or all but one token; it is zero exactly when the portion is below one half, below the minimum, or cannot leave a token |
| `CacheTargets.PortionExactly` | internal/promptcache/tracker.go:738-738 | the portion is the ratio of the total, the ratio brought into [0, 0.99] |
| `CacheTargets.ClampIsNearest` | internal/promptcache/tracker.go:738-738 | a clamped value is the nearest point of its interval |
| `CacheTargets.TargetMonotone` | internal/promptcache/tracker.go:734-744 | a higher ratio, a longer prompt or a lower minimum never lowers the target |
| `CacheTargets.RatioWithinSpread` | internal/promptcache/tracker.go:746-757 | the ratio in use is within 0.03 of the requested one and within [0, 0.99] |
| `CacheTargets.RatioEnds` | internal/promptcache/tracker.go:746-757 | the request's number spans the spread from end to end and is followed monotonically |
| `CacheTargets.RatioMonotone` | internal/promptcache/tracker.go:746-757 | a higher requested ratio never lowers the ratio in use |
| `CacheTargets.TargetNearRequest` | internal/promptcache/tracker.go:503-510 | a request's target is within three percent of the total, and half a token, of the portion it asked for, or all but one token |
| `CacheTargets.ShareIsProportional` | internal/promptcache/tracker.go:580-586 | a prefix gets its proportion of the target, to half a token |
| `CacheTargets.ShareMonotone` | internal/promptcache/tracker.go:580-586 | longer prefixes and larger targets never get a smaller share |
| `CacheTargets.BookedLifetime` | internal/promptcache/tracker.go:595-607 | a creation is booked on the hour exactly when the last block that asks for a lifetime asks for an hour or more, else on five minutes |
| `CacheTargets.HitExactly` | internal/promptcache/tracker.go:525-541 | the prefix hit has the minimum of tokens and a stored, unexpired entry, and no longer one has |
| `CacheTargets.LastBreakpoint` | internal/promptcache/tracker.go:252-272 | the last breakpoint has the lifetime of the last block that asks for one, and there is one exactly when some block does |
| `PromptCache.WholeShare` | internal/promptcache/tracker.go:580-586 | the whole prompt's share of the target is the target |
| `PromptCache.DropEarliest` | internal/promptcache/tracker.go:683-702 | removes exactly the excess, and nothing that expires later than a survivor |
| `PromptCache.DropScopes` | internal/promptcache/tracker.go:667-680 | removes exactly the excess scopes, those whose earliest entry expires first |
| `PromptCache.EnforceLimits` | internal/promptcache/tracker.go:665-703 | scopes and entries within bounds, no empty scope, scopes and then entries that expire first go first, nothing changed when within bounds |
| `PromptCache.EntryCount` | internal/promptcache/tracker.go:705-711 | the loop counts the entries of all scopes |
| `PromptCache.EarliestExpiry` | internal/promptcache/tracker.go:724-732 | the loop finds the earliest expiry of a scope |
| `PromptTracker.Longest` | internal/promptcache/tracker.go:525-541 | the descending search finds the longest usable prefix |
| `PromptTracker.InsertPoints` | internal/promptcache/tracker.go:580-591 | a commit adds its prefixes only, each one with enough tokens with its share of the target, the whole prompt with all of it |
| `PromptTracker.GrownSize` | internal/promptcache/tracker.go:572-591 | a commit adds at most one entry for each prefix and one scope |
| `PromptTracker.PruningReadsSame` | internal/promptcache/tracker.go:609-629 | pruning removes nothing a lookup could use |
| `PromptTracker.ReadsAreShared` | internal/promptcache/tracker.go:525-541 | a cache read has a live prefix behind it that an earlier commit of the scope shares |
| `PromptTracker.Tracker.Compute` | internal/promptcache/tracker.go:503-552 | read plus creation is the target, booked on one lifetime; the read is that of the longest live prefix, shared with an earlier commit; the entry hit is renewed, no live entry is lost or shortened and none is added |
| `PromptTracker.Tracker.Update` | internal/promptcache/tracker.go:554-593 | the bounds hold after a commit, which adds only its own prefixes, and every prefix stays with its share when there is room |
| `PromptTracker.Tracker.Sweep` | internal/promptcache/tracker.go:631-643 | exactly the expired entries go, their number is returned, live ones stay as they are |
| `PromptReplay.Perform` | internal/promptcache/tracker.go:503-643 | over any run of lookups and sweeps with a forward clock every entry still live at the end keeps its content and lives no shorter, and nothing is added |
| `PromptReplay.CommitThenRead` | internal/promptcache/tracker.go:503-593 | after a commit and any lookups and sweeps, a later request sharing exactly n blocks reads their share of the committed target, up to its own target |
| `PromptReplay.CommitAndReplay` | internal/promptcache/tracker.go:503-593 | replaying a committed request before it expires reads the whole target and creates nothing, whatever was looked up or swept in between |
| `Reporter.SampleField` | internal/promptcache/reporter.go:573-594 | a field is sampled exactly when it and its goal are positive, to at least one and at most its value and its ceiling |
| `Reporter.SampleCreation` | internal/promptcache/reporter.go:540-571 | likewise, and zero only beside a cache read |
| `Reporter.CapSharesLimit` | internal/promptcache/reporter.go:647-660 | the cap is proportional: the parts sum to min(limit, total), the first is its share rounded down, and neither is raised |
| `Reporter.Amplify` | internal/promptcache/reporter.go:662-675 | small inputs stay, others grow and never exceed the simulated cap |
| `Reporter.Simulated` | internal/promptcache/reporter.go:455-490 | simulated read plus creation is the target, the read the tracker's own up to the target, and the creation booked on one lifetime |
| `Reporter.ProjectInput` | internal/promptcache/reporter.go:434-446 | moving the input difference keeps input plus cache read constant |
| `Reporter.ApplyReportProfile` | internal/promptcache/reporter.go:391-453 | all figures sound, each field at most its base, equal to it unless sampled and then below its ceiling, lifetimes capped |
| `ReportFigures.AmplifyExactly` | internal/promptcache/reporter.go:662-690 | an amplified input is the scaled one, rounded; above the cap it is the cap less at most 8 percent of it |
| `ReportFigures.SimulatedExactly` | internal/promptcache/reporter.go:455-464 | the simulated cache use is the ratio of the amplified input, rounded |
| `ReportFigures.FieldBands` | internal/promptcache/reporter.go:573-594 | seventy of a hundred rolls give 2 to 25 percent, twenty-five 26 to 70, the rest 71 to 100 |
| `ReportFigures.ModesMean` | internal/promptcache/reporter.go:391-446 | raw fields stay raw, preserved ones are the computed ones, sampled ones below their ceiling; moved input differences add to the cache read |
| `Normalizer.TextualizeOrphanToolResults` | internal/reqconv/message_normalizer.go:70-105 | the loop turns exactly the unanswered results of user messages into text |
| `Normalizer.TextualizeAllToolContent` | internal/reqconv/message_normalizer.go:38-66 | the loop turns every tool block into text |
| `Normalizer.NormalizeRoles` | internal/reqconv/message_normalizer.go:198-213 | other roles become user, nothing else changes |
| `Normalizer.MergeAdjacentSameRole` | internal/reqconv/message_normalizer.go:132-165 | the index loops merge maximal runs of plain text |
| `Normalizer.EnsureAlternatingRoles` | internal/reqconv/message_normalizer.go:217-237 | fillers stand exactly between equal roles |
| `Normalizer.Normalize` | internal/reqconv/message_normalizer.go:19-26 | starts with user, strictly alternates, empty only for the empty list; tool-free without tools, answered with tools and standard roles |
| `Normalizer.NormalizedAnswers` | internal/reqconv/message_normalizer.go:70-105 | with tools, every tool result of a user message names a tool use of the message before it exactly when the odd roles of the request allow it |
| `Normalizer.NormalizedToolFree` | internal/reqconv/message_normalizer.go:38-66 | without tools no tool block is left |
| `NormalForm.FixedPoints` | internal/reqconv/message_normalizer.go:16-26 | with tools, normalisation leaves exactly the canonical lists alone |
| `NormalForm.FixedPointsWithoutTools` | internal/reqconv/message_normalizer.go:16-66 | without tools likewise, and normalising twice is always normalising once |
| `NormalForm.IdempotentExactly` | internal/reqconv/message_normalizer.go:16-237 | with tools, normalising twice is normalising once exactly when the messages of other roles answer the assistant message before them and none with an empty block list is left unmerged |
| `NormalForm.StandardIsIdempotent` | internal/reqconv/message_normalizer.go:16-26 | requests with the two standard roles meet that condition |
| `Normalizer.NothingLost` | internal/reqconv/message_normalizer.go:129-237 | from the settled messages on, every line each role says and every structured message survives in order |
| `NormalForm.OrphansKeepRest` | internal/reqconv/message_normalizer.go:70-105 | settling keeps number, order and roles of the messages, and each content up to what its predecessor does not answer |
| `NormalForm.AnsweredBlocks` | internal/reqconv/message_normalizer.go:88-99 | block by block, exactly the results that answer nothing become text |
| `NormalForm.TextInPlace` | internal/reqconv/message_normalizer.go:38-66 | without tools messages keep number, order and roles and each block is kept or turned into text in its place |
| `NormalForm.RolesReduced` | internal/reqconv/message_normalizer.go:198-213 | every role but the assistant's becomes the user's and nothing else changes |
| `PayloadText.TextualizedSays` | internal/reqconv/message_normalizer.go:48-56 | a tool block turned into text names its id and tool and ends with its input or result |
| `NormalForm.OnlyFillersAdded` | internal/reqconv/message_normalizer.go:181-237 | the merged messages all stand in the result in order, and everything else there is a filler |
| `Payload.ReorderToolResults` | internal/reqconv/tool_results.go:65-87 | answers the same tool uses, and is a permutation exactly when the ids match |
| `Payload.ReorderedPermutes` | internal/reqconv/tool_results.go:65-87 | nothing is lost or doubled exactly when there is nothing to reorder or every known id stands among the uses as often as among the results, all its results equal |
| `PayloadOrder.ReorderedExactly` | internal/reqconv/tool_results.go:65-87 | first, in the order of the uses, the last answer to each use that is answered; then, in their own order, the answers to no use |
| `PayloadOrder.ReorderedFollows` | internal/reqconv/tool_results.go:75-86 | for all inputs, results for uses stand in the order of the uses and before all others |
| `Payload.DoubleAnswerIsLost` | internal/reqconv/tool_results.go:65-87 | of two different results for one use the first is lost |
| `Payload.BuildHistory` | internal/reqconv/history.go:27-88 | one entry per message of its role, results in the order of the uses before them |
| `PayloadOrder.HistoryOrdered` | internal/reqconv/history.go:27-88 | the results of each history entry follow the uses of the entry before it |
| `PayloadText.HistorySays` | internal/reqconv/history.go:27-88 | each entry of the history says what its message says |
| `PayloadOrder.UsesInOrder` | internal/reqconv/tool_results.go:45-62 | tool uses are carried block by block with id, shortened name and input, and nothing else is |
| `PayloadOrder.AnswersInOrder` | internal/reqconv/tool_results.go:8-42 | tool results are carried block by block with id, status and a text that is never empty |
| `PayloadText.TextHoldsBlocks` | internal/reqconv/content_text.go:13-31 | the text of a message holds what its blocks show, in order, a space apart, and nothing else |
| `PayloadText.ShownInOrder` | internal/reqconv/content_text.go:17-29 | text blocks are shown as they are, tool and hidden blocks not at all, block by block in order |
| `Payload.BuildPayload` | internal/reqconv/build_payload.go:31-72 | history shape and answered tool results of the whole payload |
| `PayloadOrder.PayloadOrdered` | internal/reqconv/build_payload.go:43-56 | in every payload the results of each entry and of the current message follow the uses of the entry right before |
| `PayloadText.PayloadSays` | internal/reqconv/build_payload.go:31-167 | every payload says what the normalised messages say, the system prompt first, before the current text or nowhere as the mode says, and is never silent |
| `PayloadText.SplitKeeps` | internal/reqconv/build_payload.go:97-112 | splitting loses no message and makes the user go on exactly if the assistant spoke last |
| `Payload.HistoryAlternates` | internal/reqconv/build_payload.go:101-167 | the history alternates from user with even length exactly unless the system prompt is placed without acknowledgement |
| `Payload.PayloadAnswered` | internal/reqconv/build_payload.go:43-56 | each tool result of the payload names a tool use of the entry right before it |
| `EventStream.AssembleFrame` | internal/testutil/testutil.go:43-61 | the appended bytes are lengths, prelude checksum, headers, payload and message checksum |
| `EventStream.Reader.ReadFrame` | internal/kiroproto/frame.go:20-81 | each outcome occurs under its condition only; a frame read is a printed frame taken off the front; no unsigned underflow |
| `EventStream.FrameIffPrinted` | internal/kiroproto/frame.go:20-81 | a frame is read exactly when a printed one stands at the front, and end of stream exactly for no bytes |
| `EventStream.OneFrame` | internal/kiroproto/frame.go:50-80 | at most one frame stands at the front |
| `EventStream.Reader.ReadFrames` | internal/kiroproto/eventstream.go:84-100 | the bytes are the frames read followed by what ended the reading |
| `EventStream.StreamRoundTrip` | internal/kiroproto/frame.go:20-81 | any reading of concatenated frames is those frames and a clean end |
| `EventStream.SendAndReceive` | internal/testutil/testutil.go:43-61 | printing and reading any messages within the limit gives them back |
| `EventHeaders.ExtractFrameHeaders` | internal/kiroproto/frame.go:100-150 | the walk reads the longest run of headers in bounds and returns the last message and event type |
| `EventHeaders.OneWalk` | internal/kiroproto/frame.go:100-150 | header bytes can be read in only one way |
| `EventHeaders.EventTypeRoundTrip` | internal/testutil/testutil.go:30-40 | the printed event type is recovered exactly when its length fits two bytes |
| `UsageStats.Rollup` | internal/usage/store_memory.go:73-126 | totals, cells, key and device cells and buckets each hold exactly their records |
| `UsageStats.TotalsAgree` | internal/usage/store_memory.go:199-239 | every total is the sum over cells, over API keys, over devices and over the timeline |
| `UsageStats.BucketExists` | internal/usage/store_memory.go:83-108 | every record of the window has a bucket |
| `UsageFigures.RollupFigures` | internal/usage/store_memory.go:199-256 | every figure of a roll-up, in total, by API key, by device, by credential and model and by bucket, is the count or the sum of that figure over exactly the records it speaks of |
| `UsageFigures.CellExactly` | internal/usage/store_memory.go:240-256 | a cell holds the counts and sums of its records, their latencies summed up and the latest time |
| `UsageFigures.EveryRecordHasCells` | internal/usage/store_memory.go:212-238 | no record is left without its cells |
| `UsageFigures.SelectExactly` | internal/usage/store_memory.go:95-101 | the records of a window are exactly those within it that match the filter |
| `UsageFigures.BucketExactly` | internal/usage/store_memory.go:83-116 | the records of a bucket are exactly those of its span of time |
| `UsageFigures.MatchesExactly` | internal/usage/store_memory.go:168-187 | a record passes exactly when no non-empty list of the filter leaves it out |
| `UsageRotation.RollupRotates` | internal/usage/store_memory.go:73-126 | rotating the records changes no total, cell, count or bucket |
| `UsageRotation.CaptionRotates` | internal/usage/store_memory.go:232-238 | the label after going through newer records first is the latest exactly when one side has none or both agree |
| `UsageStore.MemoryStore.Append` | internal/usage/store_memory.go:37-49 | the ring holds the last min(n, capacity) records in order |
| `UsageStore.MemoryStore.Oldest` | internal/usage/store_memory.go:60-70 | the timestamp of the first retained record |
| `UsageStore.MemoryStore.Query` | internal/usage/store_memory.go:73-126 | totals, cells, key and device counts and timeline are those of the retained records, whatever the rotation; a device's label is the latest exactly when one side of the ring has none for it or both agree |
| `UsageStore.StaleCaption` | internal/usage/store_memory.go:232-238 | a wrapped ring whose query shows a stale device label |
| `UsageStore.MemoryStore.Recent` | internal/usage/store_memory.go:131-163 | the newest-first filtered prefix of the retained records |
| `UsageStore.MemoryAgreesExactly` | internal/usage/aggregator.go:73-77 | the fast path counts what the full log counts exactly when dropped records are strictly older |
| `UsageStore.IncreasingDropsOlder` | internal/usage/aggregator.go:73-77 | strictly increasing timestamps suffice |
| `UsageStore.Aggregator.Query` | internal/usage/aggregator.go:73-86 | which store answers, and that memory's totals, cells and timeline are those of the full log when dropped records are strictly older |

## Left out

- Usage payloads, token resolution and the usage adjuster of the response drivers.
- Client write errors, HTTP status codes and headers of the gate, and the type string of error events.
- `ResetAccumulator` and the multi-round thinking-tool and tool-search loops.
- The byte level of strings: the pipeline is modelled on runes (the overlap search is generic in the element).
- EndToEnd.ReplyIsFunctionOfText: with stop sequences and a token limit, text and thinking must stay below the limit; the exact condition is proved without stop sequences (`LimitedText`).
- EndToEnd.StreamIsFunctionOfText: the same.
- Drivers.DriversAgree: compares calls when no tool name is set to be dropped; a dropped tool is used by the tool-search loop only.
- Retry.SilentExactly: likewise for requests without a dropped tool.
- Affinity, region hints, selectors, the token refresher and the order of ready credentials; `Acquire` takes the selector's picks as a list, so that its retry loop ends with the list.
- Cooldown and quota marking, lease renewal timing and the names of Redis keys.
- LocalPool.Scheduler.Register: takes distinct ids, and for a known id either the registered object or a fresh credential with the same limit; an object registered again after its removal is excluded, because its old counts then belong to another identity.
- LocalPool.Scheduler.Release: speaks of loans that are outstanding; the source also tolerates a release too many and keeps the count at zero (`LocalPool.Credential.ReleaseReservation`).
- LocalPool.Scheduler.Add: takes a credential that was not registered before and has no request in flight.
- Flattening of requests into cache blocks, their canonical form and the model's minimum: blocks and minimum are given.
- PromptReplay.CommitThenRead: no other commit between the two calls; room in the index is a condition that can be read off before the commit.
- PromptReplay.CommitAndReplay: the same.
- 64-bit overflow in the reporter and in usage sums, non-finite ratios, and the spelling of field modes.
- Images, thinking prefixes, tool entries and message ids of the payload; the text clean-up and the shortening of tool names are given functions.
- Normalizer.NothingLost: starts after the tool blocks are settled; the settling itself is described block by block in `NormalForm`.
- Read errors of the network other than the end of the stream, and the decoding of event payloads.
- The persistent usage store and its write queue: it answers from the records it was given.
- Admin handlers, settings, API keys, databases, OAuth, tracing, web search and tool search: easy or input/output only.
