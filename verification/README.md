# Verified models of the proxy's stream, history and limiter cores

The proxy translates between three wire formats: Anthropic Messages (native event streams and
histories), OpenAI chat completions and OpenAI Responses. Its difficult logic sits in small state
machines without I/O. This project models them and proves what they are for. Run
`dafny verify dfyconfig.toml` to check it.

Each core has a specification over values, the imperative code proved equal to it, and theorems
about the specification over all inputs, all runs or all interleavings.

| file | core | main results |
|---|---|---|
| `StreamContract.dfy`, `BlockRepair.dfy`, `RepairContract.dfy`, `RepairExact.dfy`, `RepairOverlap.dfy`, `RepairContent.dfy`, `RepairOrder.dfy` | repair of native content-block streams, and the repository's own stream checker as its specification | the exact condition on the upstream events under which the repaired stream meets the whole contract; when exactly at most one block is open; deltas and message events are conserved in order, deltas also per block; the exact condition for the thinking policy |
| `Assembler.dfy`, `AssemblerContract.dfy`, `AssemblerContent.dfy`, `AssemblerReference.dfy` | assembly of Responses streams | for every event sequence, well formed or not, a client that checks each event against all earlier ones accepts the stream; which event ends it, how, and with which output and usage, by an account without slots and dictionary; text is conserved; each block collects exactly its own deltas |
| `ThinkTags.dfy` | incremental `<think>` parser | for every chunking the result is that of a one-pass parser of the whole text |
| `History.dfy`, `HistoryReplay.dfy`, `HistoryClaims.dfy`, `HistoryReasoning.dfy`, `HistoryWire.dfy` | replay of Anthropic histories as chat messages | order is kept for everything that is not deferred; how often each deferred group appears; the exact conditions for keeping every text and every reasoning field once; what follows a tool call; the messages of users, tools and the assistant on the wire, from the blocks of the history |
| `ResponsesInput.dfy`, `ToolNames.dfy` | Responses requests as Anthropic messages, tool names | each item's own message in full, the system prompt, and which message carries which reasoning; a function output is kept exactly with its call; names are valid, and lead back exactly if they tell the tools apart |
| `SlidingWindow.dfy`, `RetryLimiter.dfy`, `MessageQueue.dfy` | the three limiters | no window holds more than the limit, for any number of tasks and retry loops; grants and waits are exact; when exactly an attempt begins while requests are blocked; the backoffs double; queue, futures, order of service and what the worker runs in every interleaving |
| `Framing.dfy`, `Arrival.dfy` | event and line framing | results depend on the concatenation of the chunks alone; what is written arrives, an unfinished last event and line included |
| `SessionPool.dfy`, `SessionTickets.dfy`, `SessionIndex.dfy`, `Transcript.dfy` | managed sessions, the reverse index of the session store, transcripts of limited length | invariants over every run, with the exact condition under which a step keeps them; pool and index are what the actions say; the longest run of last segments |
| `Text.dfy` | | strings and sequences |

Conventions. A dictionary whose order matters is a sequence in insertion order. JSON, hashes,
token counts and tool lookup are function parameters (`Env`, `Json`, `digest`), new ids are
parameters, and time is a real number that does not decrease. A code region under a lock, or
between two suspension points, is one atomic step. Errors the code raises are `Result` or `Option`
values. Response and item ids, timestamps and model names are not modelled: an output item is
identified by its `output_index`.

Where the code and a simpler claim part ways, the model follows the code, and a lemma names the
input or the exact condition:

* Block repair does not close other blocks when a delta reopens one, so two downstream blocks can
  be open at once in a stream that meets the contract (`TwoBlocksOpen`). Exactly the streams in
  which a delta comes for an index that is not live while another one is do that
  (`OneBlockAtATimeExactly`).
* Starting an index again whose block is open is fatal (`RestartIsFatal`), and starting one again
  whose block was closed early takes two stops, since the first one still counts for the closed
  block (`RestartTakesTwoStops`); both are part of the exact condition
  (`RepairedStreamMeetsContract`).
* With thinking disabled a signature delta for an index that was not dropped still makes a thinking
  block (`SignatureLeaks`); the exact condition is `ThinkingPolicyExactly`.
* A result behind the last awaited one, in the same user message, emits deferred assistant text
  once more (`ExtraResultRepeatsText`, exactly `TextIsKeptExactly`); a message's own reasoning is
  written twice if anything stands behind its tool calls (`OwnReasoningIsWrittenTwice`, exactly
  `ReasoningIsKeptExactly`); text in front of tool calls that is exactly one space
  becomes empty (`ContentIsItsParts`).
* The documentation of the limiter says that a block pauses all requests
  (`providers/rate_limit.py:59`), but a task that passed its one check and waits for the window
  begins its attempt while blocked (`AttemptWhileBlocked`): exactly if the block was set behind
  that check to an instant that is still to come (`AttemptIsBlockedExactly`).
* The branch of the sliding window that sleeps for no time is never taken (`WaitIsExact`), and
  the branch of the transcript that keeps the last segment whole is never taken either
  (`Render`).
* Registering a session id that is already in a pool loses a session or puts an id in two places
  (`RegisterKeepsInvExactly`); two processes that report one id do that (`SharedIdLosesSession`).

## Model

| member | source | states |
|---|---|---|
| StreamContract.AssertStreamContract | core/anthropic/stream_contracts.py:97-162 | the checker's loop over open and seen blocks accepts exactly the streams of the predicate `Contract` |
| StreamContract.CheckAppend | core/anthropic/stream_contracts.py:111-161 | checking a stream is checking its first part and then, from what is open and seen by then, the rest |
| BlockRepair.NativeSseBlockPolicy.SyntheticCloseOtherOpenBlocks | core/anthropic/native_sse_block_policy.py:129-150 | the loop closes every other open block in dictionary order, with one stop each, and remembers the suppressed stop |
| BlockRepair.NativeSseBlockPolicy.AllocateNewSegment | core/anthropic/native_sse_block_policy.py:153-169 | the next downstream index goes to a new open segment of the upstream index; nothing else changes |
| BlockRepair.NativeSseBlockPolicy.Transform | core/anthropic/native_sse_block_policy.py:172-313 | one event leads to the state and output of the step specification, in every branch |
| BlockRepair.RepairStream | core/anthropic/native_sse_block_policy.py:172-313 | a whole stream through the policy is the run of the step specification |
| RepairContract.StartRests | core/anthropic/native_sse_block_policy.py:129-150 | a start puts every other live index to rest, with its stop awaited, and the checker accepts the stops |
| RepairContract.RepairKeepsJ | core/anthropic/native_sse_block_policy.py:129-313 | over every run that keeps the discipline the policy state, the upstream phases and the contract checker's state agree: no output is rejected, a block is open exactly if its upstream index is live, a stop is swallowed exactly if it is stale |
| RepairExact.RejectedIsDoomed | core/anthropic/native_sse_block_policy.py:186-311 | the first event that breaks the discipline makes the checker reject its output or loses an open block for good |
| RepairExact.DoomedFails | core/anthropic/native_sse_block_policy.py:200-211 | a lost block stays open whatever follows |
| RepairExact.RepairedStreamMeetsContract | core/anthropic/native_sse_block_policy.py:172-313 | for every stream without stray events the repaired stream meets the whole contract if and only if the upstream events are disciplined: nothing breaks the discipline, the message begins and ends, no index is left live, some index was used and not dropped |
| RepairExact.RestartIsFatal | core/anthropic/native_sse_block_policy.py:186-211 | after a second start of a live index the stream fails the contract whatever follows |
| RepairExact.RestartTakesTwoStops | core/anthropic/native_sse_block_policy.py:291-302 | an index closed early and started again is not closed by its next stop but by the one after it |
| RepairExact.StrayStopClosesAnotherBlock | core/anthropic/native_sse_block_policy.py:306-311 | a stop for an unused index is passed on raw and closes the downstream block of that number |
| RepairExact.OthersPass | core/anthropic/native_sse_block_policy.py:313 | an event that belongs to no block reaches the client exactly if upstream sent it |
| RepairExact.LastPasses | core/anthropic/native_sse_block_policy.py:313 | an event at the end that belongs to no block stays at the end |
| RepairOverlap.OneBlockAtATimeExactly | core/anthropic/native_sse_block_policy.py:235-287 | for every disciplined stream at most one downstream block is open after every event if and only if every kept delta is for the live index or comes when none is live |
| RepairOverlap.TwoBlocksOpen | core/anthropic/native_sse_block_policy.py:235-264 | a delta for a block closed early opens a second block, in a stream that meets the contract |
| RepairContent.DeltasAreConserved | core/anthropic/native_sse_block_policy.py:213-289 | for every event sequence the downstream deltas are the upstream deltas that are not dropped, unchanged and in order |
| RepairContent.ContentOfEachBlockIsConserved | core/anthropic/native_sse_block_policy.py:213-289 | for every stream without raw deltas, disciplined or not, the downstream blocks of one upstream index receive exactly the deltas of that index, in order |
| RepairContent.StartsAreNumbered | core/anthropic/native_sse_block_policy.py:153-169 | downstream starts are numbered one after another from zero |
| RepairContent.ThinkingPolicyExactly | core/anthropic/native_sse_block_policy.py:121-126 | with thinking disabled, no thinking start or delta is emitted if and only if no upstream event belongs to one of the families that get past the policy |
| RepairContent.SignatureLeaks | core/anthropic/native_sse_block_policy.py:213-264 | a signature delta for a closed text block starts a thinking block although thinking is disabled |
| RepairContent.ReopenedToolsKeepIdentity | core/anthropic/native_sse_block_policy.py:85-118 | a tool block that is reopened is announced with the id and name of the tool block that upstream started |
| RepairOrder.DropsExactly | core/anthropic/native_sse_block_policy.py:121-126 | a start or delta is dropped exactly if thinking is disabled and its kind has "thinking" in it |
| RepairOrder.RepairedInPieces | core/anthropic/native_sse_block_policy.py:172-313 | for every event sequence the output is one piece for each event, in order, and each piece fits its event: a message event is itself; a kept start passes with its own block behind stops of others; a kept delta passes with its own content, behind at most one start made up for it; a stop is one stop or nothing; a dropped event is nothing |
| RepairOrder.MessageEventsAreConserved | core/anthropic/native_sse_block_policy.py:313 | the message events of the output are those of the input, in number and order |
| RepairOrder.DeltasAndMessageEventsInOrder | core/anthropic/native_sse_block_policy.py:213-313 | message events and deltas together are those of the input that are not dropped, in order |
| Assembler.ResponsesStreamAssembler.constructor | core/openai_responses/stream_state.py:71-83 | a new assembler has no slots, no blocks, no tokens, and has neither started nor ended |
| Assembler.ResponsesStreamAssembler.ProcessAnthropicEvent | core/openai_responses/stream_state.py:85-102 | one event leads to the state and the events of the specification; nothing after the end |
| Assembler.ResponsesStreamAssembler.FinishIfNeeded | core/openai_responses/stream_state.py:104-109 | an unfinished stream is started if need be and completed |
| Assembler.ResponsesStreamAssembler.CompleteTheResponse | core/openai_responses/stream_state.py:130-142 | the flush, then the completed response with all output, unless the flush failed |
| Assembler.ResponsesStreamAssembler.FailTheResponse | core/openai_responses/stream_state.py:144-157 | the flush, then the failed response, unless the flush failed |
| Assembler.ResponsesStreamAssembler.EnsureStartedEvents | core/openai_responses/stream_state.py:159-171 | the creation is emitted once, with the output so far |
| Assembler.ResponsesStreamAssembler.HandleContentBlockStart | core/openai_responses/stream_state.py:173-207 | each kind of start, with and without an index |
| Assembler.ResponsesStreamAssembler.HandleContentBlockDelta | core/openai_responses/stream_state.py:209-244 | each kind of delta: appended to an active block of its kind, or a new block, or ignored |
| Assembler.ResponsesStreamAssembler.HandleContentBlockStop | core/openai_responses/stream_state.py:246-253 | a known index is completed and leaves the dictionary, any other stop is ignored |
| Assembler.ResponsesStreamAssembler.StartBlockAt | core/openai_responses/stream_state.py:264-371 | the block at the index is completed first, and unless that ended the stream the new block owns the next slot |
| Assembler.ResponsesStreamAssembler.EmitDelta | core/openai_responses/stream_state.py:373-405 | text that is not empty is appended to the block and passed on |
| Assembler.ResponsesStreamAssembler.CompleteExistingBlock | core/openai_responses/stream_state.py:407-411 | the block leaves the dictionary, also if completing it fails |
| Assembler.ResponsesStreamAssembler.CompleteBlock | core/openai_responses/stream_state.py:413-484 | the finished item is committed to its slot and announced, reasoning tokens are counted |
| Assembler.ResponsesStreamAssembler.CompleteToolBlock | core/openai_responses/stream_state.py:486-601 | arguments in normal form, a custom input, or the failed response where arguments do not parse |
| Assembler.ResponsesStreamAssembler.FlushActiveBlocks | core/openai_responses/stream_state.py:633-643 | the loop over the cleared dictionary's blocks completes them in the order of their slots, up to a failure |
| Assembler.ResponsesStreamAssembler.CommitOutput | core/openai_responses/stream_state.py:650-653 | the loop grows the slots as far as needed; the item is in its slot and no other slot changes |
| Assembler.ResponsesStreamAssembler.TakeSafeIndex | core/openai_responses/stream_state.py:675-680 | text without an index gets a new negative one |
| Assembler.ResponsesFromAnthropic | core/openai_responses/stream.py:12-25 | the driver stops behind the event that ended the stream and otherwise finishes it |
| AssemblerContract.CompleteAtContinues | core/openai_responses/stream_state.py:407-530 | completing a block keeps the slot invariant, under which a slot is empty exactly if one active block owns it, or ends the stream |
| AssemblerContract.SortIsIdentity | core/openai_responses/stream_state.py:633-643 | in every reachable state the flush completes the blocks in the order of the dictionary |
| AssemblerContract.HandleContinues | core/openai_responses/stream_state.py:173-262 | every event keeps the agreement of the slots with what the client has read |
| AssemblerContract.EveryStreamIsAccepted | core/openai_responses/stream_state.py:85-171 | for every event sequence the client accepts the whole stream: items announced in order of their slots, deltas only to live items, each item finished with exactly the text of its deltas, function arguments that parsed, final output equal to the finished items in slot order, one end |
| AssemblerContent.BlockCollectsItsParts | core/openai_responses/stream_state.py:209-253 | while blocks at other indices come and go, an open block collects exactly the parts of its own index |
| AssemblerContent.AfterIsTidy | core/openai_responses/stream_state.py:264-371 | in every reachable state the dictionary has one block to an index and fallback indices are negative |
| AssemblerContent.TextBlockBecomesMessage | core/openai_responses/stream_state.py:420-453 | from its start to its stop a text block becomes the message with its first text and all texts of its index, at the slot that its start announced |
| AssemblerContent.ThinkingBlockBecomesReasoning | core/openai_responses/stream_state.py:455-484 | the same for reasoning; a redacted block keeps its data whatever text comes for it |
| AssemblerContent.FunctionBlockBecomesCall | core/openai_responses/stream_state.py:486-559 | a function call carries what its joined fragments parse to, and ends the stream as failed exactly if they do not parse |
| AssemblerContent.CustomBlockBecomesCall | core/openai_responses/stream_state.py:561-601 | a custom call carries the text of its joined fragments |
| AssemblerContent.EveryStreamHasShape | core/openai_responses/stream_state.py:85-171 | the creation is first and only once, the end is last and only once, slots count up from zero, no item is finished twice, and a completed stream finished every announced item once |
| AssemblerReference.ProcessFollows | core/openai_responses/stream_state.py:85-157 | an event ends a live stream exactly if it is the message's stop, an error, or completes a function block whose joined fragments do not parse, judged from the account of the blocks alone; otherwise assembler and account stay in step |
| AssemblerReference.EveryStreamEndsAsTold | core/openai_responses/stream_state.py:104-157 | for every event sequence the last event emitted is the completed response, or the failed one with its error, and carries the output and the usage of the account: an item for each block in order, with all that was sent for it |
| AssemblerReference.TextIsConserved | core/openai_responses/stream_state.py:85-244 | texts and thoughts emitted are, in order, those of the events in front of the one that ends the stream, which the account determines |
| AssemblerReference.EveryBlockIsAnnounced | core/openai_responses/stream_state.py:264-371 | each block of the account is announced once, in order, with its kind, call id and name, and nothing else is |
| AssemblerReference.IdleEventsAreQuiet | core/openai_responses/stream_state.py:90-102 | an event without anything to do emits nothing but the creation and leaves slots and blocks alone |
| ThinkTags.ThinkTagParser.ParseOutsideThink | core/anthropic/thinking.py:58-99 | one round outside thinking cuts the buffer so that what is emitted and what is kept stand for the old buffer, whatever follows |
| ThinkTags.ThinkTagParser.ParseInsideThink | core/anthropic/thinking.py:101-129 | the same inside thinking |
| ThinkTags.ThinkTagParser.Feed | core/anthropic/thinking.py:42-56 | the loop ends; what is emitted and held stands for what was held and fed, and the held text is a proper prefix of a tag of the current mode |
| ThinkTags.ThinkTagParser.Flush | core/anthropic/thinking.py:131-140 | the held text comes out as text of the current mode |
| ThinkTags.ParseStream | core/anthropic/thinking.py:42-140 | for every way of cutting a text into pieces, feeding the pieces and flushing yields the tagged characters of the one-pass parser |
| ThinkTags.RenderThenParse | core/anthropic/thinking.py:42-140 | sections written with tags are parsed back to the same characters in the same modes |
| History.OrderIsKept | core/anthropic/conversion.py:151-266 | for every history all text, tool calls and results that are not deferred come out once and in their order |
| History.GroupsAppear | core/anthropic/conversion.py:385-442 | each deferred group comes out in order, once, also if its results never arrive, and once more for each result behind the completing one in the same message |
| HistoryReplay.PendingAfterTools.constructor | core/anthropic/conversion.py:85-103 | a new pending object holds the awaited ids and the deferred blocks, not emitted |
| HistoryReplay.ConvertAssistantMessage | core/anthropic/conversion.py:325-371 | the loop over the blocks: content, reasoning and calls, or the first block that is refused |
| HistoryReplay.DeferredPostToolToMessages | core/anthropic/conversion.py:373-383 | the one message of the deferred blocks |
| HistoryReplay.ConvertAssistantMessageWithSplit | core/anthropic/conversion.py:268-323 | blocks in front of the first tool use with all calls, the other blocks behind it pending with the non-blank ids |
| HistoryReplay.ConvertUserMessage | core/anthropic/conversion.py:444-478 | text is joined up to the next result, results stand alone, images are refused |
| HistoryReplay.InjectResult | core/anthropic/conversion.py:415-437 | one result strikes its id off and emits the deferred message if no id is left |
| HistoryReplay.ConvertUserMessageWithInjection | core/anthropic/conversion.py:385-442 | the loop with injection equals the replay specification, with ids left and the cleared flag |
| HistoryReplay.ConvertEntry | core/anthropic/conversion.py:160-248 | one message of the history, with what is pending before and after it |
| HistoryReplay.ConvertMessages | core/anthropic/conversion.py:151-266 | the whole conversion equals its specification, or the first refusal |
| HistoryClaims.TextIsKeptExactly | core/anthropic/conversion.py:385-442 | every part of assistant text comes out as often as it came in, if and only if no group with text is followed in its message by a result behind the last awaited one |
| HistoryReasoning.ReasoningIsKeptExactly | core/anthropic/conversion.py:303-323 | every reasoning text comes out in one field if and only if no message with reasoning of its own has anything behind its tool calls and no deferred thoughts are repeated |
| HistoryReasoning.OwnReasoningIsWrittenTwice | core/anthropic/conversion.py:373-383 | a tool call with text behind it and reasoning of its own writes the reasoning twice |
| HistoryClaims.ExtraResultRepeatsText | core/anthropic/conversion.py:430-437 | a second result behind the one awaited repeats the deferred text |
| HistoryClaims.ResultsFollowTheirCalls | core/anthropic/conversion.py:268-323 | a turn with tool calls is followed at once by its results, the deferred text and the user's text, wherever it stands |
| HistoryClaims.ContentIsItsParts | core/anthropic/conversion.py:308-309 | the content is its parts joined, exactly unless it is empty without calls or a lone space with calls |
| HistoryClaims.PartStandsInContent | core/anthropic/conversion.py:356 | each part stands in the joined content |
| HistoryWire.UsersAreHeard | core/anthropic/conversion.py:204-222 | the messages of users and tools on the wire are, in order, the strings, the runs of texts between results joined with line feeds, and the results of the history |
| HistoryWire.CallsAreMade | core/anthropic/conversion.py:268-323 | the messages with calls on the wire are, in order, those of the history, each with all its calls, the text in front of the first and the reasoning that belongs to it |
| HistoryWire.SpeechIsGiven | core/anthropic/conversion.py:325-383 | the messages of the assistant without calls are those the history says at once and the deferred ones, each as often as the results behind it say |
| HistoryWire.AwaitedExactly | core/anthropic/conversion.py:311-316 | results are awaited for exactly the ids of calls that are not blank |
| HistoryWire.CutAtFirstToolUse | core/anthropic/conversion.py:106-128 | the blocks of a message are cut at its first tool use |
| HistoryWire.RefusedExactly | core/anthropic/conversion.py:131-145 | a history is refused exactly if some block raises an error, with the error of the first |
| ResponsesInput.InputConversion.AppendPendingReasoning | core/openai_responses/input.py:214-224 | pending reasoning becomes an empty assistant message, if there is any |
| ResponsesInput.InputConversion.AppendMessageItem | core/openai_responses/input.py:189-211 | a message item by its role, or the error of its role or content |
| ResponsesInput.InputConversion.AppendFunctionCall | core/openai_responses/input.py:113-143 | a call takes the pending reasoning; one with broken arguments is quarantined and changes nothing else |
| ResponsesInput.InputConversion.AppendInputItem | core/openai_responses/input.py:81-174 | one item leads to the messages, system parts, quarantine and pending reasoning of the specification |
| ResponsesInput.ConvertRequestToAnthropicPayload | core/openai_responses/input.py:28-59 | messages and system prompt of the whole request, or the first error |
| ResponsesInput.ReasoningIsKept | core/openai_responses/reasoning.py:11-30 | the reasoning fields are the reasoning texts in order, cut into groups of neighbours joined with line feeds |
| ResponsesInput.ReasoningGoesToItsMessage | core/openai_responses/input.py:81-174 | all messages in full: each item not left out becomes its own message, and it or an empty message in front of it carries exactly the reasoning that waits since the last such item |
| ResponsesInput.MessagesAreKept | core/openai_responses/input.py:81-174 | reasoning aside, the messages are those of the items that are not left out, once and in order, each with the role, text, id, name, input and output that its item has |
| ResponsesInput.SystemPromptIsKept | core/openai_responses/input.py:28-59 | the system prompt is the instructions and the texts of system and developer messages in order, without the empty ones |
| ResponsesInput.RefusedExactly | core/openai_responses/input.py:81-174 | a request is refused exactly if an item raises an error, with the first one, or if no message comes of it |
| ResponsesInput.EmptyTextsDropOut | core/openai_responses/reasoning.py:43-52 | an empty text among those of a reasoning item makes no difference, and the others stay |
| ResponsesInput.ContentBeforeSummary | core/openai_responses/reasoning.py:11-22 | the summary of a reasoning item counts only where its content says nothing |
| ResponsesInput.OutputsFollowTheirCalls | core/openai_responses/input.py:144-150 | the output of a function call is left out exactly if the arguments of its call do not parse, as the call is |
| ToolNames.NamespacedNamesAreValid | core/openai_responses/tools.py:107-123 | a namespaced name has 1 to 64 characters, all of them allowed |
| ToolNames.NamesAreMadeOf | core/openai_responses/tools.py:107-123 | outside a namespace a name stays; inside one it is the cleaned namespace, the separator and the cleaned name, or where that is too long its front, an underscore and the digest of all of it |
| ToolNames.CleanNamesStay | core/openai_responses/tools.py:369-371 | a name that is clean already stays as it is |
| ToolNames.RunsAreSqueezed | core/openai_responses/tools.py:369-371 | allowed characters stay, and each run of others becomes one underscore |
| ToolNames.EndsAreCut | core/openai_responses/tools.py:369-371 | underscores at both ends go, and nothing else; "tool" stands for a name without anything left |
| ToolNames.HexIsTheNumber | core/openai_responses/tools.py:119-123 | the digits of a digest read back as its number |
| ToolNames.FindNested | core/openai_responses/tools.py:159-182 | the inner loop finds the first nested tool of the name |
| ToolNames.IdentityFromAnthropicName | core/openai_responses/tools.py:126-183 | the nested search finds the first declared tool of the name, or a function of that name |
| ToolNames.NamesLeadBack | core/openai_responses/tools.py:107-183 | every declared tool is found again from its name, in kind, name and namespace, if and only if no two different tools share a name |
| ToolNames.ConvertNested | core/openai_responses/tools.py:264-292 | the names of a namespace's tools in order, unless one cannot be converted |
| ToolNames.ConvertTools | core/openai_responses/tools.py:30-58 | the converted names are those of the declared tools in order, exactly if each can be converted |
| SlidingWindow.StrictSlidingWindowLimiter.AcquireRound | core/rate_limit.py:33-53 | one round under the lock evicts, then grants and records the time, or tells how long to sleep |
| SlidingWindow.Build | core/rate_limit.py:22-31 | limits and windows that are not positive are refused |
| SlidingWindow.AcquisitionsAreSpaced | core/rate_limit.py:33-53 | an acquisition comes at least a window after the one that many acquisitions earlier |
| SlidingWindow.AtMostLimitPerWindow | core/rate_limit.py:33-53 | no half-open interval of window length holds more acquisitions than the limit |
| SlidingWindow.GrantedExactly | core/rate_limit.py:37-45 | an attempt is granted if and only if fewer acquisitions than the limit lie in the window that ends at it |
| SlidingWindow.WaitIsExact | core/rate_limit.py:47-53 | the told wait is positive and the next attempt is granted exactly when it is over, if nobody else acquires |
| RetryLimiter.GlobalRateLimiter.SetBlocked | providers/rate_limit.py:186-194 | the block is overwritten |
| RetryLimiter.GlobalRateLimiter.Advance | providers/rate_limit.py:155-184 | one stretch of a task: the one check of the block and, if it passes or was slept out, the first round of the window and the call, or a further round |
| RetryLimiter.GlobalRateLimiter.CallEnded | providers/rate_limit.py:256-306 | a call's end: returned, raised, exhausted, or a backoff that also sets the block |
| RetryLimiter.ExecuteWithRetry | providers/rate_limit.py:256-306 | one loop: every attempt but the last failed transiently, the last decides, an exhausted loop used all attempts, each backoff is the exponential one with jitter, and the block ends with the last of them |
| RetryLimiter.AllAttemptsObeyTheWindow | providers/rate_limit.py:226-306 | the attempts of all retry loops together obey the window bound in every interleaving |
| RetryLimiter.EachLoopIsBounded | providers/rate_limit.py:226-306 | each loop makes at most one attempt more than its retries, exactly that many if exhausted, and between two attempts lie delays that begin with the base delay and double up to the maximum |
| RetryLimiter.BackoffDoubles | providers/rate_limit.py:283 | the backoff begins with the base delay and doubles with every attempt, up to the maximum |
| RetryLimiter.RetryBlocksUntilItsOwn | providers/rate_limit.py:256-306 | a call is retried exactly if it failed transiently with retries left, and blocks everybody until its own next attempt |
| RetryLimiter.EachLoopEndsAsItsCalls | providers/rate_limit.py:226-306 | in every interleaving a loop returns, raises or is exhausted exactly as the outcomes of its own calls say |
| RetryLimiter.AttemptIsBlockedExactly | providers/rate_limit.py:155-194 | every attempt of every run has one check, and it begins while requests are blocked if and only if the block was set behind that check, the last time to an instant still to come |
| RetryLimiter.BlockHoldsWhileUnchanged | providers/rate_limit.py:155-175 | in particular, while nobody sets the block anew no attempt of a task that honours it begins before it is over |
| RetryLimiter.AttemptWhileBlocked | providers/rate_limit.py:155-194 | a run in which a task waits for the window behind its check and begins its attempt while blocked |
| MessageQueue.MessagingQueue.EnqueueInternalMulti | messaging/limiter.py:217-233 | a waiting key gets the new function and all futures and keeps its place, a new key enters at the end it asks for |
| MessageQueue.MessagingQueue.TakeNext | messaging/limiter.py:91-99 | the idle worker takes the head key with its function and futures |
| MessageQueue.MessagingQueue.FinishRun | messaging/limiter.py:112-121 | the loop resolves each future of the run that has not ended |
| MessageQueue.MessagingQueue.CancelFuture | messaging/limiter.py:114-121 | a future its owner cancelled is not resolved later |
| MessageQueue.QueueAgrees | messaging/limiter.py:217-233 | in every interleaving the queue has no duplicates and its keys are the keys of the map |
| MessageQueue.FuturesAreConserved | messaging/limiter.py:217-233 | the futures submitted under a key are, in order, those of its finished runs, of the run in flight and of the waiting entry |
| MessageQueue.EndedStays | messaging/limiter.py:114-121 | a future that ended stays as it ended |
| MessageQueue.EndingsAreRight | messaging/limiter.py:112-121 | a future ends by a run that took it, and a finished run leaves none open |
| MessageQueue.DrainedMeansAllEnded | messaging/limiter.py:85-121 | with an empty queue and an idle worker every submitted future has ended |
| MessageQueue.ServedInInsertionOrder | messaging/limiter.py:98-99 | keys are served in the order of their first insertion, a key put in front behind those served by then |
| MessageQueue.WaitingFuncIsNewest | messaging/limiter.py:217-224 | the function waiting under a key is the one enqueued last |
| MessageQueue.TakenFuncIsNewest | messaging/limiter.py:98-99 | the worker takes the function enqueued last under the key, with all futures no earlier run took |
| MessageQueue.WorkerDoesAsWatched | messaging/limiter.py:85-121 | in every interleaving the waiting keys, the running function and the finished runs are those of an onlooker without the map: each run has the function named last for its key when it was taken, and its own outcome |
| MessageQueue.FirstEndCounts | messaging/limiter.py:112-121 | a future ends as cancelled or by the run that took it, whichever comes first |
| Framing.CutAllMinimal | core/openai_responses/anthropic_sse.py:24-29 | no separator is overlooked in a frame or in the rest |
| Framing.CutThenUncut | core/openai_responses/anthropic_sse.py:24-29 | frames and rest make up the text |
| Framing.IterSseEvents | core/openai_responses/anthropic_sse.py:17-36 | for every chunking the events are those of the concatenated text |
| Framing.FormatThenParse | core/anthropic/native_sse_block_policy.py:44-50 | an event written with or without a name and with any data is read back with its lines of data, stripped and joined with line feeds |
| Framing.PlainEventComesBack | core/anthropic/native_sse_block_policy.py:44-50 | a name and a payload of one line without space around them come back as they are |
| Framing.WrittenEventsArrive | core/openai_responses/anthropic_sse.py:17-59 | events written one after another arrive in order, each as by itself, however the text is cut into chunks |
| Framing.ReadStdout | cli/managed/session.py:141-178 | the lines read from a process depend on the concatenation of the bytes alone |
| Arrival.StripCutsSpace | core/openai_responses/anthropic_sse.py:42-47 | stripping cuts space at both ends, all of it and nothing else |
| Arrival.WrittenDataIsDelivered | core/openai_responses/anthropic_sse.py:39-59 | an event written with any number of data lines is dropped exactly if it has neither name nor data or is the end mark; else it delivers its name and its data: decoded where they decode, raw where not, the empty value where there are none |
| Arrival.LastEventArrives | core/openai_responses/anthropic_sse.py:32-36 | an event cut off before its blank line is delivered behind the others as if it were complete |
| Arrival.WrittenLinesArrive | cli/managed/session.py:141-178 | lines written with line feeds, the last perhaps without, come back in order, stripped and without the blank ones, for every chunking |
| SessionPool.ManagedClaudeSessionManager.constructor | cli/managed/manager.py:51-54 | a new pool is empty |
| SessionPool.ManagedClaudeSessionManager.GetOrCreateSession | cli/managed/manager.py:57-88 | an id leads to its live or pending session through the id map, or to a new pending one |
| SessionPool.ManagedClaudeSessionManager.RegisterRealSessionId | cli/managed/manager.py:90-105 | a pending session moves to its reported id, with both id maps; an id that is not pending is refused |
| SessionPool.ManagedClaudeSessionManager.RemoveSession | cli/managed/manager.py:107-123 | a session and its ids are removed, pending ones first |
| SessionPool.ManagedClaudeSessionManager.StopEverything | cli/managed/manager.py:125-151 | all sessions are stopped and all dictionaries empty |
| SessionPool.EveryRunKeepsInv | cli/managed/manager.py:57-151 | over every run in which reported ids are in neither pool, the id maps are inverse, real ids are the live ones, and each session not stopped is in exactly one pool |
| SessionPool.RegisterKeepsInvExactly | cli/managed/manager.py:90-105 | registering keeps the invariant if and only if the reported id is in neither pool, the temporary id aside |
| SessionPool.SharedIdLosesSession | cli/managed/manager.py:99-102 | two sessions whose processes report one id: the first runs on and no id leads to it |
| SessionPool.SessionStays | cli/managed/manager.py:57-123 | until it is stopped a session is found under its temporary id, whatever else happens |
| SessionTickets.PoolIsItsTickets | cli/managed/manager.py:57-151 | over every admitted run a session is pending, live or stopped exactly as its ticket says, and an id leads to a session exactly if one that was not stopped answers to it |
| SessionIndex.SessionStore.constructor | messaging/session.py:27-45 | a new store without a stored file is empty |
| SessionIndex.SessionStore.SaveTree | messaging/session.py:273-289 | stale ids of the root go, the ids of the tree lead to the root |
| SessionIndex.SessionStore.RemoveTree | messaging/session.py:309-315 | a stored tree goes, and its ids unless the tree is empty |
| SessionIndex.SessionStore.ClearAll | messaging/session.py:226-239 | trees and index are empty |
| SessionIndex.TreeLookupIds | messaging/session.py:243-261 | the loop collects keys, node ids and status message ids |
| SessionIndex.SaveMapsItsIds | messaging/session.py:273-289 | saving maps exactly the ids of the tree to its root and takes no other root's id but those |
| SessionIndex.EveryRunIsSound | messaging/session.py:226-315 | over every run a mapped id is in the stored tree it leads to |
| SessionIndex.SaveKeepsExactly | messaging/session.py:273-289 | saving keeps the index exact if and only if the tree shares no id with another one |
| SessionIndex.EveryRunIsExact | messaging/session.py:226-315 | over every run in which stored trees share no ids, an id leads to a root exactly if the root's tree contains it |
| SessionIndex.EntriesName | messaging/session.py:243-261 | the ids of a tree are exactly the keys, node ids and status message ids of its entries |
| SessionIndex.StoredIsLastSaved | messaging/session.py:226-315 | over every run the tree stored under a root is the one saved last, unless removed or cleared since |
| SessionIndex.IdsLeadToOwners | messaging/session.py:226-315 | over every run, whether or not trees share ids, an id leads to the root of the tree saved last among those with it, unless that root was saved without it, removed or cleared since |
| Transcript.Render | messaging/transcript.py:526-581 | never longer than the limit or the status; whole if it fits, else the first run of last segments that fits, else the cut end of the last one at exactly the limit, else marker or status |
| Transcript.ShorterRunsFit | messaging/transcript.py:554-562 | once a run of last segments fits behind the marker every shorter one does |
| Transcript.RunsThatFit | messaging/transcript.py:554-562 | the first run that fits while dropping the oldest is the longest: exactly the runs that begin there or later fit |
| Transcript.MessageReads | messaging/transcript.py:538-545 | the marker stands in front, then each segment on its own line, then the status as a paragraph |
| Transcript.StripNewlinesCuts | messaging/transcript.py:578 | only line feeds are cut from the front of the status, and all of them |

## Left out

- RepairExact.RepairedStreamMeetsContract: excludes stray events, a stop or a thinking delta for an index that was never used. They are passed on raw, with their upstream index taken for a downstream one, so that the outcome hangs on a chance agreement of numbers (`StrayStopClosesAnotherBlock`).
- RepairContent.ContentOfEachBlockIsConserved: excludes raw deltas, those of no known kind or for an index that was never used, for the same reason; `DeltasAreConserved` does not.
- AssemblerContent.BlockCollectsItsParts: the parts of a redacted block are collected but do not show in its item, as in the code. For a block at an index below zero, events without an index are excluded, since they take such indices.
- HistoryClaims.ResultsFollowTheirCalls: states the case in which all results stand in the next user message, before any further result; other histories are covered by `OrderIsKept` and `GroupsAppear`.
- RetryLimiter.ExecuteWithRetry: the waits in front of the attempts, which are those of `Advance`.
- Framing.FormatThenParse: names with line breaks, which no event that was read can have.
- SessionIndex.SessionStore.constructor: loading a stored file.
- SessionPool.EveryRunKeepsInv: stopping a session is taken to succeed, since an error raised while removing leaves its real id in the id maps.
- Transcript.Render: segments whose rendering raises an error count as empty, which is how the code skips them.
- Block repair: re-serialization of payloads by JSON, and events that are not block events beyond passing through.
- Responses assembler: item ids, timestamps, `final_response`, and event data that is not an object; `isinstance(index, int)` also admits booleans there.
- Responses assembler: active blocks are values in the dictionary, so two references to one block state are not modelled; the code never keeps one across events.
- Histories: content that is neither a string nor a list, which the request model does not admit; conversion of tools, tool choice and the system prompt, and the request body around the messages.
- Responses requests: the payload fields beside messages and system prompt, items that are not objects or strings beyond being refused, tool choice, descriptions and schemas of tools.
- Framing: chunks of bytes, each decoded by itself with replacement; only text chunks are modelled there.
- Messaging limiter: the pause after a flood error and the timing of the worker, shutdown, and the retries of `fire_and_forget`, which enqueue an older function again.
- Provider limiter: the concurrency semaphore, shared instances and the table of retryable statuses; time is real, so rounding is not modelled.
- Session store: files on disk, timers, the message log, and nodes registered one by one; a stored index that is loaded or synchronized from outside.
- Transcript: `apply` with its subagent stacks, and the rendering of each kind of segment.
- Usage aggregation, model ids, health cooldown, settings and error mapping: they would add only easy members.
- The ledger behind provider streams, the message trees, HTTP clients and routes, chat platform adapters, voice, markdown, the admin interface, logging and tracing.
- The heuristic tool parser, which is driven by regular expressions.
