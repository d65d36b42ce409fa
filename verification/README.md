# Agent control-panel cores in Dafny

This project models the parts of the operations agent whose correctness rests on state kept across many steps, and
proves what they are for:

- **The tool-call message protocol.** The agent grows one message list. Before each LLM call the list is repaired,
  compressed, given a mode instruction and, for one provider, regrouped. Every stage keeps the rule that an assistant
  message with `tool_calls` is directly followed by tool messages answering its ids (`Messages.Covered`), and the rule
  that every tool message answers a call of the message its run follows (`Messages.Owned`). `Repair`,
  `Compress`, `ModePrompt`, `Anthropic` and `Pipeline` treat the four transformations, `AgentLoop` the
  THINKING / EXECUTING / PLAN_REVIEW loop over whole runs, with `Safety` for verdicts and `ToolOutput` for the output
  budget, and `Persistence` what a run stores and the next one starts from.
- **Background runs and event delivery.** `Runner` is the per-session message queue with its loops as atomic steps,
  `EventBuffer` the bounded ring with its live queue, `Delivery` the WebSocket cursor with replay and duplicate removal
  over any number of reconnects.
- **Streaming assembly.** `Streaming` compares the incremental reader of a model's event stream with the batch merge,
  `StreamBatches` does so for streams that close several batches.
- **Time-window stores and the audit chain.** `Replay` (nonces and timestamps), `RateLimit` (sliding minute),
  `AuditChain` (per-session hash chain).
- **Managed sshd block and billing.** `SshBlock` and `SshConfig` are the write and the read side of the managed block,
  `SshUpdate` the update that reads, merges and writes; `Billing` compares grouped billing with per-call costs.

`Wrappers`, `Sets` and `History` hold optional values, the choice of a set's element, and the append-only log type of
the rate limiter and the audit chain.

Some claims one would expect do not hold of the code. For these the code is kept as it is, a lemma shows a failing
input, and a lemma says exactly when the claim holds:

| claim | failing input | exact condition |
|---|---|---|
| repair leaves no orphan | `Repair.OverlapCounterexample` | `Repair.RepairCompleteIff`, `Repair.RepairIdempotentIff` |
| compressing twice is compressing once | `Compress.NegativeRecentExample` | `Compress.CompressIdempotentIff` |
| a plan's outcome reaches its own answer | `AgentLoop.ReusedIdExample` | `AgentLoop.LastRewrittenIff` |
| a stored history can be repaired | `Persistence.EarlyPlanStored` | `Persistence.StoredHistoryIff` |
| a batch is answered completely | `AgentLoop.EarlyPlanCounterexample` | `AgentLoop.AnswersCoverIff` |
| one loop per session | `Runner.CancelCounterexample` | `Runner.CancelSafeIff` |
| a new buffer is delivered | `Delivery.StaleCursorExample` | `Delivery.CanBeSentIff`, `Delivery.NextGenerationDeliversIff` |
| a session's rows form a chain | `AuditChain.FailedInsertExample` | `AuditChain.ChainedIffNoStoreAfterFailure` |
| removing a block restores the text | `SshBlock.StrayBeginLosesText` | `SshBlock.RemoveUndoesUpdateIff` |
| what is written is read back | `SshConfig.ListKeyExample` | `SshConfig.ReadBackIff`, `SshUpdate.NoChangeIff` |
| no request is handled twice | `Replay.ShortTtlReplays` | `Replay.ReplayBoundIff` |
| stream and batch give the same calls | `Streaming.OpenFragmentExample`, `Streaming.SecondBatchMerges` | `Streaming.StreamMatchesBatchIff`, `StreamBatches.ClosedStreamMatchesIff` |

Two points a reader may stumble over; the model follows the code. The billing comment says that
the first record's price is used for the whole session, while the query groups by model. The tool-output fitter reserves
60 characters for a notice whose length depends on the decimal length of the text, so the bound needs texts shorter
than 10^39 characters.

Conventions: integers are unbounded as in Python; clock readings, prices and costs are `real`; JSON texts, signatures,
hashes, regular expressions and the model's answers are inputs or uninterpreted functions; asynchronous code is a
sequence of atomic steps between its await points.

## Model

| member | source | states |
|---|---|---|
| Messages.CoveredMeaning | agent/context_mgmt/compressor.py:14-22 | the recursive pairing rule used throughout is the positional one: each call id of a tool-calls message is answered by a tool message with only tool messages in between |
| Repair.CloseOrphanToolCalls | agent/context_mgmt/compressor.py:13-97 | the loop that truncates `result` when an orphan is found computes the message-wise filter `Repaired`, whose test of an answered message is stated by `HeadAnsweredMeaning` and whose effect by the rows below |
| Repair.CompletesMeaning | agent/context_mgmt/compressor.py:51-59 | a pending message counts as answered if and only if some number of directly following tool messages has, together with the ids responded before, exactly its non-empty set of ids |
| Repair.HeadAnsweredMeaning | agent/context_mgmt/compressor.py:42-59 | the same from the start of a tool-calls message: the non-blank ids of its calls against the non-blank ids of the tool messages after it |
| Repair.PairedHistoryStays | agent/context_mgmt/compressor.py:33-97 | a history without blank ids in which every call is answered and every answer has its call comes back unchanged |
| Repair.RepairCompleteIff | agent/context_mgmt/compressor.py:33-97 | after repair every tool-calls message is answered if and only if no tool-calls message arrived while an earlier one was pending |
| Repair.RepairUnchangedIff | agent/context_mgmt/compressor.py:33-97 | repair changes nothing if and only if there is no exposed orphan |
| Repair.RepairIdempotentIff | agent/context_mgmt/compressor.py:33-97 | repairing twice equals repairing once if and only if no overlapped orphan is followed by an exposed one |
| Repair.OverlapCounterexample | agent/context_mgmt/compressor.py:42-48 | two tool-calls messages back to back: the first orphan survives one repair |
| Repair.RepairKeepsConversation | agent/context_mgmt/compressor.py:33-97 | for every history the result is a subsequence that keeps all user, system and plain assistant messages |
| Repair.RepairCoversIff | agent/context_mgmt/compressor.py:33-97 | the repaired history meets the pairing rule if and only if each tool-calls message that stays was covered by the tool messages after it |
| Repair.RepairCovers | agent/context_mgmt/compressor.py:33-97 | a history without overlapping orphans and blank ids always meets that condition |
| Repair.RepairKeepsOwned | agent/context_mgmt/compressor.py:33-97 | if every tool message had its call, it still has after repair: an orphan goes together with its answers |
| Repair.KeptCoveredIff | agent/context_mgmt/compressor.py:33-97 | without blank ids, repair restores the pairing rule if and only if each tool-calls message with another one right after its tool messages is covered |
| Compress.CollectTools | agent/context_mgmt/compressor.py:185-190 | the inner loop takes the maximal run of tool messages and stops right after it |
| Compress.GroupMessages | agent/context_mgmt/compressor.py:175-196 | the nested loops compute the units `Grouped` |
| Compress.GroupedFlattens | agent/context_mgmt/compressor.py:175-196 | the units concatenate back to the input and none is empty |
| Compress.UnitsShape | agent/context_mgmt/compressor.py:175-196 | every unit is one message, or a tool-calls message with tool messages, and no tool message directly after such a unit is left to the next one |
| Compress.GroupedStable | agent/context_mgmt/compressor.py:175-196 | grouping again what starts on a unit boundary gives the same units |
| Compress.CompressedShape | agent/context_mgmt/compressor.py:122-154 | all system messages stay in order, followed by at most one summary and a unit-aligned suffix of the others with at most `maxRecent` units |
| Compress.CompressesIff | agent/context_mgmt/compressor.py:130-137 | compression starts if and only if the texts of the other messages have at least 2 * (threshold + 1) characters, and below that the list is unchanged |
| Compress.TotalSizeSingle | agent/context_mgmt/compressor.py:130-132 | user texts, tool outputs and assistant texts count with their length, an absent text with the four characters of `None` |
| Compress.CompressIdempotent | agent/context_mgmt/compressor.py:122-154 | with maxRecent >= 0, compressing twice with the same settings equals compressing once |
| Compress.CompressIdempotentIff | agent/context_mgmt/compressor.py:122-154 | for any maxRecent, the second pass changes something if and only if maxRecent is negative, more units exist than it drops, and the history and what is left of it are both too long |
| Compress.NegativeRecentExample | agent/context_mgmt/compressor.py:140-142 | three messages and maxRecent = -1: each pass drops one more |
| Compress.CompressKeepsCovered | agent/context_mgmt/compressor.py:122-154 | compression keeps the pairing rule, for every setting and every summary text |
| Compress.CompressKeepsOwned | agent/context_mgmt/compressor.py:122-154 | compression leaves no tool message without its call |
| ModePrompt.InjectModePrompt | agent/agent_core/agent_loop.py:175-203 | the backward search inserts the instruction before the last user message, or at the end when there is none |
| ModePrompt.InstructionPlaced | agent/agent_core/agent_loop.py:175-203 | taking the one instruction out again gives the list back; it stands right before the last user message, and at the end if and only if there is none |
| ModePrompt.InjectCoveredIff | agent/agent_core/agent_loop.py:175-203 | the list with the instruction meets the pairing rule if and only if the list did |
| ModePrompt.InjectOwnedIff | agent/agent_core/agent_loop.py:175-203 | the insertion falls into no run of tool messages: each has its call if and only if it had it before |
| Anthropic.CollectResults | agent/llm_providers/anthropic_compat.py:151-163 | the inner loop turns a maximal run of tool messages into results in order |
| Anthropic.ConvertMessages | agent/llm_providers/anthropic_compat.py:130-183 | the index loop computes `Converted` |
| Anthropic.ConvertAnsweredIff | agent/llm_providers/anthropic_compat.py:142-183 | every tool_use id has its tool_result in the very next message if and only if the list met the pairing rule |
| Anthropic.ConvertOwnedIff | agent/llm_providers/anthropic_compat.py:142-183 | every tool_result answers a tool_use of the message right before it if and only if every tool message had its call |
| Anthropic.ConvertRoundTrip | agent/llm_providers/anthropic_compat.py:142-183 | converting back restores every message in order up to the text beside tool calls |
| Anthropic.ConvertGroupsResults | agent/llm_providers/anthropic_compat.py:137-140 | no message of results follows another, so the results to one message come back together |
| Pipeline.PipelineKeepsPairing | agent/agent_core/agent_loop.py:337-375 | either half of the rule (every call answered, every answer with its call) survives compression, mode insertion and conversion |
| Pipeline.RepairedHistoryRequest | agent/agent_core/agent_loop.py:337-375 | from a stored history whose kept tool-calls messages are covered, repair, compression, insertion and conversion give a request in which every tool_use is answered in the next message, and every tool_result has its tool_use if the stored tool messages had their calls |
| Pipeline.RequestIsShort | agent/agent_core/agent_loop.py:337-375 | a request holds the instruction, and once compression starts at most `maxRecent` units besides system messages |
| Safety.FindProtectedPath | agent/safety/rule_engine.py:112-118 | the nested search reports a path if and only if some value contains a non-empty protected path |
| Safety.FindPattern | agent/safety/rule_engine.py:120-128 | the nested search reports a rule if and only if some value matches some pattern |
| Safety.CheckToolCallWithReason | agent/safety/rule_engine.py:84-142 | the ordered search with early returns gives the order-free verdict; blocked if and only if the mode forbids the risk level, confirmation if and only if a path, pattern, write or risk rule fired |
| Safety.VerdictTable | agent/safety/rule_engine.py:84-142 | the verdict as a table: blocked exactly for write or dangerous tools in the two read-only modes; otherwise confirmation exactly for flagged, dangerous or policy-listed writes outside break-glass; everything else allowed |
| Safety.HasPartMeaning | agent/safety/rule_engine.py:112-118 | a value touches a path if and only if the path stands somewhere in it |
| Safety.StricterPolicy | agent/safety/rule_engine.py:97-142 | adding rules to a policy never makes a verdict laxer |
| ToolOutput.FitLength | agent/agent_core/agent_loop.py:1399-1415 | a fitted text is the 27-character notice once the budget is gone, otherwise within the limit or the 14-character notice |
| ToolOutput.ShortTextPasses | agent/agent_core/agent_loop.py:1399-1409 | a text within both limits is passed on as it is |
| ToolOutput.LongTextIsCut | agent/agent_core/agent_loop.py:1405-1415 | a longer text keeps its first limit - 60 characters followed by the notice with its length; at a limit up to 80 it gives way to the short notice, without budget to the other |
| ToolOutput.DecimalReadsBack | agent/agent_core/agent_loop.py:1412-1415 | the length told in the notice is the length of the text |
| ToolOutput.ChargedBound | agent/agent_core/agent_loop.py:739-746 | a round's counted output is at most 6000 + 13 + 27 for each text fitted after the budget was used up |
| ToolOutput.LateStep | agent/agent_core/agent_loop.py:739-746 | a text is late exactly if 6000 characters had been counted before it |
| ToolOutput.BudgetStaysUsed | agent/agent_core/agent_loop.py:739-746 | once used up the budget stays used up and every later text costs exactly one notice |
| AgentLoop.RunsNeedsModeAndReason | agent/agent_core/agent_loop.py:581-728 | a write or dangerous tool runs only in a mode that allows it and with a reason, a dangerous one only confirmed or in break-glass mode |
| AgentLoop.RunsExactly | agent/agent_core/agent_loop.py:487-728 | exactly when a tool runs: not a choice or a plan, within the limit of calls, read-only or with a reason in a mode that allows it, and, where sensitive, pre-authorised or approved in time |
| AgentLoop.ReplyTells | agent/agent_core/agent_loop.py:487-746 | what each kind of call is answered with, case by case over names, limit, reason, verdict, pre-authorisation, timeout and decision |
| AgentLoop.LastDecisionMeaning | agent/agent_core/agent_loop.py:205-214 | the decision that counts is the last one about this very action |
| AgentLoop.UnchargedExactly | agent/agent_core/agent_loop.py:487-579 | exactly plans and calls beyond the limit are answered without touching the budget |
| AgentLoop.HandledMeaning | agent/agent_core/agent_loop.py:484-562 | the calls handled are all up to the first valid plan, or all |
| AgentLoop.ModeAtMeaning | agent/agent_core/agent_loop.py:487-746 | the mode after some calls is the one switched to last, or the one before them |
| AgentLoop.RunsOfMeaning | agent/agent_core/agent_loop.py:581-728 | a tool run is recorded if and only if its call was handled and permitted, in the mode left by its own switch |
| AgentLoop.SwitchAppliesAtOnce | agent/agent_core/agent_loop.py:487-728 | a switch to a read-only mode already bars the tool of the call it comes with |
| AgentLoop.AnswersCoverIff | agent/agent_core/agent_loop.py:484-759 | the answers of an EXECUTING step cover the batch if and only if no id is blank and nothing new follows the first valid plan |
| AgentLoop.EarlyPlanCounterexample | agent/agent_core/agent_loop.py:559-562 | a valid plan that is not the last call leaves the later call unanswered |
| AgentLoop.UpdateToolResponse | agent/agent_core/agent_loop.py:1085-1094 | the search rewrites the first tool message with that id and nothing else |
| AgentLoop.UpdateKeepsCovered | agent/agent_core/agent_loop.py:1085-1094 | rewriting a tool response neither breaks nor repairs pairing |
| AgentLoop.LastRewrittenIff | agent/agent_core/agent_loop.py:1085-1094 | the last answer is the one rewritten if and only if no earlier tool message has its id |
| AgentLoop.ReusedIdExample | agent/agent_core/agent_loop.py:1085-1094 | a plan under an id used before: the old answer is overwritten and the plan's own one stays |
| AgentLoop.BatchKeepsPairing | agent/agent_core/agent_loop.py:471-475 | a history, an answerable batch and its answers keep both halves of the rule |
| AgentLoop.AnswersToMeaning | agent/agent_core/agent_loop.py:484-759 | answer k of a batch carries the id of call k and the text `Content` fixes: replaced, fitted into what the earlier calls left of the budget, or unfitted |
| AgentLoop.RunsGated | agent/agent_core/agent_loop.py:581-728 | the tools a batch runs are all permitted, in order, none twice |
| AgentLoop.AnswersWithinBudget | agent/agent_core/agent_loop.py:739-746 | the charged answers of a batch that the screening left alone add up to at most 6000 + 13 + 27 for each late call |
| AgentLoop.AnswerWithinLimit | agent/agent_core/agent_loop.py:1399-1415 | each such answer is at most 1200 characters long |
| AgentLoop.ShortReplySent | agent/agent_core/agent_loop.py:739-746 | a reply within 1200 characters and what is left of 6000, or one not charged, reaches the model as it is |
| AgentLoop.ReplacedAnswer | agent/agent_core/agent_loop.py:1096-1154 | a text put in its place by the screening is what the model sees |
| AgentLoop.PlanReviewKeepsPairing | agent/agent_core/agent_loop.py:1157-1249 | all three outcomes of a plan review keep both halves of the rule |
| AgentLoop.AgentCore.ResolveApproval | agent/agent_core/agent_loop.py:205-214 | a decision is stored and its event set if and only if that action id is pending |
| AgentLoop.AgentCore.HandleApproval | agent/agent_core/agent_loop.py:775-820 | whatever decisions arrive for whatever ids, the answer is yes if and only if this action's own last decision before the timeout was yes; no pending or decision entry is left behind |
| AgentLoop.AgentCore.AppendToolMessage | agent/agent_core/agent_loop.py:1096-1154 | exactly one tool message is appended under the given id, with the sanitised text if there is one |
| AgentLoop.AgentCore.HandleCall | agent/agent_core/agent_loop.py:487-746 | whichever branch handles a call, exactly one tool message answers it, with the fitted tool output when the tool ran and otherwise the notice saying why not; the tool runs once if and only if `Runs` permits it |
| AgentLoop.AgentCore.Execute | agent/agent_core/agent_loop.py:484-759 | the messages appended are exactly `AnswersTo` the batch up to and including the first valid plan, ids and texts, the tools run are exactly those of `RunsOf`, the answers are within the output budget, and the plan left pending is that one |
| AgentLoop.AgentCore.WaitForPlanApproval | agent/agent_core/agent_loop.py:1157-1249 | timeout, approval and rejection of a plan rewrite the first tool message with the plan's id, append the follow-up messages and clear the pending plan; only a rejection keeps the mode |
| AgentLoop.AgentCore.Think | agent/agent_core/agent_loop.py:366-482 | the thinking step of the loop is `AfterThinking`, whose request, next state and appended message `LastRound` and `RequestOfRound` state |
| AgentLoop.AgentCore.Step | agent/agent_core/agent_loop.py:366-759 | one iteration on the object, approvals included, is the pure step `Next`, for which the invariant below is proved; no approval is left behind |
| AgentLoop.NextKeeps | agent/agent_core/agent_loop.py:366-759 | every iteration keeps the loop invariant (pairing, gating, pacing, the plan under review answered by the last message), and THINKING never follows THINKING |
| AgentLoop.LastRound | agent/agent_core/agent_loop.py:366-482 | a thinking round sends its request and ends the run if and only if there are no calls or a leak; otherwise it appends the calls with their text and goes on to execute just these |
| AgentLoop.RequestOfRound | agent/agent_core/agent_loop.py:337-375 | the request holds the instruction of the current mode with the guidance, and at most six recent units once compressed |
| AgentLoop.PlanOutcomes | agent/agent_core/agent_loop.py:1157-1249 | what the three outcomes of a review write, which follow-ups they append and which mode they leave |
| AgentLoop.SteadyRun | agent/agent_core/agent_loop.py:337-773 | when no round ends the run and no plan comes up, thinking and executing alternate: the bound on requests is reached for every number of rounds |
| AgentLoop.RunEnds | agent/agent_core/agent_loop.py:337-773 | a run stops for a reason: finished, out of rounds, expired, or at the horizon |
| AgentLoop.RunPromises | agent/agent_core/agent_loop.py:337-773 | what `RunLoop` promises, proved of the iteration of `Next` from the repaired history |
| AgentLoop.AgentCore.RunLoop | agent/agent_core/agent_loop.py:337-773 | the loop on the object computes the iteration `RunFrom`; over every run: all requests have every call answered, and every answer with its call if the stored history had, when the kept history is covered and batches are answerable; every tool run was permitted and no call ran twice; with maxRounds > 0 at most ceil(maxRounds / 2) requests; it went on until something stopped it; no approval left behind |
| Persistence.PersistTurn | gateway/service/AgentBackgroundRunner.py:266-410 | the consuming loop stores the user message, a row per tool-calls and tool-result event up to the event that ends the stream, and the trimmed text |
| Persistence.TurnFrame | gateway/service/AgentBackgroundRunner.py:266-410 | a stored turn starts with the user message and ends with the trimmed text unless it was aborted or the text is empty; the rows in between are those of the events |
| Persistence.EventByEvent | gateway/service/AgentBackgroundRunner.py:301-345 | what each kind of event stores and says, and that nothing after an ending event is looked at |
| Persistence.BlockedAtExactly | agent/agent_core/agent_loop.py:581-640 | exactly which calls end the stream: a write or dangerous tool with a reason, within the limit, in a read-only mode |
| Persistence.RunRowsIff | gateway/service/AgentBackgroundRunner.py:301-320 | of the rows stored from any first part of a run's events, each tool-calls row that another follows is covered if and only if each batch that another one follows in that part, up to the first with a blocked call, was answerable |
| Persistence.AnswerableIsSound | agent/agent_core/agent_loop.py:484-759 | answerable batches meet that condition wherever the stream is left |
| Persistence.RunRowsOwned | gateway/service/AgentBackgroundRunner.py:301-320 | whatever is stored, every tool row answers a call of the batch it follows |
| Persistence.StoredHistoryIff | agent/integration/event_stream.py:36-42 | over any number of turns, each left wherever its stream ended, repair restores the pairing rule in the stored table if and only if in the consumed part of every turn the batches that others follow were answerable; the early end of the stream after a blocked call does no harm |
| Persistence.NextRunStarts | agent/agent_core/prompt_builder.py:73-78 | in the list the next run builds every tool message has its call, and what `RunLoop` asks of the kept tool-calls messages holds if and only if every turn met that condition |
| Persistence.EarlyPlanStored | agent/agent_core/agent_loop.py:559-562 | a plan before another call and a second batch: the orphan stays in the table and survives repair |
| EventBuffer.AfterIsSuffix | gateway/service/AgentEventBuffer.py:59-69 | filtering consecutively numbered events by number is cutting them at one place |
| EventBuffer.ReadIsLogWindow | gateway/service/AgentEventBuffer.py:59-69 | what the retained events give a reader is the full log cut to the retained window and to what the reader lacks |
| EventBuffer.AgentEventBuffer.Push | gateway/service/AgentEventBuffer.py:33-57 | the full log grows by one consecutively numbered event; the ring stays exactly its last maxSize events and the queue exactly what was not taken |
| EventBuffer.AgentEventBuffer.ReadSince | gateway/service/AgentEventBuffer.py:59-69 | the result is a suffix of the full log, from the first event that is both retained and missing |
| EventBuffer.AgentEventBuffer.Take | gateway/service/AgentGatewayService.py:500-505 | events leave the live queue in log order, each once |
| EventBuffer.AgentEventBuffer.MarkDone | gateway/service/AgentEventBuffer.py:75-79 | marks the end and keeps the log |
| EventBuffer.AgentEventBuffer.ResetForNewRound | gateway/service/AgentEventBuffer.py:81-85 | clears the end mark and keeps the log and its numbering |
| EventBuffer.AgentEventBuffer.GetState | gateway/service/AgentEventBuffer.py:87-95 | reports the length of the full log and of the retained window |
| Delivery.Deduplicate | gateway/service/AgentGatewayService.py:225-240 | the two passes keep, in order, exactly the events not superseded by a later request of their kind |
| Delivery.SupersededMeaning | gateway/service/AgentGatewayService.py:225-240 | approval and choice requests give way to a later one of their kind, other events never |
| Delivery.ReplayMatchesDeduplicate | gateway/service/AgentGatewayService.py:225-245 | the replay steps of the protocol, undisturbed, send in order exactly what the two passes keep |
| Delivery.ReconnectDelivers | gateway/service/AgentGatewayService.py:217-245 | from every reachable state a reconnect whose sends return sends, in order and nothing else, each event beyond the cursor that the buffer holds and no later request of its kind follows; a stream task started then goes on from there |
| Delivery.FailedSend | gateway/service/AgentGatewayService.py:217-245 | a send that fails moves neither the cursor nor the record of what was sent, and closes the connection |
| Delivery.StepKeepsInv | gateway/service/AgentGatewayService.py:217-245 | every atomic step of pushing, replaying, draining, sending, connecting and disconnecting keeps the delivery invariant |
| Delivery.DeliveryAcrossReconnects | gateway/service/AgentGatewayService.py:217-245 | in every interleaving with any number of reconnects, numbers are sent strictly increasing and every event up to the cursor was sent, superseded in its own backlog by a later request of its kind, or evicted from the buffer |
| Delivery.LatestRequestGetsThrough | gateway/service/AgentGatewayService.py:225-245 | in every run an event the cursor has passed and that no later request of its kind follows was sent or evicted |
| Delivery.ReconnectLosesIff | gateway/service/AgentEventBuffer.py:39-69 | a reconnect loses events if and only if more than maxSize are undelivered |
| Delivery.CalmDelivery | gateway/service/AgentGatewayService.py:496-515 | if at most maxSize events are undelivered at each reconnect, every event up to the cursor was sent or superseded |
| Delivery.DoneComesLast | gateway/service/AgentGatewayService.py:497-562 | in every run, the step that leads to the final `done` finds the live queue empty and everything pushed sent or excused; and with the end seen, draining leads to it if and only if the queue is empty |
| Delivery.DoneIffMarked | gateway/service/AgentGatewayService.py:497-500 | the buffer is done if and only if the run marked it so after the last reset |
| Delivery.NoEndWithoutMark | gateway/service/AgentGatewayService.py:497-562 | no run sees or tells an end that was never marked |
| Delivery.FinishedStreamEnds | gateway/service/AgentGatewayService.py:497-562 | however many events a finished buffer still holds, the stream task's own steps send or excuse them all and then send `done` |
| Delivery.NextGenerationDeliversIff | gateway/service/AgentGatewayService.py:811-836 | every event pushed into a new buffer is delivered as promised in every run if and only if the cursor was reset with it |
| Delivery.StaleCursorSilences | gateway/service/AgentBackgroundRunner.py:165-183 | in every run after the buffer was replaced, of any length, only numbers beyond the cursor it started with are sent |
| Delivery.CanBeSentIff | gateway/service/AgentGatewayService.py:500-515 | event n of a new buffer is sent in some run if and only if n lies beyond the cursor |
| Delivery.StaleCursorExample | gateway/service/AgentGatewayService.py:500-515 | the same steps consume the first event unsent after a stale cursor and send it after a reset one |
| Runner.StepKeepsInv | gateway/service/AgentBackgroundRunner.py:75-120 | every step of submit, round end, failed round and `finally`, and a cancel while the session is not running, keeps the runner invariant |
| Runner.RunnerOrder | gateway/service/AgentBackgroundRunner.py:75-120 | in every interleaving whose cancels find the session not running: the messages handed in = submitted = started ++ queue, at most one live loop, and no message stranded once the loop is gone |
| Runner.SubmittedIsHandedIn | gateway/service/AgentBackgroundRunner.py:75-120 | with or without cancels, no message handed in is dropped or added on submission |
| Runner.NextStart | gateway/service/AgentBackgroundRunner.py:450-479 | from every state with a queued message at most two of the runner's own steps start the oldest one |
| Runner.EverythingCanStart | gateway/service/AgentBackgroundRunner.py:450-479 | from every reachable state the runner's own steps can start everything submitted |
| Runner.CancelSafeIff | gateway/service/AgentBackgroundRunner.py:122-138 | a cancel keeps the invariant if and only if the session is not running, and otherwise, and only then, some continuation has two live loops |
| Runner.CancelEffect | gateway/service/AgentBackgroundRunner.py:122-138 | a cancel drops what is queued, reports the session idle and touches no live loop |
| Runner.CancelCounterexample | gateway/service/AgentBackgroundRunner.py:122-138 | after cancel and a new submit two loops are live, and the old one's `finally` then reports the session idle |
| Streaming.FoldsAgree | agent/llm_providers/openai_compat.py:264-294 | with explicit indices the stream's and the batch's accumulators build the same map |
| Streaming.MergedEntry | agent/llm_providers/sse_parser.py:54-70 | the entry of an index has the last non-empty id and name and all arguments joined, over the fragments of that index only |
| Streaming.ImplicitIndexExample | agent/llm_providers/openai_compat.py:264-281 | two fragments without index share an entry in the batch reader and get two in the stream |
| Streaming.SplitArguments | agent/llm_providers/sse_parser.py:60-70 | cutting an argument fragment in two anywhere in the stream changes nothing |
| Streaming.MergeSseDeltas | agent/llm_providers/sse_parser.py:43-92 | the batch loop gives the concatenated text and the named calls in index order |
| Streaming.BatchCallsTell | agent/llm_providers/sse_parser.py:72-92 | the batch reader makes a call of exactly the entries with id and name, with the arguments decoded, empty or raw |
| Streaming.StreamCallsTell | agent/llm_providers/openai_compat.py:96-110 | the stream makes a call of every entry in key order, with the arguments decoded or empty |
| Streaming.AbsorbStream | agent/llm_providers/openai_compat.py:264-281 | the in-place dictionary update computes the fold of the fragments |
| Streaming.ChatStream | agent/llm_providers/openai_compat.py:83-111 | the consumer collects the text of fragment-free chunks and, per closing chunk, the buffered calls in index order |
| Streaming.NothingWithoutClosing | agent/llm_providers/openai_compat.py:96-110 | as long as no finish reason is `tool_calls`, nothing is emitted |
| Streaming.ClosingBringsOut | agent/llm_providers/openai_compat.py:96-110 | a closing chunk emits the buffer if there is anything in it, and empties it |
| Streaming.TextByChunk | agent/llm_providers/openai_compat.py:238-294 | chunk by chunk, the batch text grows by every content and the stream text by that of fragment-free chunks |
| Streaming.ProgressByStage | agent/llm_providers/openai_compat.py:264-294 | the buffer and what was emitted are determined by whether fragments were seen and closed |
| Streaming.CallsAgreeIff | agent/llm_providers/openai_compat.py:96-110 | of the same entries both readers make the same calls if and only if each is named and its arguments are absent, decode, or are kept as what the stream puts for undecodable ones |
| Streaming.StreamMatchesBatchIff | agent/llm_providers/openai_compat.py:264-294 | for explicit indices and at most one closed batch, both readers give the same calls if and only if the batch was closed and each call agrees, or it was not and no call is named |
| Streaming.OpenFragmentExample | agent/llm_providers/openai_compat.py:96-110 | one complete call without a closing chunk: the batch reader has it, the stream has not |
| Streaming.SecondBatchMerges | agent/llm_providers/openai_compat.py:96-110 | when a second batch reuses an index, the stream has both calls and the batch reader at most one |
| StreamBatches.MergedCombines | agent/llm_providers/openai_compat.py:264-294 | what the batch reader merges is what the stream has emitted so far combined with what is still open, for every stream with explicit indices |
| StreamBatches.ClosedStreamMatchesIff | agent/llm_providers/openai_compat.py:83-111 | for streams with explicit indices and distinct call ids that close all their batches, however many, both readers give the same calls if and only if the indices come out in ascending order over the whole stream, none twice, and every call is named with arguments that are absent or decode |
| Streaming.TextMatchesIff | agent/llm_providers/openai_compat.py:238-294 | both readers give the same text if and only if no chunk carries fragments and text together |
| Replay.NonceStore.CheckAndStore | internal_rpc/security.py:84-93 | purges exactly the expired nonces, answers whether the nonce was unseen and then remembers it for the lifetime |
| Replay.HandleRaw | internal_rpc/server.py:140-217 | the chain of early returns gives the outcome and the store of `Judged` |
| Replay.OnlyAuthenticRequestsTouchTheStore | internal_rpc/server.py:140-217 | a request that fails a check before the nonce check cannot use up a nonce |
| Replay.OutcomeTells | internal_rpc/server.py:140-217 | each outcome occurs exactly if its check is the first to fail, stated over the raw conditions |
| Replay.Remembered | internal_rpc/security.py:84-93 | a handled nonce survives all purging up to its expiry |
| Replay.RememberedOnce | internal_rpc/security.py:84-93 | in every run what is remembered is a nonce that passed, for one lifetime from then: a refused replay does not prolong it |
| Replay.SecondIsRefused | internal_rpc/security.py:67-93 | with a lifetime of at least twice the tolerance plus the delay, the same nonce and timestamp are not handled twice |
| Replay.ShortTtlReplays | internal_rpc/security.py:67-93 | below that bound there is a timed run that handles one request twice |
| Replay.ReplayBoundIff | internal_rpc/server.py:109-121 | no sequential run handles a request twice if and only if the lifetime is at least 2 * tolerance + delay |
| RateLimit.WindowNeverOverfull | privileged_agent/server.py:70-80 | every window (t - 60, t] holds at most the limit of admissions |
| RateLimit.RefusedIffFull | privileged_agent/server.py:70-80 | a call is refused if and only if the window ending at it is full |
| RateLimit.PrunedBucket | privileged_agent/server.py:70-80 | the pruned bucket agrees with the full admission history of the last 60 seconds |
| RateLimit.Prune | privileged_agent/server.py:74-76 | the comprehension keeps exactly the times after the window start, in order |
| RateLimit.RateLimiter.Check | privileged_agent/server.py:70-80 | whatever the clock says, the call's own bucket is pruned and extended if there is room, and no other bucket changes; while the clock does not go back the decision is the one the full history gives |
| AuditChain.HashChain.Hash | agent/trace_log/hash_chain.py:17-24 | the hash links the entry to the previous hash and becomes the new previous hash |
| AuditChain.TraceRecorder.Record | agent/trace_log/recorder.py:27-54 | under every interleaving of sessions and of failing inserts, a call advances its own session's chain and adds its row only if the insert succeeds; chains and rows stay what each session's own calls make of them |
| AuditChain.ChainedIffNoStoreAfterFailure | agent/trace_log/recorder.py:38-51 | over every run of a session, its rows are a chain if and only if no row was stored after a failed insert, unless two texts hashed in that very run collide |
| AuditChain.RecorderChainedIff | agent/trace_log/recorder.py:38-51 | the same for the table of a recorder that served any interleaving of sessions |
| AuditChain.EverySessionChained | agent/trace_log/recorder.py:38-51 | while every insert succeeds, every session's rows are a chain, whatever the hash function |
| AuditChain.FailedInsertExample | agent/trace_log/recorder.py:38-51 | stored, failed, stored, for any three entries: the rows are a chain only if two particular different texts have the same digest |
| AuditChain.SaneHasherExists | agent/trace_log/hash_chain.py:14-24 | the assumptions about texts and digests can be met together, and for such a hasher the rows of stored, failed, stored are no chain |
| AuditChain.ChainedIffReproducible | agent/trace_log/hash_chain.py:17-24 | rows form a chain if and only if re-hashing their entries reproduces them |
| AuditChain.PreimageDecodes | agent/trace_log/hash_chain.py:18-22 | the hashed text determines the previous hash and the entry |
| AuditChain.SameHashSameLog | agent/trace_log/hash_chain.py:17-24 | two logs with the same last hash are equal, length included, unless a text hashed for the one collides with a text hashed for the other |
| AuditChain.LastHashDecides | agent/trace_log/hash_chain.py:17-24 | comparing last hashes is comparing logs, unless the texts hashed for them collide |
| SshBlock.RemoveAfter | gateway/service/FirewallService.py:618-620 | text in front of a block survives its removal if it holds no begin marker, and otherwise shrinks by at least a marker |
| SshBlock.BlockSealed | gateway/service/FirewallService.py:593-616 | when no value holds the end marker, the built block is closed by its last line and nothing earlier |
| SshBlock.UnmarkedTextStays | gateway/service/FirewallService.py:618-620 | a text without the begin marker is left unchanged |
| SshBlock.KeptBeforeBlockIff | gateway/service/FirewallService.py:618-620 | for any two markers of this shape, removing a block placed after a text gives the text back if and only if it has no begin marker |
| SshBlock.RemoveUndoesUpdateIff | gateway/service/FirewallService.py:197-200 | removing the block from an updated file and trimming gives the trimmed base if and only if the base has no begin marker |
| SshBlock.UpdateTwiceIff | gateway/service/FirewallService.py:197-200 | two updates equal the second alone under exactly that condition |
| SshBlock.LastUpdateWins | gateway/service/FirewallService.py:197-200 | any number of updates equal the last alone |
| SshBlock.StrayBeginLosesText | gateway/service/FirewallService.py:618-620 | a file holding only a begin marker loses it in an update |
| SshConfig.ParseSshConfigFiles | gateway/service/FirewallService.py:493-524 | the nested loops map exactly the keys some line sets, each to all its values in file and line order |
| SshConfig.CommentIgnored | gateway/service/FirewallService.py:505-515 | a comment at the end of a line, or a line of comment, changes nothing |
| SshConfig.SpaceIgnored | gateway/service/FirewallService.py:505-515 | space around a line changes nothing |
| SshConfig.WhiteSpace | gateway/service/FirewallService.py:503-515 | which characters end a line and which count as space |
| SshConfig.LowerMeaning | gateway/service/FirewallService.py:512-520 | keys are compared without regard to the case of ASCII letters |
| SshConfig.ListKeysExactly | gateway/service/FirewallService.py:518-520 | exactly four keys are split into words |
| SshConfig.ReadDefaults | gateway/service/FirewallService.py:129-150 | what an empty file reads as |
| SshConfig.ValuesOfUpdate | gateway/service/FirewallService.py:493-524 | re-parsing an updated file gives each key its values in the kept text followed by those written |
| SshConfig.WordsOfJoin | gateway/service/FirewallService.py:518-520 | splitting joined list items gives the items back |
| SshConfig.ScalarsReadBack | gateway/service/FirewallService.py:129-137 | the six scalar keys read back as written, whatever the base says |
| SshConfig.ListsReadBack | gateway/service/FirewallService.py:518-520 | list keys read back as the base's items followed by those written |
| SshConfig.ListKeyExample | gateway/service/FirewallService.py:518-520 | a user in the file's own text comes back in front of whatever users an update writes |
| SshConfig.ReadBackIff | gateway/service/FirewallService.py:129-137 | the whole configuration reads back if and only if the base sets no list key and an address was written |
| SshConfig.UpdatesReadBack | gateway/service/FirewallService.py:197-200 | after any number of updates, reading gives what the last one alone would |
| SshUpdate.ReadIsClean | gateway/service/FirewallService.py:493-524 | whatever the file holds, the configuration read from it can be written |
| SshUpdate.ChangeReadsBackIff | gateway/service/FirewallService.py:183-200 | a change request merged with what was read takes effect exactly as merged if and only if the kept text sets no list key and an address is left |
| SshUpdate.RequestedOrKept | gateway/service/FirewallService.py:183-196 | a field takes the requested value if there is one and keeps the current one otherwise |
| SshUpdate.ScalarsChange | gateway/service/FirewallService.py:183-200 | after an update each of the six scalars reads as requested, or as before if not requested |
| SshUpdate.ListsChange | gateway/service/FirewallService.py:183-200 | each of the three lists reads as the kept text's items followed by the requested or the current ones |
| SshUpdate.NoChangeIff | gateway/service/FirewallService.py:183-200 | an update without changes leaves what is read unchanged if and only if the kept text sets no list key |
| SshUpdate.NoChangeGrows | gateway/service/FirewallService.py:183-200 | over any number of updates without changes the list of users grows by the kept text's users each time |
| Billing.Recorded | gateway/dao/AgentTokenUsageDaoOrm.py:38-57 | the row keeps the model and the three counts given, with total = input + output and input = cached + non-cached |
| Billing.Round6 | gateway/dao/AgentTokenUsageDaoOrm.py:19-25 | the rounded value is within half a millionth |
| Billing.RoundedToMillionths | gateway/dao/AgentTokenUsageDaoOrm.py:19-25 | the rounded value is a whole number of millionths, an even one when half-way |
| Billing.MillionTokens | gateway/dao/AgentTokenUsageDaoOrm.py:19-34 | a million tokens of each kind cost exactly the price of that kind times the multiplier, and nothing of the other kinds |
| Billing.GroupingKeepsTokens | gateway/dao/AgentTokenUsageDaoOrm.py:147-155 | the grouped sums add up to the session's totals in every token field |
| Billing.SumTokensStep | gateway/dao/AgentTokenUsageDaoOrm.py:105-121 | each call adds its own counts to the totals, field by field |
| Billing.ModelTokensStep | gateway/dao/AgentTokenUsageDaoOrm.py:147-155 | a call adds to the totals of its own model only |
| Billing.GroupingKeepsCost | gateway/dao/AgentTokenUsageDaoOrm.py:147-170 | before rounding, charging each model's totals equals charging every call |
| Billing.TotalsConsistent | gateway/dao/AgentTokenUsageDaoOrm.py:112-121 | the two token identities hold after summation |
| Billing.BilledNearCalls | gateway/dao/AgentTokenUsageDaoOrm.py:157-183 | each of the five billed parts differs from the sum of per-call costs by at most (calls + models + 1) * 0.5e-6 |
| Billing.SessionUsage | gateway/dao/AgentTokenUsageDaoOrm.py:77-101 | one rounded cost per call in order, adding up to the per-call sum |
| Billing.SessionBilling | gateway/dao/AgentTokenUsageDaoOrm.py:105-185 | exact totals and call count, zero for an empty session, and costs within the error bound of the per-call sum, for every order of the groups |

## Left out

- Message roles other than user, system, assistant and tool, and message fields other than content, ids and calls.
- AgentLoop.AgentCore.RunLoop: with maxRounds = 0 the code has no round limit, so the method covers every finite prefix of a run, up to `horizon` iterations.
- AgentLoop.AgentCore.HandleCall: the choice dialogue, pre-authorisation and the tools' own work are inputs; retries, events, traces and alerts are not modelled.
- AgentLoop.AgentCore.AppendToolMessage: the injection screening that may replace a text is an input.
- AgentLoop.AgentCore.Think: injection checks, the canary scan, LLM retries and the final sanitiser are inputs or left out; cancellation is not modelled.
- Persistence.RunRowsIff: the events of a run are described batch by batch from the same specification as the answers; batches have no blank ids; the rewriting of a stored plan answer, which changes no id, and deleted rounds are left out.
- AgentLoop.AgentCore.ResolveApproval: the rejection reason is not stored, since it only reaches a text.
- Anthropic.ConvertMessages: arguments stay JSON texts; decoding them is left out.
- Safety.CheckToolCallWithReason: regular expressions are predicates and the flattening of nested arguments is an input.
- The line splitter of tool output (agent/agent_core/agent_loop.py, `_splitLines`) and the summary text of compression.
- Delivery.DeliveryAcrossReconnects: one buffer generation, one connection and one stream task at a time; special events for elevation and the state messages sent after a replay are left out; after a reconnect the stream task starts with a later request of the client, so its start is a step of its own.
- EventBuffer.AgentEventBuffer.Push: the live queue is unbounded, as it is created; time stamps on events are left out.
- Runner.RunnerOrder: a cancel while the session is running is excluded, because the claim then fails (Runner.CancelSafeIff); persistence and status updates of a round are left out.
- Streaming.ChatStream: usage, finish reasons of the response object and line framing of the event stream are left out.
- Streaming.MergeSseDeltas: the finish reason and usage of the result are left out.
- Streaming.StreamMatchesBatchIff: chunks without explicit indices are excluded, and fragments after a closed batch; for these StreamBatches.ClosedStreamMatchesIff gives the condition when everything is closed in the end.
- StreamBatches.ClosedStreamMatchesIff: calls that share an id are excluded, since equal calls could then hide a different order; so are streams with several batches that end with an open one.
- Replay.HandleRaw: signature, peer and format checks are booleans of the request; `_check_nonce` of the privileged agent keeps the same kind of store and is not repeated.
- RateLimit.RateLimiter.Check: nothing is said about the full history once the clock went back between two calls for the same action.
- AuditChain.TraceRecorder.Record: the cleaning of the data and the time stamp happen before the model; a failed insert is an input.
- AuditChain.SameHashSameLog: assumes that distinct entries have distinct canonical texts, that these start with a brace and that digests are 16 characters not starting with a brace; time stamps are the texts their numbers are written as.
- SshConfig.ParseSshConfigFiles: keywords are lowered over ASCII letters only; following Include lines is left out.
- SshConfig.ScalarsReadBack: numbers are compared as texts; the conversion to int and of durations to seconds is left out; values must be non-empty, trimmed, on one line and without a comment sign.
- SshConfig.ReadBackIff: as for the scalars; the file is read alone, without Include files.
- SshUpdate.ChangeReadsBackIff: the validation of a request and the numeric form of its fields are left out.
- SshBlock.RemoveUndoesUpdateIff: values must not hold the end marker; file writing, the syntax check and the roll-back of `updateSshConfig` are left out.
- Billing.BilledNearCalls: exact arithmetic; floating-point error of the sums is left out.
- Controllers, ORM classes, HTTP transport, sockets, firewall commands and the scheduler.
