# Verified models of the agent loop and the terminal text engine

These Dafny files model the parts of the repository in which a mistake is easiest to make and hardest to see, and
prove what the code promises about them.

- **The agent run** (`AgentLog`, `AgentState`, `AgentLoop`, `AgentRunFacts`, `AgentLifecycle`, `MessageQueue`,
  `ReasoningLoop`, `LostDecision`). `AgentLoop.AgentRun` is the loop of `agent-loop.ts`, stage by stage. The provider,
  the tools, the hooks, the host of the message queues and the user's abort do anything wherever the code awaits them;
  the queues, the reasoning-loop guard, the degeneracy detector and the agent's own state are the classes proved here.
  Every event, provider call, poll, hook answer and guard decision is written to a ghost history, and each write must be
  a step that the monitor in `AgentLog` allows; so the invariant `Inv` of every method says that the history so far is
  legal. What a legal history means is then said without the monitor, in `AgentRunFacts`, for every run and every point
  of it.
- **The ANSI scanner, the SGR and OSC 8 tracker, and the stripper** (`AnsiScan`, `AnsiTracker`, `AnsiReplay`,
  `SgrCodes`, `SgrDefaults`, `AnsiStrip`, `AnsiSegments`, `Subsequences`). Texts are sequences of UTF-16 code units; the
  grammar is that of ECMA-48 sections 5.4, 5.6 and 8.3.117.
- **The streaming degeneracy detector** and the tokenizer it shares with the reasoning-loop guard (`Tokens`,
  `Degeneracy`, `DegeneracyStutter`, `DegeneracyPeriods`, `ReasoningLoop`).
- **The compact model catalogue** (`Catalogue`): what the generator drops and hoists, and what the expander restores.
- **Tool calls in plain text** (`JsonSlice`, `TextToolCalls`): the bracket automaton against a JSON printer in the
  sense of RFC 8259, and the `[TOOL_CALLS]` loop around it.
- **The fullscreen viewport** (`Fullscreen`) and **fuzzy matching** (`Fuzzy`).

Objects whose methods update fields are classes, loops are loops, and each method is proved against a specification
function or predicate about which the lemmas speak. `Std` holds a few shared definitions. Verify all files
together, for instance with `dafny verify dfyconfig.toml`.

## Where the code and its documentation part

The models follow the code. Where a promise turned out not to hold, there is an input at which it fails and the exact
condition under which it holds.

- `agent_end` is documented as the final event of a run. A run emits it twice if and only if an abort lands while
  `shouldStopAfterTurn` is awaited: `AgentRunFacts.RunOutline`, with a run that does so in
  `AgentRunFacts.StopHookAbortEndsTwice`.
- The guard's ladder promises a steering or continuation message after its first two decisions. A delta on which the
  reasoning loops and the text degenerates as well advances the ladder without a message, because degeneracy is looked
  at first: `LostDecision.DeltaLosesDecision`, for one delta of 1601 times the same word. Before the next turn or the
  end of the run, each of these decisions has its message delivered, once, if and only if degeneracy did not stop the
  same response: `AgentRunFacts.DecisionDelivered`.
- `stripAnsi` promises plain text. Its first stage can close a control string early and let the remainder through:
  `AnsiSegments.FastPathCanLeakPayload`. A code is stripped from every text it can stand in if and only if what the
  first stage leaves of it dissolves: `AnsiSegments.CodeStripsIffDissolves`. All codes do that hold no control sequence
  inside a control string: `AnsiSegments.StandardCodeDissolves`.
- ECMA-48 section 8.3.117 reads an empty SGR parameter as zero, and 21 as a double underline. In the code
  `ESC [ ; 1 m` leaves dim text dim (`SgrDefaults.EmptyParameterKeepsDim`) and `ESC [ 21 m` turns bold off
  (`SgrDefaults.DoubleUnderlineClearsBold`). The two readings agree on every state if and only if the sequence has no
  parameters at all, or no attribute or colour that may be on meets, after the parameter that last wrote it, an empty
  parameter without a 21, or, for bold, a 21 without an empty one: `SgrDefaults.ReadsAsStandardExactly`.
- The loop check measures the distance at which the last 32 characters recur, so it does not report ten verbatim copies
  of a sentence whose last word stutters, although they pass all its gates: `DegeneracyStutter.StutterIsMissed`. A
  repetition that passes the gates is reported if and only if those 32 characters recur no closer than its period:
  `Degeneracy.ReportedIffProbeIsPrimitive`. This is so for every repetition whose least period is at most 33
  (`DegeneracyPeriods.ShortPeriodsAreReported`), and not for all of period 34
  (`DegeneracyPeriods.LongerPeriodIsMissed`).
- The compact catalogue is documented as bit-for-bit equivalent to the models. It is, if and only if a model is filed
  under its own `id` and `provider`, has no `output` field, has an object as `compat`, or none and no provider default,
  or `null` under one, and does not say `featured: false`: `Catalogue.ExactRoundTrip`. So `output: ["text"]` is lost.
  For a provider without models the generator throws: `Catalogue.Render`.
- The catalogue takes the majority of what a provider's base URLs read as, an absent one as `undefined`. No defaults
  write fewer base URLs into the records if and only if one is hoisted or some model has none, so not when most models
  have the text `undefined` for one: `Catalogue.UrlsLeastExactly`.
- `sliceBalancedJson` is documented to ignore prose around the payload. `ok {}` yields nothing
  (`JsonSlice.ProseExample`), and a bracketed remark is cut out in place of the payload (`JsonSlice.RemarkIsTaken`). A
  payload after prose is found if and only if the prose is white space: `JsonSlice.ProseHidesPayload`.
- The `[TOOL_CALLS]` loop goes on right after the tag, not after the payload, so a tag inside a payload's string is
  taken for another call: `TextToolCalls.TagInPayloadIsCollectedToo`. Written calls come back whole, in order and alone
  if and only if no other tag has a payload after it: `TextToolCalls.WrittenCallsCollected`.

## Model

| member | source | states |
|---|---|---|
| AgentRunFacts.TranscriptsAgree | packages/agent/src/agent-loop.ts:376-545 | In every legal history, at each `turn_end` and `agent_end`, the run's new messages are the finished messages in order, and the loop's context and the agent's own transcript both are the starting transcript followed by them; no tool call is pending at `turn_end` |
| AgentRunFacts.FinishedIsFinished | packages/agent/src/agent-loop.ts:197-211 | What the monitor counts as finished is the sequence of messages whose `message_end` stands in the history |
| AgentRunFacts.StoryIsTold | packages/agent/src/agent-loop.ts:407-464 | At every point, finished and still owed messages make up the story of the run: prompts, every polled batch, every turn's answer and results, in the order they came |
| AgentRunFacts.ProviderSeesWholeStory | packages/agent/src/agent-loop.ts:399-418 | The context handed to the provider is the starting transcript and the whole story so far: each message taken from a source was appended exactly once and in order |
| AgentRunFacts.AgentEndTellsStory | packages/agent/src/agent-loop.ts:376-378 | The messages reported by `agent_end` are the whole story of the run |
| AgentRunFacts.TurnsInOrder | packages/agent/src/agent-loop.ts:407-420 | Within a turn, owed messages come before the answer and tool results only after it |
| AgentRunFacts.RunOutline | packages/agent/src/agent-loop.ts:325-332 | A run that ended emitted `agent_start`, one or more whole turns, then `agent_end`: twice if and only if an abort landed in `shouldStopAfterTurn`, otherwise once |
| AgentRunFacts.StopHookAbortEndsTwice | packages/agent/src/agent-loop.ts:376-391 | There is a legal, finished history with such an abort, and it ends twice |
| AgentRunFacts.OnlyEndsFollowEnd | packages/agent/src/agent-loop.ts:376-391 | After the first `agent_end` nothing but another `agent_end` is emitted |
| AgentRunFacts.EventsWithinTurns | packages/agent/src/agent-loop.ts:399-517 | Message and tool events are emitted only inside a turn that has started and not ended |
| AgentRunFacts.OutlineOfLegal | packages/agent/src/agent-loop.ts:384-405 | The outline of every prefix of a run is that of whole turns, possibly an open one, and the ends |
| AgentRunFacts.StopHookNoted | packages/agent/src/agent-loop.ts:491-505 | The second `agent_end` is owed to an abort inside the stop hook and to nothing else |
| AgentRunFacts.MessagesPaired | packages/agent/src/agent-loop.ts:197-211 | At every `turn_end` and `agent_end` the starts and ends of messages pair up one to one, the finished messages being the ends; a pair is of one message, or of an assistant message that replaced its streamed first part |
| AgentRunFacts.EndsOnlyWhenNothingIsLeft | packages/agent/src/agent-loop.ts:467-545 | Unless an abort, a stop hook, the guard or a stopped response told it to, a run ends only when steering, follow-ups and continuations were all asked and found empty since the last turn |
| AgentRunFacts.SourcesInOrder | packages/agent/src/agent-loop.ts:507-541 | Follow-ups are polled only after a turn whose tool results need no answer and after steering was empty, continuations only after follow-ups were empty too |
| AgentRunFacts.SteeringBeforeProvider | packages/agent/src/agent-loop.ts:372-516 | Before every provider call steering was asked since the last turn, unless it opened the run or the guard's message takes its place |
| AgentRunFacts.TakenIsObtainedOrLost | packages/agent/src/agent-loop.ts:227-235 | What a run took from a source is what it received, followed by what the last poll of the run lost to an abort |
| AgentRunFacts.LostPollIsLast | packages/agent/src/agent-loop.ts:383-391 | After a poll that lost to an abort there is no poll, no provider call and no new turn |
| AgentRunFacts.ObtainedInStory | packages/agent/src/agent-loop.ts:407-415 | A received batch stands in the story of the run, whole, right after all that came before it |
| AgentRunFacts.TracesMatch | packages/agent/src/agent-loop.ts:790-913 | At every point each started call has one start and only updates so far, or one start, updates and one end with the same id |
| AgentRunFacts.CallsRunOnce | packages/agent/src/agent-loop.ts:790-913 | At `turn_end` every started call has run through its whole life once, the results are one per started call in source order, and no other call left a trace |
| AgentRunFacts.BatchIsWhole | packages/agent/src/agent-loop.ts:790-913 | A completed response has a result for every call, unless its batch was sequential and aborted; other responses have none |
| AgentRunFacts.CallsStartInOrder | packages/agent/src/agent-loop.ts:802-844 | Calls start in source order; in a batch run one after another, only in a run not aborted, and when all earlier calls have run through their whole life and have their results |
| AgentRunFacts.OneCallAtATime | packages/agent/src/agent-loop.ts:802-844 | In such a batch, when a call has started every earlier one is over, so at most one is ever open |
| AgentRunFacts.CallsStartTogether | packages/agent/src/agent-loop.ts:852-913 | In a batch run side by side every call has been started before the first result message |
| AgentRunFacts.BatchAnswered | packages/agent/src/agent-loop.ts:436-465 | A batch is opened only by a finished response |
| AgentRunFacts.AsksForMore | packages/agent/src/agent-loop.ts:943-945 | A completed turn asks for another response exactly when it had calls, unless it has results that all ask to stop |
| AgentRunFacts.UpdatesWhileOpen | packages/agent/src/agent-loop.ts:1055-1109 | Updates of a call are emitted only while it is open, and by no aborted run |
| AgentRunFacts.ResultsNameTheirCalls | packages/agent/src/agent-loop.ts:899-907 | Result messages answer the calls in the order the calls were started |
| AgentRunFacts.LadderClimbedOnce | packages/agent/src/reasoning-loop.ts:240-251 | A run triggers at most three times: steer, abort and continue, stop, in this order |
| AgentRunFacts.CutUnlessDegenerate | packages/agent/src/agent-loop.ts:687-708 | A turn is recorded as cut if and only if the guard decided on its response and degeneracy did not stop it as well |
| AgentRunFacts.DecisionDelivered | packages/agent/src/agent-loop.ts:424-483 | Before the next turn starts or the run ends, each decision but the stop has its message delivered, exactly once, if and only if degeneracy did not stop the same response |
| AgentRunFacts.DecisionLostToDegeneracy | packages/agent/src/agent-loop.ts:687-708 | There is a legal history of a whole run with a decision to steer and no message of the guard |
| LostDecision.DeltaLosesDecision | packages/agent/src/agent-loop.ts:656-708 | In every state in which a response is being received, one delta of a word said 1601 times makes a guard and a detector that saw nothing yet both fire; the ladder advances, the response is stopped as degenerate, and no message is due |
| LostDecision.ReasoningLoops | packages/agent/src/reasoning-loop.ts:203-213 | That delta alone is reasoning that loops |
| LostDecision.TextDegenerates | packages/agent/src/degeneracy.ts:211-254 | And its last 4000 characters are a loop of period 3 |
| AgentRunFacts.NothingAfterStop | packages/agent/src/agent-loop.ts:472-505 | After the guard's stop or a yes of a stop hook, no provider call is made and no turn starts |
| AgentRunFacts.StoppedForGood | packages/agent/src/agent-loop.ts:472-483 | A stop, once taken, is never taken back |
| AgentRunFacts.NothingAfterYes | packages/agent/src/agent-loop.ts:491-536 | Once either stop hook has said yes, nothing but `agent_end` follows: no poll, no provider call, no turn |
| AgentRunFacts.NoesNoted | packages/agent/src/agent-loop.ts:374-505 | What the monitor knows of the hooks is what stands in the history: who said no since the turn ended, and since the last poll |
| AgentRunFacts.HooksBeforePolls | packages/agent/src/agent-loop.ts:491-541 | Between turns, no source is polled before both stop hooks have said no, the second one since the poll before |
| AgentRunFacts.HooksBeforeTurns | packages/agent/src/agent-loop.ts:399-516 | A further turn starts with messages taken since the last turn ended or after a no of the second hook, and never in an aborted run |
| AgentRunFacts.StreakCounts | packages/agent/src/reasoning-loop.ts:220-251 | The streak of cut or idle turns at the end of a history never exceeds four |
| AgentRunFacts.AtMostFourBadTurns | packages/agent/src/reasoning-loop.ts:220-251 | With the guard on, of any five consecutive turns at least one was neither cut nor without progress |
| AgentLoop.AgentRun.constructor | packages/agent/src/agent-loop.ts:319-323 | The run starts with the prompts in both of its transcripts and an empty history |
| AgentLoop.AgentRun.CommitAssistantMessage | packages/agent/src/agent-loop.ts:197-211 | A finished response replaces its partial or is appended, and becomes the newest message of the context, the history and the agent |
| AgentLoop.AgentRun.PollMessagesUnlessAborted | packages/agent/src/agent-loop.ts:227-235 | A queue is passed over exactly when the run is aborted already; one that is asked hands out a portion, which is the answer, or is lost to an abort that wins |
| AgentLoop.AgentRun.Poll | packages/agent/src/agent.ts:499-506 | Only a queue whose answer arrived counts as asked, and its messages are owed from then on; what an abort lost is noted, and ends the polling |
| AgentLoop.AgentRun.PollInitially | packages/agent/src/agent.ts:475-505 | The first poll is waived when steering itself opened the run |
| AgentLoop.AgentRun.ObserveReasoning | packages/agent/src/agent-loop.ts:661-671 | The guard decides exactly when a thinking delta arrives before any tool call, a check is due and the reasoning loops; the decision is the next rung of the ladder |
| AgentLoop.AgentRun.ObserveText | packages/agent/src/agent-loop.ts:656-660 | Text and thinking deltas, and nothing else, reach the detector; it reports exactly when one of its two checks is due and finds a loop or a collapse, and once only |
| AgentLoop.AgentRun.ReceivePartial | packages/agent/src/agent-loop.ts:630-655 | After any number of updates the context holds at most one partial message, at its end |
| AgentLoop.AgentRun.ReceiveEvent | packages/agent/src/agent-loop.ts:619-709 | One stream event leaves the response open with nothing but its partial changed, or finishes it in every transcript |
| AgentLoop.AgentRun.CutIfLooping | packages/agent/src/agent-loop.ts:656-708 | The detector and the guard each fire exactly when their own check says so; a stopped response is finished as an aborted message without tool calls; a reported one returns no decision and leaves no message due, whether the guard decided or not, and one without a report stops exactly when the guard decided |
| AgentLoop.AgentRun.StreamAssistantResponse | packages/agent/src/agent-loop.ts:553-726 | Whatever the provider does, a response that comes back is finished once, last in the context, and the guard advanced at most one rung |
| AgentLoop.AgentRun.ReceiveResponse | packages/agent/src/agent-loop.ts:619-712 | The same for the receiving loop, for any number of events and any point of abort |
| AgentLoop.AgentRun.CommitStopped | packages/agent/src/agent-loop.ts:563-564 | A response the loop stopped is committed as an aborted message |
| AgentLoop.AgentRun.ExecutePreparedToolCall | packages/agent/src/agent-loop.ts:1055-1109 | While a call executes, the history grows by updates of that call only, and by none when the run was aborted before |
| AgentLoop.AgentRun.EmitToolResult | packages/agent/src/agent-loop.ts:903-907 | A result message is emitted for the next call in source order, which has ended |
| AgentLoop.AgentRun.ExecuteToolCallsSequential | packages/agent/src/agent-loop.ts:790-850 | The results are a prefix of the calls, the whole list unless aborted, and every started call is closed; the round ends when there are results and all ask for it |
| AgentLoop.AgentRun.ExecuteOneCall | packages/agent/src/agent-loop.ts:807-839 | One call of a sequential batch runs from its start to its result message, leaving no call open |
| AgentLoop.AgentRun.ExecuteToolCallsParallel | packages/agent/src/agent-loop.ts:852-913 | Aborted or not and in every completion order, there is one result per call in source order and every call is closed; the round ends when all results ask for it |
| AgentLoop.AgentRun.StartAll | packages/agent/src/agent-loop.ts:863-897 | Every call is started in source order; those settled at once are closed at once |
| AgentLoop.AgentRun.RunTasks | packages/agent/src/agent-loop.ts:899-901 | Any interleaving of updates, settlements and ends closes every call |
| AgentLoop.AgentRun.AdvanceTask | packages/agent/src/agent-loop.ts:883-896 | One step of one task, after which less remains to be done |
| AgentLoop.AgentRun.ExecuteToolCalls | packages/agent/src/agent-loop.ts:759-783 | A batch is run one call after another exactly when the run is configured so or one of the calls needs it, and side by side otherwise; both transcripts of the loop have grown by exactly its results |
| AgentLoop.AgentRun.RunCalls | packages/agent/src/agent-loop.ts:436-465 | Native calls, or those recovered from text when there are none, have run, and both transcripts hold the results |
| AgentLoop.AgentRun.EndLoop | packages/agent/src/agent-loop.ts:376-378 | The loop is ended only with all transcripts in agreement, nothing owed and a reason to end |
| AgentLoop.AgentRun.BeginTurn | packages/agent/src/agent-loop.ts:400-415 | Every pending message is appended to all transcripts, in order, before anything else happens in the turn |
| AgentLoop.AgentRun.StreamTurn | packages/agent/src/agent-loop.ts:417-420 | The response is in all three transcripts |
| AgentLoop.AgentRun.SettleStreamed | packages/agent/src/agent-loop.ts:422-434 | A cut below the last rung goes on with one message; any other error or abort ends the run |
| ReasoningLoop.ExtractTurnProgress | packages/agent/src/reasoning-loop.ts:105-140 | The counts of calls by the classes of their names, and of observed text; nothing for messages of other roles |
| ReasoningLoop.ProgressIsAnything | packages/agent/src/reasoning-loop.ts:220-235 | Whatever the tools are called, there is progress exactly when there were calls or observed text |
| AgentLoop.AgentRun.FinishResponse | packages/agent/src/agent-loop.ts:436-467 | Tool calls, recovered ones included, have run and the turn is closed, counted by its progress |
| AgentLoop.AgentRun.JudgeProgress | packages/agent/src/agent-loop.ts:472-483 | The ladder is climbed, by one rung, exactly for the second idle turn in a row; otherwise the run is unchanged, and the streak of bad turns stays bounded by the rungs climbed |
| AgentLoop.AgentRun.CompleteTurn | packages/agent/src/agent-loop.ts:447-516 | After a finished response the run is at a turn boundary again, or ended, or left by a failing hook |
| AgentLoop.AgentRun.PollAfterTurn | packages/agent/src/agent-loop.ts:484-505 | A yes of either stop hook ends the run and leaves every queue alone; both ends are emitted when the first hook is aborted; after two noes steering is polled |
| AgentLoop.AgentRun.AskAfterTurn | packages/agent/src/agent-loop.ts:491-500 | The answer of `shouldStopAfterTurn` is written to the history, unless the hook throws or loses to an abort |
| AgentLoop.AgentRun.AskBeforeTurn | packages/agent/src/agent-loop.ts:374 | The answer of `shouldStopBeforeTurn` is written to the history, unless the hook throws |
| AgentLoop.AgentRun.EndTwice | packages/agent/src/agent-loop.ts:376-505 | In every state in which the first stop hook loses to an abort, exactly that and two `agent_end`s are written |
| AgentLoop.AgentRun.PollSteering | packages/agent/src/agent-loop.ts:507-516 | Drained steering opens the next turn; only when steering was found empty, or the run is aborted, can the second stop hook end the run |
| AgentLoop.AgentRun.PollForMore | packages/agent/src/agent-loop.ts:519-541 | The loop goes on with follow-ups or continuations, or has a reason to end |
| AgentLoop.AgentRun.PollContinuations | packages/agent/src/agent-loop.ts:529-539 | Continuations are the last source; when they are found empty too, the loop may end |
| AgentLoop.AgentRun.LeaveLoop | packages/agent/src/agent-loop.ts:384-391 | A poll lost to an abort ends the run, any other failure leaves it without an end |
| AgentLoop.AgentRun.OpenLoop | packages/agent/src/agent-loop.ts:370-393 | The run starts at a turn boundary with the messages of the first poll and a fresh guard |
| AgentLoop.AgentRun.RunTurn | packages/agent/src/agent-loop.ts:399-517 | One pass of the inner loop keeps the boundary invariant or finishes the run |
| AgentLoop.AgentRun.RunLoop | packages/agent/src/agent-loop.ts:362-545 | The history is legal throughout, and whenever the loop ends its history is that of a finished run |
| AgentLoop.AgentRun.RunAgentLoop | packages/agent/src/agent-loop.ts:311-353 | The same for a whole run, started with prompts or continuing a transcript |
| AgentLoop.OpenIdsAfter | packages/agent/src/agent.ts:587-599 | Pending call ids are always among the calls that are open |
| AgentLoop.RankDrops | packages/agent/src/agent-loop.ts:899-901 | Every step of a task brings the batch closer to its end |
| AgentLoop.LadderEndsInStop | packages/agent/src/reasoning-loop.ts:240-251 | The third decision, and no other, is the stop |
| AgentState.Agent.ProcessEvent | packages/agent/src/agent.ts:572-610 | The state after an event: messages, the message being streamed, pending calls and the error of a finished turn; nothing else changes |
| AgentState.Agent.FinishRun | packages/agent/src/agent.ts:557-563 | Nothing is pending or streaming once a run is closed |
| AgentLifecycle.RunWithLifecycle | packages/agent/src/agent.ts:511-534 | However a run comes back, the agent is idle and its transcript grew by exactly the finished messages, plus one failure message after a failure, told by three events; a transcript that cannot be continued fails without any event of a run |
| AgentLifecycle.Execute | packages/agent/src/agent.ts:444-470 | Whatever happens in a run, its history is legal, the transcript grew by the finished messages, and the queues handed out what the run received of them and what a last poll lost to an abort |
| AgentLifecycle.HandleRunFailure | packages/agent/src/agent.ts:536-555 | The failure is recorded as one more message, aborted or failed, as the error, and by a start, an end and an `agent_end` |
| AgentLifecycle.NoMessageVanishes | packages/agent/src/agent.ts:125-173 | After a run every message ever queued is still waiting, was discarded, was handed out before the run, is part of its story, or was lost to an abort that won its last poll |
| MessageQueue.PendingMessageQueue.Enqueue | packages/agent/src/agent.ts:130-135 | A non-empty batch gets the next ticket and waits last; an empty one changes nothing |
| MessageQueue.PendingMessageQueue.HasItems | packages/agent/src/agent.ts:137-139 | Something is there exactly while a ticket waits |
| MessageQueue.PendingMessageQueue.Drain | packages/agent/src/agent.ts:141-154 | In mode `all` everything is delivered and nothing waits, in mode `one-at-a-time` the first batch alone; whole and in order of arrival |
| MessageQueue.PendingMessageQueue.Clear | packages/agent/src/agent.ts:156-158 | Exactly the waiting tickets are discarded |
| MessageQueue.PendingMessageQueue.RemoveWhere | packages/agent/src/agent.ts:160-172 | Exactly the batches that hold a matching message are taken out, whole and in order, and the rest, without a matching message, keep their order |
| MessageQueue.SplitBatches | packages/agent/src/agent.ts:161-169 | The loop separates matching and other batches without splitting or reordering any |
| MessageQueue.LedgerAfterRemoval | packages/agent/src/agent.ts:125-173 | Removal keeps each arrived batch delivered, discarded or waiting, never two of these, in order of arrival |
| MessageQueue.LedgerAfterDelivery | packages/agent/src/agent.ts:141-154 | Draining delivers exactly the tickets of the batches it hands out, and the books stay balanced |
| MessageQueue.ContentsHanded | packages/agent/src/agent.ts:141-154 | Drained batches follow, in order, on everything the queue had handed out before |
| MessageQueue.SelectionSplitsTickets | packages/agent/src/agent.ts:160-172 | A waiting ticket is kept or taken by what its batch holds, and both parts keep the order of arrival |
| MessageQueue.ChooseContinuation | packages/agent/src/agent.ts:367-417 | Steering opens the run before follow-ups do, one drain at a time; after a user or tool-result message the queues are left alone |
| ReasoningLoop.NgramsAreTheGrams | packages/agent/src/reasoning-loop.ts:77-85 | The compared set holds exactly the runs of three to five consecutive words |
| ReasoningLoop.NgramSet | packages/agent/src/reasoning-loop.ts:77-85 | The two loops build that set |
| ReasoningLoop.SharedGrams | packages/agent/src/reasoning-loop.ts:91-96 | The loop counts the intersection of two sets |
| ReasoningLoop.JaccardAboveThreshold | packages/agent/src/reasoning-loop.ts:87-98 | The answer is whether intersection over union exceeds 0.8, with two empty sets alike |
| ReasoningLoop.ReasoningLoopGuard.ObserveThinking | packages/agent/src/reasoning-loop.ts:166-178 | The streamed state stays a function of all thinking since the last progress, and the trigger fires exactly when a check is due and that text loops: never before 256 more and 4800 characters in all or while the last 120 words say only new things, always when they say the 120 before them again |
| ReasoningLoop.ReasoningLoopGuard.IngestWords | packages/agent/src/reasoning-loop.ts:180-201 | However the text is cut, the word buffer and the two chunk sets are those of the whole text |
| ReasoningLoop.ReasoningLoopGuard.IsLooping | packages/agent/src/reasoning-loop.ts:203-213 | It answers whether the text loops: never for 120 words without three in a row that were said in the 120 before, always for the same 120 words, once more than 4800 characters came |
| ReasoningLoop.LoopingMeasured | packages/agent/src/reasoning-loop.ts:203-213 | For the different runs of three to five words of the last two times 120 words, reasoning loops if and only if more than 4800 characters came since the last progress and the two sets share more than four fifths of their union |
| ReasoningLoop.ReasoningMeasured | packages/agent/src/reasoning-loop.ts:203-213 | Reasoning whose last 120 words repeat no three words in a row of the 120 before does not loop; repeating all 120 does |
| ReasoningLoop.ReasoningLoopGuard.FinishTurn | packages/agent/src/reasoning-loop.ts:220-238 | Progress forgets everything; without it the streak grows, and fires from two on; either way the streamed state stays that of the text since the last progress |
| ReasoningLoop.ReasoningLoopGuard.Trigger | packages/agent/src/reasoning-loop.ts:241-251 | The ladder is climbed one rung at a time and never rearms |
| ReasoningLoop.ForgottenIsValid | packages/agent/src/reasoning-loop.ts:228-234 | A guard that forgot everything stands for the empty text again |
| ReasoningLoop.ChunkStep | packages/agent/src/reasoning-loop.ts:194-200 | Completing a chunk keeps exactly the sets of the last two full chunks |
| AnsiScan.ControlEndIffFirstTerminator | packages/tui/src/ansi-scan.ts:39-61 | A control string ends at its first terminator, and has an end only if one follows |
| AnsiScan.CsiEndIffGrammar | packages/tui/src/ansi-scan.ts:68-89 | The scan accepts exactly parameters, then intermediates, then one final byte (ECMA-48 section 5.4), and ends after it |
| AnsiScan.SequencesInUnits | packages/tui/src/ansi-scan.ts:54-105 | A complete sequence is a control sequence, or `ESC ]` or `ESC _` up to the first BEL or ST, or `ESC P`, `ESC ^` or `ESC X` up to the first ST, and nothing else is one; all units written out |
| AnsiScan.AnsiEnd | packages/tui/src/ansi-scan.ts:63-102 | A complete sequence lies within the text and starts with ESC |
| AnsiScan.AnsiEndLocal | packages/tui/src/ansi-scan.ts:63-102 | A complete sequence is recognised wherever the same units stand, whatever surrounds them |
| AnsiScan.AnsiEndShift | packages/tui/src/ansi-scan.ts:63-102 | Scanning a suffix is scanning the whole at a shifted position |
| AnsiScan.AnsiEndPrefix | packages/tui/src/ansi-scan.ts:63-102 | Cutting a text keeps exactly the sequences that end by the cut |
| AnsiScan.BackwardEqualsForward | packages/tui/src/ansi-scan.ts:12-37 | Remembering the nearest BEL and ST from the right gives the forward scan's answer |
| AnsiScan.CacheControlStringEnds | packages/tui/src/ansi-scan.ts:12-37 | The backward pass stores the forward scan's answer for every control string introducer, reading each unit a bounded number of times |
| AnsiScan.AnsiScanState.ExtractControlStringEnd | packages/tui/src/ansi-scan.ts:39-61 | Cached or not the answer is the stateless one; a failed forward scan fills the cache from there on |
| AnsiScan.AnsiScanState.ExtractAnsiEndAt | packages/tui/src/ansi-scan.ts:63-123 | For every text and every sequence of positions in any order the memoised scan answers as the stateless one; a failed search covers the text from its position on, where no later search fails |
| AnsiScan.FailedSpan | packages/tui/src/ansi-scan.ts:69-88 | What a malformed control sequence makes the scan read beyond its introducer holds no ESC, so such scans do not overlap |
| AnsiTracker.SplitJoin | packages/tui/src/ansi-scan.ts:205 | Splitting joined parameters gives them back |
| AnsiTracker.JoinSplit | packages/tui/src/ansi-scan.ts:205 | Joining split parameters gives the text back |
| AnsiTracker.SplitAppend | packages/tui/src/ansi-scan.ts:345 | Splitting distributes over a joining semicolon |
| AnsiTracker.ParseDecimal | packages/tui/src/ansi-scan.ts:208 | Reading a written number gives it back |
| AnsiTracker.LexCut | packages/tui/src/ansi-scan.ts:386-398 | Where the scanner stands between sequences, the sequences of a text are those before the cut and those after it |
| AnsiTracker.RunTextCut | packages/tui/src/ansi-scan.ts:386-398 | A scan may stop and resume wherever it stands between sequences |
| AnsiTracker.RunCode | packages/tui/src/ansi-scan.ts:104-107 | A text that starts with one complete sequence acts as that sequence first |
| AnsiTracker.FormatParsed | packages/tui/src/ansi-scan.ts:133-155 | A parsed opening hyperlink is written back as the very text it was read from |
| AnsiTracker.RunTextKeepsOk | packages/tui/src/ansi-scan.ts:178-310 | Every state a text can lead to can be written down and read back |
| AnsiTracker.ApplyJoined | packages/tui/src/ansi-scan.ts:345 | Reading joined parameters is reading them one after another |
| AnsiTracker.StyleCodesOverlay | packages/tui/src/ansi-scan.ts:332-345 | Reading a state's style parameters lays its attributes and colours over the reader's, and changes nothing else |
| SgrDefaults.ReadsAsStandardExactly | packages/tui/src/ansi-scan.ts:195-310 | The tracker reads an SGR sequence as ECMA-48 section 8.3.117 does, whatever the state, if and only if it has no parameters or none of its empty parameters and 21s makes an attribute or colour diverge |
| SgrDefaults.PartsAgreeExactly | packages/tui/src/ansi-scan.ts:205-310 | The same for a list of parameters |
| SgrDefaults.NotDivergingAgrees | packages/tui/src/ansi-scan.ts:205-310 | An attribute or colour that does not diverge ends up the same in both readings |
| SgrDefaults.DivergingDiffers | packages/tui/src/ansi-scan.ts:205-310 | One that diverges differs from some state on |
| SgrDefaults.SlotOfCode | packages/tui/src/ansi-scan.ts:238-307 | What each standard parameter does to each attribute and colour |
| SgrDefaults.HeadEffects | packages/tui/src/ansi-scan.ts:205-310 | A parameter does the same to every attribute and colour in both readings, unless it is empty or, for bold, 21 |
| SgrDefaults.EmptyParameterKeepsDim | packages/tui/src/ansi-scan.ts:205-210 | `ESC [ ; 1 m` keeps dim text dim, which the standard would clear |
| SgrDefaults.DoubleUnderlineClearsBold | packages/tui/src/ansi-scan.ts:266-268 | `ESC [ 21 m` turns bold off, which the standard would leave on |
| AnsiReplay.ParseFormatted | packages/tui/src/ansi-scan.ts:133-155 | Parsing a formatted hyperlink gives it back, with its terminator |
| AnsiReplay.RunActiveCodes | packages/tui/src/ansi-scan.ts:332-350 | Reading `getActiveCodes()` of a state lays all of it over the reader's state |
| AnsiReplay.ActiveCodesRestore | packages/tui/src/ansi-scan.ts:332-350 | A fresh reader of `getActiveCodes()` behaves, on any following text, as the written state does |
| AnsiReplay.RunLineEndReset | packages/tui/src/ansi-scan.ts:374-383 | `getLineEndReset()` turns off underline and the hyperlink and nothing else |
| AnsiReplay.LineEndThenActiveCodesRestore | packages/tui/src/ansi-scan.ts:332-383 | Closing a line and reopening it restores exactly the state |
| AnsiReplay.BrokenLineReadsTheSame | packages/tui/src/ansi-scan.ts:332-398 | A text broken between sequences, with the active codes rewritten, leaves a fresh reader in the state of the unbroken text |
| AnsiReplay.TornSequenceReadsDifferently | packages/tui/src/ansi-scan.ts:386-398 | Cutting inside a sequence can lose it, so the condition on the cut is needed |
| AnsiReplay.AnsiCodeTracker.Process | packages/tui/src/ansi-scan.ts:178-310 | The field-by-field tracker computes the state function on which the replay laws are proved, and whose codes `SgrCodes` spells out |
| SgrCodes.SgrCode | packages/tui/src/ansi-scan.ts:193-310 | A code `ESC [ parameters m` reads its parameters one after another |
| SgrCodes.PaletteForeground | packages/tui/src/ansi-scan.ts:211-223 | `38;5;n` sets the foreground to that text, changes nothing else and takes three parameters, whatever n is and what follows |
| SgrCodes.PaletteBackground | packages/tui/src/ansi-scan.ts:211-223 | So does `48;5;n` with the background |
| SgrCodes.TrueForeground | packages/tui/src/ansi-scan.ts:224-233 | `38;2;r;g;b` sets the foreground to that text, changes nothing else and takes five parameters |
| SgrCodes.TrueBackground | packages/tui/src/ansi-scan.ts:224-233 | So does `48;2;r;g;b` with the background |
| SgrCodes.NoColorSelected | packages/tui/src/ansi-scan.ts:211-235 | 38 or 48 followed by neither shape changes nothing and takes one parameter |
| SgrCodes.StandardColors | packages/tui/src/ansi-scan.ts:297-306 | 30 to 37 and 90 to 97 set the foreground to their own number, 40 to 47 and 100 to 107 the background |
| SgrCodes.DefaultColors | packages/tui/src/ansi-scan.ts:291-296 | 39 and 49 give the default colours back |
| SgrCodes.AttributeCodes | packages/tui/src/ansi-scan.ts:242-290 | 1 to 9 turn one attribute on and 21 to 29 one off, 22 both bold and dim; 6 and 26 do nothing |
| SgrCodes.ZeroResets | packages/tui/src/ansi-scan.ts:239-241 | 0 among other parameters turns off everything but the hyperlink |
| SgrCodes.ResetCodes | packages/tui/src/ansi-scan.ts:197-202 | So do `ESC [ m` and `ESC [ 0 m` |
| SgrCodes.PaletteCode | packages/tui/src/ansi-scan.ts:178-223 | `ESC [ 38;5;n m` as a whole sets the foreground and nothing else |
| SgrCodes.LinkCodes | packages/tui/src/ansi-scan.ts:133-187 | `ESC ] 8 ; params ; url` ended by BEL or ST opens that hyperlink and remembers which of the two it was |
| SgrCodes.LinkCloses | packages/tui/src/ansi-scan.ts:133-187 | Without a URL it closes the hyperlink |
| AnsiReplay.AnsiCodeTracker.ApplyStandardCode | packages/tui/src/ansi-scan.ts:238-307 | Each standard parameter changes exactly its own attribute or colour |
| AnsiReplay.AnsiCodeTracker.Reset | packages/tui/src/ansi-scan.ts:312-324 | An SGR reset clears every attribute and colour and keeps the hyperlink |
| AnsiReplay.AnsiCodeTracker.Clear | packages/tui/src/ansi-scan.ts:327-330 | Clearing gives the fresh state |
| AnsiReplay.AnsiCodeTracker.GetActiveCodes | packages/tui/src/ansi-scan.ts:332-350 | The written text is that of the replay laws |
| SgrCodes.ActiveCodesSpelled | packages/tui/src/ansi-scan.ts:332-350 | With everything on, the attributes are written in order, then foreground, background and hyperlink |
| AnsiReplay.AnsiCodeTracker.GetLineEndReset | packages/tui/src/ansi-scan.ts:374-383 | The written text is that of the line-end laws |
| SgrCodes.LineEndSpelled | packages/tui/src/ansi-scan.ts:374-383 | The line end is `ESC [ 24 m` for an underline and an empty link with its own terminator for a link |
| AnsiReplay.UpdateTrackerFromText | packages/tui/src/ansi-scan.ts:386-398 | The tracker ends in the state of the whole text; at most one control string is searched in vain, and at most nine code units are looked at per unit of text |
| AnsiStrip.StripAnsi | packages/tui/src/ansi-scan.ts:405-431 | The slicing loop computes the two-stage removal |
| AnsiStrip.StripFixesExactlyInert | packages/tui/src/ansi-scan.ts:405-431 | Every ESC left is last or stands before a line break, and a text is left alone exactly when its escapes are such already |
| AnsiStrip.StripIdempotent | packages/tui/src/ansi-scan.ts:405-431 | Stripping twice is stripping once |
| AnsiStrip.StripIsSubsequence | packages/tui/src/ansi-scan.ts:405-431 | Stripping only removes |
| AnsiStrip.LoneEscape | packages/tui/src/ansi-scan.ts:405-431 | In otherwise plain text an ESC before a unit that opens no sequence goes, with that unit; before a line break both stay; the text around is kept |
| AnsiStrip.IndexOfEscape | packages/tui/src/ansi-scan.ts:409 | The next ESC, or none |
| AnsiSegments.CodeStripsIffDissolves | packages/tui/src/ansi-scan.ts:400-431 | A code is stripped from every text of plain stretches and codes it can stand in if and only if what the first stage leaves of it dissolves into complete sequences and settled two-unit escapes |
| AnsiSegments.VanishesIffDissolves | packages/tui/src/ansi-scan.ts:413-430 | The second stage removes a stretch in every context if and only if it dissolves |
| AnsiSegments.VanishingDissolves | packages/tui/src/ansi-scan.ts:413-430 | Three contexts suffice to tell: nothing, a final byte, and a plain unit before a terminator |
| AnsiSegments.DissolvingVanishes | packages/tui/src/ansi-scan.ts:413-430 | What dissolves leaves nothing and takes nothing with it, whatever follows |
| AnsiSegments.StripLeavesPlainText | packages/tui/src/ansi-scan.ts:404-431 | Text of plain stretches and codes that dissolve is stripped to exactly its plain stretches |
| AnsiSegments.StripSegment | packages/tui/src/ansi-scan.ts:404-431 | Each such segment contributes its plain text and nothing else |
| AnsiSegments.StandardCodeDissolves | packages/tui/src/ansi-scan.ts:400-408 | Control sequences, two-unit escapes, and control strings without a control sequence inside all dissolve |
| AnsiSegments.FastPathCanLeakPayload | packages/tui/src/ansi-scan.ts:402-408 | A complete OSC string that does not dissolve: its remainder survives stripping, while the second stage alone would remove it |
| Tokens.TokensAppend | packages/agent/src/degeneracy.ts:146-172 | Holding back only the unfinished word, the words of a text cut anywhere are the words of the whole |
| Tokens.OneMoreWord | packages/agent/src/degeneracy.ts:146-161 | A run of word characters behind another character and before one is one more word, in lower case |
| Tokens.NoWordMore | packages/agent/src/degeneracy.ts:146-161 | No other character adds a word |
| Tokens.NextWord | packages/agent/src/degeneracy.ts:150-160 | The next match is the first maximal word run |
| Tokens.SplitWords | packages/agent/src/degeneracy.ts:146-161 | The matching loop finds the finished words and the word that touches the end |
| Degeneracy.LanguageGate | packages/agent/src/degeneracy.ts:69-80 | At least 35 per cent of the tokens are stop words; silence is not language |
| Degeneracy.LastIndexOf | packages/agent/src/degeneracy.ts:216-217 | The nearest earlier occurrence of the probe, or none |
| Degeneracy.MeasureRun | packages/agent/src/degeneracy.ts:230-234 | The run is the longest suffix with the period |
| Degeneracy.InspectTail | packages/agent/src/degeneracy.ts:211-254 | A loop is reported exactly when the measured run passes every gate |
| Degeneracy.LoopsMeasured | packages/agent/src/degeneracy.ts:211-254 | In numbers: a loop of period at most 512 without a line break in its last period, at least 480 characters and four periods long, as far back as it goes, of at least eight words with the stop words of prose, in a tail of at least 512 characters, whose last 32 recur no closer |
| Degeneracy.MeasuredRunUnique | packages/agent/src/degeneracy.ts:216-234 | A text has at most one measured run |
| Degeneracy.BlocksAreCopies | packages/agent/src/degeneracy.ts:234-237 | Every whole block of a periodic suffix is a copy of the last |
| Degeneracy.LoopReportIsLeastPeriod | packages/agent/src/degeneracy.ts:211-254 | The measured run of a reported length has the reported period as its least period, and ends in `floor(run / period) >= 4` identical copies |
| Degeneracy.MeasuredIffProbeIsPrimitive | packages/agent/src/degeneracy.ts:216-234 | A maximal repetition is the one measured if and only if the probe recurs no closer than its period |
| Degeneracy.ReportedIffProbeIsPrimitive | packages/agent/src/degeneracy.ts:211-254 | A maximal repetition that passes every gate is reported if and only if the last 32 characters recur no closer than its period |
| DegeneracyStutter.StutterIsMissed | packages/agent/src/degeneracy.ts:211-254 | Ten verbatim copies of a 70-character sentence of stop words pass every gate and go unreported |
| DegeneracyStutter.StutterPassesGates | packages/agent/src/degeneracy.ts:221-248 | They are a loop by every gate, for all that the detector reads as words and stop words |
| DegeneracyStutter.StutterMeasured | packages/agent/src/degeneracy.ts:216-234 | What is measured instead has period 3 and at most 37 characters |
| DegeneracyPeriods.FineWilf | packages/agent/src/degeneracy.ts:216-234 | A text with periods `p` and `q` and at least `p + q - 1` units has a common divisor of both as a period |
| DegeneracyPeriods.CloserProbeDivides | packages/agent/src/degeneracy.ts:216-234 | In a repetition of period at most 33, a probe that recurs closer shortens the period of the whole |
| DegeneracyPeriods.ShortPeriodsAreReported | packages/agent/src/degeneracy.ts:211-254 | A maximal repetition that passes every gate is reported whenever its least period is at most 33 |
| DegeneracyPeriods.LongerPeriodIsMissed | packages/agent/src/degeneracy.ts:211-254 | One of least period 34 passes every gate and goes unreported |
| Degeneracy.CountGrams | packages/agent/src/degeneracy.ts:184-195 | The distinct 4-grams of the window and the count of the most frequent |
| Degeneracy.WindowCollapsed | packages/agent/src/degeneracy.ts:178-199 | The window reads as language, has under 80 per cent distinct 4-grams, and one recurs seven times |
| Degeneracy.CollapseMeasured | packages/agent/src/degeneracy.ts:174-199 | In numbers: the last 120 words read as prose, have fewer than 94 different runs of four words, and one run at seven places |
| Degeneracy.StopsCounted | packages/agent/src/degeneracy.ts:69-80 | The stop words counted are the places at which one stands |
| Degeneracy.DegeneracyDetector.ResetBlock | packages/agent/src/degeneracy.ts:135-143 | A new block starts from nothing |
| Degeneracy.DegeneracyDetector.Ingest | packages/agent/src/degeneracy.ts:146-172 | The carry is that of the whole block if and only if no word run was flushed, which happens exactly beyond 4000 characters; until then the last 120 words are those of the whole block; all buffers stay bounded |
| Degeneracy.DegeneracyDetector.InspectWindow | packages/agent/src/degeneracy.ts:174-209 | The streak counts collapsed windows in a row, and the second one is reported |
| Degeneracy.DegeneracyDetector.Inspect | packages/agent/src/degeneracy.ts:120-132 | When each check is due, what it reports and what it leaves of the counters |
| Degeneracy.DegeneracyDetector.Push | packages/agent/src/degeneracy.ts:105-133 | For any split of a block into deltas the state is that of the whole block, and nothing of another block counts; a loop or a collapse is reported exactly when its check is due and finds it, the loop first, and nothing after a report; the words kept are the last ones, an over-long one flushed from the carry included |
| Catalogue.MajorityValue | packages/ai/scripts/generate-models.ts:2536-2548 | The result is most frequent, and smallest among the most frequent |
| Catalogue.MajorityUnique | packages/ai/scripts/generate-models.ts:2536-2548 | The choice does not depend on the order of the values |
| Catalogue.MajorityMinimisesOverrides | packages/ai/scripts/generate-models.ts:2567-2583 | No default needs fewer overrides |
| Catalogue.ChooseDefault | packages/ai/scripts/generate-models.ts:2569-2581 | Each hoisted field is the majority of its provider |
| Catalogue.NameConstants | packages/ai/scripts/generate-models.ts:2603-2610 | A value gets a name, once, exactly when it is spelled more than once |
| Catalogue.ChooseConstants | packages/ai/scripts/generate-models.ts:2587-2613 | This holds for compat, headers and thinking maps over the whole file |
| Catalogue.UsesAreSpelled | packages/ai/scripts/generate-models.ts:2587-2603 | What is counted for the constants is how often the provider and its records spell the value out |
| Catalogue.ResolveConstRef | packages/ai/scripts/generate-models.ts:2614-2617 | Naming a value changes nothing about it |
| Catalogue.TailFound | packages/ai/src/models-compact.ts:101-106 | Cost tuple and overrides object are told apart in every record |
| Catalogue.ModelRoundTrip | packages/ai/scripts/generate-models.ts:2649-2677 | Whatever the defaults and constants, a compacted model expands to itself under the keys it was filed under, up to its output modalities, a cleared compat and an untrue `featured` |
| Catalogue.ExactRoundTrip | packages/ai/src/models-compact.ts:16-23 | It expands to itself exactly when it is filed under its own id and provider, has no output modalities, its compat is an object, or missing under no default, or `null` under one, and it does not say `featured: false` |
| Catalogue.RenderProvider | packages/ai/scripts/generate-models.ts:2649-2678 | Every model of a provider gets its record, which says exactly what differs from the defaults and nothing more, or the generator throws for a model it cannot write |
| Catalogue.RecordSaysWhatDiffers | packages/ai/scripts/generate-models.ts:2654-2676 | A written record holds the fixed fields, a cost unless all is free, and an override exactly for each field that differs from the default |
| Catalogue.RecordIsMinimal | packages/ai/scripts/generate-models.ts:2654-2676 | Any record that expands to the same model has at least those overrides and that cost, and no shorter a tail |
| Catalogue.OverridesWritten | packages/ai/scripts/generate-models.ts:2661-2673 | As many `a`, `u` and `c` overrides are written for a provider as it has models whose value is not the default |
| Catalogue.MajorityWritesLeast | packages/ai/scripts/generate-models.ts:2567-2583 | No other defaults and constants write fewer `a` or `c` overrides |
| Catalogue.UrlsLeastExactly | packages/ai/scripts/generate-models.ts:2572-2578 | None write fewer `u` overrides if and only if a base URL is hoisted or some model has none |
| Catalogue.RenderSource | packages/ai/scripts/generate-models.ts:2638-2680 | An empty provider cannot be written |
| Catalogue.Render | packages/ai/scripts/generate-models.ts:2563-2684 | The whole file is written exactly when every provider can be |
| Catalogue.ExpandModels | packages/ai/src/models-compact.ts:95-146 | The nested loops expand every record of every provider |
| Catalogue.ProviderRoundTrip | packages/ai/src/models-compact.ts:97-144 | Every model of a provider comes back so restored under its id, and no other appears |
| Catalogue.CatalogueRoundTrip | packages/ai/src/models-compact.ts:95-146 | Every model of every provider comes back so restored from a rendered file |
| JsonSlice.SliceBalancedJson | packages/agent/src/content-tool-calls.ts:124-160 | The result is the prefix, after white space, that starts with a bracket and at whose end and not before the depth outside strings is back to zero; there is none exactly when nothing is returned |
| JsonSlice.BalancingPrefixUnique | packages/agent/src/content-tool-calls.ts:136-159 | There is at most one such prefix |
| JsonSlice.PrintReturns | packages/agent/src/content-tool-calls.ts:136-158 | Reading a printed value leaves the automaton where it was and never below |
| JsonSlice.PrintBalances | packages/agent/src/content-tool-calls.ts:136-158 | A printed array or object balances at its end and not before |
| JsonSlice.SliceOfPrinted | packages/agent/src/content-tool-calls.ts:124-160 | With any white space before and any text after it, exactly the printed array or object is cut out |
| JsonSlice.FirstUnitDecides | packages/agent/src/content-tool-calls.ts:125-132 | Nothing is cut out of a text whose first unit after white space is no bracket |
| JsonSlice.ProseHidesPayload | packages/agent/src/content-tool-calls.ts:120-132 | After any prose the payload is found if and only if the prose is white space; what is cut out instead, if anything, starts with a bracket of the prose |
| JsonSlice.ProseExample | packages/agent/src/content-tool-calls.ts:120-132 | `ok {}` yields nothing |
| JsonSlice.RemarkIsTaken | packages/agent/src/content-tool-calls.ts:120-132 | A bracketed remark before the payload is cut out in its place |
| TextToolCalls.CollectPayloads | packages/agent/src/content-tool-calls.ts:184-193 | The loop attempts one slice after each tag, in order |
| TextToolCalls.WrittenCallsCollected | packages/agent/src/content-tool-calls.ts:183-194 | Tagged calls written one after another, with prose between them, are collected whole, in order and alone if and only if no other tag has a payload after it |
| TextToolCalls.WhiteSpaceIsSpace | packages/agent/src/content-tool-calls.ts:124-125 | What is skipped before a payload is the white space of ECMA-262 |
| TextToolCalls.StrayPayloads | packages/agent/src/content-tool-calls.ts:184-193 | What is collected from tags that start in a stretch comes first, and is nothing exactly when none of them has a payload |
| TextToolCalls.AtLeastTheCalls | packages/agent/src/content-tool-calls.ts:184-193 | Every written call is collected, whatever else is |
| TextToolCalls.TagsApart | packages/agent/src/content-tool-calls.ts:184-192 | Two tags never overlap, so that the loop misses none |
| TextToolCalls.SkipUntagged | packages/agent/src/content-tool-calls.ts:184-193 | Text without a tag contributes nothing |
| TextToolCalls.TagInPayloadIsCollectedToo | packages/agent/src/content-tool-calls.ts:187-192 | A tag inside a payload's string yields a second payload |
| Fullscreen.ClippedDockHeight | packages/tui/src/fullscreen.ts:14-17 | The dock is shown whole, or as far as it leaves three rows to the transcript |
| Fullscreen.FullscreenViewport.ComposeFrame | packages/tui/src/fullscreen.ts:100-133 | A frame has exactly `height` rows: at its end the last lines of the dock, all or as many as leave three rows, above them the transcript from the scroll position on; that position stays in range, where it was, or at the end while following |
| Fullscreen.FullscreenViewport.ComposeWindow | packages/tui/src/fullscreen.ts:124-131 | The window shows its part of the transcript, placeholders for images and blanks below the end |
| Fullscreen.FullscreenViewport.ScrollBy | packages/tui/src/fullscreen.ts:700-704 | Scrolling is clamped, and following is exactly being at the end |
| Fullscreen.FullscreenViewport.ScrollToTop | packages/tui/src/fullscreen.ts:706-709 | The top, following only when everything fits |
| Fullscreen.FullscreenViewport.ScrollToBottom | packages/tui/src/fullscreen.ts:711-714 | The end, following |
| Fullscreen.FullscreenViewport.Reset | packages/tui/src/fullscreen.ts:695-697 | Nothing is remembered of the screen |
| Fullscreen.FullscreenViewport.Paint | packages/tui/src/fullscreen.ts:660-692 | After any sequence of paints, resets and size changes, executing the row diff leaves the screen as a full repaint of the frame would |
| Fullscreen.FullscreenViewport.ShownRows | packages/tui/src/fullscreen.ts:660-692 | That repaint shows the last rows of a frame too high, and the first columns of a line too wide |
| Fullscreen.ExecuteRow | packages/tui/src/fullscreen.ts:679-681 | Moving to a row, erasing and writing it changes that row alone |
| Fullscreen.AppendLeavesRows | packages/tui/src/fullscreen.ts:114-118 | While not following, appended lines change no row that shows transcript or dock |
| Fullscreen.FollowingShowsEnd | packages/tui/src/fullscreen.ts:114-116 | While following, the last line of the transcript is in the frame |
| Fuzzy.GreedyIsLeftmost | packages/tui/src/fuzzy.ts:30-53 | The greedy places are found exactly for subsequences |
| Fuzzy.NoEmbeddingFurtherLeft | packages/tui/src/fuzzy.ts:30-53 | No other way to find the query matches any of its units earlier |
| Fuzzy.MatchQuery | packages/tui/src/fuzzy.ts:16-64 | The scan succeeds exactly when the query is a subsequence of the text, with the score of the leftmost places |
| Fuzzy.MatchOfIffSubsequence | packages/tui/src/fuzzy.ts:17-57 | A query matches exactly when it is a subsequence, so never when it is longer |
| Fuzzy.PlaceScores | packages/tui/src/fuzzy.ts:30-53 | What one more place adds: a tenth of a point for every unit before it, ten points less at the start of a word, five less for every place of its run so far, two more for every unit skipped |
| Fuzzy.ExactMatchIsBest | packages/tui/src/fuzzy.ts:59-63 | In every other text a query scores at least a hundred points worse than in itself |
| Fuzzy.SwapIsSecond | packages/tui/src/fuzzy.ts:66-89 | The swap is tried only when the query itself is not found, and costs five points |
| Fuzzy.SwapQueryFindsSwap | packages/tui/src/fuzzy.ts:71-81 | The swapped query is the only exchange of a run of letters and a run of digits, when there is one |
| Fuzzy.Match | packages/tui/src/fuzzy.ts:12-89 | A text matches exactly when the query or its swap is a subsequence; a swapped match costs five points |
| Fuzzy.ScoreItem | packages/tui/src/fuzzy.ts:114-130 | An item is kept exactly when every token matches, with the sum of the scores |
| Fuzzy.TokensScoreTogether | packages/tui/src/fuzzy.ts:114-130 | Every token adds its own score, wherever it stands among the others |
| Fuzzy.StableSortKeeps | packages/tui/src/fuzzy.ts:133 | Sorting orders by score, loses nothing, and keeps the order of equal scores |
| Fuzzy.FuzzyFilterScored | packages/tui/src/fuzzy.ts:101-135 | Exactly the items whose tokens all match are returned, once per occurrence, sorted by score and otherwise in order |

## Left out

- Promises, timers, sockets and `AbortSignal` listeners: an abort flag that may rise at every await, and arbitrary
  answers of the environment. Listeners that throw are not modelled; a provider, poll or hook that throws appears as a
  run that threw.
- Non-terminating runs: a run that has not come back yet is the outcome `StillRunning` after any number of turns, so
  the results hold of every finite history.
- Provider streams obey the protocol of packages/ai/src/types.ts:276-296, with at most one `start` per response;
  request building, key lookup, `transformContext`, `convertToLlm`, argument validation, aliases and their notes,
  diagnostics, usage and error texts are not modelled.
- AgentLoop.AgentRun.PollMessagesUnlessAborted: steering and follow-ups come from the queues of the agent, whose host
  may enqueue, clear and remove anything between polls; continuations are arbitrary messages.
- `Agent.createLoopConfig` never passes `reasoningLoopGuard`, so the guard is on in every run of an `Agent`; the run is
  proved with the guard on and off.
- Which tools need their batch to run one call after another is a function of the tool's name, fixed for a run.
- `AgentRun` spreads the body of `runLoop` over several methods, one per stage of a turn.
- Unicode classes, lower-casing, stop words and white space are parameters; a text is a sequence of code units, so
  words of characters outside the basic plane are not told apart from surrogate halves. Ratios are compared as
  integers; n-gram keys are word sequences, since no word holds a blank.
- `AnsiCodeTracker.hasActiveCodes` and the extracted code texts beyond their ends.
- Catalogue: objects stand for their JSON text, which for none of them reads `null`; ids come in sorted order; the
  emitted TypeScript text and the network fetchers are left out.
- JsonSlice.SliceOfPrinted: numbers and literal names are any text without quotes and brackets, which covers all of
  RFC 8259 and more. The fenced and `<tool_call>` dialects, `JSON.parse` and the shape checks on payloads are left out.
- Fullscreen.FullscreenViewport.Paint: a terminal is a row per line and a cursor row; column widths, clamping and image
  detection live in other files and are parameters; nothing else writes to the screen, and frames are not mutated after
  painting. Selection, mouse and hyperlink lookup are left out.
- Fuzzy.FuzzyFilterScored: scores are counted in tenths as integers, and the language's stable sort is an insertion
  sort. `fuzzyFilter`, which drops the scores again, is left out.
