# Verification of the agent core and its neighbours

A Dafny model of the parts of GSD-2 whose behaviour spans many steps: the agent loop and its message queues, the
ordering of extensions, the delivery of batched events, the reading of a proxied model stream, the life of a managed
session, the injection of prepared answers, and the syncing of bundled resources. `dafny verify dfyconfig.toml`
checks the whole project.

## How it is built

Each stateful component has three layers.

* A specification on values: a state, and a function for each atomic step. What the outside world decides (a model's
  reply, a tool's fate, a timer, a queue operation between two polls) is a parameter of the step, so a statement
  about all step sequences is a statement about all interleavings.
* The component in the form the program has it: a class or a set of methods with loops that update fields and arrays
  in place, each proved to produce exactly the state its specification gives.
* Lemmas about every run of the specification. They are stated through readers defined apart from the code that
  writes: a grammar automaton and a replaying replica for the event log, a ledger of arrivals for the queues, a trace
  of acts for counters and bounds, a log observer for the batcher, walks and topological orders for the sort.

| files | component |
|---|---|
| `Transcript`, `EventLog`, `MessageQueues`, `RunTrace` | vocabulary of runs, and the independent readers |
| `ToolExecution`, `ToolOutcomes`, `ToolTurns`, `ToolOrder` | the two executors of a turn's tool calls, what becomes of each call, and the order of the results |
| `AgentLoop`, `AgentLoopTheorems`, `AgentRuns` | one run as a step machine, its invariant, its guarantees |
| `TurnLaws`, `PollLaws`, `LogLaws` | one turn, its polls and its events, told from what comes in |
| `AgentInjection`, `ForcedStops` | how polled messages reach the model, and when they do not |
| `AgentLife` | an agent's whole life: runs one after the other, with the queues in use throughout |
| `AgentRuntime` | the agent object and the nested loop, refining the above |
| `DependencyGraph`, `ExtensionSort`, `ExtensionLoading` | orders of a graph, Kahn's algorithm, what it promises |
| `MessageBatcher`, `PriorityPath` | batching with timer, capacity, priority, retry and shutdown |
| `Strings`, `ProxyStream`, `ProxyOutputs` | line framing, incremental message reconstruction, and what the consumer is told |
| `SessionManager` | session lifecycle |
| `AnswerInjector`, `AnswerChoice` | deferred requests racing with metadata and timers |
| `ResourceSync` | directory sync and its staleness check |

## Where the code does less than its comments say

The model follows the code; each case is stated exactly.

* Parallel tool results are a stable partition, not always in source order as `types.ts:25` promises
  (`ToolOrder.ParallelResultsInSourceOrderIff`, `ToolOrder.OutOfOrder`).
* A forced stop can end a run with a dequeued steering batch that is never injected
  (`AgentRuns.SteeringCanBeLostIff`, `ForcedStops.StopsIff`).
* `destroy` and `enqueueImmediate` of the batcher do not wait for a flush already in flight
  (`MessageBatcher.ShutdownEmptiesUnlessFlushing`, `MessageBatcher.PriorityOrderIsExact`).
* Reaching the batcher's capacity does not trigger a flush while one is in flight, nor when that one returns
  (`MessageBatcher.EnqueueFlushesAtCapacity`, `MessageBatcher.BufferCanStayFull`).
* An extension that merely depends on a cycle is appended and reported like a participant
  (`ExtensionLoading.LeftOverAreParticipantsIff`, `ExtensionLoading.CycleIsWarnedIff`); and when two paths declare one
  id, the earlier path is not loaded and nothing says so (`ExtensionLoading.NoPathIsDroppedIff`).
* A deferred request without a valid configured answer is never answered under `first_option`: the refusal that tells
  the caller to answer by other means is ignored on that path (`AnswerInjector.NothingIsLostIff`).
* Cancelling a session is not final while its starting call is under way, and a failed first prompt leaves it
  listening (`SessionManager.CancelledIsFinalIff`, `SessionManager.ErrorIsFinalIff`).
* A tool-call delta after the call's end is appended to the word "undefined" instead of the deltas before
  (`ProxyStream.ArgumentsAreFaithfulIff`, `ProxyStream.LateDeltaIsCorrupted`).
* Resuming without a model is refused only after a queue has been polled for it, and what was polled is lost
  (`AgentRuntime.Agent.Continue`).

## Model

| member | source | states |
|---|---|---|
| AgentRuns.TranscriptsAreWellPaired | packages/pi-agent-core/src/agent-loop.ts:200-383 | For every run with local tools, from a well-paired context: each transcript handed to the model answers every earlier assistant message at once with one contiguous block of results covering exactly its calls; so does the transcript left behind, except that the last message of a failed run may be unanswered |
| AgentRuns.CopiesAgree | packages/pi-agent-core/src/agent.ts:547-581 | After any number of turns the agent that replays the event stream holds its starting messages followed by exactly those the run added, is streaming iff the run goes on, and tracks no pending call; the loop's own context agrees up to the stop message of a forced stop |
| AgentRuns.LogIsGrammatical | packages/pi-agent-core/src/agent-loop.ts:200-399 | The log of every ended run is accepted by an independent automaton: one start, one end that comes last and carries the added messages, message pairs that never nest, calls ended before their turn ends, turns that alternate; a trailing message pair and turn end occurs iff the run was force-stopped |
| AgentRuns.QueuesAreFifo | packages/pi-agent-core/src/agent.ts:361-389 | For all interleavings of steering, follow-up, clearing, draining and mode changes with a run: on each queue the arrivals not cleared or drained equal, in order, those delivered earlier, those this run polled, and those still queued |
| AgentRuns.PolledMessagesAreInjected | packages/pi-agent-core/src/agent-loop.ts:207-215 | What a run added from outside is its prompts followed by every polled batch, each message once and in order; a running run still holds the last batch, and an ended one has injected everything iff it is not a forced stop holding a batch |
| AgentInjection.BatchesReachTheModel | packages/pi-agent-core/src/agent-loop.ts:200-220 | In every run, whatever its messages are: the first transcript handed to the model is the context, the prompts and the first batch; each further one is the one before, the model's message and its tool results, and then exactly the batches polled in between; a running run holds what it has polled since, a completed or failed one holds nothing, and a stopped one loses exactly that |
| AgentInjection.TakeTurnDelivers | packages/pi-agent-core/src/agent-loop.ts:200-383 | Every single turn keeps that chain of transcripts |
| AgentRuns.FailureCapIsExact | packages/pi-agent-core/src/agent-loop.ts:325-345 | The counter equals the number of turns whose results were all preparation failures since the last executed turn without any; it reaches 3 exactly in force-stopped runs and never exceeds it |
| AgentRuns.ModelCallsArePaidFor | packages/pi-agent-core/src/agent-loop.ts:195-394 | Model calls are at most 1 plus executed tool or pause turns plus non-empty steering batches plus non-empty follow-up batches; a follow-up poll comes only straight after an empty steering poll |
| AgentRuns.RunsEndWithoutMoreToDo | packages/pi-agent-core/src/agent-loop.ts:195-398 | Termination: a run whose tool turns and non-empty batches number fewer than `n` has ended after `n` turns |
| AgentRuns.StartsMatchEnds | packages/pi-agent-core/src/agent.ts:657-661 | In every accepted log, as multisets, the calls started are the calls ended plus the open ones, and every id the agent has pending belongs to an open call, even when ids repeat |
| AgentRuns.NothingPendingAtTurnEnds | packages/pi-agent-core/src/agent.ts:563-569 | At each turn end of an accepted log nothing is pending and the calls started are exactly the calls ended |
| AgentRuns.PrefixesParse | packages/pi-agent-core/src/agent-loop.ts:200-399 | Every prefix of an accepted log is accepted, so the two statements above hold at every turn end inside a run |
| AgentRuns.TurnStartsItsCalls | packages/pi-agent-core/src/agent-loop.ts:538-650 | A turn that does not fail announces each of its calls exactly once and in source order, under both executors, under external execution and under any interruption; a failed one announces none |
| AgentRuns.OutcomesDoNotCount | packages/pi-agent-core/src/agent-loop.ts:325-343 | Counter, trace and queues are the same for any two tool turns that differ only in what the tools that ran returned or threw |
| AgentRuns.StopsExactlyAtTheCap | packages/pi-agent-core/src/agent-loop.ts:345-371 | A turn force-stops the run iff it did not fail, runs at least one call locally, the counter stood at 2 and every call failed in preparation; the batch left behind is the one its polls returned |
| ForcedStops.StopsIff | packages/pi-agent-core/src/agent-loop.ts:345-382 | A turn force-stops the run iff it did not fail, its tools run locally, the counter stood at 2, each of its calls fails in preparation, and no poll before its last finds a steering message; the run then loses exactly what that last poll finds |
| ForcedStops.ExecuteFailsIff | packages/pi-agent-core/src/agent-loop.ts:538-657 | Under both executors, all calls of a turn are reached and fail iff each would fail in preparation and no poll before the last finds a steering message; the turn then returns what its last poll finds |
| AgentRuns.ForcedStopCanLoseSteering | packages/pi-agent-core/src/agent-loop.ts:376-382 | A steering message that is waiting when the last failing call is polled is dequeued and never injected |
| AgentRuns.LosingRun | packages/pi-agent-core/src/agent-loop.ts:345-371 | A concrete three-turn run, from an empty context, that ends with such a message lost |
| AgentRuns.SteeringCanBeLostIff | packages/pi-agent-core/src/agent-loop.ts:345-382 | Some run loses a polled message iff tools are executed locally |
| AgentRuns.RunOfKept | packages/pi-agent-core/src/agent-loop.ts:176-399 | Every run, from every launch and after any number of turns, keeps the joint invariant of log, replica, pairing, queues and counters |
| AgentLoopTheorems.TakeTurnKept | packages/pi-agent-core/src/agent-loop.ts:200-383 | Every single turn keeps the joint invariant, whatever the model replies, the tools come to and the queues receive |
| AgentLoopTheorems.BeginKept | packages/pi-agent-core/src/agent-loop.ts:99-110 | A run's announcement of its prompts and its first, possibly skipped, poll establish the joint invariant |
| AgentRuns.EndsForAReason | packages/pi-agent-core/src/agent-loop.ts:257-262 | A failed run ends with the assistant message that failed; a completed one with an assistant message that asks for nothing (unless the provider ran the tools), straight after a steering and a follow-up poll that returned nothing, with no follow-up queued |
| AgentLife.MessagesAreConserved | packages/pi-agent-core/src/agent.ts:320-389 | Over an agent's whole life of prompts, resumptions and idle queue use: on each queue the arrivals never cleared or drained are, in order, the batches taken and what is still queued; given plus lost equals typed plus taken, each message exactly once; and where outside messages can be told from the loop's own, those of the transcript are the given ones, in order |
| AgentLife.TranscriptsStayPaired | packages/pi-agent-core/src/agent.ts:453-479 | As long as tools run locally and no run fails with a message that had asked for tools, every transcript handed to the model in a whole life is well paired, and so is the one the agent keeps |
| AgentLife.RunLeavesPairedIff | packages/pi-agent-core/src/agent-loop.ts:200-383 | A run with local tools from a well-paired transcript leaves the agent's transcript well paired iff it did not fail with a message that had asked for tools |
| AgentLife.SteeringComesFirst | packages/pi-agent-core/src/agent.ts:462-476 | With the agent's own message last, a waiting steering message is resumed from, without a first poll; only if there is none a follow-up; and only if there is neither nothing; the other queue is left alone |
| AgentLife.ResumesFromTheLast | packages/pi-agent-core/src/agent.ts:458-478 | Without messages nothing is resumed; with another's message last the run starts from there with both queues untouched |
| AgentLife.LiveKept | packages/pi-agent-core/src/agent.ts:414-479 | Every episode keeps the books: ledgers, injected and lost messages, whatever the messages are |
| PollLaws.PollsPayWhatIsDue | packages/pi-agent-core/src/agent.ts:361-389 | In every run each poll, but for a skipped first one, hands out exactly what is due by the ledger and the mode set last: in one-at-a-time mode one message if any waits, otherwise all that wait |
| PollLaws.OneAtATimeStays | packages/pi-agent-core/src/agent.ts:362-369 | While a queue is in one-at-a-time mode no poll of it in a run hands out more than one message |
| PollLaws.AllLeavesNothing | packages/pi-agent-core/src/agent.ts:371-373 | While it is in the other mode nothing waits after a poll |
| PollLaws.BeginPays | packages/pi-agent-core/src/agent.ts:527-533 | A skipped first poll takes nothing off the queue; any other pays what is due |
| TurnLaws.TurnAdds | packages/pi-agent-core/src/agent-loop.ts:207-371 | What a turn adds to both copies, from what comes in: what was pending, the message of the reply (its text, calls and reason, or how the call failed), and, exactly if it works here, one tool turn's results; a forced stop adds its error message to the new messages only |
| TurnLaws.TurnEndsIff | packages/pi-agent-core/src/agent-loop.ts:257-398 | How a turn ends, from the reply and the queues alone: failed iff the model call failed; stopped iff all calls are refused with the polls before the last quiet on a counter of 2; completed iff it has nothing to do here, no steering message waits, and then no follow-up; otherwise the run goes on |
| TurnLaws.TurnIsCountedIff | packages/pi-agent-core/src/agent-loop.ts:309-343 | A turn is counted as a tool turn iff it did not fail, tools run locally, and it has calls or pauses; with as many results as calls |
| TurnLaws.ReplyIsShown | packages/pi-agent-core/src/agent-loop.ts:445-490 | Of a streamed reply each partial message is shown once and in order; of any other the message itself |
| LogLaws.LogIsTruthful | packages/pi-agent-core/src/agent-loop.ts:374-374 | In every run each end of a turn carries the model's message and exactly the tool results that came since; with local tools each end of a call is followed by its result and says of it whether it is an error |
| LogLaws.CopyMeaning | packages/pi-agent-core/src/agent.ts:547-581 | What the agent's copy holds after any log: the ended messages in order, the message last started or updated and not ended, as pending exactly the calls started and not ended since, and whether the end was announced |
| LogLaws.ExternalTells | packages/pi-agent-core/src/agent-loop.ts:276-305 | Each externally executed call is announced, in order, by a start and an end with the error flag the provider gave, and nothing else is said |
| ToolOutcomes.FailsIff | packages/pi-agent-core/src/agent-loop.ts:687-728 | A call fails in preparation iff there is no such tool, its arguments are invalid, or a hook blocks it or throws |
| ToolOutcomes.OwnReports | packages/pi-agent-core/src/agent-loop.ts:687-793 | A refused call gets an error with the text of its first failing check; any other shows what its tool came to, but for what the last hook replaced |
| ToolOutcomes.ExecuteCountsRefused | packages/pi-agent-core/src/agent-loop.ts:547-609 | Under both executors the failure count is the number of reached calls that are refused |
| ToolOutcomes.SequentialReports | packages/pi-agent-core/src/agent-loop.ts:526-582 | Sequential results report the reached calls one by one and then the cut-off ones as skipped, with the text and flag that says so |
| ToolOutcomes.ParallelReports | packages/pi-agent-core/src/agent-loop.ts:584-660 | Parallel results report the refused calls, then either all others as skipped or each of them with what its tool came to |
| ToolOutcomes.RefusedCallsAreNotRun | packages/pi-agent-core/src/agent-loop.ts:548-553 | What the tool of a refused call would have returned, and what the hook after it would have made of that, shows nowhere: not in results, log, trace, queues or failure count |
| ToolExecution.SequentialResults | packages/pi-agent-core/src/agent-loop.ts:526-582 | Sequential results are in source order: an own result for each reached call, a skip for each one cut off; the failure count is the number of reached calls that failed in preparation |
| ToolExecution.ParallelResults | packages/pi-agent-core/src/agent-loop.ts:584-660 | Parallel results are a stable partition: preparation failures, prepared calls, unreached calls, each in source order; the prepared ones are skipped iff steering interrupted preparation |
| ToolOrder.ParallelAnswersInOrder | packages/pi-agent-core/src/agent-loop.ts:584-660 | The results a parallel turn returns are keyed, position by position, like the preparation failures, then the prepared calls, then the unreached calls, each in source order |
| ToolOrder.ParallelResultsInSourceOrderIff | packages/pi-agent-core/src/types.ts:20-27 | The results of a parallel turn are in source order whenever no reached call fails in preparation after an earlier one was prepared, and, for calls with distinct keys, only then; the documentation promises it always |
| ToolOrder.OutOfOrder | packages/pi-agent-core/src/types.ts:20-27 | A concrete turn of two calls whose second is answered first |
| ToolTurns.ExecuteAnswers | packages/pi-agent-core/src/agent-loop.ts:512-660 | Both executors return exactly one result for each call, keyed by its id and name, under any interruption |
| ToolTurns.ExecuteLogged | packages/pi-agent-core/src/agent-loop.ts:538-651 | Both executors leave the log inside its turn with no call open, having started exactly the turn's calls and shown the replica exactly the results |
| ToolTurns.ExecuteDrawn | packages/pi-agent-core/src/agent-loop.ts:568-657 | A tool turn moves the queues only by steering polls, of which at most the last is non-empty and is the batch it returns |
| RunTrace.StreakMeaning | packages/pi-agent-core/src/agent-loop.ts:331-343 | The counter's increments, resets and holds amount to counting all-failed turns since the last clean one |
| RunTrace.FedIsFifo | packages/pi-agent-core/src/agent.ts:361-389 | Queues that follow a trace are first in, first out, each message delivered at most once |
| EventLog.InTurnStream | packages/pi-agent-core/src/agent-loop.ts:445-490 | A streamed message, with any number of updates, adds exactly its final form to the replica and keeps the turn well formed |
| MessageQueues.NoteAccounts | packages/pi-agent-core/src/agent.ts:320-343 | Every queue operation keeps the ledger of arrivals in agreement with the queues |
| MessageQueues.DeliverAccounts | packages/pi-agent-core/src/agent.ts:361-389 | A poll hands out the oldest surviving arrivals in either mode, and what was delivered before stays delivered |
| MessageQueues.DrainPartitions | packages/pi-agent-core/src/agent.ts:349-355 | Draining divides each queue by origin and neither loses nor duplicates an entry |
| MessageQueues.DrainKeepsOrder | packages/pi-agent-core/src/agent.ts:349-355 | Draining keeps each part in order |
| MessageQueues.OneAtATimePolls | packages/pi-agent-core/src/agent.ts:362-369 | In one-at-a-time mode a poll hands out the first message, if any, and keeps the tail |
| MessageQueues.AllPolls | packages/pi-agent-core/src/agent.ts:371-373 | In the other mode it hands out every message in order and leaves the queue empty |
| MessageQueues.NothingWithdrawn | packages/pi-agent-core/src/agent.ts:320-330 | Without clearing or draining every arrival survives in its place, so the conservation law covers all arrivals |
| Transcript.AnsweredTurnIsWellPaired | packages/pi-agent-core/src/agent-loop.ts:317-323 | Appending an assistant message with an answering block of results keeps a transcript well paired |
| AgentRuntime.RunBuffers.constructor | packages/pi-agent-core/src/agent-loop.ts:100-104 | The arrays of a run: context plus prompts, and the prompts alone |
| AgentRuntime.RunBuffers.EmitPair | packages/pi-agent-core/src/agent-loop.ts:66-69 | Appends one start and one end of a message to the stream |
| AgentRuntime.RunBuffers.EmitOutcome | packages/pi-agent-core/src/agent-loop.ts:803-829 | Appends a call's end and its result's message pair |
| AgentRuntime.Agent.constructor | packages/pi-agent-core/src/agent.ts:174-191 | An agent that is not streaming, with empty queues, in one-at-a-time mode unless told otherwise |
| AgentRuntime.Agent.Steer | packages/pi-agent-core/src/agent.ts:320-322 | Appends to the steering queue and keeps the ledgers in agreement |
| AgentRuntime.Agent.FollowUp | packages/pi-agent-core/src/agent.ts:328-330 | Appends to the follow-up queue and keeps the ledgers in agreement |
| AgentRuntime.Agent.ClearSteeringQueue | packages/pi-agent-core/src/agent.ts:332-334 | Empties the steering queue only; what it held counts as withdrawn |
| AgentRuntime.Agent.ClearFollowUpQueue | packages/pi-agent-core/src/agent.ts:336-338 | Empties the follow-up queue only; what it held counts as withdrawn |
| AgentRuntime.Agent.ClearAllQueues | packages/pi-agent-core/src/agent.ts:340-343 | Empties both queues; what they held counts as withdrawn |
| AgentRuntime.Agent.DrainUserMessages | packages/pi-agent-core/src/agent.ts:349-355 | Hands back the user's messages of both queues in order and leaves the system's |
| AgentRuntime.Agent.DequeueSteeringMessages | packages/pi-agent-core/src/agent.ts:361-374 | In one-at-a-time mode takes exactly the first message and keeps the tail; in the other mode takes all in order and leaves nothing; the ledger records the same delivery |
| AgentRuntime.Agent.DequeueFollowUpMessages | packages/pi-agent-core/src/agent.ts:376-389 | The same for follow-ups: the first message, or all of them, by mode |
| AgentRuntime.Agent.Fold | packages/pi-agent-core/src/agent.ts:547-581 | Folding the stream in place gives the state that replaying the log gives |
| AgentRuntime.Agent.StartRun | packages/pi-agent-core/src/agent.ts:486-488 | Without a model nothing is started and nothing changes |
| AgentRuntime.Agent.RunAndFold | packages/pi-agent-core/src/agent.ts:498-585 | After a run the agent's messages, queues, ledgers and streaming flag are those the run's specification gives |
| AgentRuntime.Agent.Prompt | packages/pi-agent-core/src/agent.ts:417-448 | Refuses while streaming or without a model, changing nothing; otherwise leaves the state of a run launched with the text, message or messages given |
| AgentRuntime.Agent.Continue | packages/pi-agent-core/src/agent.ts:453-479 | Refuses, changing nothing, while streaming, without messages, or after an assistant message with both queues empty, and exactly then; otherwise resumes from the last message, from a dequeued steering batch with the first poll skipped, or from a dequeued follow-up batch; without a model it refuses only after that, and the dequeued batch is gone |
| AgentRuntime.LiveThrough | packages/pi-agent-core/src/agent.ts:414-479 | An idle agent that is prompted or resumed goes exactly where its life's specification goes: messages, queues and ledgers |
| AgentRuntime.GetSteeringMessages | packages/pi-agent-core/src/agent.ts:527-533 | Queue activity, then a poll, which returns nothing once if the first poll is skipped |
| AgentRuntime.GetFollowUpMessages | packages/pi-agent-core/src/agent.ts:534-534 | Queue activity, then a follow-up poll |
| AgentRuntime.SkipToolCalls | packages/pi-agent-core/src/agent-loop.ts:620-626 | Skips calls in order, with or without announcing them |
| AgentRuntime.RunToolCall | packages/pi-agent-core/src/agent-loop.ts:538-566 | One call from its announcement to its result, counting a preparation failure |
| AgentRuntime.ExecuteToolCallsSequential | packages/pi-agent-core/src/agent-loop.ts:526-582 | The sequential loop returns the results, batch and failure count of its specification, log and queues included |
| AgentRuntime.PrepareToolCall | packages/pi-agent-core/src/agent-loop.ts:597-614 | One call announced and prepared: failed at once or held back |
| AgentRuntime.FinalizeToolCalls | packages/pi-agent-core/src/agent-loop.ts:637-650 | The held-back calls finished in the order they were prepared |
| AgentRuntime.ExecuteToolCallsParallel | packages/pi-agent-core/src/agent-loop.ts:584-660 | The parallel loop returns the results, batch and failure count of its specification, log and queues included |
| AgentRuntime.ExecuteToolCalls | packages/pi-agent-core/src/agent-loop.ts:512-524 | Dispatches on the execution mode |
| AgentRuntime.InjectPending | packages/pi-agent-core/src/agent-loop.ts:201-215 | Opens a turn and adds the pending messages to stream, context and new messages alike |
| AgentRuntime.StreamAssistantResponse | packages/pi-agent-core/src/agent-loop.ts:442-490 | Streams a reply into the context in place: the partial message is replaced until the final one stands there once |
| AgentRuntime.AskModel | packages/pi-agent-core/src/agent-loop.ts:217-255 | Hands the context to the model and adds its message, or an error message if the call threw before its start, to both arrays |
| AgentRuntime.AnnounceExternalTools | packages/pi-agent-core/src/agent-loop.ts:270-308 | Announces a start and an end for each call the provider already ran, and adds no result |
| AgentRuntime.RunTools | packages/pi-agent-core/src/agent-loop.ts:309-343 | Adds the results to both arrays and moves the failure counter |
| AgentRuntime.ForceStopRun | packages/pi-agent-core/src/agent-loop.ts:345-371 | The stop message joins the new messages and the stream but not the context |
| AgentRuntime.EndTurn | packages/pi-agent-core/src/agent-loop.ts:374-382 | Ends the turn and polls for steering unless the tools brought a batch back |
| AgentRuntime.TakeOneTurn | packages/pi-agent-core/src/agent-loop.ts:200-383 | One pass of the inner loop equals one turn of the specification, on every exit |
| AgentRuntime.DriveTurns | packages/pi-agent-core/src/agent-loop.ts:200-383 | The inner loop equals the specification's turns until the run ends or falls idle |
| AgentRuntime.FollowUpOrEnd | packages/pi-agent-core/src/agent-loop.ts:385-398 | An idle run takes up follow-ups or ends |
| AgentRuntime.RunLoop | packages/pi-agent-core/src/agent-loop.ts:176-399 | The nested loop refines the specification of a run: stream, both arrays, queues and outcome |
| DependencyGraph.BeforeMeaning | src/extension-sort.ts:79-93 | Alphabetical order: a proper prefix comes first, and otherwise the smaller code unit at the first difference |
| DependencyGraph.AscendingByCodeUnits | src/extension-sort.ts:104-106 | In an ascending list each id precedes every later one by code units |
| DependencyGraph.EmittedPrecedesOthers | src/extension-sort.ts:83-98 | Each emitted id precedes, by code units, every other one that might have come in its place |
| DependencyGraph.GreedyIsTopological | src/extension-sort.ts:83-101 | The emitted ids are distinct, each comes after all its installed dependencies, and none that is left may follow |
| DependencyGraph.OrderIsLeast | src/extension-sort.ts:79-101 | Every topological sequence of ids is a prefix of the emitted order or has a greater id at the first difference: the emitted order is the alphabetically least |
| DependencyGraph.OnlyEmittedCanBeOrdered | src/extension-sort.ts:83-101 | An id that any topological order contains is emitted |
| DependencyGraph.LeftOverIffReachesCycle | src/extension-sort.ts:103-106 | An id is left over iff a cycle of at least two ids can be reached from it along installed dependencies |
| DependencyGraph.AcyclicIsEmittedWhole | src/extension-sort.ts:83-106 | Without a reachable cycle every id is emitted, in topological order, and none is left over |
| ExtensionSort.InsertReady | src/extension-sort.ts:91-99 | Splices an id before the first that it precedes by code units, or at the end |
| ExtensionSort.SortIds | src/extension-sort.ts:79-81 | The sort of distinct ids: the same ids, each preceding every later one by code units |
| ExtensionSort.BuildIds | src/extension-sort.ts:31-38 | The id map, in which the last path of an id wins, its iteration order, and the paths without a manifest in input order |
| ExtensionSort.AddDependencies | src/extension-sort.ts:54-73 | One extension's declarations: self-dependencies are ignored, missing ones warned about, each other declaration counted in both tables |
| ExtensionSort.BuildTables | src/extension-sort.ts:41-74 | In-degrees and dependents count every installed declaration as often as it is declared, and the warnings list the missing ones |
| ExtensionSort.InitiallyReady | src/extension-sort.ts:79-81 | The first ready list is the ascending list of ids without installed dependencies |
| ExtensionSort.Release | src/extension-sort.ts:87-100 | Releasing the dependents of an emitted id keeps the counts exact and the ready list ascending and free of duplicates |
| ExtensionSort.EmitAll | src/extension-sort.ts:77-101 | Kahn's loop emits exactly the greedy order, and the ids left with a positive count are exactly those left over |
| ExtensionSort.LeftOverIds | src/extension-sort.ts:104-109 | The left-over ids, ascending |
| ExtensionSort.AppendLeftOver | src/extension-sort.ts:111-130 | Appends the left-over paths and one warning for each declaration between two of them |
| ExtensionSort.SortExtensionPaths | src/extension-sort.ts:25-137 | The whole function: paths without manifest, then the greedy order, then the left-over ids alphabetically; and all warnings in order |
| ExtensionLoading.AlphabetDecides | src/extension-sort.ts:79-101 | Two concrete independent extensions load in the order of the alphabet, whichever is given first |
| ExtensionLoading.DependenciesLoadFirst | src/extension-sort.ts:83-136 | In what is loaded the path of each emitted extension comes after those of all the installed extensions it depends on, and after every path without a manifest |
| ExtensionLoading.LastPathWins | src/extension-sort.ts:31-38 | The last path that declares an id stands for it |
| ExtensionLoading.IdsInOrderOfAppearance | src/extension-sort.ts:49-74 | Extensions are gone through in the order in which their ids are first declared |
| ExtensionLoading.UnmanifestedInOrder | src/extension-sort.ts:33-34 | Paths without a manifest keep their order |
| ExtensionLoading.WarningsFollowDeclarations | src/extension-sort.ts:54-66 | The warnings of an extension follow its declarations, one for each that counts, repeated ones included |
| ExtensionLoading.WarningsFollowExtensions | src/extension-sort.ts:49-127 | And the extensions' warnings follow the extensions |
| ExtensionLoading.InputOrderDoesNotMatter | src/extension-sort.ts:79-129 | With distinct ids the sorted section and the cycle warnings are the same for every permutation of the paths |
| ExtensionLoading.NoPathIsDroppedIff | src/extension-sort.ts:30-38 | The result is a permutation of the input iff no id is declared at two places in it |
| ExtensionLoading.MissingIsWarnedIff | src/extension-sort.ts:54-66 | A missing dependency is warned about iff an extension that loads declares it, it is not itself, and nothing provides it |
| ExtensionLoading.CycleIsWarnedIff | src/extension-sort.ts:117-127 | A cycle warning names `x` and `d` iff `x` declares `d`, they differ, and a cycle can be reached from each |
| ExtensionLoading.LeftOverIsWarned | src/extension-sort.ts:108-131 | Every left-over id has a cycle warning of its own |
| ExtensionLoading.CyclesAreWarnedIff | src/extension-sort.ts:103-131 | There is no cycle warning iff no id reaches a cycle |
| ExtensionLoading.LeftOverAreParticipantsIff | src/extension-sort.ts:18-24 | Every cycle participant is left over, and nothing else is iff no id outside all cycles can reach one |
| ExtensionLoading.LeftOverNeedNotBeOnCycle | src/extension-sort.ts:18-24 | A concrete graph in which an id that lies on no cycle is left over, though the comment speaks of cycle participants |
| MessageBatcher.EventsAreConserved | packages/daemon/src/message-batcher.ts:115-215 | In every interleaving the accepted events are the batches taken followed by the buffer; batches are attempted in order, one at a time, at most twice each; the delivered events are the accepted ones less whole dropped batches |
| MessageBatcher.RunKeepsInv | packages/daemon/src/message-batcher.ts:64-215 | Every interleaving of steps keeps fields, log of attempts and priority calls consistent |
| MessageBatcher.DestroyedStaysEmpty | packages/daemon/src/message-batcher.ts:103-133 | A destroyed batcher accepts nothing, and once empty it stays empty and takes no batch |
| MessageBatcher.ShutdownEmptiesUnlessFlushing | packages/daemon/src/message-batcher.ts:102-109 | After `destroy` the buffer is and stays empty iff no flush was in flight or there was nothing to flush; otherwise its events are stranded unless the timer is started again |
| MessageBatcher.ShutdownSettles | packages/daemon/src/message-batcher.ts:103-109 | Whatever happens after `destroy` with no flush in flight: nothing more is accepted, the buffer stays empty, everything accepted is in batches attempted in order, what is delivered is that less whole dropped batches, and once no flush is in flight every accepted event has its outcome |
| MessageBatcher.ShutdownCanSettle | packages/daemon/src/message-batcher.ts:149-214 | And it can always come to that, whatever the sends come to |
| MessageBatcher.PriorityWaitsItsTurn | packages/daemon/src/message-batcher.ts:127-133 | When no flush is in flight at the call, every event accepted before has its outcome before the priority event's first attempt, whatever happens in between |
| MessageBatcher.PriorityCanOvertake | packages/daemon/src/message-batcher.ts:129-132 | During a flush, with an accepted event still open, the priority event can be attempted first |
| MessageBatcher.PriorityOrderIsExact | packages/daemon/src/message-batcher.ts:123-133 | The order is kept in all continuations iff no flush is in flight at the call or nothing accepted is open |
| MessageBatcher.EnqueueFlushesAtCapacity | packages/daemon/src/message-batcher.ts:115-121 | Accepting an event takes the whole buffer with it as a batch iff it reaches capacity and no flush is in flight; after it the buffer is below capacity or a flush is in flight |
| MessageBatcher.BufferCanStayFull | packages/daemon/src/message-batcher.ts:111-121 | A concrete run in which the buffer stays at capacity with no flush in flight, since a flush that returns does not look at it again |
| MessageBatcher.TickTakesEverything | packages/daemon/src/message-batcher.ts:81-85 | Whatever happens between an event's acceptance and a tick that finds no flush in flight, that tick has everything accepted so far in batches, where it stays in every continuation |
| MessageBatcher.TimerEmptiesBuffer | packages/daemon/src/message-batcher.ts:81-85 | And such a tick can always come: from any reachable state with the timer running the flight ends in four steps, whatever the sends come to |
| PriorityPath.PriorityIsRetriedOnce | packages/daemon/src/message-batcher.ts:170-215 | In every interleaving each priority call is attempted once; if that fails, and only then, once more; and has one outcome, which is bad only after the second attempt; the log shows each call exactly as far as it is |
| PriorityPath.PriorityCanReturn | packages/daemon/src/message-batcher.ts:195-214 | A call that may resume, or has, can always return in four steps of its own, whatever its sends come to |
| PriorityPath.AcceptedIsOffered | packages/daemon/src/message-batcher.ts:81-133 | In every interleaving what was accepted is what was enqueued before the batcher was destroyed, in order, and so for the priority calls; and the timer runs exactly if it was started last |
| MessageBatcher.Batcher.constructor | packages/daemon/src/message-batcher.ts:64-74 | An empty, running batcher without a timer |
| MessageBatcher.Batcher.Start | packages/daemon/src/message-batcher.ts:81-91 | Starts the timer if there is none, even on a destroyed batcher |
| MessageBatcher.Batcher.Stop | packages/daemon/src/message-batcher.ts:94-100 | Stops the timer and nothing else |
| MessageBatcher.Batcher.FlushNow | packages/daemon/src/message-batcher.ts:149-156 | Takes the whole buffer as one batch and begins its first attempt, unless empty or flushing |
| MessageBatcher.Batcher.TimerFires | packages/daemon/src/message-batcher.ts:83-85 | Flushes, if the timer is running |
| MessageBatcher.Batcher.Enqueue | packages/daemon/src/message-batcher.ts:115-121 | Accepts an event unless destroyed, and flushes at capacity |
| MessageBatcher.Batcher.EnqueueImmediate | packages/daemon/src/message-batcher.ts:127-130 | Flushes, then waits for that flush only |
| MessageBatcher.Batcher.Destroy | packages/daemon/src/message-batcher.ts:103-107 | Marks the batcher, stops the timer and flushes; a second call does nothing |
| MessageBatcher.Batcher.Settle | packages/daemon/src/message-batcher.ts:195-214 | A send's outcome: delivered, to be retried after a first failure, or dropped after a second |
| MessageBatcher.Batcher.RetryDelay | packages/daemon/src/message-batcher.ts:201-204 | The second attempt of the batch in flight |
| MessageBatcher.Batcher.FlushReturns | packages/daemon/src/message-batcher.ts:157-159 | The flag is cleared only when the batch has its outcome |
| MessageBatcher.Batcher.CallResumes | packages/daemon/src/message-batcher.ts:130-132 | A priority call begins its attempt once the flush it started, if any, has returned |
| MessageBatcher.Batcher.CallSettles | packages/daemon/src/message-batcher.ts:195-214 | A priority attempt's outcome |
| MessageBatcher.Batcher.CallRetryDelay | packages/daemon/src/message-batcher.ts:201-204 | The second attempt of a priority event |
| ProxyStream.OneMoreChunk | packages/pi-agent-core/src/proxy.ts:158-160 | Splitting what is left over plus the next chunk yields exactly the further lines of the whole text, for any chunk boundary |
| ProxyStream.StreamProxy | packages/pi-agent-core/src/proxy.ts:146-191 | Message, outputs and error are those of the concatenated text and the way the reading ends (complete, aborted, or a throwing read), so they do not depend on the chunking; an error in a line stops the reading there |
| ProxyStream.ProcessLines | packages/pi-agent-core/src/proxy.ts:162-173 | The lines of one read, up to the first exception |
| ProxyStream.ReadingRebuilds | packages/pi-agent-core/src/proxy.ts:162-173 | A text read without error leaves the message rebuilt from the events on its complete lines |
| ProxyStream.BlocksAreRebuilt | packages/pi-agent-core/src/proxy.ts:205-315 | In every accepted event sequence, indices interleaved freely, each block has the kind of its last start, the concatenation of its own deltas since then and the signature of its last end; tool arguments are the streaming parse of what accumulated since the last end that a delta follows |
| ProxyStream.EndReportsTheWholeBlock | packages/pi-agent-core/src/proxy.ts:231-275 | The end of a text or thinking block reports the concatenation of all its deltas since its start |
| ProxyStream.EndingIsTheLast | packages/pi-agent-core/src/proxy.ts:317-326 | The message's stop reason is that of the last ending event, and its error that of the last failing one |
| ProxyStream.OtherIndicesUntouched | packages/pi-agent-core/src/proxy.ts:205-315 | An event changes no index but its own |
| ProxyStream.ArgumentsAreFaithfulIff | packages/pi-agent-core/src/proxy.ts:277-306 | In every accepted sequence a tool call's arguments are parsed from the concatenation of its own deltas iff no delta follows an end of the call, or the deltas before the last such end spell the word "undefined" |
| ProxyStream.CutMeaning | packages/pi-agent-core/src/proxy.ts:287-306 | What such an end is, both ways: the last of the call's ends that a delta of its own follows, or none |
| ProxyStream.LateDeltaIsCorrupted | packages/pi-agent-core/src/proxy.ts:287-306 | A concrete sequence, start, delta, end, delta, whose arguments are parsed from "undefined" and the second delta |
| ProxyStream.MessageBuilder.ProcessProxyEvent | packages/pi-agent-core/src/proxy.ts:205-334 | The in-place update equals the specification of one event, errors included; a failing event changes nothing, and neither does one of an unknown type, which reports nothing |
| ProxyStream.MessageBuilder.ProcessToolCall | packages/pi-agent-core/src/proxy.ts:277-315 | The same for the three tool call events |
| ProxyOutputs.TextIsTold | packages/pi-agent-core/src/proxy.ts:146-191 | What a consumer is told of a text, however chunked and however the reading ends: each decoded event except unknown ones and tool call ends that meet no tool call, once and in order, with content exactly at text and thinking ends, up to the first line that stops the reading; then one error, exactly if a line stopped it or it did not come to its end |
| ProxyOutputs.ReadingTells | packages/pi-agent-core/src/proxy.ts:162-173 | In every reading without error each event passed on was told exactly once, in order |
| ProxyOutputs.ReadingStops | packages/pi-agent-core/src/proxy.ts:162-191 | A reading with an error stopped at the first line whose data cannot be decoded or whose event meets no index begun as its kind, and had told what came before |
| ProxyOutputs.AcceptedIff | packages/pi-agent-core/src/proxy.ts:205-315 | An event sequence is accepted iff each text or thinking delta or end and each tool call delta meets an index last begun as that kind; the message has exactly the blocks begun |
| ProxyOutputs.DataMeaning | packages/pi-agent-core/src/proxy.ts:163-165 | A line carries data iff it begins with the prefix and something other than white space follows |
| ProxyOutputs.DataIsOnly | packages/pi-agent-core/src/proxy.ts:163-164 | What it carries is what stands between the white space |
| ProxyStream.SplitMeaning | packages/pi-agent-core/src/proxy.ts:159-160 | The parts of a text hold no line feed, and joined by line feeds they are the text |
| SessionManager.RunKeepsInv | packages/mcp-server/src/session-manager.ts:346-383 | In all interleavings of start, event, resolve, cancel and cleanup: blocked implies a pending blocker, a pending blocker is the one raised last, a completed session has heard a terminal notification last, the buffer holds the last min(n, 50) events, every cost counter is the maximum of 0 and all values reported |
| SessionManager.StatusChangesIff | packages/mcp-server/src/session-manager.ts:141-383 | What makes a session running, blocked, completed, in error or cancelled, and that nothing else changes its status |
| SessionManager.BlockerChangesIff | packages/mcp-server/src/session-manager.ts:206-383 | What sets and clears the blocker, what starts and ends the listening, and which events are received |
| SessionManager.PhaseChangesIff | packages/mcp-server/src/session-manager.ts:141-277 | How the starting call and the cancellations proceed |
| SessionManager.BufferHoldsTheLastFifty | packages/mcp-server/src/session-manager.ts:347-351 | After any steps the buffer is the last fifty events received, or all of them, oldest first |
| SessionManager.NotificationsMean | packages/mcp-server/src/session-manager.ts:60-70 | A notification is terminal iff it begins with one of five texts, and blocked iff it says so anywhere, in any case |
| SessionManager.AnswerExpectedIff | packages/mcp-server/src/session-manager.ts:72-76 | A request raises a blocker unless it is one of five that expect no answer |
| SessionManager.CaseDoesNotMatter | packages/mcp-server/src/session-manager.ts:60-70 | Whether a notification is terminal or blocked depends on its text only up to the case of its letters |
| SessionManager.CostIgnoresOrder | packages/mcp-server/src/session-manager.ts:353-363 | Cost depends only on which events were received, not on their order or repetition |
| SessionManager.TerminalAfterStart | packages/mcp-server/src/session-manager.ts:266-319 | Once the starting call is over, a completed session can only become cancelled, and a cancelled one stays cancelled |
| SessionManager.CancelledIsFinalIff | packages/mcp-server/src/session-manager.ts:141-177 | A cancelled session stays cancelled in all continuations iff the call that starts it is over |
| SessionManager.ErrorIsFinalIff | packages/mcp-server/src/session-manager.ts:167-177 | A session whose start is over and that is in error stays so, short of a cancellation, iff it no longer listens to events |
| SessionManager.FailedPromptKeepsListening | packages/mcp-server/src/session-manager.ts:158-172 | A failed first prompt leaves the session in error and still listening |
| SessionManager.ManagedSession.constructor | packages/mcp-server/src/session-manager.ts:127-136 | A starting session without events, blocker or cost |
| SessionManager.ManagedSession.StartContinues | packages/mcp-server/src/session-manager.ts:141-177 | The continuations of the starting call set status and subscription as the specification says, whatever happened meanwhile |
| SessionManager.ManagedSession.HandleEvent | packages/mcp-server/src/session-manager.ts:346-383 | One event: buffer, cost, and either completion, a blocker or nothing, by the text of a notification or the name of a request |
| SessionManager.ManagedSession.ResolveBlocker | packages/mcp-server/src/session-manager.ts:206-217 | Answers the pending blocker with its id and unblocks; without one, or if the answer cannot be sent, changes nothing and says so |
| SessionManager.ManagedSession.FinishCancel | packages/mcp-server/src/session-manager.ts:266-277 | A cancellation's end marks the session and stops listening |
| SessionManager.ManagedSession.Cleanup | packages/mcp-server/src/session-manager.ts:305-319 | Stops listening, and cancels the session iff it was active |
| AnswerInjector.AnswersAddUp | src/headless-answers.ts:132-314 | In every interleaving answered + defaulted + live timers are the select requests seen; no request has two replies; each is timed, replied to, handed back or lost, and only one of these; each reply is an answer its request offers or what the strategy prescribes |
| AnswerInjector.CancelAnswersAll | src/headless-answers.ts:203-222 | Under the cancel strategy a request has its one reply iff its timer is no longer live |
| AnswerInjector.FiringSettles | src/headless-answers.ts:205-218 | Firing timers in any order disarms exactly those and gives each of their requests the default reply |
| AnswerInjector.RepliesAreFinal | src/headless-answers.ts:151-222 | Replies are never withdrawn, and a request that has been dealt with gets no further one |
| AnswerInjector.MetadataSettlesDeferred | src/headless-answers.ts:176-183 | Late metadata settles exactly the deferred requests it makes known: the configured answer, else a cancellation, else, under first_option, loss without any reply |
| AnswerInjector.NothingIsLostIff | src/headless-answers.ts:301-313 | No run loses a request iff the strategy is cancel; the comment at line 311 holds only for requests that were not deferred |
| AnswerInjector.CanBeLost | src/headless-answers.ts:176-183 | A concrete run in which a deferred request is never answered under first_option |
| AnswerInjector.OvershadowedIsDefaulted | src/headless-answers.ts:205-220 | A deferred request whose place in the table was taken, by one with the same title or its timer, never gets a configured answer: only its own timer replies to it |
| AnswerChoice.PickMeaning | src/headless-answers.ts:272-299 | The configured answer is given iff the entry found has one in the form the question wants and all of it is offered |
| AnswerChoice.FindMeaning | src/headless-answers.ts:47-59 | The entry found is the first whose key agrees with the id, or, if none does, the first that is related to it |
| AnswerChoice.RelatedMeaning | src/headless-answers.ts:53-56 | Keys are related iff one common form continues the other after an underscore |
| AnswerChoice.ConfirmMeaning | src/headless-answers.ts:36-38 | The suffix that marks a confirmation is dropped once, and nothing else is |
| AnswerChoice.SpaceAroundDoesNotMatter | src/headless-answers.ts:36-38 | White space around an id makes no difference |
| AnswerChoice.SelectComesTo | src/headless-answers.ts:190-222 | What a select request comes to when it arrives: its configured answer, a cancellation, a refusal to the caller, or a timer of its own and the place of its title in the table |
| AnswerChoice.ObserveRepliesInOrder | src/headless-answers.ts:176-183 | Late metadata answers the deferred requests in the order of the table |
| AnswerChoice.PutKeepsPlace | src/headless-answers.ts:220-220 | A title that is in the table keeps its place |
| AnswerChoice.PutGoesLast | src/headless-answers.ts:220-220 | A new title goes to its end |
| AnswerChoice.WithoutKeepsOrder | src/headless-answers.ts:206-206 | Taking a title out leaves the others in their order |
| AnswerChoice.LearnsTheLast | src/headless-answers.ts:159-174 | The last question with a title decides its metadata |
| AnswerInjector.UsedKeysAreExact | src/headless-answers.ts:276-299 | The keys recorded as used are right in every interleaving: each has an answer in the file that was sent, and each reply from the file carries the answer of a used key |
| AnswerInjector.ExactMatchWins | src/headless-answers.ts:47-59 | A key equal to the question's id up to normalization is preferred to every related key |
| AnswerInjector.FindConfiguredQuestionAnswer | src/headless-answers.ts:40-62 | The two loops find the first exact match, or else the first related key, or nothing |
| AnswerInjector.FirstMatchMeaning | src/headless-answers.ts:47-59 | Finds nothing iff no key matches; what it finds matches and is the first that does |
| AnswerInjector.SeparatorsAreAlike | src/headless-answers.ts:36-38 | Any two non-empty runs of hyphens and white space in an id count the same, wherever they stand |
| AnswerInjector.NormalizedIsCollapsed | src/headless-answers.ts:36-38 | A normalized id holds neither hyphens nor white space, and collapsing it again changes nothing |
| AnswerInjector.Injector.constructor | src/headless-answers.ts:144-146 | An injector that has seen nothing |
| AnswerInjector.Injector.ProcessWithMeta | src/headless-answers.ts:267-313 | Replies with the configured answer if the request offers it, else by strategy; says whether it replied |
| AnswerInjector.Injector.Remember | src/headless-answers.ts:159-174 | The last question with a title decides its metadata |
| AnswerInjector.Injector.ObserveEvent | src/headless-answers.ts:151-184 | Records metadata, then processes a snapshot of the deferred requests in table order, ignoring refusals |
| AnswerInjector.Injector.TryHandle | src/headless-answers.ts:190-222 | Refuses other methods, and a select exactly when its question is known, has no valid configured answer and the strategy is first_option; defers it when its question is unknown |
| AnswerInjector.Injector.Fire | src/headless-answers.ts:205-218 | A live timer removes the table entry of its title, whoever holds it, and gives its own request the default reply |
| ResourceSync.SyncIsExact | src/resource-loader.ts:288-308 | After a sync every bundled entry is there, subdirectories exactly as bundled; everything else that was installed is there unchanged except stale siblings of bundled files |
| ResourceSync.SyncFailsIff | src/resource-loader.ts:299-305 | A sync fails iff a bundled file meets an installed directory of the same name |
| ResourceSync.SyncIsIdempotent | src/resource-loader.ts:288-308 | A second sync succeeds and changes nothing |
| ResourceSync.NothingStaleAfterSync | src/resource-loader.ts:876-893 | After a sync the staleness check finds nothing, at any depth |
| ResourceSync.PruningLeavesOnlyNested | src/resource-loader.ts:309-329 | After the pruning done at every launch, the check is positive iff a directory of both trees holds a stale sibling below it |
| ResourceSync.StaleSplits | src/resource-loader.ts:876-893 | The check over relative paths equals a recursion over the two trees |
| ResourceSync.Counterparts | src/resource-loader.ts:323-324 | The counterpart of a source file is the compiled file of the same stem, and the other way round |
| ResourceSync.StaleMeaning | src/resource-loader.ts:319-327 | A name is stale iff its own file is gone while the one of the same stem and the other kind is there |
| ResourceSync.StalePathMeaning | src/resource-loader.ts:881-890 | The same for a path in the two trees |
| ResourceSync.ClashMeaning | src/resource-loader.ts:335-346 | Copying fails iff at some path one tree has a file and the other a directory |
| ResourceSync.OverlayMeaning | src/resource-loader.ts:335-346 | Where copying does not fail each file is the source's if the source has one there and otherwise what was there, and the directories are those of both |
| ResourceSync.Visit | src/resource-loader.ts:895-912 | The recursive visitor adds exactly the files below a directory, under its prefix |
| ResourceSync.CollectRelativeFiles | src/resource-loader.ts:895-912 | The set of relative paths is exactly the files of the tree |
| ResourceSync.HasStaleCompiledExtensionSiblings | src/resource-loader.ts:876-893 | True iff some installed source or compiled file is absent from the bundle while its counterpart is there |
| ResourceSync.CopyDirRecursive | src/resource-loader.ts:335-346 | Copies in any listing order: fails iff a file meets a directory somewhere, and otherwise overlays; where it fails, each entry is as it was, copied, or a directory in which copying stopped |
| ResourceSync.CopyEntry | src/resource-loader.ts:338-344 | The same for one entry |
| ResourceSync.FailedSyncIsPartial | src/resource-loader.ts:288-305 | A failed sync leaves what is not bundled as a successful one does, each bundled file as bundled or as it was, and each bundled subdirectory missing or copied into from nothing |
| ResourceSync.Installation.PruneStaleSiblingFiles | src/resource-loader.ts:309-329 | Removes exactly the files whose name the bundle lacks and whose counterpart it has |
| ResourceSync.Installation.RemoveSubdirs | src/resource-loader.ts:293-298 | Removes whatever stands in the place of a bundled subdirectory |
| ResourceSync.Installation.SyncResourceDir | src/resource-loader.ts:288-307 | The three stages in order; a missing bundle changes nothing; a failure leaves a partial copy over the pruned installation |

## Left out

Deliberate limits of single members:

- AgentRuntime.DriveTurns: takes a finite script of turns, which stands for any finite prefix of a run; a script used up before the run ends leaves the run going, and the theorems speak of every prefix.
- AgentRuntime.Agent.RunAndFold: folds the stream after the loop has written it; in the program the two interleave, but the loop never reads what the fold writes. A new prompt from a listener of the end event is excluded. The error branch, the branch for a remaining partial message and metadata are outside the lines it models.
- AgentRuntime.Agent.Prompt: the images that may come with a text are not modelled.
- AgentRuntime.StreamAssistantResponse: streams end in a final message or throw before their start; one that throws later, or ends without a final message, is not modelled, nor are `transformContext`, `convertToLlm` and `filterTools`, so the transcript handed to the model is the loop's context.
- AgentRuns.PolledMessagesAreInjected: reads the messages from outside off their roles, so it assumes that prompts and queued messages are user or custom messages; `AgentInjection.BatchesReachTheModel` states delivery without that. Pairing does need it, since a queued assistant message or tool result would itself break the pairs.
- MessageBatcher.Batcher.Settle: an attempt's payload (joined content, embed, components) is not modelled, only which batch it carries.
- ProxyStream.StreamProxy: chunks are decoded text; the incremental UTF-8 decoder and `fetch` are not modelled, a failing request being an ending that throws before any chunk; the JSON parser and the streaming parser are uninterpreted, so that arguments are compared by the text they are parsed from.
- SessionManager.ManagedSession.HandleEvent: characters other than the capital letters and the Kelvin sign stand for their own lower case, which makes none of the texts looked for appear or disappear.
- SessionManager.ManagedSession.ResolveBlocker: the lookup of the session by its id comes before and is not modelled.
- AnswerInjector.FindConfiguredQuestionAnswer: the mapping of a text to lower case is a parameter; trimming, collapsing of separators and the dropped suffix are modelled.
- ResourceSync.Installation.SyncResourceDir: the first copying attempt and its fallback are one copy, so a failed sync is a single partial copy.
- ResourceSync.CopyDirRecursive: builds the new directory as a value rather than entry by entry on disk, and stands for `cpSync` as well.
- ResourceSync.CollectRelativeFiles: a relative path is the sequence of its names, so names that contain a separator, which the program would merge, are excluded.
- ExtensionSort.SortIds: `Array.prototype.sort` is modelled by insertion; its result is fixed by the ascending order alone.

Left out of the model:

- Exceptions from `afterToolCall` or the polling hooks and the error sequence they lead to (`agent-loop.ts:71-84`), and the error branch and remaining-partial branch of `agent.ts:587-627`, which well-formed streams do not reach.
- `tool_execution_update` events, timestamps, usage, error texts, model metadata, session and turn stamping, `onStreamError`, audits.
- `replaceMessages`, `clearMessages`, `appendMessage` from outside and `reset` of the agent: one-line assignments between runs.
- Concurrency between prepared tools: their effects are the outcomes in the call scripts, and only the order in which results are collected is modelled.
- Abort signals except for their effect on the stop reason of a message.
- Secrets, unused-answer warnings and the validation of the answer file.
- The map of sessions, duplicate starts, detached processes and session lookup: thin wrappers around one session.
- Symlinks, permissions, backups, hashing and migration in the resource loader.
- CLI, onboarding, prompts, RPC processes and network code: input and output.
