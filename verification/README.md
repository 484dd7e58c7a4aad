# QuantClaw gateway: a verified model

QuantClaw is an AI-agent gateway. This project models the parts of it that are
state machines or transformations with guarantees over whole runs, and proves
those guarantees for all inputs and all runs.

- **Command queue.** `QueueModel` says what each critical section does to the
  lanes, the index and the counter; `CommandQueues` is the queue as objects
  updated in place, every method proved to take that step. `QueueRuns` and
  `QueueSteps` add a ledger of every command ever submitted (a fate, a home
  session and an enqueue number each) and prove one invariant of every
  interleaving. `QueueTheorems` and `QueueCondense` draw the consequences,
  `QueueHandOver` says which commands leave with which texts, and
  `QueueRefinement` carries the theorems over to the objects.
- **Transcripts.** `Transcript` defines what can be replayed; `AgentLoop`,
  `ContextEngine`, `Pruner` and `Chunking` keep it; `Normalize` repairs it;
  `Serializer` and `Replay` show that what goes on the wire is well formed, and
  `CodexInput` the same of the Codex request; `Session` closes the loop over a
  whole conversation, and `ByteSession` feeds it with the bytes of a stream.
  `WireContents`, `CodexContents`, `NormalizeContents`, `PrunerContents` and
  `AgentContents` say, block by block, what each of these steps carries along.
- **Profiles and cooldowns.** `Cooldown`, `Failover`, `FailoverTheorems`,
  `FailoverRuns`, `FailoverLimits`, `Rotation`.
- **Stream readers.** `Framing`, `RpcServers`, `CodexStream`, `OpenAIStream`,
  `OpenAIStreamTheorems`, `OpenAIStreamContents`.
- **Printers, parsers and path updates.** `UrlCodec`, `OAuthUrls`,
  `ConfigPath`, `Json5`.

`Basics` and `Text` hold what several modules share.
`dafny verify dfyconfig.toml` checks everything.

## Reading the results

The model, the tools, the JSON library, the regular expressions behind tool-name
repair, the provider registry and the clock are arbitrary: functions or values
that the theorems quantify over. Times are integers supplied to each call.

Where a promise of the code's documentation does not hold of the code, the code
is modelled as it is, a lemma exhibits the failure, and the exact condition under
which the promise holds is proved:

- *One command per lane at a time.* `QueueTheorems.TwoAtOnce` runs two commands
  of one session at once under every configuration that allows two workers and
  does not drop a lone command (a cap of at least one, or summarizing).
  `OneAtATime` names the steps whose absence rules that out, and `AbortOrphans`
  and `SubmitOrphans` say that exactly those steps leave a worker unseen.
- *A cooled profile is probed only when all profiles are cooling down*
  (comment at src/providers/failover_resolver.cpp:211). A profile whose client
  cannot be built does not hold the probe back: `FailoverLimits.EarlyProbeIff`,
  over states that calls lead to.
- *Nothing is returned only when every model is refused.* A refusal can use up
  the probe of a fallback whose cooldown key it shares:
  `FailoverLimits.HiddenFallbackIff`.
- *Cooldown keys are distinct.* Two providers share one exactly when the id of
  one, followed by a colon, begins the id of the other:
  `Failover.KeysCollideIff`.
- *Chunk-independent streaming.* The OpenAI reader returns at `[DONE]` and leaves
  later bytes in its buffer for the next callback:
  `OpenAIStreamTheorems.IndependentIff` and `TwoEndsMatter`.
- *Every call sent is answered.* Exactly when the ids the surviving calls are
  sent with were given: `Replay.AnsweredIff`, `Replay.AnsweredIffHygienic`. The
  streamed reader produces such ids (`OpenAIStreamTheorems.StreamIds`); without
  a shared set of seen ids they need not be usable, and
  `Normalize.UnsharedHygienicIff` says exactly when they are.
- *Unset undoes set.* Exactly when the parents were there and the key was not:
  `ConfigPath.UnsetSetIff`.
- *A block comment ends at its closer or never.* An unclosed one lets its last
  character through: `Json5.UnclosedLeaks`, for every text.
- The comment beside the timeout cooldown (30, 60, 120, 300 seconds) does not
  describe the code, which multiplies by five: 30, 150, 300
  (`Cooldown.TimeoutSteps`).

## Model

| member | source | states |
|---|---|---|
| `CommandQueues.SessionLane.TryActivate` | src/gateway/command_queue.cpp:108-124 | the front becomes active exactly when nothing is active and its debounce time is over; otherwise nothing changes |
| `CommandQueues.SessionLane.ApplyCapOverflow` | src/gateway/command_queue.cpp:135-204 | the overflow loop ends, leaves at most cap commands when cap >= 1, and equals the specification `Overflow`, whose closed form is `OverflowIsCut` |
| `QueueModel.OverflowIsCut` | src/gateway/command_queue.cpp:135-204 | without a loop: summarizing keeps the front and the newest cap-1, dropping keeps the newest cap, rejecting the oldest cap; the ids returned are exactly those removed, in order |
| `CommandQueues.SessionLane.DrainPendingAsSteeringText` | src/gateway/command_queue.cpp:206-217 | empties the lane and returns the pending texts in order, separated by blank lines |
| `CommandQueues.SessionLane.CancelPending` | src/gateway/command_queue.cpp:219-227 | removes the first pending command with the id and nothing else; true exactly when there is one |
| `CommandQueues.SessionLane.InterruptActive` | src/gateway/command_queue.cpp:229-240 | lets the active command go and clears all pending ones but the newest |
| `CommandQueues.SessionLane.Launch` | src/gateway/command_queue.cpp:532-557 | activation together with what a collecting or follow-up command drains from behind it; what is handed out and what is left is told by `QueueHandOver.PassHandsOver` |
| `CommandQueues.CommandQueue.Submit` | src/gateway/command_queue.cpp:335-414 | the whole new queue state: only the lane of the session and the index change, overflowed ids leave the index |
| `CommandQueues.CommandQueue.Cancel` | src/gateway/command_queue.cpp:416-426 | the whole new queue state and the answer, on any id |
| `CommandQueues.CommandQueue.AbortSession` | src/gateway/command_queue.cpp:428-441 | the whole new queue state; true exactly when an active command was let go |
| `CommandQueues.CommandQueue.ConfigureSession` | src/gateway/command_queue.cpp:443-483 | negative numbers and a missing policy leave the lane's settings alone; every other lane is untouched |
| `CommandQueues.CommandQueue.DispatcherPass` | src/gateway/command_queue.cpp:508-577 | lanes in any order until the limit is reached, then idle lanes are dropped; returns the commands launched; which those are is told by `QueueHandOver.PassHandsOver` |
| `QueueHandOver.PassHandsOver` | src/gateway/command_queue.cpp:508-577 | every lane whose front has waited its time, with nothing active, starts that front, in order, until no worker is left, and no other lane changes; a collecting front carries the texts of exactly the commands behind it, which leave the lane; several commands behind a follow-up are discarded; any other front carries nothing and leaves the rest |
| `QueueHandOver.DrainedIsJoined` | src/gateway/command_queue.cpp:206-217 | the drained text is the messages in enqueue order with a blank line between each two, empty ones at the start left out |
| `QueueHandOver.PassSweeps` | src/gateway/command_queue.cpp:572-579 | behind a pass the lanes are exactly those that had something active or pending |
| `QueueHandOver.PassUnlists` | src/gateway/command_queue.cpp:558-560 | a pass takes from the index exactly the ids it hands out |
| `QueueHandOver.SubmissionLands` | src/gateway/command_queue.cpp:335-414 | what a submission makes of its lane: an interrupt clears it but for the newest first, steering skips the cap, otherwise the cap is applied with the policy of the lane |
| `CommandQueues.CommandQueue.WorkerDone` | src/gateway/command_queue.cpp:619-626 | clears whatever the session's lane has active and counts one worker down |
| `QueueRefinement.Execute` | src/gateway/command_queue.cpp:335-626 | the queue object after any run is in the very state of the model after that run, so every theorem about runs holds of it |
| `QueueSteps.NextIsQueueStep` | src/gateway/command_queue.cpp:335-626 | the ledger only observes: erasing it from a step leaves the queue step |
| `QueueSteps.NextOk` | src/gateway/command_queue.cpp:335-626 | every step keeps the invariant, and moves fates forward only |
| `QueueSteps.ReachableOk` | src/gateway/command_queue.cpp:335-626 | the invariant holds after every run from an empty queue |
| `QueueTheorems.ConcurrencyBound` | src/gateway/command_queue.cpp:522-561 | in every interleaving active lanes <= active_count_ = commands handed out and not reported back <= max_concurrent |
| `QueueTheorems.DispatchedInOrder` | src/gateway/command_queue.cpp:108-133 | commands of one session are dispatched in enqueue order, each once, under every policy, cancel, drain and lane deletion |
| `QueueTheorems.OneAtATime` | src/gateway/command_queue.cpp:522-561 | in every run without an abort of the session, or an interrupting submission to it, that finds a command active: at most one of its commands runs, and it is the lane's active one |
| `QueueTheorems.AbortOrphans` | src/gateway/command_queue.cpp:428-441 | an abort leaves a worker running unseen if and only if the lane had an active command |
| `QueueTheorems.SubmitOrphans` | src/gateway/command_queue.cpp:362-369 | a submission leaves a worker running unseen if and only if its effective mode is interrupt and a command is active |
| `QueueTheorems.TwoAtOnce` | src/gateway/command_queue.cpp:229-240 | under every configuration with two workers, and a cap of at least one or summarizing, four steps run two commands of one session at once, whatever the debounce time |
| `QueueTheorems.Conservation` | src/gateway/command_queue.cpp:389-441 | every command ever submitted waits at a place of a lane, or was dispatched and is in the log, or ended without being dispatched; a running one is in the log and never pending, and active_count_ counts the running ones |
| `QueueTheorems.PendingExactly` | src/gateway/command_queue.cpp:389-441 | a pending id sits at one place, in its own session's lane |
| `QueueTheorems.CancelExact` | src/gateway/command_queue.cpp:416-426 | Cancel returns true if and only if the command is pending |
| `QueueTheorems.CancelledForGood` | src/gateway/command_queue.cpp:416-426 | a command cancelled with success is never dispatched, whatever comes after |
| `QueueTheorems.OverStaysOver` | src/gateway/command_queue.cpp:135-240 | nor is one dropped, condensed, drained or flushed |
| `QueueSummary.CountRoundTrip` | src/gateway/command_queue.cpp:147-165 | the count printed into a summary is the count read back from it |
| `QueueSummary.MergeCounts` | src/gateway/command_queue.cpp:147-179 | merging gives a summary whose count is one more than what the front stood for |
| `QueueHandOver.SummaryText` | src/gateway/command_queue.cpp:147-179 | messages condensed one after the other leave their number and the first 150 characters of each, in order |
| `QueueHandOver.OverflowText` | src/gateway/command_queue.cpp:135-204 | the front that summarizing overflow leaves is the merge of exactly the messages it took in, in order |
| `QueueCondense.SummariesAreHonest` | src/gateway/command_queue.cpp:135-204 | over any run without forged summaries: the count a pending text carries is one plus the messages condensed into it, and only the front of a lane can be a summary |
| `Transcript.SuffixReplayable` | src/core/default_context_engine.cpp:15-84 | any suffix of a replayable transcript is replayable: results whose call was cut become orphans |
| `Transcript.AppendReplayable` | src/core/agent_loop.cpp:280-305 | replayable transcripts compose |
| `Normalize.EnsureUniqueToolCallId` | src/providers/stream_normalization.cpp:156-173 | without a seen set the preferred id; with one the probing loop always ends and returns an unused, non-blank id, the preferred one if it can |
| `Normalize.FirstFree` | src/providers/stream_normalization.cpp:152-173 | the search meets a free ordinal within as many probes as there are seen ids, plus one |
| `Normalize.SanitizeReplayMessages` | src/providers/stream_normalization.cpp:581-615 | assistant messages are rewritten in place by the specification, all others stay |
| `Normalize.HygienicIdsKept` | src/providers/stream_normalization.cpp:511-615 | usable ids come through sanitizing unchanged; only calls without a usable name are dropped |
| `Normalize.SanitizedIds` | src/providers/stream_normalization.cpp:511-615 | whatever ids come in, those going out are clean and distinct |
| `NormalizeContents.SanitizedInTurn` | src/providers/stream_normalization.cpp:511-615 | the blocks kept are all but the calls without a usable name, in order; a call carries its resolved name and its decoded input, an empty object for null; anything else is untouched |
| `Normalize.NormalizeToolCall` | src/providers/stream_normalization.cpp:456-509 | with or without a seen set: accepted exactly when a name resolves and the arguments are structured, then with the id that rule gives |
| `Normalize.NormalizeToolCalls` | src/providers/stream_normalization.cpp:617-632 | the accepted calls in order, each with the ordinal of its place in the list |
| `NormalizeContents.NormalizedInTurn` | src/providers/stream_normalization.cpp:617-632 | the k-th call sent on carries the resolved name and the arguments of the k-th accepted one |
| `NormalizeContents.ArgumentsCases` | src/providers/stream_normalization.cpp:456-509 | structured arguments stay, scalars and texts are refused, null becomes an empty object unless it stands for a text that could not be read |
| `Normalize.SharedIds` | src/providers/stream_normalization.cpp:617-632 | with a seen set the ids sent on are clean, distinct and new |
| `Normalize.UnsharedHygienicIff` | src/providers/openai_provider.cpp:307-324 | without one, as for a reply that is not streamed, they are clean and distinct if and only if no two accepted calls share a trimmed id and none has the number that a blank one is given |
| `Normalize.FinalizePendingToolCalls` | src/providers/stream_normalization.cpp:634-666 | the loop emits the complete fragments and keeps the others, as specified by `Emit` and `Completes` |
| `Normalize.EmittedIds` | src/providers/stream_normalization.cpp:634-666 | emitted ids are clean, pairwise distinct and unseen before; one call per complete fragment; the seen set grows by exactly them |
| `NormalizeContents.EmittedInTurn` | src/providers/stream_normalization.cpp:634-666 | the k-th call emitted carries the resolved name, the parsed arguments and, unless blank or taken, the trimmed id of the k-th complete fragment |
| `Normalize.FragmentsConserved` | src/providers/stream_normalization.cpp:634-666 | emitted and kept fragments together are all fragments, none lost or doubled |
| `Normalize.UnsharedIdsCollide` | src/providers/openai_provider.cpp:307-324 | any accepted call with an id, repeated, leaves twice with the same id |
| `Serializer.SerializeMessagesToOpenAI` | src/providers/openai_provider.cpp:83-161 | the loop equals `Serialize`; for any messages at all, every tool message answers, first and right after it, a call of the nearest call message |
| `Serializer.NeverStray` | src/providers/openai_provider.cpp:83-161 | the same as a law of the serializer, continued from any list |
| `WireContents.MessageIsSaid` | src/providers/openai_provider.cpp:116-157 | every message without results is one wire message, in its place: the k-th call carries id, name and dumped arguments of the k-th tool_use block; text and reasoning are those of the text and thinking blocks in order |
| `WireContents.ResultIsSaid` | src/providers/openai_provider.cpp:103-115 | a message with results is nothing but tool messages, each with the text of the first result under its id |
| `Replay.RequestIsRendering` | src/providers/openai_provider.cpp:83-161 | sanitizing and serializing a replayable transcript gives the rendering defined turn by turn: exactly the results of cut or dropped calls are skipped |
| `Replay.RenderingWellFormed` | src/providers/openai_provider.cpp:83-161 | that rendering is well formed in both directions: no stray reply, every call answered |
| `Replay.RequestWellFormed` | src/providers/openai_provider.cpp:261-276 | so the request for any replayable transcript is well formed |
| `Replay.AnsweredIff` | src/providers/openai_provider.cpp:83-161 | for any turn answered id by id: every call on the wire is answered if and only if the ids the surviving calls are sent with are among those given |
| `Replay.AnsweredIffHygienic` | src/providers/openai_provider.cpp:83-161 | when all calls survive, that is if and only if the ids given are clean and distinct |
| `CodexInput.BuildInputItems` | src/providers/openai_codex_provider.cpp:44-108 | the loop gives the items and the joined instructions; for any messages, every function_call_output answers, once, a call of the nearest call turn |
| `CodexInput.NeverStray` | src/providers/openai_codex_provider.cpp:44-108 | the same as a law of the builder, continued from any list |
| `CodexInput.TurnAnsweredIff` | src/providers/openai_codex_provider.cpp:73-102 | in a turn answered id by id every call gets its output if and only if no call has an empty id |
| `CodexContents.MessageIsSaid` | src/providers/openai_codex_provider.cpp:44-108 | every message without results goes out in its place: the calls one by one with id, name and dumped arguments, then the text unless empty; a plain one as role and text; system messages leave no item |
| `CodexContents.ResultsAreSent` | src/providers/openai_codex_provider.cpp:70-101 | the results behind a call turn are those of its calls |
| `CodexContents.OutputIsSaid` | src/providers/openai_codex_provider.cpp:70-80 | each output carries the text of the first result with its id |
| `CodexContents.OutputsInOrder` | src/providers/openai_codex_provider.cpp:70-80 | and outputs stand in the order of those results |
| `CodexContents.InstructionsAreJoined` | src/providers/openai_codex_provider.cpp:50-58 | the instructions are the non-empty texts of the system messages in order, a blank line between each two |
| `Pruner.Prune` | src/core/context_pruner.cpp:98-182 | the index-vector loops equal the specification that counts assistant messages from the end; what it leaves is told by the rows below |
| `Pruner.PruneKeepsShape` | src/core/context_pruner.cpp:98-182 | pruning changes nothing but the text of tool results |
| `Pruner.RecentResultsKept` | src/core/context_pruner.cpp:98-182 | with any options, the results of the messages that the effective limit protects are kept as they are, but for stale errors, which give way to a note |
| `PrunerContents.OldResults` | src/core/context_pruner.cpp:144-178 | an old result is omitted when at least hardPruneAfter assistant messages follow, shortened when it is too long, kept otherwise; nothing else of its message changes |
| `PrunerContents.CountsAssistants` | src/core/context_pruner.cpp:69-96 | what is counted are the messages of the assistant from a place on |
| `PrunerContents.BootstrapKept` | src/core/context_pruner.cpp:58-149 | messages up to the first one from a user are kept, but for stale errors |
| `PrunerContents.SoftPruneText` | src/core/context_pruner.cpp:184-213 | a shortened result is its first and last lines with a line between them that reads as the number of lines left out |
| `PrunerContents.EffectiveIs` | src/core/context_pruner.cpp:36-56 | thresholds change only for a history over its budget, each to the share budget / tokens of itself, rounded down, and never below its floor |
| `Pruner.PruneKeepsReplayable` | src/core/context_pruner.cpp:31-182 | a replayable transcript stays replayable |
| `Chunking.ChunkByMaxTokens` | src/core/multi_stage_compaction.cpp:58-92 | exactly the greedy pieces; with a positive bound they are non-empty, concatenate to the input, are each a single message or within the bound, and no such partition has fewer |
| `Chunking.GreedyIsLeast` | src/core/multi_stage_compaction.cpp:58-92 | any partition with those properties has at least as many chunks as the greedy one |
| `Chunking.CompactMultiStage` | src/core/multi_stage_compaction.cpp:94-183 | exactly one plain system message, with the text told by `CompactTextCases` and `FinalPassIff` |
| `Chunking.CompactTextCases` | src/core/multi_stage_compaction.cpp:94-183 | few or cheap messages are summarised at once; otherwise each piece of a partition of the messages is summarised once, and the summaries stand in order with separators |
| `Chunking.FinalPassIff` | src/core/multi_stage_compaction.cpp:156-171 | the merged summaries are summarised again if and only if there is a target and a quarter of their length exceeds it by more than the margin |
| `Chunking.PartReads` | src/core/multi_stage_compaction.cpp:144-154 | each summary stands under a heading that reads as its place and the number of pieces |
| `Chunking.HeadReads` | src/core/multi_stage_compaction.cpp:112-178 | the heading of the compacted text reads as the number of messages, their tokens and the stages |
| `ContextEngine.Assemble` | src/core/default_context_engine.cpp:15-84 | the history cut to its last messages behind a note when it is too long, pruned, behind the system prompt and before the user message, and cut once more to the last messages exactly when the window would be too full; replayability is kept |
| `ContextEngine.CompactOverflow` | src/core/default_context_engine.cpp:86-141 | exactly the system prompt, one note, which is the summary of all but the system messages or a fixed text, and the last messages; replayability is kept |
| `AgentLoop.FilterValidToolCalls` | src/core/agent_loop.cpp:44-76 | keeps exactly the valid calls in order, and reports whether any was not |
| `AgentLoop.AfterFailure` | src/core/agent_loop.cpp:331-397 | which failures are retried, compacted or final, both ways; how long each retry sleeps; the counters stay within their budgets |
| `AgentLoop.ToolRound` | src/core/agent_loop.cpp:276-305 | the turn added carries the reply's thinking, text and calls, and answers call k with the output of its tool, in order; the next request is the last one with that turn behind it |
| `AgentLoop.ProcessMessage` | src/core/agent_loop.cpp:190-410 | any mix of retries and overflows: the first request is the assembled one; each later one is the one before it, or that with the turn of the reply behind it after a reply with calls, or its compaction after an overflow; answered turns and one final message with the text of the last reply are returned; at most max_iterations + 3 model calls, at most 7 seconds slept; every request replayable |
| `AgentLoop.ProcessMessageStream` | src/core/agent_loop.cpp:412-707 | the same for the streaming form: the turns are those of the rounds in the streams, with the text heard since the round before; the events are those of the chunks in order, and then exactly one message_end with the text of the closing message, or an error |
| `AgentLoop.RunSafe` | src/core/agent_loop.cpp:190-707 | in any run whose requests follow from each other: every request ends in the latest turn, no turn is ever taken back, and with usable ids every request is replayable |
| `AgentContents.HeardSinceRound` | src/core/agent_loop.cpp:469-549 | before its closing chunk the text of a stream is the contents since the last round of calls, joined in order, and so is its thinking |
| `AgentContents.ClosingChunk` | src/core/agent_loop.cpp:475-489 | the closing chunk adds no text, but stands in for one that never came |
| `AgentLoop.DynamicMaxIterations` | src/core/config.cpp:705-716 | 32 up to a window of 32768, 160 from 200000 on, and in between the largest number on or below the line through those points |
| `Session.Store.Say` | src/rpchandler/rpc_handler_agent.cpp:104-152 | the transcript grows by the user message and whole turns; the first request is assembled from the recent transcript without that message; with usable ids it stays replayable |
| `Session.RunSession` | src/rpchandler/rpc_handler_agent.cpp:44-159 | over any sequence of messages, compactions and resets no request sends a result without its call; with usable ids in the replies every request is well formed on the wire |
| `ByteSession.BytesAreClean` | src/core/agent_loop.cpp:469-545 | whatever bytes an OpenAI stream delivers, in whatever pieces, the ids handed to the agent's callback are usable |
| `ByteSession.RunByteSession` | src/rpchandler/rpc_handler_agent.cpp:44-159 | so every request of a session fed by arbitrary bytes is well formed on the wire |
| `Cooldown.ComputeCooldown` | src/providers/cooldown_tracker.cpp:99-165 | the loop computes base * 5^min(n-1, 4), capped |
| `Cooldown.DurationBounds` | src/providers/cooldown_tracker.cpp:99-165 | from the kind's base to its cap, and the int product never overflows |
| `Cooldown.DurationMonotone` | src/providers/cooldown_tracker.cpp:99-165 | more failures never shorten a cooldown |
| `Cooldown.BackoffGrows` | src/providers/cooldown_tracker.cpp:18-45 | in any run, over a streak of failures of one kind within the decay window of each other, probes and other keys between them, cooldowns never get shorter and never exceed the cap |
| `Cooldown.BackoffCounts` | src/providers/cooldown_tracker.cpp:18-45 | in any run, over such a streak from a key without a failure in the decay window, the cooldown a failure sets is that of the number of failures so far, however probes and other keys come between |
| `Cooldown.FailCools` | src/providers/cooldown_tracker.cpp:18-45 | a failure cools its own key, until exactly the time the server asked for or else its backoff, and no other key |
| `Cooldown.NextFailure` | src/providers/cooldown_tracker.cpp:24-33 | failures of any kind count up while they come within 24 hours, and start again after that or after a success |
| `Cooldown.BackoffSteps` | src/providers/cooldown_tracker.cpp:99-165 | the cooldowns of every kind, step by step |
| `Cooldown.TimeoutSteps` | src/providers/cooldown_tracker.cpp:99-165 | the timeout cooldowns are 30, 150 and then 300 seconds |
| `Cooldown.CooldownTracker.RecordFailure` | src/providers/cooldown_tracker.cpp:18-45 | streaks restart after the decay window, Retry-After wins, no other key changes |
| `Cooldown.CooldownTracker.TryProbe` | src/providers/cooldown_tracker.cpp:80-97 | granted exactly in cooldown and one interval after the last failure or probe |
| `Cooldown.ProbeTimes` | src/providers/cooldown_tracker.cpp:80-97 | while the cooldown lasts the first probe is granted exactly one interval after the failure, and the next exactly one interval after that |
| `Cooldown.ProbesThrottled` | src/providers/cooldown_tracker.cpp:18-97 | in any run k probes since the last failure at t imply k * 30 s <= now - t |
| `Failover.KeyRoundTrip` | src/providers/failover_resolver.cpp:105-111 | a cooldown key reads back as its pair when the provider id has no colon |
| `Failover.KeysCollideIff` | src/providers/failover_resolver.cpp:105-111 | different providers share a cooldown key for some profiles if and only if one id, followed by a colon, begins the other |
| `Failover.KeysDiffer` | src/providers/failover_resolver.cpp:105-111 | without such an overlap a key belongs to one provider and one profile |
| `Failover.Candidates` | src/providers/failover_resolver.cpp:164-193 | the available profiles exactly, in order of priority, last use and position; the first cooled one first |
| `Failover.PickAvailable` | src/providers/failover_resolver.cpp:195-209 | the first that can be built is the best usable one; none only when none is usable |
| `Failover.BestIs` | src/providers/failover_resolver.cpp:164-209 | no usable profile has a smaller priority number than the one chosen; with its number none is longer unused; and of those it is listed first |
| `Failover.FailoverResolver.FollowPin` | src/providers/failover_resolver.cpp:121-147 | a pin is followed if and only if its profile is out of cooldown, listed and buildable |
| `Failover.FailoverResolver.TryResolveModel` | src/providers/failover_resolver.cpp:113-252 | answer and whole new state equal the declarative `TryResolve` |
| `Failover.FailoverResolver.Resolve` | src/providers/failover_resolver.cpp:30-64 | the primary, then the fallback chain, threading the state through refusals |
| `FailoverRuns.FirstFallbackAnswers` | src/providers/failover_resolver.cpp:46-60 | when the primary is refused and provider ids do not overlap, the first model of the chain that differs from it and is not refused in the state of the call answers, with the provider, model and profile it would have answered with then, marked as a fallback |
| `Failover.FailoverResolver.RecordSuccess` | src/providers/failover_resolver.cpp:66-84 | ends the cooldown, stamps the last use and pins the session |
| `Failover.SuccessMarks` | src/providers/failover_resolver.cpp:66-84 | after a success the profile is out of cooldown and the last one used, a named session is pinned to it, and every other key and session is as before |
| `Failover.FailoverResolver.ClearSessionPin` | src/providers/failover_resolver.cpp:100-103 | the pin of that session is gone and nothing else changes |
| `FailoverTheorems.ResolveSafety` | src/providers/failover_resolver.cpp:113-252 | the answer is the healthy pin, else the best usable profile, else the first cooled one with its probe due, else the default entry |
| `FailoverTheorems.RefusedExactly` | src/providers/failover_resolver.cpp:113-252 | a model is refused if and only if no pin can be followed and its provider is exhausted |
| `FailoverLimits.EarlyProbeIff` | src/providers/failover_resolver.cpp:211-226 | calls can lead to a Resolve that hands out a profile in cooldown beside one that is not if and only if a client can be built for some profile and not for another |
| `FailoverLimits.HiddenFallbackIff` | src/providers/failover_resolver.cpp:30-64 | a refusal can hide a fallback that was not refused if and only if the two provider ids overlap |
| `FailoverRuns.ResolveExhausted` | src/providers/failover_resolver.cpp:30-64 | nothing is returned if the primary and every fallback are refused in the state of the call, and, unless provider ids overlap, only then |
| `FailoverRuns.Sticky` | src/providers/failover_resolver.cpp:66-149 | after a success, however other calls interleave, every Resolve of that provider in the session gives the same profile until it fails with a cooldown, a new list leaves it out, the pin is cleared or the session succeeds elsewhere |
| `FailoverRuns.StalePinDropped` | src/providers/failover_resolver.cpp:144-148 | a pin that cannot be followed is gone after the lookup |
| `Rotation.EachExactlyOnce` | src/providers/failover_resolver.cpp:151-209 | n equal profiles, none cooling down, no session: n consecutive requests hand out each exactly once, with or without successes in between |
| `Rotation.AnyWindow` | src/providers/failover_resolver.cpp:151-209 | and so do any n consecutive requests of a longer run |
| `Framing.SplitAppend` | src/providers/openai_codex_provider.cpp:204-209 | records of a concatenation are those of the first part, then those of its rest with the second part; for every delimiter |
| `Framing.SplitSound` | sidecar/src/rpc-server.ts:107-117 | records and rest put together are the stream, each cut at the first delimiter |
| `Framing.SplitComplete` | sidecar/src/rpc-server.ts:107-117 | and there is no other such cut |
| `Framing.DataFieldIs` | src/providers/openai_provider.cpp:462-472 | a line carries a value exactly when it is that value behind the field name, with or without a carriage return |
| `RpcServers.RpcServer.ProcessBuffer` | sidecar/src/rpc-server.ts:107-117 | handles the non-blank complete lines of the buffer in order and keeps the rest |
| `RpcServers.HandledIsFilter` | sidecar/src/rpc-server.ts:107-117 | the lines handled are the trimmed records that are not empty, in order |
| `RpcServers.Receive` | sidecar/src/rpc-server.ts:68-71 | for every way of cutting the stream, lines handled and buffer are those of the whole stream |
| `CodexStream.StreamContext.StreamWriteCallback` | src/providers/openai_codex_provider.cpp:194-237 | handles complete records until the first error, which stops the transfer; keeps the first 128 KiB of the body |
| `CodexStream.Receive` | src/providers/openai_codex_provider.cpp:194-237 | for every way of cutting the stream: outputs, pending calls and error are those of the records of the whole stream; without an error both buffers too |
| `CodexContents.DataIsJoined` | src/providers/openai_codex_provider.cpp:211-221 | the data of a record are the values of its data fields, joined in order |
| `CodexContents.AnnouncedCall` | src/providers/openai_codex_provider.cpp:150-181 | a call announced first and given its arguments later, whatever else comes between, is handed out with the announced id and name unless new ones come along, and is pending no more |
| `CodexContents.UnannouncedCall` | src/providers/openai_codex_provider.cpp:161-181 | arguments that no item was announced for make a call of what they bring themselves |
| `CodexContents.FailureStops` | src/providers/openai_codex_provider.cpp:135-141 | a failure ends the stream: its message stays and nothing more is handed out, whatever follows |
| `OpenAIStream.StreamContext.StreamWriteCallback` | src/providers/openai_provider.cpp:448-581 | one callback equals `Consume`: lines up to a `[DONE]`, which leaves the rest in the buffer |
| `OpenAIStream.StreamContext.HandleLine` | src/providers/openai_provider.cpp:466-577 | text, reasoning and tool-call deltas, in order; slots by index below 256; what they add up to is told by the rows on `OpenAIStreamContents` |
| `OpenAIStreamContents.SlotAddsUp` | src/providers/openai_provider.cpp:529-566 | after any deltas the slot of an index holds its arguments from before and those of the deltas of that index, in order, and the last id and name given for it; other deltas do not touch it |
| `OpenAIStreamContents.TextsAreKept` | src/providers/openai_provider.cpp:502-527 | over any lines the contents handed out, joined, are the contents received, and so is the reasoning |
| `OpenAIStreamContents.TextsInOrder` | src/providers/openai_provider.cpp:502-527 | of one delta: content, then reasoning_content, then reasoning, each unless empty |
| `OpenAIStreamContents.LineInOrder` | src/providers/openai_provider.cpp:472-577 | texts come before the calls of their line, deltas are added before a tool-call finish hands out calls, and a `[DONE]` ends with the end of the stream |
| `OpenAIStream.StreamContext.TakeCompleteToolCalls` | src/providers/openai_provider.cpp:424-446 | hands out the complete calls and keeps or drops the incomplete ones |
| `OpenAIStreamContents.FlushHandsOut` | src/providers/openai_provider.cpp:424-446 | one output with the calls of exactly the complete fragments, in order, none if there are none; the others stay only when told to |
| `OpenAIStreamTheorems.HandledLines` | src/providers/openai_provider.cpp:448-581 | whatever the chunks, a prefix of the stream's lines is handled that reaches at least the first `[DONE]` |
| `OpenAIStreamTheorems.AllAtOnce` | src/providers/openai_provider.cpp:448-581 | one callback for the whole stream handles exactly the lines up to the first `[DONE]` |
| `OpenAIStreamTheorems.OneByteAtATime` | src/providers/openai_provider.cpp:448-581 | byte by byte, every line is handled |
| `OpenAIStreamTheorems.IndependentIff` | src/providers/openai_provider.cpp:448-581 | the outputs are the same for every chunking if and only if, of the lines after the first `[DONE]`, none is `[DONE]`, none brings text, and no tool-call finish meets a complete call among the fragments since |
| `OpenAIStreamTheorems.ProtocolStreams` | src/providers/openai_provider.cpp:448-581 | with only lines without data after `[DONE]`, every chunking ends in the same outputs, pending calls and seen ids |
| `OpenAIStreamTheorems.TwoEndsMatter` | src/providers/openai_provider.cpp:475-490 | a stream with two `[DONE]` lines is read differently in one piece and byte by byte |
| `OpenAIStreamTheorems.StreamIds` | src/providers/openai_provider.cpp:414-446 | on any stream, cut in any way, the tool-call ids handed out are clean and pairwise distinct |
| `UrlCodec.UrlEncode` | src/auth/openai_codex_auth.cpp:60-74 | the loop equals `Encode` |
| `UrlCodec.UrlDecode` | src/auth/openai_codex_auth.cpp:89-113 | the loop equals `Decode` with plus as space |
| `UrlCodec.UrlDecodePercentOnly` | src/auth/openai_codex_auth.cpp:117-135 | the loop equals `Decode` with plus kept |
| `UrlCodec.EncodeRoundTrip` | src/auth/openai_codex_auth.cpp:60-135 | both decoders undo the encoding of any bytes (sections 2.1 and 2.3 of RFC 3986) |
| `UrlCodec.EncodeOne` | src/auth/openai_codex_auth.cpp:60-74 | an unreserved byte stands for itself, any other for a percent sign and its two upper-case digits |
| `UrlCodec.DecodePlain` | src/auth/openai_codex_auth.cpp:89-135 | up to the first percent sign text stands for itself, but for plus signs in a form |
| `UrlCodec.DecodeEscape` | src/auth/openai_codex_auth.cpp:100-108 | a percent sign with two hexadecimal digits of either case is the byte they spell; any other percent sign stands for itself |
| `UrlCodec.ExtractQueryParam` | src/auth/openai_codex_auth.cpp:301-318 | the loop finds the first part with the key, empty without one |
| `UrlCodec.PartsJoin` | src/auth/openai_codex_auth.cpp:301-318 | the parts of any query are what is between its ampersands |
| `UrlCodec.FirstPart` | src/auth/openai_codex_auth.cpp:301-318 | and the value is what follows the key in the first part that starts with it |
| `UrlCodec.QueryRoundTrip` | src/auth/openai_codex_auth.cpp:301-318 | extracting from a printed query gives the first value under exactly that key, whatever the other pairs |
| `OAuthUrls.AuthorizeRoundTrip` | src/auth/openai_codex_auth.cpp:341-356 | client, redirect address, scope, challenge and state read back from the sign-in URL are the originals, for any bytes, and the response type and challenge method are the fixed ones (section 4.1.1 of RFC 6749, section 4.3 of RFC 7636) |
| `OAuthUrls.ParseManualCode` | src/auth/openai_codex_auth.cpp:320-329 | the branches on the pasted text |
| `OAuthUrls.PastedCode` | src/auth/openai_codex_auth.cpp:320-329 | an encoded code pasted alone comes back, whatever its bytes |
| `OAuthUrls.PastedRaw` | src/auth/openai_codex_auth.cpp:320-329 | so does a code pasted as it is, plus signs included, unless it holds a percent sign or looks like a parameter |
| `OAuthUrls.PastedQuery` | src/auth/openai_codex_auth.cpp:320-329 | and the code of a pasted query without an address |
| `OAuthUrls.PastedUrl` | src/auth/openai_codex_auth.cpp:320-329 | so does the code of a pasted redirect URL with any other parameters (section 4.1.2 of RFC 6749) |
| `ConfigPath.SplitDotPath` | src/core/config.cpp:569-582 | the loop equals `Split` |
| `ConfigPath.PathRoundTrip` | src/core/config.cpp:569-582 | splitting undoes joining |
| `ConfigPath.JoinSplit` | src/core/config.cpp:569-582 | joining undoes splitting, for every path, but for a dot at its end |
| `ConfigPath.TrailingDot` | src/core/config.cpp:569-582 | that dot adds nothing, unless the part before it is empty, which then counts |
| `ConfigPath.SetValue` | src/core/config.cpp:616-635 | walking down, replacing what is no object, and putting the value in writes the tree of `SetAt`; and exactly which inputs are errors |
| `ConfigPath.WalkDown` | src/core/config.cpp:626-632 | the descent: the last object and the objects passed on the way |
| `ConfigPath.UnsetValue` | src/core/config.cpp:637-655 | the tree written, exactly when nothing is written, and exactly which inputs are errors |
| `ConfigPath.GetSet` | src/core/config.cpp:625-634 | at and below a path that was set one reads the value put there |
| `ConfigPath.GetSetOther` | src/core/config.cpp:625-634 | diverging paths read as before, even where a scalar made way for an object |
| `ConfigPath.GetSetAbove` | src/core/config.cpp:625-634 | the nodes above a path that was set are objects |
| `ConfigPath.GetUnset` | src/core/config.cpp:646-654 | unset makes the path and its subtree absent |
| `ConfigPath.GetUnsetOther` | src/core/config.cpp:646-654 | and no diverging path |
| `ConfigPath.UnsetSetIff` | src/core/config.cpp:616-655 | unset after set restores the tree if and only if the parents were objects and the key was absent |
| `ConfigPath.SetTwice` | src/core/config.cpp:625-634 | the later value wins |
| `ConfigPath.SetCommutes` | src/core/config.cpp:625-634 | settings on diverging paths do not depend on their order |
| `Json5.StripComments` | src/core/config.cpp:50-99 | the comment pass equals `Strip`, string literals copied verbatim |
| `Json5.LiteralPart` | src/core/config.cpp:58-77 | a string literal is copied whatever it holds, escaped quotes included, and an unclosed one to the end |
| `Json5.LinePart` | src/core/config.cpp:79-85 | a line comment goes and its newline stays |
| `Json5.BlockPart` | src/core/config.cpp:87-95 | a block comment goes up to its first closer |
| `Json5.PlainPart` | src/core/config.cpp:97-98 | text without quotes and slashes is copied |
| `Json5.SlashPart` | src/core/config.cpp:97-98 | and so is a slash that opens nothing |
| `Json5.StripIdempotent` | src/core/config.cpp:50-99 | a second pass removes nothing: joining what was around a comment never makes a new one |
| `Json5.UnchangedIff` | src/core/config.cpp:50-99 | exactly the texts without comments outside literals come through unchanged |
| `Json5.NoneLeft` | src/core/config.cpp:50-99 | the result holds no comment |
| `Json5.UnclosedLeaks` | src/core/config.cpp:87-95 | for every text: the pass removes what it is meant to if and only if the text does not end inside an unclosed, non-empty block comment; else the last character of that comment comes out at the end |

## Left out

- HTTP, sockets, process spawning, files, logging, the command line, the user interface, the channel adapters, authentication and rate limiting: input and output, or foreign code.
- JSON parsing and printing, regular expressions and HTML-entity decoding: arbitrary functions here, total and without exceptions; fields of the wrong JSON type, which throw, are not modelled.
- Starting and stopping the queue's threads, condition variables and the notification of clients; each critical section is one atomic step.
- CommandQueues.CommandQueue.Submit: ids are taken to be fresh, as the random generator makes them.
- CommandQueues.SessionLane.ApplyCapOverflow: the front of an empty lane with a negative cap is undefined in the source and excluded.
- QueueCondense.SummariesAreHonest: for runs with at most 2^31 - 1 submissions; past that the int count overflows.
- Failover.FailoverResolver.Resolve: one clock instant for the whole call, where the source reads the clock at several places.
- Failover.FailoverResolver.SetProfiles: the registry behind `GetProviderWithKey` is a fixed function of provider and key.
- Rotation.EachExactlyOnce: last-used stamps lie before the first request, as a steady clock makes them.
- AgentLoop.ProcessMessage: provider failover inside the loop, usage accounting, hooks and truncation of tool results are part of the arbitrary model and tool behaviour; callbacks do not throw.
- Session.RunSession: well-formedness rests on usable ids in the streamed replies; `ByteSession.RunByteSession` derives them from the bytes of an OpenAI stream, other streams are not modelled to that end.
- FailoverRuns.ResolveExhausted: when provider ids overlap, the converse is settled for one fallback (`FailoverLimits.HiddenFallbackIff`), not for chains of any length.
- Pruner.Prune: token estimates are unbounded integers, and thresholds are scaled in exact arithmetic, where the source rounds doubles.
- CodexStream.StreamContext.StreamWriteCallback: fields of an event are read before its effects; an event that throws halfway leaves the pending calls as they were.
- OAuthUrls.ParseManualCode: fragments after a `#` are not treated apart, as in the source.
- ConfigPath.SetValue: the tree is a value, so the way back up is rebuilt where the source edits in place; the file and its backup are not modelled.
- Json5.StripComments: only the comment pass; the trailing-comma pass does not respect strings and supports no general claim.
- RpcServers.RpcServer.ProcessBuffer: what handling a line does, and the trimming function, which is arbitrary.
- `SplitByTokenShare`, tool-name resolution, BM25 and reranking scores, cron times, subagent limits and the adapter lock file.
