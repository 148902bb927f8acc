# harnas-go: a verified model of its transcript protocol

harnas-go drives a language model in a loop: it appends events to a session log, renders the log for a provider,
appends the provider's answer, runs the tools the answer asks for, and goes on. Providers reject a transcript in which a
tool use and its result are not properly paired, so the guarantees that matter sit in the protocol over that log. This
project models the protocol and the machinery around it, and proves what it keeps for every provider, hook, tool handler
and storage behaviour.

## How the model is laid out

| file | what it holds |
|---|---|
| Events.dfy, Sequences.dfy | events and logs as values; lists built up in order, texts spelled by pieces |
| Mutations.dfy | the effective transcript under compact and revert |
| Integrity.dfy, Visibility.dfy | the pairing rules, their analysis, and what they say about the raw log |
| Storage.dfy, Sessions.dfy, Writers.dfy | the write-through log, the adapter, binding, loading, forking; many writers on one store |
| Compaction.dfy, Strategies.dfy | the pair-safe range and the three compaction strategies that use it |
| Protocol.dfy | the log as a state machine: which appends the program makes, and what every reachable log satisfies |
| Retry.dfy, Environment.dfy, Tools.dfy, Dispatch.dfy, Answers.dfy, AgentLoop.dfy, Approval.dfy | the run, turn, retry and dispatch loops, the runner and approvals |
| Outcomes.dfy | how attempts, turns and runs end, and why |
| Lives.dfy | whole lives of a session, and every provider call in them |
| Projection.dfy | the Anthropic request |
| Streams.dfy, AnthropicStream.dfy, AnthropicGrammar.dfy, OpenAIStream.dfy, GeminiStream.dfy, StreamDriver.dfy | the three stream parsers and their driver |
| KeyOrder.dfy, Jcs.dfy, Surrogates.dfy | canonical JSON |
| Delegation.dfy, RateLimit.dfy, RingBuffers.dfy | delegation traversal, the rate limiter, the ring buffer |

An event is a position and a body; a body keeps the fields the program reads. Everything outside the program is an
oracle: the n-th call of a hook, provider, projection or handler gets the n-th answer of an arbitrary function, and hooks
and handlers may append whatever they like to the log while they answer (`Environment.World`). Two ghost flags of the
world record what the outside did. `rogue`: something outside appended a tool event or an assistant message, or a provider
reused a tool id. `reckless`: something outside, or an event inside a provider's answer, compacted without regard to pairs
or reverted. Every operation of the loop then promises `Moved`: the log only grew, every provider call saw a log without
violations and with an exactly paired transcript, the log moved by enabled steps of the protocol unless `rogue` (by strict
steps unless also `reckless`, and then every provider call saw a disciplined log), and no tool use was handed out twice,
as long as no id was used again while its use waited for its result.

## What the proofs found

* After a storage error the documentation (README.md:101-106, log.go:36-39) says that the failed event is neither
  persisted nor in memory and that the turn can be retried after `ClearStorageErr`. `Writers.ClearAndRetry` shows, for every
  writer and every failure, that clearing and retrying works if and only if the log left behind still shows the whole
  store. A level writer fails it exactly when the adapter failed after it wrote (`Writers.LevelClearAndRetry`): the batch is
  then in the store. A stale writer, whose conflict is also a storage error, always fails it, although nothing was written.
* A streamed Gemini answer never has the stop reason `tool_use`, because `geminiStopReason` knows no such reason.
  `GeminiStreams.StreamedCallsNeverRun` shows that whenever such an answer holds calls, closing the step answers all of them
  with an error: streamed Gemini tools never run. Its ids restart at 0 in every stream. An appended answer keeps the log sound
  exactly if its ids are unused (`Protocol.SoundIffFresh`, `GeminiStreams.SoundIffNumbersUnused`), so the second answer with
  calls in a session makes the raw log referentially unsound for good (`GeminiStreams.SecondAnswerReusesID`).
* A run may end with the empty reason and no error (agent_loop.go:89-92), the model's `Unstated`, and `prepareRunEntry` may let
  a run proceed to the provider with uses pending (agent_loop.go:148-151, 161-164). `AgentLoops.AgentLoop.DispatchTurn` and
  `AgentLoops.AgentLoop.ResumeBatch` show that this happens exactly on logs that are `HiddenPending`: ready for a provider
  although uses are pending, all of which live compacts cover (`AgentLoops.HiddenIsCovered`). `AgentLoops.HidingLogHides` is
  such a log. After a dispatch it takes a missing runner or a rogue outside, and in a session that was disciplined when the
  run began it takes a rogue or reckless outside (`AgentLoops.AgentLoop.Run`).
* A turn whose model stopped for its tools never ends with `no_pending_tools`, unless the log was unsound or the outside
  rogue (`AgentLoops.AgentLoop.Run`).
* Whether a tool use can reach its handler twice does not depend on fresh ids as such. It cannot, unless storage failed, as
  long as no id comes into use again while its use is pending (`Lives.EveryLifeIsSafe`). `AgentLoops.ReusedWhilePending`
  is the input that breaks it: a provider answers the log of `HidingLogHides` with a use of the hidden id. Both uses are then
  dispatched, and both reach the handler exactly if no hook refuses them and it is registered (`Dispatch.HandedOnceIff`).
* In a session without compactions the Anthropic request has every result in the message right after its use exactly if no
  answer holds a user-side event between two of its uses (`Projection.ResultsFollowTheirUses`), which only a provider's own
  answer can do (`Protocol.InterruptedIff`).
* A child's tokens count in its own log and again in the `agent_result` of its parent, if that carries usage:
  `Delegation.RepeatedTokensCountAgain` shows that the total is what the models reported plus all that results repeat, and
  equals what the models reported exactly when no collected result carries tokens.

## Model

| member | source | states |
|---|---|---|
| Mutations.ApplyMutations | mutations.go:3-53 | The three loops compute, for any log, the declarative transcript: in log order and nothing else, each event that no live compact covers, and for each event at which live compacts are anchored the summary of the last one, with its number and its text; compacts and reverts vanish. |
| Mutations.OnlyTranscript | mutations.go:29-52 | Whatever lists, in order, exactly what the events contribute is the transcript: there is one only. |
| Mutations.ViewByAnchors | mutations.go:16-52 | An event is replaced exactly if some live compact is anchored at it, and then by one event with the number and the summary text of the last such compact; otherwise it disappears exactly if a live compact covers it. |
| Mutations.EffectiveIsIdempotent | properties_test.go:58-72 | Applying mutations to a transcript again changes nothing. |
| Mutations.CompactThenRevert | properties_test.go:128-148 | For dense logs, a compact followed by its revert restores the previous transcript exactly. |
| Mutations.WithoutMutations | mutations.go:29-52 | A log without compacts and reverts is its own transcript. |
| Mutations.VisibleIffNotShadowed | mutations.go:16-27 | A tool event is visible exactly when no live compact lists it. |
| Integrity.AnalyzeToolReferences | integrity.go:146-205 | Reports the specified violations in order, each exactly if some event deserves it as its code, number and tool id say, and none exactly when ids are present and unique and every result follows its use. |
| Integrity.UnresolvedToolViolations | integrity.go:207-229 | Reports exactly the uses without a result. |
| Integrity.ReportedMeans | integrity.go:146-229 | What each violation says: a pass reports exactly what some event deserves, code by code. |
| Integrity.NoFaultsIffSound | integrity.go:146-205 | The list of reported faults is empty exactly for referentially sound events. |
| Integrity.NoOpenFaultsIffResolved | integrity.go:207-229 | No use is reported open exactly when every use has a result. |
| Integrity.PrepareProviderCall | integrity.go:113-144 | Succeeds exactly when the raw log is sound and its transcript exactly paired, and returns that transcript. |
| Integrity.Current | integrity.go:100-111 | Says exactly whether this is the prepared session and still has the prepared watermark and transcript. |
| Visibility.PairedIffVisiblePaired | integrity.go:113-144 | For sound logs the transcript is exactly paired if and only if, among the events no live compact covers, uses and results come in pairs. |
| Storage.StorageAdapter.AppendEvents | storage.go:89-106 | An append is fenced by the expected number and writes its whole batch or nothing, wherever the adapter fails; an adapter that works answers with the rows it wrote. |
| Storage.StorageAdapter.EventsSince | storage.go:108-124 | Returns exactly the rows after the cursor. |
| Storage.Log.AppendBatch | log.go:54-109 | All of a batch is stored and then visible, or the log latches and shows none of it; a latched log refuses at once; a log level with an adapter that works never latches. |
| Storage.Log.Append | log.go:44-52 | One event, or nothing and a latched log. |
| Storage.Log.LastAssistantMessage | log.go:117-124 | The last assistant message, if there is one. |
| Storage.LastAssistant | log.go:117-124 | None exactly when there is no assistant message; otherwise no later event is one. |
| Sessions.Session.BindStorage | persistent_log.go:30-71 | Saves the header; binds exactly after the store has become the stored rows plus the log's missing tail, and only if the rows agree with the log in number and type; on failure the binding is unchanged. |
| Sessions.SameKindIff | event.go:5-27 | Events are stored under fifteen types: two have the same type exactly if they are of the same kind. |
| Sessions.WriteMissing | persistent_log.go:58-69 | Backfilling appends exactly the missing tail, keeps the store dense, and cannot fail on a working adapter. |
| Sessions.LoadSessionFromStorage | persistent_log.go:79-118 | Succeeds exactly for a store with a header and dense rows, and then has that header and shows exactly the rows. |
| Sessions.Session.Fork | session.go:47-69 | A fork holds exactly the longest prefix up to the given number, is not bound to storage, keeps metadata and delegation links, and notes where it was forked. |
| Writers.NextKeepsCoherent | log.go:54-109 | Every load, append, outside append, failure and cleared latch keeps the store dense and every log a prefix of it that ends at a batch boundary. |
| Writers.EveryLogIsAPrefix | log.go:54-109 | In every interleaving from the empty store: dense numbers, every log a prefix of the store, at most one fenced append accepted per watermark. |
| Writers.BatchesAreAtomic | storage.go:89-106 | No writer ever sees part of a batch, then or later. |
| Writers.StaleWriterIsLockedOut | log.go:75-85 | A writer behind the store publishes nothing until loaded again, even after its latch is cleared. |
| Writers.LevelWriterPublishes | log.go:86-109 | A writer level with the store does publish and is level again. |
| Writers.LoadedWriterPublishes | log.go:86-109 | Every writer that was just loaded publishes on a working adapter and is level again, and no other writer is touched. |
| Writers.ClearAndRetry | log.go:36-42 | For every writer, level or stale, and every failure: clearing the latch and retrying works exactly when the log left behind still shows the whole store. |
| Writers.LevelClearAndRetry | log.go:36-42 | For a writer level with the store that is exactly when the failure came before the write. |
| Compaction.MessageEvents | strategies.go:50-71 | The messages no compact ever listed, in order. |
| Compaction.MessagesInOrder | strategies.go:50-71 | Listed are exactly the messages no compact ever listed, in log order. |
| Compaction.ToolPairSafeRange | strategies.go:1042-1075 | For sound logs, whatever order the map is walked in: the candidates that belong to the safe set, in candidate order. |
| Compaction.SelectInOrder | strategies.go:1068-1074 | What is selected stands in the order of the candidates. |
| Compaction.SafeSetIsGreatest | strategies.go:1042-1075 | The safe set is closed under pairing, holds no unresolved use, and contains every other such set of candidates. |
| Compaction.PairSafeCompactKeepsPairing | strategies.go:918-932 | Appending a pair-safe compact keeps a sound log sound and an exactly paired transcript exactly paired. |
| Strategies.TokenMarkerTail.OnPreProjection | strategies.go:894-933 | Appends exactly its choice for the log as it was, or nothing if the log latches. |
| Strategies.TokenMarkerTail.CompactAbove | strategies.go:894-933 | The choice: beyond the trigger, one compact over all old messages that may be replaced, if there are any. |
| Strategies.SummaryTail.OnPreProjection | strategies.go:953-986 | Appends exactly its choice: a compact over the same range with the provider's summary, if that is not empty. |
| Strategies.SummaryTail.Summarize | strategies.go:988-1028 | For sound logs the check of the private log never refuses, so the summary is what the provider says about it. |
| Strategies.SubLogIsReady | strategies.go:988-1010 | The private log built from the chosen messages always passes the check every provider call must pass. |
| Strategies.TailCoversAreSafe | strategies.go:903-917 | What a tail strategy replaces are messages, and pair-safe. |
| Strategies.TailCoversExactly | strategies.go:903-917 | A tail strategy replaces exactly the messages before the last `KeepRecent` whose other half, if they are half of a pair, is such a message too, in ascending order. |
| Strategies.CompactsIffAbove | strategies.go:894-933 | The token strategy acts exactly if the messages hold more than four characters for each token of the trigger and some old message may go, and then covers exactly these. |
| Strategies.CompactsWhatMayGo | strategies.go:918-932 | What the token strategy appends covers exactly what may go, and its text is rendered from the numbers. |
| Strategies.SummarisesIffAbove | strategies.go:953-986 | The summarising strategy acts exactly if there are more messages than its limit, some old message may go and the provider has something to say about those that may; it then covers exactly these. |
| Strategies.SummaryMeans | strategies.go:1011-1028 | The summary is the text of the last assistant message the provider answers with. |
| Strategies.TailKeepsRecent | strategies.go:903-910 | None of the last `KeepRecent` messages is ever replaced. |
| Strategies.TailKeepsUnresolved | strategies.go:1054-1062 | A use that waits for its result is never replaced. |
| Strategies.TailKeepsPairing | strategies.go:918-932 | What a tail strategy appends keeps the transcript exactly paired. |
| Strategies.EstimateTokens | strategies.go:1030-1040 | A quarter of the characters, rounded up. |
| Strategies.EffectiveEvents | strategies.go:120-138 | The events no compact ever listed, without the compacts. |
| Strategies.ToolOutputCap.OnPreProjection | strategies.go:88-118 | Appends one compact per oversized output and its use, in order, up to where the log latches. |
| Strategies.CapsInOrder | strategies.go:88-118 | Exactly the outputs over the limit whose use is in the log are capped, in order, by one compact each over the use and the result. |
| Strategies.CapsArePairSafe | strategies.go:88-118 | Every compact the cap appends covers exactly one pair. |
| Strategies.CapsKeepPairing | strategies.go:88-118 | However far the cap gets, an exactly paired transcript stays exactly paired. |
| Strategies.TailStepIsOrderly | strategies.go:918-932 | What a tail strategy appends is a step of the strict discipline. |
| Strategies.CapsLeadOrderly | strategies.go:88-118 | So is everything the cap appends. |
| Protocol.StepKeepsSound | agent_loop.go:171-250 | Every step of the program keeps the raw log referentially sound, if the provider's ids are fresh. |
| Protocol.SoundIffFresh | agent_loop.go:171-250 | Appending any well-formed answer keeps a sound log sound exactly if it reuses no id of the log. |
| Protocol.ReachableLogsAreSound | integrity.go:59-69 | With fresh provider ids every reachable log is sound, whatever is compacted or reverted. |
| Protocol.ForksAreSound | session.go:47-69 | Every prefix of a sound log, hence every fork, is sound. |
| Protocol.StepKeepsDiscipline | agent_loop.go:171-250 | Strict steps, with any answer the program accepts unless it reverts or compacts pairs apart, keep pending uses behind the last assistant message, which stopped for its tools, and let no answer begin before earlier results are in. |
| Protocol.ReachableLogsAreDisciplined | agent_loop.go:108-168 | Every log reachable by strict steps is disciplined. |
| Protocol.ReadyIffNothingPending | agent_loop.go:89-92 | In a disciplined log the provider may be called exactly when no use is pending in the raw log. |
| Protocol.PairsHideTogether | mutations.go:16-27 | In a disciplined log a use and its result are visible or hidden together. |
| Protocol.InterruptedIff | agent_loop.go:171-250 | An answer in the log is interrupted by a user-side event only if the provider's own answer held that event between two of its uses. |
| Protocol.BuiltinIsOrderly | provider_stream.go:498-514 | Answers in the shape of the built-in providers respect pairs and are not interrupted. |
| Retry.RetryPolicy.Decide | retry_policy.go:38-51 | Retries exactly retryable errors before the last allowed attempt; the delay is what the policy's own function says, or what the total wait grows by, and there is none without a retry. |
| Retry.RetryPolicy.Retryable | retry_policy.go:53-71 | A status decides by the policy's table, or by the seven statuses of the default; without a status the error's own verdict decides; without that, whether it is transient. |
| Retry.DefaultsAgree | retry_policy.go:20-51 | The default policy is the policy whose fields are all left out. |
| Retry.DefaultBackoffTotals | retry_policy.go:20-36 | The default waits before attempt n add up to 250 (2^(n-1) - 1) milliseconds. |
| Retry.DefaultBackoffFits | retry_policy.go:28-34 | As 64-bit nanoseconds the default delay is exact up to attempt 36 and no further. |
| Environment.Invoke | hooks.go:56-73 | Handlers' events are appended, and a `fail_turn` panic is recorded and unwinds the turn; no tool runs and no provider is called. |
| Tools.Runner.Run | tools.go:77-172 | In every branch the run ends with exactly one result for its use, as the last event, unless the log latched; the log has then grown by exactly the spawned child's record or the handler's own events and that result, which holds the handler's output, or its error, or why it was not asked; the use reaches its handler, as it is, exactly if a handler is registered. |
| Tools.Runner.WroteMeans | tools.go:77-172 | What a run appends: the record of a child and both its ids; the handler's own events and its output or its error; or just why no handler was asked. |
| Tools.Runner.Spawn | tools.go:193-268 | Spawning appends exactly the record of the child and the one result, which names both ids; without a task only the refusal. |
| Dispatch.PendingToolUses | agent_loop.go:697-717 | Exactly the uses without a result, in order. |
| Dispatch.PendingInOrder | agent_loop.go:697-717 | Pending are exactly the uses without a result, in log order. |
| Dispatch.Denial | agent_loop.go:669-683 | A batch member is denied exactly if some decision refuses, with the reason of the first that does. |
| Dispatch.WhereHanded | agent_loop.go:619-667 | What a batch hands to the handlers, in order: exactly the uses that no hook refused and that have a handler, each with the arguments of the first decision that gives any, or else its own. |
| Dispatch.RequestsInOrder | agent_loop.go:588-606 | The approval requests are exactly those for the uses some hook held and none refused, one each, in the order of the uses. |
| Dispatch.RunBatch | agent_loop.go:619-645 | Uses are settled in order, each once: handed to the handlers are exactly the undenied uses that have one, in order, each with the arguments of the first decision that gives any or else its own; every settled use has the result that says what became of it. |
| Dispatch.Settle | agent_loop.go:619-637 | A denied use is answered with the first refusal's reason and nothing else is appended; any other is run with the arguments of the first decision that gives any or else its own, and the result says what became of it. |
| Dispatch.HandedOnceIff | agent_loop.go:619-637 | A batch hands no id to a handler twice exactly if no two of its uses that reach a handler share one. |
| Dispatch.BatchStaysOnce | agent_loop.go:572-647 | Dispatching what is pending hands out nothing that was handed out before, nor anything twice, as long as no id is used again while pending. |
| Dispatch.ProgressByRun | agent_loop.go:619-637 | Settling the next use keeps the earlier results, answers that use and no other, and leaves the rest of the batch waiting. |
| Dispatch.DispatchPendingTools | agent_loop.go:572-667 | With a held use, no handler runs and exactly the requests are appended, after which the log awaits approval; otherwise every pending use gets the result its own decisions and handler lead to, exactly the undenied ones with a handler are handed out, with the arguments of the first decision that gives any or else their own, and nothing is left pending unless the outside is rogue. The decisions are what the hooks answered, all of them asked before anything runs. |
| Answers.CloseProviderStep | agent_loop.go:171-250 | Refuses exactly ill-formed answers, with a fault that the answer has; otherwise returns the answer, with one error result per use unless the model stopped for its tools. |
| AgentLoops.AgentLoop.TerminalRuntimeError | agent_loop.go:252-259 | Exactly whether a terminal runtime error is in the log. |
| AgentLoops.AgentLoop.RunOneProviderAttempt | agent_loop.go:347-424 | Calls the provider at most once, and only on the log that was prepared; hooks run before the call and, unless it failed, after it; the outcome is what the provider answered; it is an error exactly if hooks changed the prepared log. |
| AgentLoops.AgentLoop.CloseAndAppend | agent_loop.go:171-250 | An ill-formed answer leaves the log as it was and ends the turn with an integrity error, and only such an answer does; any other enters the log closed, as one batch. |
| AgentLoops.AgentLoop.TryOnce | agent_loop.go:306-343 | One attempt with its record, the verdict, the new preparation and the new rendering: what each outcome says about the calls, the log and the outside. |
| AgentLoops.AgentLoop.CallProviderWithRetry | agent_loop.go:304-345 | At most the allowed attempts; k failures are on record, numbered from 1, only the last one terminal, and it is so exactly if the turn failed; a turn of retryable errors uses all its attempts; every further call has its own rendered request; every error has its cause; if the outside is calm and storage works, the attempts end with an answer or with the last record. |
| Outcomes.LoopSteps | agent_loop.go:304-345 | One attempt more: what holds of the attempts so far goes on holding, or the row ends with an answer, the last record, an error that has its cause, or unwound by a hook. |
| Outcomes.StaysReady | integrity.go:113-144 | Appending an event that concerns neither pairing nor mutation, such as the record of a failed attempt, leaves a ready log ready, so the next attempt can be prepared. |
| AgentLoops.AgentLoop.RunTurn | agent_loop.go:261-302 | At most one turn's provider calls, no tool, a rendered request for every call; every error has its cause: a projection that failed, hooks that changed a prepared log, a log that is not ready, an ill-formed answer, a latched log. A calm turn on a ready log leaves exactly the records of its failures and then the closed answer or the last record; a turn whose first call is answered appends exactly what its hooks append and the closed answer; a request that cannot be rendered ends the turn, with no call. |
| AgentLoops.AgentLoop.PrepareRunEntry | agent_loop.go:108-168 | Awaited approvals and resolved approvals without a result stop the run with nothing changed; nothing pending changes nothing; uses no stop for tools left behind let the run go on exactly if they are hidden; a run goes on only if nothing is pending or all of it is hidden. |
| AgentLoops.AgentLoop.ResumeBatch | agent_loop.go:153-168 | A batch left pending by a stop for tools is dispatched before any provider call: it is held and nothing ran, or every use of it is settled; the run then goes on exactly if nothing is pending or all of it is hidden. |
| AgentLoops.AgentLoop.DispatchTurn | agent_loop.go:80-100 | The batch is held, or every use of it is settled; the run ends with the empty reason exactly on a log with hidden pending uses, which takes a missing runner or a rogue outside. |
| AgentLoops.HiddenIsCovered | agent_loop.go:89-92 | Such a log is one that is ready although uses are pending, and live compacts cover all of these. |
| AgentLoops.HidingLogHides | agent_loop.go:161-164 | A log of three events is one. |
| AgentLoops.StopLeavesPending | agent_loop.go:93-96 | After an answer that stopped for its tools a sound log has a pending use. |
| AgentLoops.ReusedWhilePending | agent_loop.go:697-717 | A well-formed answer to that log makes one id pending twice. |
| AgentLoops.ScanApprovals | agent_loop.go:117-133 | Finds an open request exactly if the log awaits approval, and a resolution exactly if some approval was resolved without a result. |
| AgentLoops.AgentLoop.Turns | agent_loop.go:70-105 | The turn loop: bounded provider calls, at least one a turn if all turns are taken, each with its own rendered request; reasons that describe the log; errors that have their cause; one turn and one call if the provider's answer does not stop for tools and the outside is calm. |
| AgentLoops.AgentLoop.Run | agent_loop.go:41-106 | For every behaviour of the outside: each provider call saw a ready log and its own rendered request; at most max turns times max attempts calls; no tool handed out twice; a blocked session is left unchanged and no provider is called; every error has its cause in what the outside did or in the log; every reason says what the log shows, the empty one that pending uses are hidden, which no disciplined session reaches unless the outside is rogue or reckless. On a ready log with nothing pending, with a calm outside and storage that works, an answer that does not stop for tools is asked for once, enters the log closed, and ends the run. |
| Outcomes.AnsweredTurn | agent_loop.go:261-302 | If every call is given the same well-formed answer, which does not stop for tools, and the outside is calm, the first turn makes one call, appends exactly that answer, closed, and ends the run with `end_turn`, or `incomplete_tool_batch` if the answer holds uses. |
| AgentLoops.CalledWithNothingPending | agent_loop.go:261-302 | If the provider was called on a ready log and only quiet appends followed, nothing is pending, so its answer may be appended under the strict discipline. |
| Approval.UnresolvedToolUse | approval.go:111-127 | Succeeds exactly for a pending use, and tells an unknown id from an answered one. |
| Approval.ApproveToolUse | approval.go:51-72 | Records the approval, runs exactly the last use of that id, once and past the hooks, and ends with the result of that run; every refusal changes nothing. |
| Approval.DenyToolUse | approval.go:74-93 | Records the denial and the rejection result and runs nothing; every refusal changes nothing. |
| Lives.EveryLifeIsSafe | agent_loop.go:41-106 | Over any sequence of runs, approvals, denials, user messages and strategies: every provider call saw a ready log; the log stays sound unless the outside is rogue; and no tool use reaches its handler twice unless storage failed or an id was used again while pending, which a sound log excludes. |
| Lives.OrderlyLivesStayDisciplined | agent_loop.go:108-168 | Unless the outside was rogue or reckless, every log in the life of a session is disciplined. |
| Lives.EveryCallIsOrderly | agent_loop.go:347-380 | Every provider call in such a life saw a disciplined log with nothing pending; if that was never compacted, its request has each result right after its use exactly if no answer was interrupted. |
| Lives.NewSessionsAreOrderly | session.go:43-45 | All of this holds of every session that starts empty, on the sole condition that the outside kept the rules. |
| Lives.StrategyMoves | strategies.go:894-933 | A strategy taking strict steps is one of the moves such a sequence may contain. |
| Projection.Project | projection_anthropic.go:22-102 | The grouping loop computes the messages of the effective transcript: roles alternate, no message is empty, exactly a single text is plain, and the messages one after the other hold exactly what each event renders, in order: user, summary and non-empty assistant text unchanged, a use with its name and arguments, a result with its error, marked as one, or else its output. |
| Projection.RequestIsUnique | projection_anthropic.go:22-63 | There is one such request for a transcript only. |
| Projection.Finalize | projection_anthropic.go:195-202 | A message keeps role and blocks, and becomes plain text exactly if it is a single text block. |
| Projection.Translate | projection_anthropic.go:65-102 | An event contributes at most one block, exactly the one it renders and under its role; user-side events and tool uses always contribute one. |
| Projection.NothingIsLost | projection_anthropic.go:22-48 | Roles alternate strictly, no message is empty, and the messages hold exactly the translated blocks in order. |
| Projection.GroupingIsUnique | projection_anthropic.go:22-48 | There is only one such grouping. |
| Projection.ProjectPrepared | integrity.go:88-98 | A prepared transcript is rendered as it is: the request says exactly what its events render. |
| Projection.ResultsFollowTheirUses | projection_anthropic.go:22-102 | In every disciplined, compaction-free, ready log the result of each tool use stands in the message right after the one with the use, exactly if no answer was interrupted. |
| Streams.SortKeys | provider_stream.go:501-505 | Block numbers in ascending order, from any map order. |
| Streams.JoinSpells | provider_stream.go:282-282 | Joined text is its pieces one after the other: there are offsets between which each piece stands. |
| Streams.Announce | provider_stream.go:498-514 | The end of a turn, then the assistant message, then its uses in order, and nothing else. |
| AnthropicStreams.AnthropicStream.Data | provider_stream.go:320-464 | Unless a block number is reused, a frame is accepted exactly if the protocol allows it after the frames so far; only observations are emitted. |
| AnthropicStreams.AnthropicStream.Complete | provider_stream.go:488-515 | Succeeds exactly after the stop frame, and only then emits durable events, the assistant message first; its text is the frames' text pieces in order, and what the observers were shown. |
| AnthropicStreams.AdmitsIffLegal | provider_stream.go:320-474 | The parser's own checks amount to the rules stated on the history of frames. |
| AnthropicStreams.NextFits | provider_stream.go:320-464 | After every accepted frame the parser's state is the specified function of the frames, however blocks interleave. |
| AnthropicStreams.AnswerIsRight | provider_stream.go:498-514 | The answer is the frames' text in order with the stop reason and the counts given last, then one use per tool block in the order of the numbers, with the arguments its own pieces spell, one after the other. |
| AnthropicGrammar.AcceptedIffGrammatical | provider_stream.go:320-515 | What the parser accepts is exactly the language: one start, one reason, one stop, everything else in between, bracketed blocks, readable arguments. |
| OpenAIStreams.OpenAIStream.Data | provider_stream.go:580-647 | A frame is accepted exactly if it is legal after the frames so far; only observations are emitted. |
| OpenAIStreams.OpenAIStream.HandleCalls | provider_stream.go:649-687 | Call pieces are accepted exactly if arguments follow id and name, and fold per call number. |
| OpenAIStreams.OpenAIStream.EndTools | provider_stream.go:630-644 | In any map order, the calls end exactly if each has an id, a name and readable arguments. |
| OpenAIStreams.OpenAIStream.Finish | provider_stream.go:689-713 | Succeeds exactly after finish reason and sentinel; the answer is the frames' text in order with the stop reason and the counts given last, then one use per call number with the id and name given last and the arguments its pieces spell; the text is what the observers were shown. |
| OpenAIStreams.ToldFits | provider_stream.go:651-684 | One more call piece changes its own call only. |
| OpenAIStreams.AcceptedIffGrammatical | provider_stream.go:580-713 | What the parser accepts as complete is exactly the language: chunks, of which one gives a finish reason, content and calls up to it, arguments after id and name, every call complete there, and the sentinel as the last frame. |
| GeminiStreams.GeminiStream.Data | provider_stream.go:746-809 | A frame is accepted exactly if it is legal after the frames so far; only observations are emitted. |
| GeminiStreams.GeminiStream.Finish | provider_stream.go:811-826 | Succeeds exactly after a finish reason; the answer is the text of all parts in order with the stop reason and the counts given last, then one use per call in order, numbered; the text is what the observers were shown. |
| GeminiStreams.AcceptedIffGrammatical | provider_stream.go:746-826 | What the parser accepts as complete: chunks of legal parts, of which the last one and no other gives a finish reason. |
| GeminiStreams.StopOf | provider_stream.go:828-841 | Three kinds of finish reason are named, every other is `other`, and none is taken as a stop for tools. |
| GeminiStreams.DecimalsNumber | provider_stream.go:778-778 | The ids within one stream are distinct and not empty. |
| GeminiStreams.StreamedCallsNeverRun | provider_stream.go:828-841 | A streamed answer is well-formed but never stops for tools, so its calls are closed with errors. |
| GeminiStreams.SoundIffNumbersUnused | provider_stream.go:778-778 | Appending a streamed answer keeps a sound log sound exactly if none of the numbers it gives its calls is used in it. |
| GeminiStreams.SecondAnswerReusesID | provider_stream.go:778-778 | After one streamed answer with calls, a second makes the log unsound for good, whatever happens in between and afterwards. |
| StreamDriver.StreamSSE | provider_stream.go:159-219 | Every stream ends with exactly one of turn-done and turn-failed; durable events follow turn-done only, the assistant message first; it succeeds exactly for a complete stream of the provider, the answer is what that stream means, and its text is, piece by piece, what the observers were shown. |
| KeyOrder.CompareUtf16 | jcs.go:274-293 | The comparison loop decides the order of UTF-16 code units, and equality exactly for equal keys. |
| KeyOrder.KeyLessIff | jcs.go:274-293 | A key comes first exactly if, where the code units of the two first differ, it has the smaller one or has ended. |
| KeyOrder.KeyOrderIsTotal | jcs.go:274-293 | Of two distinct keys exactly one comes first. |
| KeyOrder.KeyOrderIsTransitive | jcs.go:274-293 | The order of keys is transitive. |
| KeyOrder.Utf16IsInjective | jcs.go:275-276 | Distinct strings have distinct encodings. |
| KeyOrder.SortedKeys | jcs.go:145-154 | The keys of a map, strictly sorted, whatever order they come in. |
| KeyOrder.SortedListingIsUnique | jcs.go:145-154 | There is only one sorted listing of a set of keys. |
| Jcs.WriteJcs | jcs.go:69-171 | Writes exactly the canonical text, and refuses exactly values with a part that has none. |
| Jcs.WriteString | jcs.go:243-272 | The string loop writes exactly the literal. |
| Jcs.EscapesAreCanonical | jcs.go:243-272 | Every character is written as its short escape where there is one, as lower-case hexadecimal if it is another control character, and as it is otherwise. |
| Jcs.StringParses | jcs.go:243-272 | Every literal is read back as the string it came from. |
| Jcs.CanonicalNumberIsDecimal | jcs.go:173-185 | Every spelling JSON has for an integer becomes the one decimal of its value. |
| Jcs.ParsePrint | jcs.go:69-171 | A parser reads every printed value back, with exactly what followed it left over. |
| Jcs.PrintIsInjective | jcs.go:69-171 | Equal texts mean equal values. |
| Jcs.Canonicalize | jcs.go:20-42 | The canonical text without the excluded top-level keys. |
| Jcs.SameTextIffSameValue | jcs.go:20-42 | Two values get the same text exactly when they are equal, excluded keys aside. |
| Surrogates.ReadHex4 | jcs.go:342-361 | Reads four hexadecimal digits exactly if they are there. |
| Surrogates.HexDigitIs | jcs.go:342-361 | Sixteen digits, the letters among them in either case. |
| Surrogates.ValidateSurrogateEscapes | jcs.go:295-340 | The index loop rejects exactly the inputs in whose literals a recursive tokenizer finds a lone surrogate escape. |
| Surrogates.PairedIffNoLone | jcs.go:323-336 | Reading tokens pair by pair finds exactly the lone surrogates. |
| Surrogates.TokensStand | jcs.go:295-340 | The tokens of a text stand for it, one after the other. |
| Delegation.ValidateChildLink | delegation_projection.go:190-201 | A link holds exactly if the child exists and names its parent and spawn; a child that does not exist is told from one that disagrees. |
| Delegation.SpawnsInOrder | delegation_projection.go:203-211 | The spawns of a session are exactly its spawn events, in log order. |
| Delegation.Traversal.CollectDescendants | delegation_projection.go:165-188 | Terminates on every store, returns what the traversal function says, and restores the path. |
| Delegation.DistinctIffSpawnedOnce | delegation_projection.go:165-188 | If keys are session ids, nobody is collected twice exactly if no collected session spawned a child twice. |
| Delegation.CollectedAreDistinct | delegation_projection.go:165-201 | So nobody is, if no log repeats a spawn id. |
| Delegation.CollectedIffDescends | delegation_projection.go:165-188 | Exactly the root and what descends from it is collected. |
| Delegation.SucceedsIff | delegation_projection.go:165-201 | A traversal succeeds exactly if the root exists, all links below hold at both ends, and no descendant spawned the root. |
| Delegation.Traversal.DelegationTree | delegation_projection.go:26-74 | Terminates on every store and returns what the tree function says. |
| Delegation.StatusForSpawn | delegation_projection.go:213-237 | The one result's status, else the last status, else open; none if there are several results. |
| Delegation.StatusMeans | delegation_projection.go:213-237 | No status exactly if two results are recorded; the status of the one result; without a result the one reported last, or `open`. |
| Delegation.TreeIsCollected | delegation_projection.go:26-74 | The tree holds exactly the collected sessions in the same order, and exists unless some spawn has several results. |
| Delegation.TreeMirrors | delegation_projection.go:26-74 | Every node of a tree has one branch per spawn of its session, in order, with the spawn's id, how it stands, and the tree of the child it names. |
| Delegation.DescendantUsage | delegation_projection.go:130-163 | On every store, adds up the usage of the collected sessions. |
| Delegation.UsageCountsEachOnce | delegation_projection.go:130-163 | The total is the sum over the set of descendants, each once, if none of them spawned a child twice. |
| Delegation.RepeatedTokensCountAgain | delegation_projection.go:137-155 | The total is what the models reported plus whatever results repeat, and what the models reported exactly if no collected result carries tokens. |
| RateLimit.RateLimiter.Admit | tool_middleware.go:73-88 | Admits or refuses as the run of all requests so far says. |
| RateLimit.RefusedIffFull | tool_middleware.go:73-88 | A request is refused exactly if no share is granted, or if the open window, which began less than a minute ago, has admitted its full share. |
| RateLimit.NoWindowOverflows | tool_middleware.go:73-88 | No window ever admits more than its share. |
| RateLimit.AtMostTwicePerMinute | tool_middleware.go:73-88 | In any minute, both ends included, at most twice the share is admitted. |
| RateLimit.TwiceIsReached | tool_middleware.go:73-88 | That bound is met for every share. |
| RingBuffers.RingBuffer.WriteString | bash_session.go:517-527 | Keeps exactly the last `max` bytes of everything written. |
| RingBuffers.TailOfTail | bash_session.go:522-526 | Cutting at every write or once at the end makes no difference. |
| RingBuffers.RingBuffer.StringFrom | bash_session.go:541-553 | Everything written from the offset on, as far as it is kept. |
| RingBuffers.RingBuffer.Truncated | bash_session.go:555-559 | Exactly whether more than a positive `max` was written. |

## Left out

- HTTP, server-sent-event line framing, JSON decoding: a data block is decoded by an arbitrary function, argument text by another.
- SQL and file storage encodings: the adapter is the memory adapter with failures before the write, after it, lost rows and misnumbered rows.
- The SHA-256 hash of the effective transcript is taken to be injective: the model compares transcripts.
- Freshness of provider tool ids is a hypothesis (`rogue`), since closing a step checks duplicates only inside the step.
- MarkerTail: it replaces a raw prefix without a pairing filter, so it is one of the reckless outside compactions; the loop then fails closed.
- Hooks and handlers append events and answer; they do not enter the loop again, clear the latch or register other hooks while they run.
- Cancellation of a running call, timing, observation subscribers and metrics; backoff only as a number.
- Exactly-once execution when storage fails between tools: dispatch does not look at the latch there, and the documentation disclaims it.
- Agreement of payloads after binding to a store that already holds rows: binding compares number and type only.
- Backfilling with an adapter that loses rows: the original then indexes into an empty answer; the model goes on with what was stored.
- Tools.Runner.Spawn: does not build the child's own session with its task and delegation chain; it records the child and answers the use.
- A negative `KeepRecent`, and summary texts (arbitrary render functions).
- Strategies.TokenMarkerTail.OnPreProjection: states its result for sound logs only, as the pair-safe range is specified for these; other logs stop the run before any provider call.
- Strategies.TokenMarkerTail.CompactAbove: for sound logs only, likewise.
- Strategies.SummaryTail.OnPreProjection: for sound logs only, likewise.
- Strategies.SummaryTail.Summarize: for sound logs and the range the strategy chooses.
- Strategies.EstimateTokens: counts the characters of the modelled fields.
- Strategies.ToolOutputCap.OnPreProjection: compares the limit with characters, which stand for bytes.
- Projection.Translate: media, reasoning and carrier blocks are not modelled.
- Jcs.WriteJcs: floating-point numbers and keys with invalid UTF-8 are not values of the model.
- Jcs.Canonicalize: starts from a decoded value; decoding is not modelled, and the surrogate check of the raw text stands beside it.
- Delegation.Traversal.DelegationTree: a branch keeps spawn, status and subtree, not task, join policy, metadata, result and error.
- Projections for other providers; adjacency of results after compaction, where summaries can split a batch.
- AnthropicStreams.AnthropicStream.Data: says which frames are accepted only while no block number is opened twice; reopening one replaces or revives its tool state.
- Floating-point numbers, invalid UTF-8 in object keys, and byte encodings in canonical JSON; invalid UTF-8 in values is the value `Refused`.
- Delegation.UsageCountsEachOnce: counts are natural numbers, and keys are taken to be session ids.
- DescendantTimeline and OpenChildren: sorting and filtering of what the traversal returns.
- The clock of the rate limiter is taken to be non-decreasing.
