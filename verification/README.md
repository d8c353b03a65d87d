# kn9t, verified cores

kn9t is an agent server: a ReAct loop drives a language-model provider and a set of tools, appends
everything durable to a per-session log, and lets clients and plugins attach to a running session.
This project models the parts of it whose behaviour is hard to see from one body, and proves what they
promise.

- **The ReAct loop** (`ReactModel.dfy`, `ToolBatch.dfy`, `React.dfy`, `Transcript.dfy`). Turns, provider
  attempts with the truncation ladder and compaction re-plans, and tool batches run in place on a store
  log. Provider, tools, hooks, approver, compactor, store and cancel flag are an `Oracle`: arbitrary
  functions of a tick that grows at every consultation. Whatever the source calls without a guard
  (provider, compactor, approver, and a tool on the loop's own thread) may also panic, and the panic then
  passes through the run. The log a run writes is described by a grammar of turns.
- **Bus and attach** (`Bus.dfy`, `Attach.dfy`). Bounded drop-oldest rings under one broadcast bus, and the
  subscribe, snapshot, drain sequence of an attaching client, with commits, echoes and transient events
  of other threads between any two of its steps.
- **Plugin calls** (`PluginModel.dfy`, `PluginDemux.dfy`, `PluginHost.dfy`). Callers, one reader thread,
  the plugin and the per-call bounded channels as a state machine over single steps; the caller's side
  as methods that take their own steps among arbitrary steps of everybody else.
- **Chunk assembly** (`Keyed.dfy`, `Assembly.dfy`, `ToolIndex.dfy`). The streaming accumulator against a
  per-index reading of the stream, and the plugin SDK's call numbering through the host's decoding back
  to the assembled message.
- **Forks and cost** (`Fork.dfy`, `Cost.dfy`, `Money.dfy`). Filtering and renumbering of a session's log,
  the projected transcript of a fork, frozen inherited cost, and the integer price arithmetic.
- **Replay fixtures** (`Scan.dfy`, `Sse.dfy`, `Splitters.dfy`, `Fixture.dfy`). Segmented reading, the two
  event-stream splitters and when they agree, and the fixture printer and parser.
- **Algorithms** (`Glob.dfy`, `Radix.dfy`, `Civil.dfy`, `Ulid.dfy`, `Progress.dfy`, `Png.dfy`). Wildcard
  matching, civil dates, identifier encoding, the UTF-8-safe progress tail, PNG stream repair.

`Core.dfy` holds the shared vocabulary. `dafny verify dfyconfig.toml` checks everything.

## What turned out not to hold as one might expect

- A tool batch does not always answer every call. Only worker threads turn a panic into an error result;
  the approver and a tool on the loop's own thread are called without a guard
  (`crates/kn9t-react/src/exec.rs:566`, `crates/kn9t-react/src/exec.rs:698`), so their panic takes the
  batch and the run along and leaves the calls open although the store is healthy
  (`ToolBatch.PanicLosesBatch`, `ToolBatch.PanickyIsLost`). `React.ReactLoop.RunToolBatch` says exactly
  when a batch answers, `Transcript.RunLogPaired` exactly when a log is left open.
- A batch therefore agrees with running its calls one by one exactly when no tool panics on a thread, or
  when some panic elsewhere loses both (`ToolBatch.ParallelIsOneByOneExactly`).
- The gap flag of an attach is exact for echoes published in sequence order. An append releases the
  store connection before its echo is published (`crates/kn9t-store/src/session.rs:87-94`), so two
  appenders can publish in the other order; then the flag goes up although nothing was lost
  (`Attach.SwappedEchoesFlagAGap`), and `Attach.GapExactly` says for any order when it does.
- A fork past its origin's head is accepted, and its inherited cost can then differ from what the origin
  later shows up to that point; `Cost.ForkTracksOriginExactly` says exactly when.
- The final cast of `cost_micros` to 64 bits can wrap; `Money.CostExactlyWhenItFits` says exactly when.
- A compaction range whose endpoint is not a copied event keeps the old number in a fork and can take
  another message with it (`Fork.UncopiedEndpointTakesAnotherMessage`); `Fork.RangeKeptExactly` says, by
  which events are copied around the endpoints, exactly when a range still takes what it took. The
  planner's ranges begin and end on message rows (`crates/kn9t-store/src/plan.rs:182-204`), so they do.
- The two event-stream splitters agree on every recorded body, not on every body
  (`Sse.DecodersDifferWithoutTheSpace`). For bodies with at most one data line per event
  `Splitters.SplittersAgreeExactly` says exactly when they do; an event joined from several lines is never
  read alike (`Splitters.JoinedEventsDiffer`).
- A comment in `crates/kn9t-react/src/exec.rs:119-123` speaks of a Compaction usage record on cancel; the
  code records none inside the compaction and one Main record for the turn. The model follows the code.

## Model

| member | source | states |
|---|---|---|
| React.ReactLoop.Run | crates/kn9t-react/src/turn.rs:28-88 | for every environment, the events a run appends are whole turns of the grammar followed by a prefix of one more, cut short only by a failing store or by a panic, which then leaves the last turn without an answer or between its usage and its tool results; without unguarded panics no run crashes; with `max_turns = n` at most n turns; streams, compactor calls and lifecycle events are bounded per turn, and each run that ends, unless by a panic, closes its last turn once |
| React.ReactLoop.RunTurn | crates/kn9t-react/src/turn.rs:52-61 | one announced turn under the caller's cancel token or a fresh one writes a prefix of one grammatical turn |
| React.ReactLoop.EndTurn | crates/kn9t-react/src/turn.rs:90-93 | finishing is announced before the end, both once |
| React.ReactLoop.ExecuteTurn | crates/kn9t-react/src/turn.rs:95-235 | what one turn appended is a valid turn, or, after a store failure or a panic, a prefix of one; a turn that continues had tool calls or follow-ups, a cancelled one ends aborted; at most `truncation_attempts + max_context_replans + 1` streams and `max_context_replans` compactor calls; an empty ladder panics at the first truncation that is retried |
| React.ReactLoop.FirstReminders | crates/kn9t-react/src/turn.rs:101-112 | the one-shot notice is consumed once, initial steering only on the first turn |
| React.ReactLoop.AttemptLoop | crates/kn9t-react/src/turn.rs:112-172 | terminates; every further stream spends a unit of the truncation or of the re-plan budget; each stream carries exactly the reminders of the truncations before it; committed compactions stay within the budget |
| React.ReactLoop.AttemptRound | crates/kn9t-react/src/turn.rs:115-171 | one attempt adds at most one stream and one compaction to what the turn has so far |
| React.ReactLoop.OneAttempt | crates/kn9t-react/src/exec.rs:68-215 | an overflow always costs a unit of the re-plan budget, a compactor call too; a second compaction demand ends the turn; the request sent is the messages of a plan without compaction demand, as the hook left them, with the reminders last; an answer has assistant role and parseable calls; an abort implies the cancel flag |
| React.ReactLoop.ProviderAttempt | crates/kn9t-react/src/exec.rs:218-300 | one stream per call, for the given messages followed by the reminders; outcomes are classified so that only a fired cancel yields an abort; a panic of the provider passes through |
| React.ReactLoop.RunCompaction | crates/kn9t-react/src/exec.rs:302-393 | commits Compacted, then a handoff that cites only tool calls of the replaced span, and nothing when it is cancelled, missing, failed, panicking or invalid |
| React.ReactLoop.FinishAbort | crates/kn9t-react/src/turn.rs:119-124 | an aborted stream leaves exactly one Main usage record |
| React.ReactLoop.FinishAnswer | crates/kn9t-react/src/turn.rs:174-234 | assistant message, its usage, then follow-ups or exactly one Tool message whose ids are the call ids in order; it unwinds, after assistant message and usage, exactly when both were committed, tools are asked for, and their batch does not answer |
| React.ReactLoop.FinishPlain | crates/kn9t-react/src/turn.rs:191-205 | without calls, follow-ups are appended unless a hook stops the run, and decide whether it continues |
| React.ReactLoop.FinishTools | crates/kn9t-react/src/turn.rs:207-234 | the tool message is appended, also when cancelled, exactly unless the batch unwinds or the store fails; steering only if not cancelled |
| React.ReactLoop.AppendMessages | crates/kn9t-react/src/turn.rs:201-203 | a failing store leaves exactly a prefix of the messages |
| React.ReactLoop.RunToolBatch | crates/kn9t-react/src/exec.rs:400-530 | a batch answers exactly if the approver answered whenever asked and every tool reached on the loop's own thread did; then there is one result per call with its id, in call order, and exactly the calls launched or reached were started; a call is started at most once and only with the arguments let through while the batch was planned; in a steady environment without cancel the outcome is `InBatch` |
| React.ReactLoop.SpawnParallel | crates/kn9t-react/src/exec.rs:429-475 | exactly the authorized calls of parallel-safe tools are launched, in call order, up to a cancel |
| React.ReactLoop.RunSequential | crates/kn9t-react/src/exec.rs:477-485 | the other calls are answered in order, each authorized one run at most once, up to a tool that panics: the pass answers exactly if none does |
| React.ReactLoop.Collect | crates/kn9t-react/src/exec.rs:487-519 | every launched call is answered: by its worker's value, by an error for its panic, or, only once cancelled, by an error for its silence |
| React.ReactLoop.RecvParallelResult | crates/kn9t-react/src/exec.rs:40-63 | a value is the worker's, a hang-up is a panic, abandoning implies a fired cancel |
| React.ReactLoop.ExecuteOne | crates/kn9t-react/src/exec.rs:538-590 | a refusal, a fired cancel and an unknown tool are answered with the call's id; otherwise the tool runs, and its output as the hook left it is the answer, never empty; its panic is none |
| React.ReactLoop.Authorize | crates/kn9t-react/src/exec.rs:596-668 | computes the verdict of `ToolBatch.Judge`, tick by tick |
| ToolBatch.JudgePermits | crates/kn9t-react/src/exec.rs:596-708 | a call may run only when enabled, not blocked when asked, with object arguments, and on the word of the hook or of the approver it deferred to |
| ToolBatch.PlanPermitted | crates/kn9t-react/src/exec.rs:408-411 | whatever a planned batch may run was let run in the ticks of its planning |
| React.ReactLoop.PlanAll | crates/kn9t-react/src/exec.rs:408-411 | every call is authorized before any runs, unless the approver panics |
| ToolBatch.ParallelIsOneByOneExactly | crates/kn9t-react/src/exec.rs:400-530 | in a steady environment, parallel execution gives what running the calls one by one gives exactly if no tool panics on a thread, or some panic off the threads loses both; always if one by one gets through |
| ToolBatch.SteadyBatch | crates/kn9t-react/src/exec.rs:400-530 | in a steady environment without cancel, tick and launch order play no part: the batch is its calls, each on its own, with panics on threads turned into errors |
| ToolBatch.PanicLosesBatch | crates/kn9t-react/src/exec.rs:566 | a registered, not parallel-safe tool that panics on an uncancelled, authorized call loses the batch, whatever else happens |
| ToolBatch.PanickyIsLost | crates/kn9t-react/src/exec.rs:566 | with a store that commits everything and a policy that allows everything, one such call is enough |
| React.ReactLoop.Append | crates/kn9t-react/src/hooks.rs:24-33 | the log grows by the event exactly if the store committed it |
| React.ReactLoop.RecordUsage | crates/kn9t-react/src/hooks.rs:35-62 | the record carries the run's model and the cost of its own tokens and price |
| React.ReactLoop.HookBeforeToolCall | crates/kn9t-react/src/hooks.rs:83-100 | a failing hook denies |
| React.ReactLoop.HookAfterToolCall | crates/kn9t-react/src/hooks.rs:102-120 | a failing hook leaves the content as it was |
| ReactModel.EnsureNonEmpty | crates/kn9t-react/src/exec.rs:733-750 | a result never consists of empty text only |
| Transcript.RunLogPaired | crates/kn9t-react/src/turn.rs:174-234 | over whole runs no tool call is answered wrongly, and the log is left open exactly when it ends after an answer that asks for tools and before its results |
| Transcript.TurnOpenExactly | crates/kn9t-react/src/turn.rs:174-234 | a prefix of a turn is open exactly between such an answer and its results |
| Transcript.TurnClosed | crates/kn9t-react/src/turn.rs:174-234 | a whole turn leaves no call open |
| Transcript.ClosedHasNoOrphan | crates/kn9t-store/src/plan.rs:93-97 | among the messages of such a log, before any compaction is projected away, every call has a result |
| Transcript.OneUsagePerRound | crates/kn9t-react/src/turn.rs:174-190 | every turn that went round again was charged exactly once |
| Transcript.TurnUsage | crates/kn9t-react/src/turn.rs:119-190 | a turn has one usage record, or none if it produced no answer |
| Bus.Ring.Push | crates/kn9t-core/src/bus.rs:29-37 | the ring holds the newest events up to its capacity |
| Bus.Ring.TryRecv | crates/kn9t-core/src/bus.rs:70-74 | takes the oldest event, if any |
| Bus.Broadcast.Subscribe | crates/kn9t-core/src/bus.rs:111-122 | a new empty ring of capacity at least one joins the subscribers |
| Bus.Broadcast.Publish | crates/kn9t-core/src/bus.rs:126-135 | every remaining subscriber gets the event, dropped ones are pruned, order and other rings stay |
| Bus.RemainingSound | crates/kn9t-core/src/bus.rs:126-135 | pruning removes exactly the dropped subscriptions and keeps the rest distinct |
| Attach.BuildAttachPrelude | crates/kn9t-server/src/sse.rs:112-160 | under any interleaving the frames are the replay of one snapshot, the message in flight, then the drain of what the ring handed over; they are in order, without repetition and with stored bodies, complete from the cursor to the reported point, and the flag means that the next echo was evicted |
| Attach.AttachInOrder | crates/kn9t-server/src/sse.rs:112-160 | durable frames are strictly increasing, each with its stored body |
| Attach.AttachHasNoSilentHole | crates/kn9t-server/src/sse.rs:90-104 | every number after the cursor up to the reported point is delivered; without the flag nothing else is; if nothing above the head was evicted there is no gap and nothing is missing |
| Attach.GapMeansEviction | crates/kn9t-server/src/sse.rs:94-104 | the flag means exactly that something beyond the next number was delivered, and then that next echo was evicted; above the watermark exactly the evicted echoes are missing |
| Attach.GapExactly | crates/kn9t-server/src/sse.rs:134-152 | for echoes in any order, the flag stays down exactly when those above the watermark are the next numbers in order |
| Attach.SwappedEchoesFlagAGap | crates/kn9t-store/src/session.rs:87-94 | two echoes published in the other order raise the flag though both are delivered |
| Attach.DrainForwardsTransients | crates/kn9t-server/src/sse.rs:150-151 | transient events all pass, in order |
| Attach.DrainInOrder | crates/kn9t-server/src/sse.rs:132-152 | draining increasing echoes yields a gapless run, then whatever follows the first hole |
| Attach.DrainForwards | crates/kn9t-server/src/sse.rs:136-151 | exactly the durable events above the watermark pass, in order |
| Attach.EchoesAccounted | crates/kn9t-server/src/sse.rs:94-104 | run, hole and rest against the evicted echoes |
| Attach.Session.Interfere | crates/kn9t-store/src/session.rs:20-96 | other threads' commits, in-order echoes and notes keep log, ring and echo accounting consistent |
| Attach.Session.Deliver | crates/kn9t-core/src/bus.rs:29-37 | a publish into a full ring accounts for the echo it evicts |
| Attach.Session.TryRecv | crates/kn9t-core/src/bus.rs:70-74 | a poll accounts for the echo it takes; an empty ring means every published echo left it |
| Attach.PublishKeeps | crates/kn9t-core/src/bus.rs:29-37 | the ring's echoes stay consecutive up to the last published, with stored bodies |
| Attach.TakeKeeps | crates/kn9t-core/src/bus.rs:70-74 | taking the oldest event keeps ring, log and echo accounting consistent |
| Attach.Replay | crates/kn9t-store/src/db.rs:217-258 | the snapshot after a cursor is exactly the numbers after it, with stored bodies |
| PluginDemux.CallsGetTheirOwnAnswer | crates/kn9t-plugin/src/host.rs:181-193 | in every run, a call that succeeds handed over exactly the chunks the plugin sent for its id before the first answer, in order, and returns that answer |
| PluginDemux.NoCrossTalk | crates/kn9t-plugin/src/host.rs:181-193 | whatever the outcome, a caller is handed only messages for its own id |
| PluginDemux.NoLostReply | crates/kn9t-plugin/src/host.rs:668-676 | an answer read while its caller waits is in the caller's channel |
| PluginDemux.AnswerBeforeRegistrationIsLost | crates/kn9t-plugin/src/host.rs:668-676 | an answer read before the registration is dropped and the caller waits on an empty channel |
| PluginDemux.RunKeepsInv | crates/kn9t-plugin/src/host.rs:144-193 | the routing invariant over every interleaving of callers, reader and plugin |
| PluginDemux.StepKeepsCall | crates/kn9t-plugin/src/host.rs:677-699 | every single step keeps each call's account of what was read, queued and handed over |
| PluginDemux.ReadKeepsCall | crates/kn9t-plugin/src/host.rs:181-193 | a line is queued for its call in order, or dropped without disturbing what was consumed |
| PluginDemux.ReceiveKeepsFaithful | crates/kn9t-plugin/src/host.rs:793-809 | taking a message off a channel keeps the account |
| PluginHost.Host.CallStreaming | crates/kn9t-plugin/src/host.rs:756-768 | among arbitrary other activity, success means exactly the plugin's chunks for this id and its first answer; an unhealthy connection is refused untouched |
| PluginHost.Host.BeginCall | crates/kn9t-plugin/src/host.rs:677-699 | registers before sending; fails exactly when unhealthy or when the write failed |
| PluginHost.Host.WaitOnChannelCancellable | crates/kn9t-plugin/src/host.rs:824-860 | the outcome is the call's, the chunks those it was handed; a call that starts cancelled hands over nothing |
| PluginHost.Host.WaitOnChannel | crates/kn9t-plugin/src/host.rs:784-820 | the same without a cancel flag |
| PluginHost.Host.RecvTimeout | crates/kn9t-plugin/src/host.rs:800-809 | a chunk extends what was handed over, an answer or a poisoned connection ends the call |
| Assembly.Assemble | crates/kn9t-provider-core/src/assemble.rs:27-159 | the one-pass loop computes the fold of the chunks before the first stream error, and mirrors its deltas live |
| Assembly.AssemblyIsReference | crates/kn9t-provider-core/src/assemble.rs:38-150 | the accumulated message is the per-index reading of the stream: joined text, joined thinking, calls with the joined fragments that came after their start; fragments before a start are dropped |
| Assembly.InterleavingIrrelevant | crates/kn9t-provider-core/src/assemble.rs:27-159 | equal streams per kind and index assemble to equal results |
| Assembly.FinishIsReference | crates/kn9t-provider-core/src/assemble.rs:95-159 | message, usage and stop follow from the streams alone |
| Assembly.TruncatedExactly | crates/kn9t-provider-core/src/assemble.rs:111-129 | a complete stream is Truncated exactly when some call's arguments do not parse |
| Assembly.LiveTextIsFinalText | crates/kn9t-provider-core/src/assemble.rs:41-101 | the live text deltas, joined per index, are the text of the final message |
| Assembly.ToolsKept | crates/kn9t-provider-core/src/assemble.rs:63-84 | an index's accumulator holds its starts and the verbatim join of the fragments after the last of them |
| Keyed.StableSortCorrect | crates/kn9t-provider-core/src/assemble.rs:96-111 | the sort orders by index and permutes nothing within one |
| ToolIndex.SdkToMessage | crates/kn9t-plugin-sdk/src/ctx.rs:184-217 | any interleaving of starts and deltas arrives as the calls in start order, each with its own fragments joined, after the joined text and thinking |
| ToolIndex.IndicesArePositions | crates/kn9t-plugin-sdk/src/ctx.rs:209-217 | distinct calls get distinct indices that never change: their position among the starts |
| ToolIndex.ChunkSender.GetOrAssignIdx | crates/kn9t-plugin-sdk/src/ctx.rs:209-217 | a known call keeps its index, a new one gets the next, counted modulo 2^32 |
| ToolIndex.ChunkSender.ToolUseStart | crates/kn9t-plugin-sdk/src/ctx.rs:184-193 | sends the start under the call's index |
| ToolIndex.ChunkSender.ToolUseDelta | crates/kn9t-plugin-sdk/src/ctx.rs:198-206 | sends the fragment under the call's index |
| ToolIndex.ChunkSender.TextDelta | crates/kn9t-plugin-sdk/src/ctx.rs:163-165 | sends the text without an index |
| ToolIndex.ChunkSender.ThinkingDelta | crates/kn9t-plugin-sdk/src/ctx.rs:169-175 | sends the thinking without an index |
| ToolIndex.ChunkSender.InputTokens | crates/kn9t-plugin-sdk/src/ctx.rs:220-222 | sends a body the host reads as usage |
| ToolIndex.Stream | crates/kn9t-plugin/src/remote_provider.rs:46-108 | the collected chunks are the decoded bodies without usage, then usage and stop; the first undecodable body fails the stream |
| ToolIndex.CallsArrive | crates/kn9t-plugin/src/remote_provider.rs:129-185 | index k carries exactly the k-th call: its start, then its own fragments |
| ToolIndex.TextsArrive | crates/kn9t-plugin/src/remote_provider.rs:133-150 | all text and thinking arrives under index 0, in order |
| Fork.ForkSession | crates/kn9t-store/src/fork.rs:136-228 | the loops compute the fork event followed by the remapped copies, project them as they go, and set the head to their number |
| Fork.ForkedIsCopies | crates/kn9t-store/src/fork.rs:164-223 | the fork is the images of exactly the copied kinds up to the fork point, in order |
| Fork.NewSeqMonotone | crates/kn9t-store/src/fork.rs:196-203 | renumbering keeps the order |
| Fork.EveryNumberUsed | crates/kn9t-store/src/fork.rs:196-203 | every number up to the head is some copied event's |
| Fork.RangeCoversImages | crates/kn9t-store/src/fork.rs:268-292 | a remapped range covers exactly the images of the copied events it covered |
| Fork.ForkWellFormed | crates/kn9t-store/src/fork.rs:136-228 | a fork's log is gapless from its fork event, with ranges between copied events |
| Fork.ForkOfFork | crates/kn9t-store/src/fork.rs:136-228 | forking a fork gives what forking the origin at the corresponding event gives, the fork event aside |
| Fork.ForkKeepsTranscript | crates/kn9t-store/src/project.rs:93-300 | a fork projects to exactly the messages its origin showed at the fork point, in the same order, through every compaction |
| Fork.SeqMapIs | crates/kn9t-store/src/fork.rs:199-203 | the map holds exactly the copied events' new numbers |
| Fork.UncopiedEndpointTakesAnotherMessage | crates/kn9t-store/src/fork.rs:280-284 | an endpoint that was not copied can make the fork lose a message the origin shows |
| Fork.RangeKeptExactly | crates/kn9t-store/src/fork.rs:268-292 | for any log and any range, the fork's range takes exactly the images of the copied events the origin's took if and only if: with nothing copied in it, fewer than `start` events are copied before the compaction; otherwise a start that is not copied has only copied events before it, and an end that is not copied has none after it |
| Fork.LandingIsMapped | crates/kn9t-store/src/fork.rs:280-284 | where an endpoint lands is where the fork's map sends it |
| Cost.RunKeepsInv | crates/kn9t-store/src/cost.rs:57-80 | in every run of creates, appends and forks the ancestor recursion is well founded |
| Cost.ApplyKeepsInv | crates/kn9t-store/src/fork.rs:22-131 | every operation keeps the session forest well formed |
| Cost.FamilyIsChainSum | crates/kn9t-store/src/cost.rs:57-80 | the family cost is the sum over the ancestor chain, which visits no session twice |
| Cost.EffectiveWithinFamily | crates/kn9t-store/src/cost.rs:19-53 | marginal never exceeds effective, effective never exceeds family |
| Cost.ForkCostFrozen | crates/kn9t-store/src/fork.rs:36-44 | after a fork, whatever runs next, the inherited charge stays the origin's sum at the fork point |
| Cost.ForkTracksOriginExactly | crates/kn9t-store/src/fork.rs:36-44 | it keeps equal to what the origin shows up to that point in every continuation exactly when the fork point was not past the head |
| Cost.ForkPastHeadDrifts | crates/kn9t-store/src/fork.rs:36-44 | past the head, one later record makes them differ by its cost |
| Money.CostExactlyWhenItFits | crates/kn9t-core/src/model.rs:93-100 | the recorded cost is the exact quotient exactly when that fits 64 bits |
| Money.IntermediatesFit | crates/kn9t-core/src/model.rs:94-98 | no 128-bit intermediate overflows |
| Money.CostCanWrap | crates/kn9t-core/src/model.rs:99 | full counters at the largest price wrap |
| Money.RoundingLoss | crates/kn9t-core/src/model.rs:93-100 | the sum of n floored costs is below the exact cost by less than n micros |
| Glob.WildcardMatch | crates/kn9t-core/src/toolspec.rs:84-122 | the greedy scan accepts exactly what the pattern means |
| Glob.MatchesPatterns | crates/kn9t-core/src/toolspec.rs:70-78 | accepts exactly when some pattern does |
| Glob.MatchesIsCuttable | crates/kn9t-core/src/toolspec.rs:81-83 | stars stand for any string exactly when the value can be cut along the star-separated parts |
| Glob.FloatingStep | crates/kn9t-core/src/toolspec.rs:106-118 | taking each middle part at its first occurrence loses no match |
| Glob.FloatingGrows | crates/kn9t-core/src/toolspec.rs:112-118 | leaving more of the value to the remaining parts never hurts |
| Civil.CivilCorrect | crates/kn9t-server/src/http_util.rs:90-114 | every timestamp gets a valid proleptic Gregorian date whose day number is its own, and a time of day that recomposes; its named intermediate values are typed as 64-bit integers |
| Civil.DateCorrect | crates/kn9t-server/src/http_util.rs:95-106 | the date of a day number has that day number |
| Civil.YearOfEraCorrect | crates/kn9t-server/src/http_util.rs:99-101 | the year-of-era formula leaves a day of the year in range, the 366th only in a leap year |
| Civil.YearAfterYear | crates/kn9t-server/src/http_util.rs:95-106 | the day count and the leap-year rule agree year by year |
| Civil.CivilOrder | crates/kn9t-server/src/http_util.rs:90-114 | the field tuple orders exactly by whole seconds |
| Civil.StringsSortChronologically | crates/kn9t-server/src/http_util.rs:84-113 | for years 0 to 9999 the string has the form of section 5.6 of RFC 3339 and sorts as the timestamps do |
| Civil.FourDigitYears | crates/kn9t-server/src/http_util.rs:108-109 | exactly the timestamps from year 0000 up to year 10000 print a four-digit year |
| Ulid.Mint | crates/kn9t-core/src/ids.rs:189-212 | the array loop writes the 26 digits of the 128-bit value |
| Ulid.UlidRoundTrip | crates/kn9t-core/src/ids.rs:157-212 | decoding gives back the 128 bits |
| Ulid.EncodeOrder | crates/kn9t-core/src/ids.rs:189-212 | string order is numeric order |
| Ulid.EarlierSortsFirst | crates/kn9t-core/src/ids.rs:189-201 | ids of different milliseconds sort by time whatever the random bits, the clock taken modulo 2^48 |
| Radix.DigitsOrder | crates/kn9t-core/src/ids.rs:203-207 | fixed-width digits compare as the numbers do |
| Radix.DigitsRoundTrip | crates/kn9t-core/src/ids.rs:203-207 | the digits read back to the number |
| Radix.DigitAt | crates/kn9t-core/src/ids.rs:204-207 | each digit is a shift and a mask |
| Radix.PaddedIsDigits | crates/kn9t-server/src/http_util.rs:108-113 | zero-padded decimal is fixed-width digits |
| Sse.SegmentedReader.constructor | crates/kn9t-provider-replay/src/sse.rs:26-49 | any offsets, unsorted, repeated or out of range, give segments that tile the body |
| Sse.SegmentedReader.Read | crates/kn9t-provider-replay/src/sse.rs:53-69 | a read delivers the next bytes, never across a segment end, and nothing only at the end |
| Sse.SseLines.Next | crates/kn9t-provider-replay/src/sse.rs:94-118 | the next line of what is pending, however it was segmented |
| Sse.DataEvents | crates/kn9t-provider-replay/src/sse.rs:126-153 | the events of the lines: data fields joined, closed by a blank line or the end |
| Sse.ReplayEvents | crates/kn9t-provider-replay/src/sse.rs:71-153 | lines and events do not depend on the declared offsets |
| Sse.SseIter.Next | crates/kn9t-provider-core/src/sse.rs:31-60 | the next payload of what is pending; a cancel seen first is reported before anything is consumed |
| Sse.SseIter.ReadLine | crates/kn9t-provider-core/src/sse.rs:45-49 | a line of what is pending, with its ending, across any read boundaries |
| Sse.ProviderEvents | crates/kn9t-provider-core/src/sse.rs:11-60 | the payloads do not depend on the declared offsets |
| Sse.EncodeChunksSse | crates/kn9t-provider-replay/src/record.rs:91-102 | one data line and a blank line per payload, then the terminator |
| Sse.DecodersAgreeOnEncoded | crates/kn9t-provider-replay/src/record.rs:89-102 | both splitters read back exactly the encoded payloads |
| Sse.DecodersDifferWithoutTheSpace | crates/kn9t-provider-replay/src/sse.rs:162-166 | a data field without the space is read by one splitter only |
| Splitters.SplittersAgreeExactly | crates/kn9t-provider-core/src/sse.rs:45-57 | on any text with at most one data line per event, both splitters read the same payloads if and only if every line that carries one has the space after the colon, keeps no carriage return, and comes before any line with the terminator |
| Splitters.JoinedEventsDiffer | crates/kn9t-provider-replay/src/sse.rs:126-153 | on any text, an event joined from several lines is never what the other splitter reads |
| Sse.StartsClimb | crates/kn9t-provider-replay/src/sse.rs:28-31 | start offsets come out sorted, distinct and beginning at 0 |
| Fixture.FixtureRoundTrip | crates/kn9t-provider-replay/src/record.rs:105-137 | a printed fixture parses back to itself with its credentials redacted, whatever its body holds |
| Fixture.Parse | crates/kn9t-provider-replay/src/fixture.rs:34-80 | the line loop computes the parse, with every error case |
| Fixture.FindBlankLine | crates/kn9t-provider-replay/src/fixture.rs:102-123 | finds the first line that holds nothing or one carriage return, and none exactly if there is no such line |
| Fixture.BlankIsFirst | crates/kn9t-provider-replay/src/fixture.rs:102-123 | for any input, the scan from a line start returns the first blank line from there on |
| Fixture.ParseChunks | crates/kn9t-provider-replay/src/fixture.rs:135-153 | the offsets before a comment, blank pieces skipped, the first bad one reported |
| Fixture.SerializeFixture | crates/kn9t-provider-replay/src/record.rs:105-127 | header lines in order with redacted values, a blank line, the body |
| Fixture.JoinOffsets | crates/kn9t-provider-replay/src/record.rs:110-118 | the offsets in decimal, joined by commas |
| Fixture.BlankFound | crates/kn9t-provider-replay/src/fixture.rs:102-123 | the header block has no blank line, so the one after it is found even before a body full of them |
| Fixture.OffsetListRoundTrip | crates/kn9t-provider-replay/src/fixture.rs:135-153 | a printed offset list parses back |
| Fixture.NumberRoundTrip | crates/kn9t-provider-replay/src/fixture.rs:57-63 | a printed number within the bound parses back |
| Fixture.LineSplits | crates/kn9t-provider-replay/src/fixture.rs:125-133 | a printed header line splits back into key and value |
| Progress.LiveToolCalls.Begin | crates/kn9t-store/src/live.rs:74-91 | opening resets a stale row |
| Progress.LiveToolCalls.Append | crates/kn9t-store/src/live.rs:96-139 | the row keeps the bounded tail of everything noted since it was opened; notes without a row change nothing |
| Progress.LiveToolCalls.End | crates/kn9t-store/src/live.rs:143-159 | the row is gone, the others are not touched |
| Progress.ChunkingIrrelevant | crates/kn9t-store/src/live.rs:93-125 | after any notes the stored text is the tail of all of them joined |
| Progress.TailIsLongest | crates/kn9t-store/src/live.rs:113-123 | the tail is the longest suffix within 8192 bytes that starts at a character boundary |
| Progress.TailAbsorbs | crates/kn9t-store/src/live.rs:113-123 | cutting early changes nothing |
| Progress.TailValid | crates/kn9t-store/src/live.rs:115 | the kept text is valid UTF-8 and at most three bytes short of the bound |
| Progress.DropOldest | crates/kn9t-store/src/live.rs:116-121 | the cut loop stops at the first boundary |
| Png.RepairPng | crates/kn9t-provider-openai/src/image_guard.rs:154-194 | the walk computes the repair, and declines without signature, without image data and with a terminator |
| Png.TruncationRepaired | crates/kn9t-provider-openai/src/image_guard.rs:145-194 | a stream cut anywhere after its signature is repaired to its whole chunks and a terminator, if image data is among them |
| Png.TerminatorRestored | crates/kn9t-provider-openai/src/image_guard.rs:145-194 | losing only terminator bytes gives back the original |
| Png.RepairedIsWellFramed | crates/kn9t-provider-openai/src/image_guard.rs:154-194 | every repaired output is well framed and a second repair declines it |
| Png.CompleteDeclined | crates/kn9t-provider-openai/src/image_guard.rs:177-180 | a stream with its terminator is left alone, whatever trails it |
| Png.FramesParse | crates/kn9t-provider-openai/src/image_guard.rs:163-182 | framed chunks parse back whatever follows |

## Left out

- React.ReactLoop.Run: sees an unbounded run through its first `horizon` turns, for every horizon, because the loop has no turn ceiling unless one is configured; its counters are unbounded where the source has 32 bits.
- React.ReactLoop.RunToolBatch: the transient tool events are not modelled; the fill of unanswered slots at `crates/kn9t-react/src/exec.rs:521-527` finds none and has no counterpart.
- React.ReactLoop.ExecuteOne: panics of the host's own parts (the store, the bus, the tool registry and its tools' declarations) are not modelled; of a worker thread, only that it hangs up.
- React.ReactLoop.RecvParallelResult: a worker that never answers and is never cancelled keeps the source polling forever; here a worker's silence is finite.
- React.ReactLoop.ExecuteTurn: message ids, the `silent` flag and the wording of the reminder are abstracted.
- Attach.BuildAttachPrelude: other threads act at the snapshot and at each poll; the snapshot is taken to succeed and its payloads to decode, echoes to be published in sequence order, and the interference to end. The live loop after the prelude re-applies no watermark and nothing is claimed about it.
- PluginModel: call ids do not wrap at 64 bits; timeouts are nondeterministic; nothing is said about progress, since the reader blocks on a full channel while it holds the pending-calls lock. A chunk-less reader end (end of input) leaves callers to their timeout, as in the source.
- PluginDemux.CallsGetTheirOwnAnswer: holds for ids the plugin did not use before the host had sent them; `PluginDemux.AnswerBeforeRegistrationIsLost` shows why.
- ToolIndex.SdkToMessage: for calls started once, first, with no initial arguments, and at most 2^32 of them, as the SDK documents; a start's initial arguments are not decoded by the host.
- Fork.ForkKeepsTranscript: for logs whose compaction ranges begin and end on transcript events, which is how the planner chooses them; blob reference counts and the `silent` column are not modelled.
- Fork.ForkSession: database failures and a missing model on the origin, which make the source give up, are not modelled; neither are timestamps and the other inherited totals.
- Cost: operations other than create, usage append, other append and fork do not touch cost and are not modelled; database sums are unbounded integers.
- Splitters.SplittersAgreeExactly: for texts with at most one data line per event; with several, agreement can also come about by the payloads of different events falling together.
- Sse.SseIter.Next: a line that is not valid UTF-8, which makes the source fail, is not modelled.
- Fixture.FixtureRoundTrip: white space is the ASCII kind; for header fields that are trimmed, on one line and not canonical keys.
- Ulid.Mint: the clock and the random generator are parameters; the generator's mixing is not modelled.
- Png.RepairPng: whether an image decodes, the verdict cache and the data-URI parsing are not modelled; checksums are carried, not computed, as in the source's repair.
- SQLite, sockets, subprocesses, TLS, file watching and JSON parsing are replaced by sequences, maps and arbitrary results.
- The terminal interface, configuration, routing, authentication, code generation and scripts.
- Cache breakpoints, the tool registry, provider quirks, stop-reason mapping, the lease map and pattern suggestion would only add easy members.
