# tea-rs in Dafny

A model of the hard parts of `tea-rs`, an agent runtime, with proofs about all of
its inputs, runs and interleavings. `dafny verify dfyconfig.toml` checks it.

**Kernel** (`tea-kernel`, `tea-session`). A run appends records to a durable log;
a reducer decides which records are accepted. `SessionLog` is that reducer.
`AgentKernel` and the methods in `RunLoop` and `Resume` are the kernel's agent
loop, tool batches, approval pauses and resumption, written as methods over one
log; `InputQueue` and `QueuedInput` are the queue it takes user input from, and
`Session` serves any sequence of commands with all of them. Policy verdicts,
scheduling classes and tool results are an arbitrary function of the call
(`CallOutcomes.World`), what each pass of the loop meets (cancellation, the request,
the provider's streams) an arbitrary `RunLoop.Oracle`, and hosts may enqueue input at
any time. `ModelTurn` reads a provider's stream, and `StreamGrammar` says which
streams are well formed. `Port` is any call that may
fail (clock, ids, events, policy input). A transaction can fail because it cannot
be built or written, or because the session cannot be loaded afterwards, which
leaves its records in the log. Ghost counters record these failures; "the store
works" and "no port fails" below mean during that call, whatever failed before.
The kernel is the only writer of its session.

**MCP connections** (`tea-mcp`). `ConnectionSlot` has the lock-protected slot, as a
class and as a transition system with leases, guards, shutdown, notifications and
the waiting task. `McpManager` has any number of servers and reconnects and one
shutdown, one step for each critical section or await; `ManagerOutcomes` says what
reconnects and shutdowns achieve.

**Prompt compiler** (`tea-context`). `StableSort`, `PromptModules`, `PromptSelect`,
`PromptRender` and `PromptInspection` follow the stages of a compilation.

**Bounded streams**. `Framing`, `ProgressRouter`, `Descriptor`.

## What the model shows about the code

- *Denied calls.* `process_tool_turn` clears the batch after flushing for a
  rejected call but not for a denied one. So the calls of a turn are attempted
  exactly once and in order if and only if no allowed call is followed by a denied
  one without a rejected one between (`ToolTurn.AttemptsOnceIffNoReflush`).
  Otherwise everything up to the first such denied call is handled once, the next
  flush attempts the old batch again, and the turn ends there
  (`ToolTurn.ReflushEndsTurn`): the reducer refuses the second policy decision, so
  nothing executes twice (`Kernel.AgentKernel.FlushToolBatch`,
  `Kernel.AgentKernel.ProcessToolTurn`). If no port fails and the allowed calls
  before that denied call run, exactly the calls up to it are answered, and the
  session accepts another run if and only if it was the turn's last call; otherwise
  it is stuck for ever (`Session.ReflushedTurn`, `Session.ServeAll`).
- *Queued input.* `apply_queued_input` writes a snapshot of the queue and then
  acknowledges it. What was acknowledged is in the log, follow-ups exactly once
  (`Session.ServeAll`, `QueuedInput.AcknowledgedExactlyOnce`). If only the load
  after the write fails, the snapshot is in the log and still queued
  (`RunLoop.ApplyQueuedInput`). A snapshot of steering alone is then committed
  again under a new identity (`QueuedInput.SteeringTwice`). Follow-ups keep their identity, which the
  reducer refuses, so nothing is taken from the queue any more
  (`QueuedInput.UnacknowledgedClogs`): while a queue holds a follow-up whose
  identity is repeated or already in the log, every run fails before its provider is
  asked (`RunLoop.Run`), and no sequence of commands changes that
  (`Session.ServeAll`).
- *Endings.* A failed run is ended whichever step failed, and whatever else failed
  before, unless the load or the transaction of the ending itself fails; then it has
  no ending (`RunLoop.Loop`). The same holds for a resumed run, which also has none
  when the load after the written resolution fails, since the source then returns
  without trying (`Resume.ResumeApproval`). A pause whose event is rejected after
  the write is recorded as an interruption and can still be resumed (`Resume.FailedPauseResumes`); a run that
  then finishes has two endings (`Session.InterruptedThenFinished`, and
  `Session.TwoEndings` for a complete log). For every sequence of resolutions the
  count is one plus one exactly for a finished run that was interrupted
  (`Resume.RunAcrossPauses`), and in every session no run has more than two
  (`Session.EndsAtMostTwice`).
- *Stranded calls.* A granted call is left started, without an answer and without a
  run ending, exactly when nothing is written after the grant: when the store works,
  exactly when its execution returned and no message id or timestamp could be drawn
  for the result; otherwise also when the store fails after the grant
  (`Resume.CommitGranted`, `Resume.ResumeApproval`). From then on no run and no
  compaction passes the state check and no approval is open
  (`Session.GrantAloneStrands`, `Session.ServeAll`).
- *Dead ends.* An interrupted tool call can never be answered, so its session never
  accepts a new run (`SessionLog.InterruptedCallBlocksNewRuns`).
- *Rebuilt bytes.* A resumed run also counts assistant bytes that an earlier run
  left without a checkpoint; otherwise the count is exact
  (`RunCounters.RebuiltBytes`). `Session.LeftoverSegment` has such an earlier run.
- *Lifecycle table.* Every write follows `can_transition_to`, but a reconnect that
  finds a ready connection broken is seen going from ready to reconnecting, which
  the table does not list. That happens exactly when a reconnect is begun on a ready
  slot without calls in flight whose connection is reported failed or stale
  (`ConnectionSlot.StepFollowsTable`).
- *Module order.* The candidate order is independent of the order of the modules
  if and only if modules of equal authority, priority and identity agree at every
  common position (`PromptModules.OrderIndependentIffCompatible`).
- *Oversized lines.* The reader reports a too-large line once for every byte beyond
  the bound and keeps the first `max` bytes. If the line ends, the next read
  delivers those bytes exactly when something is left of them without a trailing
  carriage return (`Framing.OversizedLineResurfacesIff`). This concerns the reader
  alone: its only caller (crates/tea-mcp/src/transport.rs:182-193) gives up the
  connection at the first error and never reads on.

## Model

| member | source | states |
|---|---|---|
| `SessionLog.ReplayOk` | crates/tea-session/src/reducer.rs:516-873 | every accepted log materializes consistently: approvals belong to calls that need them, only authorized calls start, only finished ones have results, an open approval has exactly one waiting call |
| `SessionLog.CountsMatchState` | crates/tea-session/src/reducer.rs:607-790 | the state knows exactly how often a log made each lifecycle step of each call |
| `SessionLog.LifecycleAtMostOnce` | crates/tea-session/src/reducer.rs:607-790 | in every accepted log each call is requested, decided, started, finished, interrupted and answered at most once, never both finished and interrupted, never started undecided |
| `SessionLog.ExecutionNeedsAuthority` | crates/tea-session/src/reducer.rs:642-741 | no execution starts without an earlier Allow or an approval granted inside its validity window |
| `SessionLog.InterruptionIsFinal` | crates/tea-session/src/reducer.rs:775-791 | no continuation changes or answers an interrupted call |
| `SessionLog.InterruptedCallBlocksNewRuns` | crates/tea-kernel/src/kernel.rs:2019-2038 | once a call was interrupted no continuation of the log passes the new-run check |
| `SessionLog.RecoveryMatchesLog` | crates/tea-session/src/reducer.rs:792-822 | the recovery set holds a run exactly when the log has its one abnormal ending, and the checkpoint projection is the last checkpoint |
| `Scheduler.Plan` | crates/tea-kernel/src/scheduler.rs:79-137 | refused iff some invocation needs policy; otherwise the lanes are a permutation of the batch: one parallel lane at most, then one serial lane at most, then exclusive work alone, with source order inside each kind |
| `Scheduler.ExecuteLanes` | crates/tea-kernel/src/kernel.rs:1256-1295 | results are collected for exactly the invocations before the first execution error, and a run without error covers every call |
| `Scheduler.LaneFailure` | crates/tea-kernel/src/kernel.rs:1256-1295 | the first error splits the schedule into what was collected and the failing call with everything after it |
| `ToolTurn.ClearingHandlesOnceInOrder` | crates/tea-kernel/src/kernel.rs:1037-1125 | if both arms cleared the batch, every call would be handled exactly once and in source order |
| `ToolTurn.ReflushEndsTurn` | crates/tea-kernel/src/kernel.rs:1037-1125 | what the loop attempts, in order and with executions that succeed, when a denied call leaves a flushed batch behind: all up to that call once, then the old batch with the calls allowed since, and nothing after |
| `ToolTurn.AttemptCounts` | crates/tea-kernel/src/kernel.rs:1037-1125 | then each call of the old batch is attempted twice, every other call before the refused flush once, the rest never |
| `ToolTurn.AttemptsOnceIffNoReflush` | crates/tea-kernel/src/kernel.rs:1037-1125 | every call is attempted once and in order iff no allowed call precedes a denied one without a rejected one between |
| `ToolTurn.FindReflush` | crates/tea-kernel/src/kernel.rs:1037-1125 | every turn with such a pattern has a first one and a flush after it |
| `ToolTurn.SecondDenialUnreached` | crates/tea-kernel/src/kernel.rs:1062-1078 | in the turn allowed, denied, denied the second denial is never reached |
| `ToolTurn.AllowThenDenyReflushes` | crates/tea-kernel/src/kernel.rs:1062-1078 | one allowed then one denied call flushes the first call twice |
| `ToolRecords.StartsAccepted` | crates/tea-kernel/src/kernel.rs:1148-1165 | the start transaction of distinct untouched calls is accepted and only those calls change, all executing |
| `ToolRecords.StartsNeedUndecided` | crates/tea-session/src/reducer.rs:642-658 | a start transaction holding a call decided before is refused |
| `ToolRecords.ResultsAccepted` | crates/tea-kernel/src/kernel.rs:1207-1247 | the result transaction of executing calls is accepted and answers exactly them, each finished with its own terminal |
| `ToolRecords.InterruptsAccepted` | crates/tea-kernel/src/kernel.rs:1172-1187 | interruption records of executing calls are accepted and leave their outcome unknown |
| `ToolRecords.DenyAccepted` | crates/tea-kernel/src/kernel.rs:1706-1722 | the refusal transaction of an untouched call is accepted and answers it without execution |
| `ToolRecords.WaitAccepted` | crates/tea-kernel/src/kernel.rs:1467-1510 | the pause transaction of an untouched call is accepted; the exact resulting state |
| `ToolRecords.RequestsAccepted` | crates/tea-kernel/src/kernel.rs:881-932 | request records of newly declared calls are accepted and add exactly one untouched tool state each |
| `RunCounters.RebuildOutputBytes` | crates/tea-kernel/src/kernel.rs:2116-2142 | the two-counter scan computes the bytes of segments closed by the run's checkpoints, and fails only beyond a 64-bit count |
| `RunCounters.RebuildIterations` | crates/tea-kernel/src/kernel.rs:2098-2114 | the number of distinct checkpointed turns, saturating at the 32-bit bound |
| `RunCounters.CreditSplit` | crates/tea-kernel/src/kernel.rs:2116-2142 | for every log of a run: rebuilt bytes plus the open segment equal the run's own bytes plus what was left open before it |
| `RunCounters.RebuiltBytes` | crates/tea-kernel/src/kernel.rs:2116-2142 | with every message closed by a checkpoint the rebuilt count never undercounts, and is exact iff nothing was left open before the run |
| `RunEndings.EndedExactlyOnce` | crates/tea-kernel/src/kernel.rs:1841-1907 | for every log: ensuring the ending leaves exactly one iff the log held at most one and a finishing checkpoint, if any, is still the latest |
| `RunEndings.EndedTwiceIsEndedOnce` | crates/tea-kernel/src/kernel.rs:502-507 | a second ending handler, with any error and turn, changes nothing |
| `RunEndings.FinishAfterInterruption` | crates/tea-kernel/src/kernel.rs:1774-1817 | a run that finishes after an interruption has more than one ending |
| `ModelTurn.MirrorStep` | crates/tea-kernel/src/model_turn.rs:68-230 | after every accepted event the emitted fragments since the last retry equal the held text of every block |
| `ModelTurn.MeasureStep` | crates/tea-kernel/src/model_turn.rs:434-514 | after every accepted event the byte counter equals the bytes of the held content and fits the budget |
| `ModelTurn.TrackStep` | crates/tea-kernel/src/model_turn.rs:68-230 | provider ids, content positions and canonical ids of hosted activities stay consistent with the event validator |
| `ModelTurn.FinishedAttempt` | crates/tea-kernel/src/model_turn.rs:282-379 | the committed message has exactly the streamed bytes, new distinct call ids, and every text block is the fold of its emitted fragments |
| `ModelTurn.FinishTurn` | crates/tea-kernel/src/model_turn.rs:282-379 | there is a message iff the stream completed with content and has calls exactly when it stopped for tools; the message tells the stream, event by event, its stop is the one of the completed event, and its bytes equal those recomputed from it |
| `ModelTurn.FinishedTells` | crates/tea-kernel/src/model_turn.rs:282-379 | block by block, the message is a fold of the events: joined text and thinking, each call and hosted activity as its own completed event has it, each citation with its source and the activity it cites |
| `ModelTurn.CallsInOrder` | crates/tea-kernel/src/model_turn.rs:282-379 | the calls of such a message are, in the order of their start events, the names and arguments of the matching completed events |
| `ModelTurn.AcceptsExactly` | crates/tea-kernel/src/model_turn.rs:68-230 | an event is refused for the grammar, a projected name or the output budget, and for nothing else |
| `ModelTurn.StreamTurn` | crates/tea-kernel/src/model_turn.rs:51-280 | for every provider: at most `maxAttempts` provider calls, one more only after a failure that may be retried, and a message iff the last stream gives one; it tells that stream, is accounted for and is replayable from the events since the last retry |
| `ModelTurn.OneEnd` | crates/tea-kernel/src/model_turn.rs:51-280 | a stream that fails neither completes nor fails in the other way |
| `StreamGrammar.AcceptsWellFormed` | crates/tea-model/src/stream.rs:693-826 | the incremental validator accepts exactly the streams that are well formed as a property of the events, and has ended iff they have |
| `StreamGrammar.CompletedOnceStarted` | crates/tea-model/src/stream.rs:763-772 | in a well-formed stream a call is completed at most once, after it was started under the same identities |
| `CallOutcomes.AnswersMatch` | crates/tea-session/src/reducer.rs:516-606 | every answer in an accepted log carries the outcome recorded for its own call |
| `CallOutcomes.AnswersAreTrue` | crates/tea-kernel/src/kernel.rs:1207-1247 | in every session the kernel keeps, each answer is the result its own call returned if policy or an approval let it run, and an error if not |
| `CallOutcomes.SettledIsServed` | crates/tea-kernel/src/kernel.rs:937-1248 | an answered call was served as policy decides: run with its own result, refused, or as its approval decided |
| `CallOutcomes.SomeWorld` | crates/tea-session/src/reducer.rs:516-873 | every accepted log agrees with some behaviour of policy and tools, so starting from such a log excludes none |
| `Kernel.AgentKernel.AppendRecords` | crates/tea-kernel/src/kernel.rs:1909-1934 | a transaction is appended whole, or refused by the reducer or a failing store; an error with the records written is exactly a failing load |
| `Kernel.AgentKernel.RecordRunTerminal` | crates/tea-kernel/src/kernel.rs:1869-1907 | when the store works a run that is not in recovery gets exactly its ending record, even if the event is rejected |
| `Kernel.AgentKernel.EnsureRunTerminal` | crates/tea-kernel/src/kernel.rs:1841-1867 | the log becomes exactly what `Ended` says, unless this call's own load or transaction fails; then it is unchanged and the run unended |
| `Kernel.AgentKernel.CommitResults` | crates/tea-kernel/src/kernel.rs:1207-1247 | the results of a batch are written whole and in source order, each call with its own, or not at all |
| `Kernel.AgentKernel.RunBatch` | crates/tea-kernel/src/kernel.rs:1166-1247 | all results committed in source order, each call answered with what its own execution returned, or none; when the store works an execution error leaves every call started or interrupted and the run interrupted or cancelled |
| `Kernel.AgentKernel.FlushToolBatch` | crates/tea-kernel/src/kernel.rs:1132-1248 | succeeds only for untouched schedulable calls that all execute, answering exactly them in source order with their own results; a batch with a decided call writes nothing; when no port fails it fails only for one of these reasons |
| `Kernel.AbandonedBatchBlocks` | crates/tea-kernel/src/kernel.rs:2019-2038 | after an execution error in a batch no continuation of the log can start a new run |
| `Kernel.AgentKernel.CommitDenied` | crates/tea-kernel/src/kernel.rs:1706-1771 | a refused call is answered and nothing else changes |
| `Kernel.AgentKernel.WaitForApproval` | crates/tea-kernel/src/kernel.rs:1442-1548 | the pause is written whole or not at all; a failure after the write leaves exactly the paused state |
| `Kernel.AgentKernel.Classify` | crates/tea-kernel/src/kernel.rs:972-1035 | classification stops after the first call that asks |
| `Kernel.AgentKernel.ProcessToolTurn` | crates/tea-kernel/src/kernel.rs:937-1125 | the turn settles and answers all calls in source order, each served as policy decides, or pauses on the asking call with earlier ones answered and later ones untouched, or fails having answered exactly some first calls or having paused; when no port fails it fails iff there is a reflush pattern or an allowed call that cannot run, and at a reflush exactly the calls up to the denied one are answered |
| `RunLedger.Declared` | crates/tea-kernel/src/kernel.rs:881-932 | new declarations are always accepted between turns, add exactly the message's bytes and no turn |
| `RunLedger.WalkedBase` | crates/tea-kernel/src/kernel.rs:937-1125 | after a walked turn all calls of the run are answered once and in source order, counters unchanged |
| `RunLedger.Closed` | crates/tea-kernel/src/kernel.rs:813-825 | the turn checkpoint restores the state between turns and counts exactly this turn |
| `RunLedger.PausedBase` | crates/tea-kernel/src/kernel.rs:1442-1548 | a pause splits the run's calls into answered, waiting and untouched ones |
| `RunLedger.DenialState` | crates/tea-kernel/src/kernel.rs:1572-1634 | a denial is accepted iff it comes inside the validity window, and answers the call |
| `RunLedger.GrantState` | crates/tea-kernel/src/kernel.rs:1636-1704 | a grant is accepted iff it comes inside the validity window, and only its call runs |
| `RunLedger.ResolvedBase` | crates/tea-kernel/src/kernel.rs:340-474 | once the paused call is answered the later calls of the turn are still untouched and the counters unchanged |
| `RunLedger.RemainingToolCalls` | crates/tea-kernel/src/kernel.rs:2040-2096 | the scan returns the undecided requests after the given one |
| `RunLedger.RequestsDistinct` | crates/tea-session/src/reducer.rs:607-641 | requests of an accepted log are distinct and all have tool states |
| `RunLedger.RemainingAfter` | crates/tea-kernel/src/kernel.rs:2040-2096 | after a resolution the scan returns exactly the untouched rest, so answered, paused and remaining calls partition the declared ones |
| `RunLedger.RebuiltCounters` | crates/tea-kernel/src/kernel.rs:540-558 | rebuilt turns are exactly the run's checkpointed turns, rebuilt bytes its own plus earlier leftovers |
| `RunLedger.HaltedEndings` | crates/tea-kernel/src/kernel.rs:1841-1867 | the number of endings of a stopped run once its ending is ensured |
| `RunLedger.PauseKept` | crates/tea-kernel/src/kernel.rs:1841-1907 | an ending, a compaction or a configuration change leaves a paused run resumable on the same approval |
| `RunLedger.AdvancedTrace` | crates/tea-kernel/src/kernel.rs:937-1125 | whatever a failing turn wrote, the answered calls are the run's first calls, in order, and no approval is open |
| `RunLoop.ApplyQueuedInput` | crates/tea-kernel/src/kernel.rs:829-879 | the exact condition for success; then exactly the snapshot is in the log and out of the queue; a failure takes nothing from the queue and leaves the log unless only the load failed, after which queued follow-ups clog it; turn state and counters are kept |
| `RunLoop.Compact` | crates/tea-kernel/src/kernel.rs:179-214 | refused iff an approval or a tool outcome is open; otherwise only message ids change |
| `RunLoop.AutoCompact` | crates/tea-kernel/src/kernel.rs:709-725 | inside the loop the state check never refuses, the loop state is kept, and what is appended is exactly the summary |
| `RunLoop.CommitDeclarations` | crates/tea-kernel/src/kernel.rs:881-932 | the message and its requests are written whole or not at all |
| `RunLoop.FailRun` | crates/tea-kernel/src/kernel.rs:1869-1907 | a cancelled run is recorded as cancelled, any other failure as an interruption of its turn, and nothing else is written |
| `RunLoop.WalkTurn` | crates/tea-kernel/src/kernel.rs:797-812 | a turn's calls are all answered, or the run is paused, or it is unfinished inside its limits with a prefix of its calls answered |
| `RunLoop.CommitTurn` | crates/tea-kernel/src/kernel.rs:751-825 | a committed turn is closed with its turn and bytes counted, paused, or broken; unless it is broken its message is in the log and its end is the one policy calls for |
| `RunLoop.Finish` | crates/tea-kernel/src/kernel.rs:1774-1817 | the log is extended by exactly the last message and the finishing checkpoint, with all calls of the run answered in order, even if an event is then rejected |
| `RunLoop.Prepare` | crates/tea-kernel/src/kernel.rs:676-729 | nothing before the provider call changes counters; compaction happens at most once; a clogged queue always stops the run here |
| `RunLoop.Judge` | crates/tea-kernel/src/kernel.rs:690-729 | the provider is asked iff the request can be sent; a request over the context window is replaced by its summary once, and otherwise interrupts the run |
| `RunLoop.Settle` | crates/tea-kernel/src/kernel.rs:751-825 | what a turn comes to when no port fails: the last turn completes the run iff its output has the requested format, a pause turn or a turn with calls gives exactly one more iteration, a pause on approval, or an error at the limit or for calls that cannot run |
| `RunLoop.Respond` | crates/tea-kernel/src/kernel.rs:730-825 | the turn is what the last stream told, and what becomes of it is fixed by it as in `RunLoop.Settle`; a run is finished only by a turn without calls that does not pause, with exactly its message; at most `maxAttempts` provider calls |
| `RunLoop.Pass` | crates/tea-kernel/src/kernel.rs:650-827 | a cancelled pass ends the run as cancelled; the provider is asked only when nothing stands before it, and always then if there is no queue and no port fails; a pass that is repeated without asking wrote the summary |
| `RunLoop.LoopInner` | crates/tea-kernel/src/kernel.rs:650-827 | ends for every oracle; live counters agree with the log in every pass; turns and provider calls are bounded by the iterations left; a completed run ends with a message its provider said before a stop that is neither a pause nor a tool call |
| `RunLoop.Loop` | crates/tea-kernel/src/kernel.rs:620-648 | on every outcome the limits hold, the answered calls are the first requested ones in order, and an open approval is resumable; a failed run has exactly one ending whichever steps failed, two if it was interrupted before and finished, and none only if the ending's own load or transaction failed |
| `RunLoop.Run` | crates/tea-kernel/src/kernel.rs:223-268 | refused without a trace while an approval or outcome is open; otherwise the run settles under a new identity, completed only by its provider's last word; with a clogged queue it fails without a provider call |
| `Resume.ProcessTool` | crates/tea-kernel/src/kernel.rs:1298-1440 | one remaining call is answered as policy decides, paused on, or fails without touching any other |
| `Resume.ExecuteAlone` | crates/tea-kernel/src/kernel.rs:1369-1417 | a call executed alone is started and answered with its own result, or interrupted |
| `Resume.WalkRest` | crates/tea-kernel/src/kernel.rs:521-539 | the remaining calls are answered in source order, or a prefix of them is and the run pauses again or fails |
| `Resume.CloseAndLoop` | crates/tea-kernel/src/kernel.rs:540-558 | counters rebuilt from the log satisfy the loop's invariant again |
| `Resume.ContinueResumedRun` | crates/tea-kernel/src/kernel.rs:478-508 | a resumed run settles like any other; the outer ending handler adds nothing after the inner one, and makes up for it if that one failed |
| `Resume.CommitDeniedResolution` | crates/tea-kernel/src/kernel.rs:1572-1634 | a denial records the decision and answers the paused call with an error, or leaves the log as it was; only a failing load can report an error after the write |
| `Resume.CommitGranted` | crates/tea-kernel/src/kernel.rs:427-463 | exactly which outcome occurs: unresolved iff nothing was written, stranded iff only the decision and the start were; when the store works, unresolved iff untimely, interrupted iff the execution failed, stranded iff it returned and the result's id or timestamp could not be drawn, and otherwise answered with its own result |
| `Resume.ResumeApproval` | crates/tea-kernel/src/kernel.rs:278-474 | a resolution of no open approval or outside its window changes nothing; any other first records its decision for its call; one that writes only the grant strands the call; every other one settles the run, which lacks an ending only if the store failed in this call where it was to be ended |
| `Resume.FailedPauseResumes` | crates/tea-kernel/src/kernel.rs:1510-1548 | a run that failed with its approval open is interrupted once and can be resumed |
| `Resume.LeftRunningIsStuck` | crates/tea-kernel/src/kernel.rs:2019-2038 | with a stranded call no new run passes the check and no approval is left to resume |
| `Resume.RunAcrossPauses` | crates/tea-kernel/src/kernel.rs:223-474 | over any resolutions of any open approval, also after a failed pause and after any number of failures: the limits hold, calls are answered once and in order on every outcome, and the run has one ending, plus one exactly if it finished after an interruption; none only if its last ending failed in the store or a call is stranded |
| `Session.ServeAll` | crates/tea-kernel/src/kernel.rs:179-474 | over any sequence of runs, resolutions, compactions and configuration changes every run finishes at most once, every answer is true to its own call, an open approval is always resumable, everything acknowledged is in the log, a stuck session stays stuck, and with a clogged queue no provider is ever called again |
| `Session.ReflushedTurn` | crates/tea-kernel/src/kernel.rs:937-1125 | after a reflush at denied call `d` without port failures the calls up to `d` are answered, the run is ended, and a new run can start iff `d` was the last call; otherwise the session is stuck |
| `Session.NewSession` | crates/tea-session/src/reducer.rs:270-310 | a session that was just created is one of these |
| `Session.ResolveIn` | crates/tea-kernel/src/kernel.rs:278-474 | so a resolution can be submitted to every session reached this way |
| `Session.EndsAtMostTwice` | crates/tea-kernel/src/kernel.rs:1774-1907 | in every such session a run has at most two endings, and two iff it finished and was interrupted |
| `Session.PauseFollows` | crates/tea-kernel/src/kernel.rs:1442-1548 | wherever a run can start, declaring a call and pausing on it leaves a resumable session |
| `Session.InterruptedPause` | crates/tea-kernel/src/kernel.rs:1869-1907 | a run interrupted while it waits can still be resumed |
| `Session.InterruptedThenFinished` | crates/tea-kernel/src/kernel.rs:278-400 | every such run, resumed by a denial and finished, has two endings |
| `Session.TwoEndings` | crates/tea-kernel/src/kernel.rs:278-400 | a complete log of thirteen records where this happens |
| `Session.GrantAloneStrands` | crates/tea-kernel/src/kernel.rs:427-463 | for every resumable pause the grant alone is accepted, starts the call, adds no ending and leaves the session stuck |
| `Session.StrandedCall` | crates/tea-kernel/src/kernel.rs:427-463 | a complete log with such a call |
| `Session.LeftoverSegment` | crates/tea-kernel/src/kernel.rs:2116-2142 | an interrupted run that leaves its message's bytes outside any checkpoint, on a log where the next run may start |
| `ConnectionSlot.McpConnectionSlot.Synchronize` | crates/tea-mcp/src/reconnect.rs:155-171 | afterwards the slot is ready iff it serves and stale iff a changed catalogue was seen; only a ready slot changes, and its code gives the reason |
| `ConnectionSlot.McpConnectionSlot.AcquireCall` | crates/tea-mcp/src/reconnect.rs:47-68 | a lease on the current connection is granted iff the slot serves and is below the counter bound; each refusal code iff its cause; slot invariant kept |
| `ConnectionSlot.McpConnectionSlot.ReleaseCall` | crates/tea-mcp/src/reconnect.rs:184-194 | the last lease, and no other, owes a notification; nothing else changes |
| `ConnectionSlot.McpConnectionSlot.BeginReconnect` | crates/tea-mcp/src/reconnect.rs:70-88 | a guard is granted iff no lease is live and the slot neither serves nor is stopped or reconnecting, and is then the only one |
| `ConnectionSlot.McpConnectionSlot.Complete` | crates/tea-mcp/src/reconnect.rs:212-223 | the connection is installed iff the slot was not stopped meanwhile, and the guard is spent either way |
| `ConnectionSlot.CallOnce` | crates/tea-mcp/src/reconnect.rs:47-194 | a call that starts and ends leaves the slot exactly as it was |
| `ConnectionSlot.ReconnectOnce` | crates/tea-mcp/src/reconnect.rs:70-223 | after a completed reconnect the next call is served over the new connection |
| `ConnectionSlot.RunsAreSafe` | crates/tea-mcp/src/reconnect.rs:47-255 | in every run: calls in flight equal live leases, at most one guard and then no lease, reconnecting implies its guard, ready implies a connection, health never fails |
| `ConnectionSlot.StepFollowsTable` | crates/tea-mcp/src/health.rs:41-55 | every write follows the lifecycle table; a whole step does, iff it is not a reconnect begun on a ready slot without calls in flight whose connection is reported failed or stale |
| `ConnectionSlot.ReadyMayBeSeenReconnecting` | crates/tea-mcp/src/reconnect.rs:70-88 | the step where the table is not followed |
| `ConnectionSlot.StoppedIsAbsorbing` | crates/tea-mcp/src/health.rs:37-55 | after a stop every continuation stays stopped and calls in flight never increase |
| `ConnectionSlot.NoLostWakeUp` | crates/tea-mcp/src/reconnect.rs:108-132 | in every run a sleeping waiter has calls in flight or a notification coming |
| `ConnectionSlot.DrainedWaiterFinishes` | crates/tea-mcp/src/reconnect.rs:121-132 | an empty stopped slot lets its waiter finish within three steps |
| `ConnectionSlot.DrainStepEnabled` | crates/tea-mcp/src/reconnect.rs:121-132 | before it has finished, somebody can always take a notification, poll or look step |
| `ConnectionSlot.EveryScheduleDrains` | crates/tea-mcp/src/reconnect.rs:108-132 | under every schedule the waiter has finished once a bounded number of such steps was taken |
| `McpManager.StepKeepsOrder` | crates/tea-mcp/src/manager.rs:258-412 | every step keeps the lock discipline, one guard per server, and shutdown's progress |
| `McpManager.StepKeepsOwnership` | crates/tea-mcp/src/manager.rs:258-412 | every step keeps each started client held in one place or shut down once |
| `McpManager.ClientsHaveOneOwner` | crates/tea-mcp/src/manager.rs:258-412 | in every interleaving each started client has exactly one holder or was shut down exactly once |
| `McpManager.NothingLeftRunning` | crates/tea-mcp/src/manager.rs:376-412 | when shutdown has returned every client ever started was shut down exactly once |
| `McpManager.StoreFindsEmptySlot` | crates/tea-mcp/src/manager.rs:332-343 | a reconnected client is never stored over another, and each server has at most one guard; that one is stored at all is `ManagerOutcomes.ReconnectSucceeds` |
| `ManagerOutcomes.ReconnectSucceeds` | crates/tea-mcp/src/manager.rs:258-343 | a reconnect from the start with a good candidate: the old client is shut down, the new one is installed and not shut down, the slot is ready on its handle with one more restart, the lock is free |
| `ManagerOutcomes.GoodReconnectSucceeds` | crates/tea-mcp/src/manager.rs:332-343 | in every orderly manager a good verdict, completion and storing are possible in turn and change exactly this server and task |
| `ManagerOutcomes.GoodCandidateKept` | crates/tea-mcp/src/manager.rs:332-343 | in every interleaving a client is shut down after its good verdict only once it was installed or its slot was stopped |
| `ManagerOutcomes.OtherVerdicts` | crates/tea-mcp/src/manager.rs:302-372 | what every other verdict comes to: drift fails the slot at once, a missing client or handle is retried until the last attempt fails it, a shutdown stops it; the candidate is always shut down |
| `ManagerOutcomes.RetryFollows` | crates/tea-mcp/src/manager.rs:302-372 | a retry leads to another attempt iff no shutdown began, and there is always one left |
| `ManagerOutcomes.EveryScheduleShutsDown` | crates/tea-mcp/src/manager.rs:376-412 | under every schedule a shutdown has returned once its own steps outnumber the work there was |
| `ManagerOutcomes.ShutdownNeverStuck` | crates/tea-mcp/src/manager.rs:376-412 | a shutdown that has not returned always has such a step |
| `ManagerOutcomes.ShutdownStopsAll` | crates/tea-mcp/src/manager.rs:376-412 | when it has returned every slot is stopped: no call starts and no reconnect begins any more |
| `StableSort.SortIsStable` | crates/tea-context/src/compiler.rs:105-111 | the sort is sorted and keeps the order of equal elements |
| `StableSort.SameSortIffSameClasses` | crates/tea-context/src/compiler.rs:105-111 | two lists sort to the same list iff every class of equal elements reads the same in both |
| `PromptModules.OrderedByFields` | crates/tea-context/src/compiler.rs:105-111 | candidates stand by authority, then descending priority, then module identity, then position in the module |
| `PromptModules.SourceOrderKept` | crates/tea-context/src/compiler.rs:105-137 | the segments of one module stand in their source order |
| `PromptModules.OrderDoesNotMatter` | crates/tea-context/src/compiler.rs:97-137 | permuting compatible modules does not change the ordered candidates |
| `PromptModules.SwapMatters` | crates/tea-context/src/compiler.rs:105-111 | exchanging two modules of equal rank that disagree does change them |
| `PromptModules.OrderIndependentIffCompatible` | crates/tea-context/src/compiler.rs:97-137 | the exact condition for order independence |
| `PromptSelect.Select` | crates/tea-context/src/compiler.rs:139-199 | the loop with its two tables computes the declarative selection, diagnostics, rows and first error |
| `PromptSelect.KeptAreDistinct` | crates/tea-context/src/compiler.rs:139-199 | kept segments have distinct identities and conflict keys |
| `PromptSelect.HighestClaimantWins` | crates/tea-context/src/compiler.rs:163-195 | of all claimants of a key exactly the first in precedence is kept |
| `PromptSelect.NeverDisplacedFromBelow` | crates/tea-context/src/compiler.rs:163-195 | a segment yields only to at least its authority and priority, and at equal precedence only to equal content |
| `PromptSelect.FailsIff` | crates/tea-context/src/compiler.rs:146-172 | selection fails exactly on divergent identities or an equal-precedence conflict |
| `PromptRender.Shorten` | crates/tea-context/src/budget.rs:65-77 | truncation fits the limit and equals the longest character-boundary prefix plus the marker |
| `PromptRender.TruncatedPiece` | crates/tea-context/src/budget.rs:65-77 | a truncated piece is the longest such prefix that leaves room for the marker |
| `PromptRender.TokensAre` | crates/tea-context/src/budget.rs:52-54 | below the 64-bit bound the estimate is the least number of tokens at three bytes each |
| `PromptRender.WithinBudget` | crates/tea-context/src/budget.rs:52-63 | both limits hold after every piece |
| `PromptRender.FinalCheckIsRedundant` | crates/tea-context/src/compiler.rs:286-292 | the last budget check never fires: rendering fails iff some required segment is larger than what the pieces before it leave |
| `PromptRender.RangeSlicesPiece` | crates/tea-context/src/compiler.rs:247-272 | a rendered piece is exactly its byte range of the final text |
| `PromptRender.RangesIncrease` | crates/tea-context/src/compiler.rs:247-272 | ranges are disjoint and increasing, neighbours being one separator apart |
| `PromptRender.RequiredInFull` | crates/tea-context/src/compiler.rs:217-233 | selected required segments appear in full |
| `PromptRender.Render` | crates/tea-context/src/compiler.rs:201-299 | the rendering loop builds the joined pieces, their rows and diagnostics |
| `PromptRender.Compile` | crates/tea-context/src/compiler.rs:92-114 | the method computes the specified result for all modules with non-empty segments; what that result is, without its own definitions, is in `PromptModules.OrderedByFields`, `PromptSelect.HighestClaimantWins`, `PromptRender.WithinBudget` and the `PromptInspection` rows |
| `PromptRender.CompilationIgnoresOrder` | crates/tea-context/src/compiler.rs:92-114 | text, diagnostics, rows and errors are the same for every order of compatible modules |
| `PromptInspection.OneRowPerCandidate` | crates/tea-context/src/compiler.rs:139-299 | every segment of the given modules is reported as often as it was given |
| `PromptInspection.RowsAreFates` | crates/tea-context/src/compiler.rs:139-299 | the inspection is a permutation of one row per given segment, each with the disposition and range its fate calls for |
| `PromptInspection.RowRangesIncrease` | crates/tea-context/src/compiler.rs:261-299 | down the sorted inspection, ranges are disjoint and increasing |
| `PromptInspection.RangesSliceText` | crates/tea-context/src/compiler.rs:261-280 | each row's range cuts exactly its segment's rendered bytes out of the text |
| `PromptInspection.SegmentsInSourceOrder` | crates/tea-context/src/compiler.rs:105-280 | in the compiled text the rendered segments of one module appear in their source order, at increasing byte ranges |
| `PromptInspection.RowsByFields` | crates/tea-context/src/compiler.rs:274-280 | rows stand by range start, those without a range last, then by module and segment identity |
| `PromptInspection.DiagnosticsByFields` | crates/tea-context/src/compiler.rs:281-285 | diagnostics stand by segment identity, then by kind |
| `PromptInspection.SameRankOrderShows` | crates/tea-context/src/compiler.rs:105-111 | two modules of equal rank whose order changes the text |
| `Framing.ScanIsSplit` | crates/tea-mcp/src/framing.rs:63-117 | reading byte by byte equals splitting whole lines |
| `Framing.ScanBounded` | crates/tea-mcp/src/framing.rs:63-117 | neither the kept frame nor a delivered one exceeds the bound |
| `Framing.ReadsDressed` | crates/tea-mcp/src/framing.rs:90-105 | a line read with a byte order mark before it or a carriage return after it gives the bare text |
| `Framing.SkipsBlank` | crates/tea-mcp/src/framing.rs:90-97 | blank lines are skipped |
| `Framing.BoundedFrameReader.Read` | crates/tea-mcp/src/framing.rs:63-117 | item, frame and remaining bytes depend on the bytes alone, not on the chunks |
| `Framing.ReadTwice` | crates/tea-mcp/src/framing.rs:63-117 | two readers of the same bytes cut differently give the same item and stay in step |
| `Framing.BoundedWriter.Write` | crates/tea-mcp/src/framing.rs:155-168 | writes whole buffers within the bound, otherwise keeps exactly the bound and reports overflow |
| `Framing.Serialize` | crates/tea-mcp/src/framing.rs:125-137 | too large iff what the encoder hands out exceeds the bound, malformed iff it fits but the encoder fails, otherwise the value and a line feed |
| `Framing.RoundTrip` | crates/tea-mcp/src/framing.rs:63-137 | reading the concatenated serialized values returns exactly the values, then the end |
| `Framing.SerializeAll` | crates/tea-mcp/src/framing.rs:125-137 | values serialized one after the other make that stream, unless one is too large |
| `Framing.WriteThenRead` | crates/tea-mcp/src/framing.rs:63-137 | the writer's output, cut anywhere by the transport, is read back value by value, then the end |
| `Framing.OversizedLineErrors` | crates/tea-mcp/src/framing.rs:109-115 | every oversized line costs one error per byte beyond the bound and leaves its first bytes in the frame |
| `Framing.OversizedLineResurfaces` | crates/tea-mcp/src/framing.rs:63-117 | the exact result of the next read, for every oversized line, terminated or not |
| `Framing.OversizedLineResurfacesIff` | crates/tea-mcp/src/framing.rs:63-117 | the next read takes its frame from the oversized line iff something of its kept bytes is left to deliver |
| `ProgressRouter.ProgressRouter.Subscribe` | crates/tea-mcp/src/progress.rs:33-74 | accepted iff there is room and the token is neither subscribed nor retired; held notes become the inbox's first offers, in order |
| `ProgressRouter.Fill` | crates/tea-mcp/src/progress.rs:45-58 | a new channel takes the first `maxEvents` held notes, is never full, and overflow is exactly having more |
| `ProgressRouter.CleanedIs` | crates/tea-mcp/src/progress.rs:80-88 | a routed note keeps its token and amount, loses its metadata, and its message is kept iff it is usable and replaced otherwise |
| `ProgressRouter.ProgressRouter.Route` | crates/tea-mcp/src/progress.rs:76-120 | a note goes to its inbox, is held while both bounds allow, or is dropped; tables stay disjoint and counted |
| `ProgressRouter.OfferKeeps` | crates/tea-mcp/src/progress.rs:107-119 | an inbox holds exactly the first `maxEvents` notes offered to it, overflow being exactly more offers |
| `ProgressRouter.TotalWithout` | crates/tea-mcp/src/progress.rs:47-48 | the pending total is the sum of pending lengths, whichever token leaves |
| `ProgressRouter.ProgressRouter.Receive` | crates/tea-mcp/src/progress.rs:157-162 | the receiver gets the sent notes in order and no other inbox changes |
| `ProgressRouter.ProgressRouter.Close` | crates/tea-mcp/src/progress.rs:107-119 | after its receiver is dropped an inbox that is not yet full takes no further note: the next offer removes it |
| `ProgressRouter.ProgressRouter.Unsubscribe` | crates/tea-mcp/src/progress.rs:122-136 | the token leaves every table and the retired queue keeps its latest tokens without repeats |
| `InputQueue.NewQueue` | crates/tea-kernel/src/queue.rs:35-51 | a queue for valid limits and only for those |
| `InputQueue.KernelInputQueue.EnqueueFollowUp` | crates/tea-kernel/src/queue.rs:58-74 | user messages are accepted in FIFO order up to the limit |
| `InputQueue.KernelInputQueue.EnqueueSteering` | crates/tea-kernel/src/queue.rs:81-94 | texts are accepted up to both limits, the byte count being lengths plus one each |
| `InputQueue.KernelInputQueue.Acknowledge` | crates/tea-kernel/src/queue.rs:114-138 | succeeds iff the snapshot is still in front, and removes exactly it, so accepted input stays acknowledged input followed by what is queued; a failure removes exactly the common prefix of follow-ups |
| `InputQueue.Arrive` | crates/tea-kernel/src/queue.rs:58-94 | whatever hosts enqueue, nothing already queued moves or leaves |
| `InputQueue.LineAt` | crates/tea-kernel/src/kernel.rs:844-850 | every steering text is a line of its own in the committed message, in order |
| `InputQueue.CommitsAccepted` | crates/tea-session/src/reducer.rs:525-529 | user messages are accepted iff their identities are distinct and new |
| `QueuedInput.AcknowledgedInOrder` | crates/tea-kernel/src/kernel.rs:844-877 | every acknowledged snapshot stands in the log: one message with every steering text as a line, in order, then the follow-ups as they were queued |
| `QueuedInput.AcknowledgedExactlyOnce` | crates/tea-kernel/src/kernel.rs:869-877 | an acknowledged follow-up is in the log exactly once |
| `QueuedInput.UnacknowledgedClogs` | crates/tea-kernel/src/kernel.rs:869-877 | a written snapshot whose follow-ups are still queued makes every later queue contents unacceptable, on every continuation of the log |
| `QueuedInput.ClogsLater` | crates/tea-session/src/reducer.rs:525-529 | a clogged queue stays clogged on every continuation while nothing is taken from it |
| `QueuedInput.SteeringTwice` | crates/tea-kernel/src/kernel.rs:844-877 | written but unacknowledged steering is accepted again under another identity |
| `QueuedInput.OneUnacknowledged` | crates/tea-kernel/src/kernel.rs:869-877 | the smallest log and queue where this happens |
| `Descriptor.CanonicalizeIff` | crates/tea-mcp/src/descriptor.rs:149-197 | canonicalization succeeds iff the depth is within the bound |
| `Descriptor.CanonicalIgnoresKeyOrder` | crates/tea-mcp/src/descriptor.rs:149-170 | canonical values are equal iff the values are equal up to key order |
| `Descriptor.CanonicalizeTwice` | crates/tea-mcp/src/descriptor.rs:149-170 | canonicalization is idempotent |
| `Descriptor.CanonicalKeysIncrease` | crates/tea-mcp/src/descriptor.rs:149-170 | in every object of a canonical value, at every depth, the keys increase |
| `Descriptor.PreimageInjective` | crates/tea-mcp/src/catalog.rs:275-288 | different descriptor and policy documents never hash the same bytes |
| `Descriptor.HashedAlike` | crates/tea-mcp/src/catalog.rs:226-288 | with an injective encoder the hashed bytes are equal iff both documents are equal up to key order |

## Left out

- Resume.ResumeApproval: an open approval must belong to a run the kernel paused, which `Session.ServeAll` proves of every session these commands produce; a journal with an open approval written by something else is not modelled.
- ModelTurn.StreamTurn: says exactly when there is a message, and when a stream is retried, for block sizes that do not depend on the identity drawn for the block, as they are with identities of fixed length.
- PromptRender.Compile: takes modules whose segments are not empty, which the segment constructor guarantees.
- Descriptor.CanonicalizeIff: the model converts values before it sorts their entries, which the source does the other way round; the outcome and the only error are the same.
- ProgressRouter.ProgressRouter.Subscribe: takes a positive event bound, since a channel of capacity zero cannot be made.
- Framing.BoundedFrameReader.Read: does not model I/O errors and the frame deadline, which return before any byte is taken.
- Poisoned locks and identity sources that repeat themselves; an identity the kernel draws is new.
- Session branches, forks and the journal format; the reducer model covers one branch and one writer.
- The text of transcripts, model requests and system prompts sent to a provider.
- Wall-clock time: deadlines, backoff and cancellation are arbitrary failures.
- The provider event validator's text limits and JSON checks; an invalid event aborts the turn in the model.
- Approval artifacts and grants, the policy engine, and the tool registry; verdicts are arbitrary.
- Bootstrap of MCP servers, process spawning and transports; a client is started or shut down, and reconnects are polled to completion.
- The manager's operations as sequential code; they are steps, because their meaning lies in the interleaving.
- The mapping of progress numbers to events, catalogs, aliases and descriptor validation, which would only add easy members.
- SHA-256, JSON text, UTF-8 validation and identifiers; encoders and identities are abstract with their properties stated.
- The command line, terminal modes, built-in tools and web access.
