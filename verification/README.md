# Verified model of the durable-execution engine

A Dafny model of the worker side of better-trigger and of the kernel contract it relies on, with
proofs of what the engine promises. `dafny verify dfyconfig.toml` checks everything.

The parts, and the files that hold them:

- **Replay over a fenced ledger.** `RunLedger` is the run's durable rows with every transaction that may
  touch them; `Fencing` proves what fencing tokens keep over any history. `Replay` is one execution pass of a
  task body, and the body is an arbitrary function from the attempt number and the responses so far to the
  next action, so it may catch everything. `ReplayWorld` puts any number of passes, live or stale, over one
  run, with lost requests, lost replies, writes that commit after their caller was told they failed, reaps,
  releases and cancels at any moment. `ReplayPasses`,
  `ReplayEffects`, `ReplaySignals`, `ReplayRefinement` and `ReplayExact` hold the theorems; `ReplayOutcomes` and
  `LedgerOutcomes` say what each call and each transaction comes to, in literal requests and rows; `Executor`
  is the executor as an object whose methods are proved to take exactly those steps.
- **The log pipeline** of an executor: `LogPipeline`.
- **The result-waiter registry**: `Waiters` (the machine), `WaiterPolling` and `WaiterOutcomes` (theorems), `WaiterRegistry`
  (the object).
- **The LISTEN connection** that reconnects under generation numbers: `Notify`.
- **The worker runtime**: `WorkerRuntime` and `RuntimeObject` (heartbeats, claim slots, shutdown), `Lease`
  (whether renewals arrive in time), `LeaseKeeping` (the same of the runtime's own timed runs).
- **Canonical JSON and replay fingerprints**: `Json`, `JsonText`, `JsonSpelling` (the spelling, in literal characters),
  `CanonicalJson`, `Provenance`.
- **Token buckets** and the two-bucket gate: `TokenBuckets`, `GateBounds` (from above and below, in the configuration's fields).
- **Small algorithms**: `PeakOverlap`, `Duration`, `Backoff`; `Options` and `Permutations` are shared.

Every state machine takes the code between two awaits as one step. Where the source updates fields
in place, the step functions are the specification, a class carries the fields, and each of its methods
ensures that the new state is that step of the old one; the theorems are about the step functions.

History variables exist for the statements only: `claim` on a row, `issued` on a pass, `calls` and `writes` in the
world, `sent` and `steps` in the pipeline, `seen`, `readAt` and `armed` on a waiter, `failures` in the listener, `leads`, `ticks`,
`executors` and `handBacks` in the runtime.

## What holds only under a condition

Plain statements that one would expect of the engine and that are false of the code. For each there is a concrete history,
and the exact condition under which it does hold.

| statement | a history in which it fails | exactly when it holds |
|---|---|---|
| Replay is faithful. | `ReplayExact.SwallowedErrorLosesTheStep`: a lost step report is swallowed and the run completes with an empty ledger | `ReplayExact.FaithfulExactlyIfGivesUp`: for a body that does not read the attempt number, when it gives up after a failed primitive, whatever control-flow signals it swallows; `ReplayExact.FaithfulExactlyIfFirstGivesUp`: for any body of a run that is never retried, when it does so in its first attempt |
| A step's fn never runs once its row is committed. | `ReplayEffects.ZombieInvokesAfterCommit`: a reaped pass that has not noticed yet | `ReplayEffects.LateInvocation`: unless a newer claim committed the row; never in the pass that holds the claim |
| A pass whose completion was accepted reports 'completed'. | `ReplaySignals.LostReplyCrashes`: the accepting reply is lost and the executor throws; `ReplaySignals.LateCompletionCrashes`: the completion commits after the pass was told it failed | `ReplaySignals.CompletedUnlessReplyLost`: when neither happens |
| A mandatory flush covers every earlier line. | `LogPipeline.ReturnAtOnceLeavesLine`: it finds the buffer empty while an append is in flight | `LogPipeline.AwaitedFlushCovers` on a non-empty buffer; `LogPipeline.ReturnAtOnceCoversIffIdle` on an empty one: when nothing is in flight |
| A heartbeat asks for all that is executed. | `WorkerRuntime.ReclaimLosesRenewal`: a run is claimed again while its older executor unwinds | `WorkerRuntime.HeartbeatCoversExecutions`: at every moment of a run, when no execution ends while another slot executes the same run |
| Stop tells every executor at work. | `WorkerRuntime.ReclaimIsNotTold`: the older executor of a re-claimed run | `WorkerRuntime.StopTellsAll`: when at that moment the in-flight map names all runs being executed and no two slots execute the same one |
| A worker holds the lease of every run it works on. | `LeaseKeeping.MissedLosesLease`: a run claimed right after a tick went out, and the next tick commits late | `LeaseKeeping.WorkerKeepsLeasesExactly`: when claim round trip, two heartbeat trips and timer lateness together are shorter than lease minus interval |
| A bucket's rate bound holds over any window. | `TokenBuckets.EvictionRefills`: a flood of keys evicts a drained per-key bucket | `TokenBuckets.BoundHoldsExactly`: for the buckets not named `key:`, in every history |
| A result wait times out when a poll of one's own would. | `WaiterPolling.LateReadOutlastsPoll`: the initial read takes time, and the waiter is pending where the poll has timed out | `WaiterPolling.BudgetStartsAtRead`: for every waiter of every history, when its initial read returned at the very instant of its call |

The source documents the flush and the eviction itself (`apps/worker/src/executor.ts:1200`, `apps/worker/src/rate-limit.ts:180`).
The last one differs from the header of `apps/worker/src/waiters.ts`, which says the registry's semantics match the kernel's poll
exactly; the registry sets the deadline at line 240, the poll at `packages/kernel/src/runs-read.ts:301`. The model follows the code.

## Model

| member | source | states |
|---|---|---|
| `Fencing.ApplyKeepsConsistent` | packages/kernel/src/runs-internal.ts:507-528 | every transaction, accepted or rejected, keeps status, queue row, owner, pending wait and token consistent with each other |
| `Fencing.HistoryAdvances` | packages/kernel/src/runs-internal.ts:507-528 | over any history the rows stay consistent, completed step rows are never rewritten, the token never falls, a terminal run never changes |
| `Fencing.RejectedForever` | packages/kernel/src/queue.ts:473-586 | credentials that may no longer write can never write again, whatever releases, reaps, suspensions, resumes and re-claims follow |
| `Fencing.TokensNeverRepeat` | packages/kernel/src/queue.ts:473-586 | the tokens handed out by the claims of any history are strictly increasing, so no token serves two claims |
| `Fencing.AcceptedInClaimOrder` | packages/kernel/src/runs-internal.ts:507-528 | accepted writes of any history are serialized by claim: a later one is by the same (worker, token) pair or by a newer token |
| `LedgerOutcomes.BudgetsSpent` | packages/kernel/src/orchestrator.ts:1241-1268 | over any history the recoveries spent are the workers lost, the attempts begun are the failures retried, and neither is spent by anything else |
| `LedgerOutcomes.ReapSpendsRecovery` | packages/kernel/src/orchestrator.ts:1193-1282 | an expired lease on a running run spends one recovery and requeues it in the same attempt and under the same token, or fails it when none is left; other locks are only cleared |
| `LedgerOutcomes.ReleaseSpendsNothing` | packages/kernel/src/queue.ts:1058-1137 | a worker's hand-back requeues its own claims as they were and touches no other |
| `LedgerOutcomes.CancelEnds` | packages/kernel/src/runs-terminal.ts:344-386 | cancel ends every run that is not completed, failed or canceled, with its queue row and its wait |
| `LedgerOutcomes.ClaimTakes` | packages/kernel/src/queue.ts:473-586 | a claim takes a queued run under the next token and changes nothing else |
| `LedgerOutcomes.OnlyWaitingResumes` | packages/kernel/src/orchestrator.ts:616-768 | a resumption records the wait, or the child with its result, and requeues a waiting run; any other run is left alone |
| `ReplayWorld.NextIsTransaction` | packages/kernel/src/runs-steps.ts:124-227 | whatever any pass does, the run changes only by one transaction of the ledger, so every history of passes is a fenced history |
| `ReplayWorld.HistoryKeepsLinked` | apps/worker/src/executor.ts:180-204 | over any history every pass holds a token the run has issued and a snapshot whose completed rows are in the ledger, and the pass that holds the claim runs the run's current attempt |
| `ReplayWorld.PassesPersist` | apps/worker/src/executor.ts:180-204 | worker, token, attempt and snapshot of a pass never change, and its position never falls |
| `ReplayOutcomes.FitClaim` | apps/worker/src/executor.ts:180-204 | a claim starts a pass at the first position with the rows as they are |
| `ReplayOutcomes.UnfitClaim` | apps/worker/src/executor.ts:263-299 | a run over the ledger cap, or with an invalid payload, is failed for good before its body is entered |
| `ReplayOutcomes.RecordedCall` | apps/worker/src/executor.ts:496-571 | a recorded primitive is answered from its row and asks nothing: the value if kind, and where stored the fingerprint of kind, label, input and code version, agree, a renamed label passing in lenient mode only; else an AbortError |
| `ReplayOutcomes.NewCall` | apps/worker/src/executor.ts:760-1093 | a primitive not recorded runs its fn or asks the kernel under the next position with the literal fingerprint and request of its kind; in a canceled run it ends the attempt instead |
| `ReplayOutcomes.UnserializableCall` | apps/worker/src/executor.ts:594-625 | inputs without JSON take a position and are told as an AbortError |
| `ReplayOutcomes.CallAfterTheEnd` | apps/worker/src/executor.ts:661-756 | after a signal a primitive takes no position and is told an AbortError; after an abandonment, ExecutionDone |
| `ReplayOutcomes.StepReturns` | apps/worker/src/executor.ts:783-908 | a step result that can be stored is its row and what the body is told; one that cannot leaves a failed row and an AbortError |
| `ReplayOutcomes.ReportAgain` | packages/kernel/src/runs-steps.ts:124-227 | a completed row stays; the report is accepted if the fingerprints agree or one is absent, and an AbortError if they differ |
| `ReplayOutcomes.StepThrows` | apps/worker/src/executor.ts:804-859 | a throwing step writes its failed row and reports the failure, as an abort exactly if it is one, under the step's policy if it has one, else the task's, and under none for an abort |
| `ReplayOutcomes.StepRetried` | apps/worker/src/executor.ts:804-859 | a run whose step threw is queued for the next attempt if and only if it was no abort and the attempt is below that policy's maxAttempts, the run's own if it has none; otherwise it is failed |
| `ReplayOutcomes.StepThrowsUnrecorded` | apps/worker/src/executor.ts:835-858 | the failure is reported in the same way when the failed row cannot be written |
| `ReplayOutcomes.StepThrowsOnAbort` | apps/worker/src/executor.ts:811-812 | a throw out of an fn that was told to stop abandons the attempt and reports nothing |
| `ReplayOutcomes.FailureLands` | packages/kernel/src/runs-terminal.ts:289-342 | an accepted failure requeues or fails the run by that rule; in a step the body is then told ExecutionDone, elsewhere the attempt ends as failed |
| `ReplayOutcomes.ValueRecorded` | apps/worker/src/executor.ts:1064-1093 | a clock, random or uuid value is recorded and answered with |
| `ReplayOutcomes.WaitOutcome` | apps/worker/src/executor.ts:930-968 | a due wait is recorded and over; any other suspends the run and its body, and its resumption records it and requeues the run in the same attempt |
| `ReplayOutcomes.ChildOutcome` | apps/worker/src/executor.ts:972-1015 | a child that can be created suspends the run and its body; one that cannot is an AbortError |
| `ReplayOutcomes.ChildThere` | packages/kernel/src/runs-steps.ts:381-517 | a child that exists by its row or its pending wait is not created again |
| `ReplayOutcomes.Resumes` | packages/kernel/src/orchestrator.ts:616-768 | a wait resumes with no value, a child with its result; a deleted child fails the run |
| `ReplayOutcomes.BatchOutcome` | apps/worker/src/executor.ts:1019-1057 | a batch is recorded and answered with the ids of its children, keeps those recorded before, and is an AbortError if it cannot be stored, with a failed row if its children exist |
| `ReplayOutcomes.LostWrite` | apps/worker/src/executor.ts:861-908 | a primitive's lost write is thrown into the body as it is and the attempt goes on; a lost completion makes the executor throw |
| `ReplayOutcomes.RefusedWrite` | packages/kernel/src/runs-internal.ts:507-528 | a write of a pass that does not own the running run changes nothing; its answer says whether the run is not running or is not held; the pass gives up |
| `ReplayOutcomes.BodyReturns` | apps/worker/src/executor.ts:312-328 | a body that returns has its completion asked for with that output |
| `ReplayOutcomes.CompletionOutcome` | apps/worker/src/executor.ts:325-344 | a completion completes the run with that output; an output that cannot be stored is reported as a failure without retry |
| `ReplayOutcomes.BodyThrows` | apps/worker/src/executor.ts:347-369 | an error between steps is reported, as an abort exactly if it is one, under the task's policy, and under none for an abort |
| `ReplayOutcomes.ErrorRetried` | apps/worker/src/executor.ts:347-369 | a run whose body threw is queued again by the same rule as for a step |
| `ReplayOutcomes.AttemptOver` | apps/worker/src/executor.ts:347-389 | in every other case the attempt ends with nothing asked: suspended, abandoned or failed, as the signal it swallowed or threw, or the mark it carries, stands for |
| `ReplayOutcomes.Marks` | apps/worker/src/executor.ts:214-246 | the first mark is the reason to stop, and only a cancel marks the run canceled |
| `ReplayPasses.HistoryKeepsOrdered` | apps/worker/src/executor.ts:751-756 | over any history a pass is only ever where the code can be, and the rows committed under its claim lie behind its position |
| `ReplayPasses.HolderMisses` | apps/worker/src/executor.ts:751-800 | the pass that holds the claim never executes a primitive whose row is already completed |
| `ReplayEffects.EffectsChargedToLostPasses` | apps/worker/src/executor.ts:760-859 | over any history a pass invokes an fn at most once per position; a completed step row comes from an invocation by the claim that committed it; every other invocation there is by an older claim |
| `ReplayEffects.LateInvocation` | apps/worker/src/executor.ts:503-504 | an fn runs after its row was committed if and only if a newer claim committed it; never in the pass that holds the claim |
| `ReplayEffects.ZombieInvokesAfterCommit` | apps/worker/src/executor.ts:760-796 | a concrete history in which a reaped pass invokes an fn whose row a newer claim has committed |
| `ReplaySignals.NothingAfterSignal` | apps/worker/src/executor.ts:661-756 | for every body, once SuspendSignal or ExecutionDone was thrown no fn runs and nothing is issued but at most one failure report, and after the body has ended it never gets another turn |
| `ReplaySignals.NothingAfterRejection` | apps/worker/src/executor.ts:78-83 | once a pass has been told that a write was rejected, over every continuation it runs no fn and issues nothing but at most one failure report |
| `ReplaySignals.ResultsMeanWhatTheySay` | apps/worker/src/executor.ts:313-389 | suspended only if a suspension of this pass was accepted; completed only if its completion was, with that output in the run; a finished pass whose completion was accepted is completed or has thrown |
| `ReplaySignals.CompletedUnlessReplyLost` | apps/worker/src/executor.ts:325-344 | a finished pass whose completion was accepted has thrown if and only if somewhere in the history the accepting reply was lost or the completion was accepted after the pass was told it failed, and is completed if and only if neither |
| `ReplaySignals.LostReplyCrashes` | apps/worker/src/executor.ts:325-344 | a literal history for any body that returns at once: the run is completed with its output and the executor throws |
| `ReplaySignals.LateCompletionCrashes` | apps/worker/src/executor.ts:325-344 | a literal history for any body that returns at once: its completion commits only after the executor has thrown |
| `ReplayRefinement.HistoryRefines` | apps/worker/src/executor.ts:263-344 | for a body that gives up after a failed primitive: over any history the completed rows are one gapless prefix of results, each asked for by the body at that point, and every pass follows it |
| `ReplayExact.ReplayRefinesTheLastAttempt` | apps/worker/src/executor.ts:263-344 | a body that reads the attempt number: no gap, and the output is what the body returns in the attempt in which the run completed, on a prefix of the recorded results |
| `ReplayExact.ReplayRefinesOneExecution` | apps/worker/src/executor.ts:263-344 | a body that does not: the ledger is gapless and the output is what one uninterrupted execution returns on the recorded results |
| `ReplayExact.UnfaithfulHistory` | apps/worker/src/executor.ts:861-908 | for every other body a history is built whose ledger has a gap or whose output is not what its results determine |
| `ReplayExact.FaithfulExactlyIfGivesUp` | apps/worker/src/executor.ts:263-344 | replay is faithful in every history if and only if the body gives up after a failed primitive |
| `ReplayExact.FaithfulExactlyIfFirstGivesUp` | apps/worker/src/executor.ts:263-344 | for any body, also one that reads the attempt number, of a run that is never retried: replay is faithful in every history if and only if the body gives up after a failed primitive in its first attempt |
| `ReplayExact.FaithfulNeedsGivingUp` | apps/worker/src/executor.ts:263-344 | for any body and run: if replay is faithful in every history, the body gives up after a failed primitive in its first attempt |
| `ReplayExact.SwallowedErrorLosesTheStep` | apps/worker/src/executor.ts:861-908 | a literal history of a one-step body: its fn has run, its report is lost and swallowed, and the run is completed with an empty ledger, which is not faithful |
| `ExecutorObject.Executor.constructor` | apps/worker/src/executor.ts:179-204 | a new executor is the start of a pass; a run over the ledger cap or with an invalid payload goes straight to its failure report |
| `ExecutorObject.Executor.MarkCanceled` | apps/worker/src/executor.ts:214-246 | cancel is noted and the first abort reason wins |
| `ExecutorObject.Executor.MarkLost` | apps/worker/src/executor.ts:237-246 | a lost lease is noted as the abort reason unless there is one |
| `ExecutorObject.Executor.TakeTurn` | apps/worker/src/executor.ts:263-344 | the stretch from one answer to the body to its next primitive, return or throw is exactly one turn of the pass |
| `ExecutorObject.Executor.HandleThrown` | apps/worker/src/executor.ts:347-369 | what escapes the body is classified as suspended, done, abandoned or a failure to report, as in the pass |
| `ExecutorObject.Executor.BeginPrimitive` | apps/worker/src/executor.ts:698-756 | no position is taken after a signal or when abandoned; otherwise exactly the next one |
| `ExecutorObject.Executor.MustExecute` | apps/worker/src/executor.ts:496-571 | an accepted row answers, drift and unserializable inputs throw, a canceled run is abandoned; true exactly when the primitive must run |
| `ExecutorObject.Executor.DoStep` | apps/worker/src/executor.ts:760-796 | a step is a position, the replay check, then its fn |
| `ExecutorObject.Executor.DoWait` | apps/worker/src/executor.ts:930-968 | a wait is a position, the replay check, then suspendRun |
| `ExecutorObject.Executor.DoTriggerAndWait` | apps/worker/src/executor.ts:972-1015 | triggerAndWait is a position, the replay check, then waitForChildRun |
| `ExecutorObject.Executor.DoBatchTrigger` | apps/worker/src/executor.ts:1019-1057 | batchTrigger is a position, the replay check, then batchTriggerChild |
| `ExecutorObject.Executor.DoDeterministic` | apps/worker/src/executor.ts:1064-1093 | now, random and uuid are a position, the replay check, then a completed report |
| `ExecutorObject.Executor.FnSettled` | apps/worker/src/executor.ts:783-859 | an fn result is reported; a throw is our own abort landing, or a failed report with the retry that applies |
| `ExecutorObject.Executor.Deliver` | apps/worker/src/executor.ts:861-908 | each reply to each outstanding write continues as in the pass, for all seven continuations |
| `LogPipeline.PipelineSound` | apps/worker/src/executor.ts:1140-1241 | every interleaving of logging, flush calls, chain steps and replies keeps the chain serial, the lines accounted for, the flushes covering and the bounds |
| `LogPipeline.EachLineHasOneFate` | apps/worker/src/executor.ts:1140-1241 | every logged line is in exactly one of buffered, in flight, delivered, lost with its batch, dropped by overflow; a line never logged is in none |
| `LogPipeline.OrderAndBounds` | apps/worker/src/executor.ts:127-128 | sent, in-flight and buffered lines together are in log order; at most 1000 are buffered; an opportunistic flush has at most three waiting before it |
| `LogPipeline.FullBatchIsFlushed` | apps/worker/src/executor.ts:1168-1170 | at no moment of any run are fifty lines buffered without a flush waiting to take them |
| `LogPipeline.FiftiethLineFlushes` | apps/worker/src/executor.ts:1140-1171 | a line that leaves fifty buffered calls one opportunistic flush, an earlier one none; past 1000 the newest 500 stay and the others are dropped |
| `LogPipeline.FlushJoins` | apps/worker/src/executor.ts:1204-1224 | a flush joins if something is buffered and it is awaited or fewer than four wait; the step that begins takes all that is buffered |
| `LogPipeline.AppendSettlesLines` | apps/worker/src/executor.ts:1225-1240 | an append that succeeds delivers its lines, one that fails loses them, and the chain goes on |
| `LogPipeline.AwaitedFlushCovers` | apps/worker/src/executor.ts:1187-1215 | once a mandatory flush called on a non-empty buffer has settled, every line logged before the call is delivered, lost or dropped |
| `LogPipeline.ReturnAtOnceCoversIffIdle` | apps/worker/src/executor.ts:1204-1205 | a mandatory flush on an empty buffer changes nothing, and the earlier lines are all settled if and only if no append is in flight |
| `LogPipeline.ReturnAtOnceLeavesLine` | apps/worker/src/executor.ts:1204-1205 | a literal history after which a mandatory flush returns at once with a line's append still in flight |
| `LogPipeline.LogShipper.Log` | apps/worker/src/executor.ts:1140-1171 | pushes, drops back to half when over the bound, flushes at the threshold: the new state is the LineLogged step |
| `LogPipeline.LogShipper.FlushLogs` | apps/worker/src/executor.ts:1204-1217 | the new state is the FlushCalled step: refused, returned at once, or queued |
| `LogPipeline.LogShipper.FlushOnce` | apps/worker/src/executor.ts:1220-1224 | the head of the chain takes the whole buffer |
| `LogPipeline.LogShipper.AppendSettled` | apps/worker/src/executor.ts:1225-1240 | the batch ends delivered or lost and the chain is free again |
| `WaiterPolling.RunKeepsSound` | apps/worker/src/waiters.ts:137-394 | every interleaving of registrations, reads, notifications, sweeps, timers, aborts and stop keeps every waiter sound, and a settlement never changes |
| `WaiterPolling.SettlesAtMostOnce` | apps/worker/src/waiters.ts:137-154 | a settled waiter keeps its settlement for ever and is never active or pending again |
| `WaiterPolling.NoWaiterIsLost` | apps/worker/src/waiters.ts:223-251 | a waiter is active or settled; an active one is in its initial read or pending, never both; pending is within active; a pending one with a finite budget has a timer in range running |
| `WaiterPolling.SettlesAsThePollWould` | apps/worker/src/waiters.ts:14-30 | unless aborted, stopped or failed by its initial read, a waiter gets what a poll of its own over the same reads gives: a terminal row it read, not found, or after its budget the last status, never a terminal one and never early |
| `WaiterOutcomes.SettledAsCalled` | apps/worker/src/waiters.ts:191-205 | in every history: who timed out with an error called with throwOnTimeout and a limit other than zero; who got a status called without it or with a limit of zero; a result is of a completed, failed or canceled run |
| `WaiterOutcomes.CallAnswered` | apps/worker/src/waiters.ts:253-290 | a call is refused when stopped, its signal has fired, or its limit is negative or no number; any other is read at once, with its own milliseconds as limit, 30000 if it gives none, none for Infinity |
| `WaiterOutcomes.InitialReadAnswered` | apps/worker/src/waiters.ts:223-251 | the initial read rejects, resolves or parks the waiter; parked, its deadline is now plus its limit and its timer the time left, rounded up, at most 2147483647 |
| `WaiterOutcomes.TimerAnswered` | apps/worker/src/waiters.ts:191-221 | a fired timer ends the wait at its deadline, with an error if one was asked for, else with the last status, or sets the next timer |
| `WaiterOutcomes.NotificationReads` | apps/worker/src/waiters.ts:292-303 | a notification for a run that is waited for starts a read for all who wait for it |
| `WaiterOutcomes.NotificationAnswers` | apps/worker/src/waiters.ts:292-317 | that read answers each of them: not found, the result, or the status to wait on with; a failed read changes nothing |
| `WaiterOutcomes.EmptiedSetStaysEmpty` | apps/worker/src/waiters.ts:292-306 | a set captured by a read and emptied since stays empty: later waiters of the same run are in another |
| `WaiterOutcomes.TicksSweep` | apps/worker/src/waiters.ts:319-371 | a tick sweeps all who are pending, unless a sweep is running or nobody is |
| `WaiterOutcomes.SweepAnswers` | apps/worker/src/waiters.ts:319-357 | a sweep answers each of them: not found, the result, the timeout of its deadline, or the status; a failed one changes no waiter and makes room for the next |
| `WaiterOutcomes.SignalAborts` | apps/worker/src/waiters.ts:281-285 | a fired signal aborts its waiter |
| `WaiterOutcomes.StopRejects` | apps/worker/src/waiters.ts:381-392 | stop rejects every active waiter as stopped |
| `WaiterPolling.SweepLeavesNone` | apps/worker/src/waiters.ts:319-357 | a sweep that reads a run as terminal or gone leaves none of the waiters it started with pending |
| `WaiterPolling.NotificationLeavesNone` | apps/worker/src/waiters.ts:292-317 | so does the read behind a notification, for the members of the set it captured |
| `WaiterPolling.NothingAfterStop` | apps/worker/src/waiters.ts:381-392 | after stop all waiters are settled, nothing is active or pending and nothing becomes so again, whatever reads come back |
| `WaiterPolling.DeadlineChainEnds` | apps/worker/src/waiters.ts:193-221 | if timers fire no earlier than asked, a budget arms at most ceil(budget / 2147483647) timers |
| `WaiterPolling.BudgetStartsAtRead` | apps/worker/src/waiters.ts:223-247 | in every history, for every waiter past its initial read: its deadline is the moment of its own registration plus the limit that call gave, 30000 ms if none, as a poll's would be, if and only if that read returned at that moment; on a clock that never goes back it is never earlier |
| `WaiterPolling.LateReadOutlastsPoll` | apps/worker/src/waiters.ts:223-247 | a literal history in which the initial read takes time: at an instant past the poll's deadline the waiter is still pending |
| `WaiterPolling.PollMeans` | packages/kernel/src/runs-read.ts:284-372 | what the reference poll can return: a terminal row it read, not found only for a missing row, a non-terminal status it read |
| `WaiterRegistryObject.WaiterRegistry.Remove` | apps/worker/src/waiters.ts:137-154 | true exactly for an active entry, which leaves active, pending, its timer and its listener; an emptied set leaves the map |
| `WaiterRegistryObject.WaiterRegistry.SettleWith` | apps/worker/src/waiters.ts:156-191 | settles an active entry, and does nothing for one that is not |
| `WaiterRegistryObject.WaiterRegistry.Arm` | apps/worker/src/waiters.ts:207-221 | settles by timeout, or arms the next chunk of the deadline |
| `WaiterRegistryObject.WaiterRegistry.RegisterWaiter` | apps/worker/src/waiters.ts:253-290 | refuses when stopped, aborted or given a bad timeout, in that order; otherwise the entry is active and being read |
| `WaiterRegistryObject.WaiterRegistry.Initialize` | apps/worker/src/waiters.ts:223-251 | the continuation of the initial read is the InitialReadReturned step |
| `WaiterRegistryObject.WaiterRegistry.ResolveReturned` | apps/worker/src/waiters.ts:292-317 | the loop over the captured set is the ResolveReadReturned step |
| `WaiterRegistryObject.WaiterRegistry.Poll` | apps/worker/src/waiters.ts:359-371 | a tick starts a sweep only if none is running |
| `WaiterRegistryObject.WaiterRegistry.Sweep` | apps/worker/src/waiters.ts:319-357 | the loop over the swept entries is the SweepReturned step |
| `WaiterRegistryObject.WaiterRegistry.FireDeadline` | apps/worker/src/waiters.ts:215-219 | a fired timer re-arms or times out |
| `WaiterRegistryObject.WaiterRegistry.Stop` | apps/worker/src/waiters.ts:381-392 | the loop rejects every active entry; none is left |
| `Notify.NextKeepsSound` | apps/worker/src/notify.ts:151-293 | every event keeps: all but the newest client ended, one timer at most and only when one is due, the newest attempt in one known stage |
| `Notify.NeverSilentlyDead` | apps/worker/src/notify.ts:155-279 | while not stopping exactly one holds: the newest attempt is in progress, its client is live and listening, one timer is armed |
| `Notify.OneClientOneTimer` | apps/worker/src/notify.ts:151-210 | at most one client is open and it is the newest; at most one timer is armed and its handle is the one kept |
| `Notify.NoAttemptIsSuperseded` | apps/worker/src/notify.ts:199-210 | an attempt that connects is the current one unless stop was called: the superseded branch is dead code |
| `Notify.StopIsFinal` | apps/worker/src/notify.ts:284-293 | after stop every client is ended, no timer runs, and no client or timer is ever made |
| `Notify.BackoffPace` | apps/worker/src/notify.ts:155-179 | after k failures in a row the next reconnect waits min(30000, base * 2^k); a listening connection has reset it to the base |
| `Notify.ConnectionUp` | apps/worker/src/notify.ts:178-210 | a connection that comes up resets the delay, and goes live only if it is the newest, kept, and not stopping; otherwise it is put down |
| `Notify.AttemptFailed` | apps/worker/src/notify.ts:181-200 | a failed attempt ends its client, forgets it, and schedules a reconnect only if it is the newest |
| `Notify.ConnectionLost` | apps/worker/src/notify.ts:243-279 | an error or the end of the current connection schedules one reconnect; a stale one is only ended |
| `Notify.TimerConnects` | apps/worker/src/notify.ts:155-176 | a fired timer makes the next attempt, and under stop none |
| `Notify.NotifyListener.Established` | apps/worker/src/notify.ts:171-210 | the continuation of connect and LISTEN is the Connected step |
| `Notify.NotifyListener.RefusedClientEnded` | apps/worker/src/notify.ts:180-197 | the end of a failed attempt is the FailedClientEnded step |
| `Notify.NotifyListener.OnClientError` | apps/worker/src/notify.ts:243-263 | an error event is the ClientError step |
| `Notify.NotifyListener.OnClientEnd` | apps/worker/src/notify.ts:264-279 | an end event is the ClientEnd step |
| `Notify.NotifyListener.Close` | apps/worker/src/notify.ts:284-293 | stop is the StopCalled step |
| `WorkerRuntime.HeartbeatsNeverOverlap` | apps/worker/src/runtime.ts:219-283 | at most one heartbeat is outstanding, none while a callback is pending, and until the drain is over the chain is never broken |
| `WorkerRuntime.HandBackIsLast` | apps/worker/src/runtime.ts:454-538 | the hand-back begins at most once; from then on no heartbeat is outstanding and none is sent, however late a timer callback runs; from the end of the drain on no timer is set |
| `WorkerRuntime.LateClaimsAreReleased` | apps/worker/src/runtime.ts:366-393 | after stop no claim call is made and no executor either; a claim that resolves then is released and its slot exits |
| `WorkerRuntime.EachNamespaceLeads` | apps/worker/src/runtime.ts:285-303 | in any n consecutive claim calls, by whichever slots, each of the n namespaces leads the scan exactly once |
| `WorkerRuntime.SlotsLeaveOnlyWhenStopping` | apps/worker/src/runtime.ts:297-393 | over every run of the runtime a slot has left its loop, or is handing a run back to leave, only when stopping |
| `WorkerRuntime.SlotsKeepClaiming` | apps/worker/src/runtime.ts:297-447 | at every moment while serving each slot is in a claim call or reaches one by its own events alone |
| `WorkerRuntime.ClaimsAgain` | apps/worker/src/runtime.ts:304-447 | whatever a claim call answers while serving, an error included, its slot is back at a claim call by three events of its own |
| `WorkerRuntime.ClaimServed` | apps/worker/src/runtime.ts:394-426 | a claimed run is executed by a new executor that the in-flight map then holds; one of an unknown task is handed back |
| `WorkerRuntime.SlotsLeave` | apps/worker/src/runtime.ts:297-393 | once stopping every slot leaves by its own events, without a claim call or an execution, whatever a call that is out answers |
| `WorkerRuntime.HeartbeatCoversExecutions` | apps/worker/src/runtime.ts:420-447 | what a heartbeat asks for is always being executed; it is all that is executed, at every moment of a run, if and only if no execution ends while another slot executes the same run; never claiming a run again while it unwinds is enough |
| `WorkerRuntime.ReclaimLosesRenewal` | apps/worker/src/runtime.ts:425-446 | a concrete history in which a re-claimed run is executed without being in flight |
| `WorkerRuntime.StopTells` | apps/worker/src/runtime.ts:459-467 | over any history before stop and any after it: an executor still at work was at work at stop, and has been told to unwind if and only if the in-flight map held it then |
| `WorkerRuntime.StopTellsAll` | apps/worker/src/runtime.ts:459-467 | stop tells every executor at work if and only if the in-flight map then names all runs being executed and no two slots execute the same one; never claiming a run again while it unwinds is enough |
| `WorkerRuntime.ReclaimIsNotTold` | apps/worker/src/runtime.ts:425-467 | a concrete history in which stop does not tell the older executor of a re-claimed run |
| `RuntimeObject.Runtime.OnTimer` | apps/worker/src/runtime.ts:271-280 | a timer callback sends the heartbeat for the keys of the in-flight map, or nothing when it comes too late |
| `RuntimeObject.Runtime.BeginClaim` | apps/worker/src/runtime.ts:297-303 | the head of the claim loop exits when stopping, else leads with the rotation and advances it |
| `RuntimeObject.Runtime.OnClaim` | apps/worker/src/runtime.ts:304-425 | a claim reply is executed, released, slept on, or ends the slot, as in the machine |
| `RuntimeObject.Runtime.Stop` | apps/worker/src/runtime.ts:456-467 | the first call sets stopping and its loop tells every executor; later calls change nothing |
| `Lease.LegalExactly` | apps/worker/src/numeric-config.ts:3-36 | a lease is legal if and only if it is 1500 to 6442450943 ms, which is if and only if three heartbeat intervals fit it and the interval fits one timer; the interval is a third of it, rounded down, and at least 500 ms |
| `Lease.LeaseSurvives` | apps/worker/src/runtime.ts:219-283 | with claim round trip C, heartbeat trip L and timer lateness J, if C + 2L + J < lease - interval a claimed run holds a lease at every instant, even if it joined just after a tick took its snapshot |
| `Lease.SurvivesExactly` | apps/worker/src/runtime.ts:219-283 | every schedule on pace keeps the lease if and only if that bound holds |
| `LeaseKeeping.BeatsAreChain` | apps/worker/src/runtime.ts:219-283 | the heartbeats of any timed run of the runtime's machine, in time and not yet drained, form a chain in which each tick is sent one interval after the last one settled |
| `LeaseKeeping.PlaysIsRun` | apps/worker/src/runtime.ts:219-283 | without its clock a timed run is a run of the runtime |
| `LeaseKeeping.WorkerKeepsLease` | apps/worker/src/runtime.ts:219-447 | under the bound, in any timed run a run that was claimed and is still worked on holds a lease now, by its claim or by a tick whose snapshot named it |
| `LeaseKeeping.WorkerKeepsLeasesExactly` | apps/worker/src/runtime.ts:219-447 | all timed runs on pace keep the leases of the runs they work on if and only if that bound holds |
| `LeaseKeeping.MissedLosesLease` | apps/worker/src/runtime.ts:219-447 | without it, a timed run that claims right after a tick and loses the lease |
| `Json.InOrderPermutes` | packages/core/src/serialize.ts:66-77 | each key order lists every key of an object exactly once |
| `Json.SameSorts` | packages/core/src/serialize.ts:66-77 | trees equal up to key order at every depth have one sorted arrangement |
| `Json.SortsSame` | packages/core/src/serialize.ts:66-77 | trees with one sorted arrangement are equal up to key order at every depth |
| `Json.ArrangeSame` | packages/core/src/serialize.ts:66-77 | rebuilding a tree in any key order gives a well-formed tree that is the same |
| `JsonText.StringReads` | packages/core/src/serialize.ts:59-63 | a quoted string, with escapes, surrogate pairs and lone surrogates, reads back as the string |
| `JsonText.ValueReads` | packages/core/src/serialize.ts:59-63 | the text of a tree, in front of whatever may follow a value, reads back as that tree and leaves the rest |
| `JsonText.ParseWrite` | packages/core/src/serialize.ts:59-63 | the text of a tree parses to that tree |
| `JsonSpelling.LiteralNames` | packages/core/src/serialize.ts:59-63 | null, true and false are written so (RFC 8259, section 3), a number as its token |
| `JsonSpelling.ArraySpelled` | packages/core/src/serialize.ts:59-63 | brackets around the items and commas between them (sections 2 and 5) |
| `JsonSpelling.ObjectSpelled` | packages/core/src/serialize.ts:59-63 | braces around the fields, each a string, a colon and a value (sections 2 and 4) |
| `JsonSpelling.StringSpelled` | packages/core/src/serialize.ts:59-63 | quotation marks around the units: the two-character escapes, lower-case hexadecimal ones for other controls and lone surrogates, the rest as it is (section 7) |
| `JsonSpelling.EscapesRead` | packages/core/src/serialize.ts:59-63 | the escapes a reader accepts, the solidus among them (section 7) |
| `JsonSpelling.NoOtherEscape` | packages/core/src/serialize.ts:59-63 | and no others |
| `JsonSpelling.ControlsRefused` | packages/core/src/serialize.ts:59-63 | a bare control character in a string is refused |
| `JsonSpelling.HexDigitsRead` | packages/core/src/serialize.ts:59-63 | hexadecimal digits are read in either case |
| `JsonSpelling.BlankSkipped` | packages/core/src/serialize.ts:59-63 | spaces, tabs and line ends are skipped (section 2) |
| `JsonSpelling.NothingFollows` | packages/core/src/serialize.ts:59-63 | after the value only blanks may follow |
| `JsonSpelling.LastValueWins` | packages/core/src/serialize.ts:59-63 | a name that comes twice keeps its place and has the last value |
| `JsonSpelling.NumberTokensExactly` | packages/core/src/serialize.ts:59-63 | a number token is exactly a sign, an integer without leading zero, a fraction and an exponent (section 6) |
| `JsonSpelling.IndexKeysExactly` | packages/core/src/serialize.ts:49-57 | an integer-index key is exactly the decimal numeral of a number up to 4294967294 |
| `JsonSpelling.BelowExactly` | packages/core/src/serialize.ts:49-57 | code-unit order: a proper prefix, or smaller at the first unit that differs |
| `CanonicalJson.CanonicalDenotes` | packages/core/src/serialize.ts:59-77 | the canonical string parses to a tree that is the same up to key order |
| `CanonicalJson.CanonicalIffSame` | packages/core/src/serialize.ts:59-77 | two trees have one canonical string if and only if they are equal up to key order at every depth |
| `CanonicalJson.CanonicalIdempotent` | packages/core/src/serialize.ts:59-77 | canonicalizing what a canonical string denotes gives that string back |
| `CanonicalJson.CanonicalKeyOrder` | packages/core/src/serialize.ts:49-57 | the canonical string, read back, lists in every object at every depth its integer-index keys first, in numeric order, then the others in code-unit order |
| `CanonicalJson.CanonicalizePlain` | packages/core/src/serialize.ts:66-77 | the recursive rebuild, with its loops over items and sorted keys, gives the sorted arrangement |
| `Provenance.FingerprintIff` | packages/kernel/src/fingerprint.ts:62-71 | two fingerprints are equal if and only if kind, label and code version are equal and the inputs are the same JSON |
| `Provenance.HashedRecord` | packages/kernel/src/fingerprint.ts:62-71 | what is hashed is the canonical text of {v: 1, kind, label, input, code} with these names and the kinds spelled out, null for an absent label or version |
| `Provenance.ReplayedRowIsOurs` | apps/worker/src/executor.ts:496-571 | a replayed row is completed and of the call site's kind; with a fingerprint, its writer had that kind, code version and JSON-equal input, and in strict mode that label where both have one |
| `Provenance.ReplayedExactly` | apps/worker/src/executor.ts:496-571 | against a row that stores its writer's label and fingerprint, the check passes if and only if nothing changed, or only the label did and the task is lenient |
| `TokenBuckets.TableBounded` | apps/worker/src/rate-limit.ts:170-205 | under any requests, with the configuration changing from one to the next, the table never exceeds 4096 entries and a global bucket is never given up |
| `TokenBuckets.GlobalWindowBound` | apps/worker/src/rate-limit.ts:215-247 | in any window of any history, with the configuration changing from request to request, the gate lets through at most burst + rate * length requests of an endpoint whose globalRps, for reads readGlobalRps, and burst stay on and at most those |
| `GateBounds.KeyWindowBound` | apps/worker/src/rate-limit.ts:224-242 | so for one key with rps, or readRps, in any window in which its bucket is not given up |
| `GateBounds.PausedBurstPasses` | apps/worker/src/rate-limit.ts:224-247 | from below: whatever came before, after a pause in which both rates earn n tokens, n up to the burst, n requests pass at once |
| `GateBounds.FirstBurstPasses` | apps/worker/src/rate-limit.ts:224-247 | from nothing the whole burst passes at once |
| `TokenBuckets.GateNeedsBoth` | apps/worker/src/rate-limit.ts:224-245 | a request passes if and only if its key's bucket at rps, for reads readRps, and its endpoint's at globalRps, for reads readGlobalRps, both grant it, a rate of 0 granting all; one refused by its key's bucket draws nothing from the global one; a burst of 0 lets all through |
| `TokenBuckets.BucketWindowBound` | apps/worker/src/rate-limit.ts:170-205 | with a monotone clock, a bucket asked for at most a rate and a capacity and not evicted in the window admits at most capacity + rate * length calls |
| `TokenBuckets.RestedBucketAdmitsBurst` | apps/worker/src/rate-limit.ts:170-205 | a bucket never used, or rested, admits its whole capacity in a row |
| `TokenBuckets.EvictionRefills` | apps/worker/src/rate-limit.ts:176-192 | a literal history from the empty table, all at one instant: a key takes its capacity, 4096 other keys come by, and it is granted one more |
| `TokenBuckets.BoundHoldsExactly` | apps/worker/src/rate-limit.ts:176-192 | for a positive capacity, the bound holds in every history if and only if the bucket is not a per-key one |
| `TokenBuckets.Limiter.Take` | apps/worker/src/rate-limit.ts:170-205 | one call refills, takes or refuses as the specification does |
| `TokenBuckets.Limiter.EvictOldest` | apps/worker/src/rate-limit.ts:185-190 | the scan removes the earliest-inserted per-key bucket, if there is one |
| `PeakOverlap.SortEvents` | examples/basic/scripts/concurrency.ts:177-177 | the events are sorted by instant, ends before starts, and are the same events |
| `PeakOverlap.PeakOf` | examples/basic/scripts/concurrency.ts:172-185 | no instant has more half-open spans alive than the peak, and some instant has that many |
| `Duration.AcceptsExactlySentences` | packages/core/src/duration.ts:25-58 | a string is accepted if and only if it is one or more number-unit tokens with distinct units and optional spaces |
| `Duration.SentenceValue` | packages/core/src/duration.ts:25-58 | a sentence has the floor of the exact sum of its tokens as its value |
| `Duration.UnitsSpelledOut` | packages/core/src/duration.ts:6-13 | the six units as written, and their milliseconds |
| `Duration.CharactersSpelledOut` | packages/core/src/duration.ts:32-33 | the spaces, the digits, and the lower case of a capital, character by character |
| `Duration.NumeralSpelledOut` | packages/core/src/duration.ts:32-47 | an integer part is worth its numeral |
| `Duration.NumbersSpelledOut` | packages/core/src/duration.ts:25-31 | a number is its own floor, and refused if negative or not finite |
| `Duration.OrderIrrelevant` | packages/core/src/duration.ts:25-58 | sentences with the same tokens in any order have the same value |
| `Duration.HourAndAHalf` | packages/core/src/duration.ts:20-24 | the example "1h30m" is 5400000 ms |
| `Duration.DecimalsAreShifted` | packages/core/src/duration.ts:47-47 | k digits after the point are worth the numeral they spell divided by 10^k |
| `Duration.ParseDuration` | packages/core/src/duration.ts:25-58 | the loop over the matches computes that parse, refusing a repeated unit |
| `Duration.NeverNegative` | packages/core/src/duration.ts:25-58 | no accepted duration is negative |
| `Duration.DatesStayInRange` | packages/core/src/duration.ts:61-78 | from a Date in range, the result is the exact sum and a Date in range, and only leaving the range or not being a duration is refused |
| `Backoff.ResolvesExactly` | packages/core/src/backoff.ts:18-72 | a policy is refused if and only if a field that is present is out of range: maxAttempts a whole number from 1 to 2147483647, baseMs and maxMs not negative, factor at least 1; the merge takes every present field, and 3, 1000, 2 and 300000 for the absent ones |
| `Backoff.RawRises` | packages/core/src/backoff.ts:81-92 | the unjittered delay never falls with the attempt and never exceeds maxMs |
| `Backoff.RawGrows` | packages/core/src/backoff.ts:81-92 | the first failure waits baseMs, each further one factor times the last, up to maxMs |
| `Backoff.RawReachesMax` | packages/core/src/backoff.ts:81-92 | with a positive base and a factor above 1 the delay reaches maxMs after finitely many attempts and stays there |
| `Backoff.JitterBounds` | packages/core/src/backoff.ts:93-98 | the jittered delay is within rounding of 0.8 to 1.2 times the unjittered one |

## Left out

- ReplayExact.ReplayRefinesTheLastAttempt: for a body that reads the attempt number and a run that is retried, giving up in every attempt is enough and giving up in the first is necessary; which later attempts matter depends on which of them the retries can reach, and no if-and-only-if is stated there.
- Parallel siblings: primitives are awaited one at a time; a body that starts several at once (Promise.all) is outside the model.
- Bad arguments of a wait, and nested primitives inside a step, throw before a position is taken and are part of the body.
- The awaits of log flushes inside the executor are merged into the step around them; the flushes themselves are in LogPipeline.
- Step inputs and outputs in the replay model are abstract JSON values; whether a value can be stored at all is a choice of the environment.
- The kernel's transactions are modelled as functions on one run's rows; SQL, locks, indexes, namespaces, concurrency limits, queue order and backoff scheduling are not.
- The ledger snapshot of a pass is read in the same step as its claim; the source reads it shortly after, outside that transaction, when only that claim can add rows as long as it holds.
- A batch whose payloads cannot be serialized is refused before the fence is checked; the model checks the fence first.
- Child runs: only what the parent's rows see of them, their result or their loss.
- The digest of `RunLedger` is a structure, which Provenance justifies for any injective hash; sha256 and its truncation to 16 hex digits are not modelled.
- `Date.now()` is read once per stretch of code between two awaits; in the source the loops of the waiter registry may read it again a moment later.
- The namespace columns of the waiter registry's reads, its counters, and the throttled logs of every component.
- Which members of a set a loop visits first: the waiter registry's theorems hold for every order.
- Parsing and dispatch of notifications, the wake signal, and errors of `end()`, which the source ignores.
- `RuntimeObject.Runtime`: wake-ups, ended executions, releases, the hand-back and the deregistration assign one or two fields each and are steps of the machine only.
- Heartbeat replies: marking runs canceled or lost is modelled in the executor, not the map lookup in the runtime.
- `LeaseKeeping.WorkerKeepsLease`: until the drain is over; what happens to leases afterwards is the hand-back's business.
- JavaScript values that are not JSON trees: getters, toJSON, undefined, BigInt, cycles, and numbers other than by their JSON token.
- `safeSerializeJson`'s byte cap and failure records: easy members.
- Doubles: rates, durations and delays are exact numbers, so overflow to Infinity, rounding and `-0` do not occur.
- An endpoint whose limit is switched off in the middle of a window: nothing is counted then, and no bound is claimed.
- Non-ASCII spaces and letters in durations; the regular-expression engine is replaced by a scanner.
- Classification of requests into endpoints, authentication, audit, static files, the CLI, migrations, task loading and the dashboard: plumbing with only shallow properties.
