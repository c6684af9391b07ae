# GoClaw: state machines and algorithms, verified

This project models the parts of GoClaw whose correctness does not show from reading one function, and
proves properties of whole runs of them. `dafny verify dfyconfig.toml` checks everything (Dafny 4.11).

| component | files |
|---|---|
| Durable task queue: rows, leases, event log, retries, recovery, claim order | `TaskQueue`, `QueueStore`, `QueueRuns`, `QueueEvents`, `QueueFailures`, `QueueOrder`, `QueueRecords`, `Backoff` |
| Plans: validation, waves, execution with crashes and resumption | `PlanGraph`, `Planner`, `PlanRuns`, `PlanRepeats`, `PlanResumes`, `PlanExecutor` |
| JSON extraction from a model's answer | `JsonText`, `JsonExtract`, `JsonSearch` |
| Provider failover with persisted circuit breakers | `Breaker`, `Failover` |
| Token buckets with eviction | `RateLimit`, `RateWindows` |
| Event replay and live forwarding | `Replay` |
| Agent loop with checkpoints | `AgentLoop` |
| History compaction | `Compaction` |

## How the models are built

- Objects that the source updates in place are classes (`Store`, `Executor`, `FailoverBrain`,
  `RateLimiter`, `Client`, `LoopRunner`, `Compactor`); loops stay loops. Each method is proved against a
  specification on values, and what the source promises is then proved about that specification.
- The task queue has two levels. `TaskQueue.Step` says what a committed transaction does to the tables,
  row by row. The methods of `QueueStore.Store` carry out the statements of each transaction, through
  the intermediate statuses, and are proved to commit exactly one such step. The theorems are about
  every sequence of steps from the empty database.
- Plan execution and event replay are concurrent or can be interrupted anywhere, so they are state
  machines over small actions, and the theorems are about every interleaving. The executor's methods
  are proved to move along those actions (`PlanExecutor.Leads`), and the client's methods do what the
  actions do when nothing disturbs them (`Replay.UndisturbedSubscribe`, `Replay.UndisturbedRound`).
- Time is an integer (or real) that does not decrease. New UUIDs are values not used before. Hashes,
  model replies, provider outcomes and the JSON library's parser are arbitrary inputs.

## Where the code and its documentation differ

The model follows the code.

- Resuming a plan is documented to skip the steps of the interrupted wave that had finished. The
  executor stores outcomes in upper case, the step table accepts lower case only, and the error is
  ignored; so every row stays `pending` and the whole wave runs again
  (`PlanRuns.ResumeRepeatsTheWholeWave`, `PlanRuns.FinishedStepIsRepeated`), which repeats finished work
  exactly when some step of it had finished (`PlanResumes.ResumeRepeatsExactlyWhen`).
- A purge of a session's personal data rewrites finished tasks too, so results read before and after it
  differ (`QueueRuns.WaitForAllIsASnapshot`, `QueueRuns.PurgeRewritesResult`).
- Resuming is also documented to take over the results of the steps that had finished. For the same
  reason it reports only the steps from the stored wave on (`PlanExecutor.Executor.Resume`).
- Starting and heartbeating a task check the lease token; completing it and reporting its failure do
  not, so nothing is claimed about who completes a task.
- The poison-pill rule cannot fire with the only retry budget the code ever writes
  (`QueueFailures.PoisonPillNeedsLargerBudget`); it does with any larger one (`PoisonPillReachable`).
- `FailTask` lists QUEUED and CLAIMED as sources, but the transition table forbids both moves, so those
  calls return an error (`QueueStore.Store.FailTask`).
- Deleting an agent cancels its tasks without an event; the event log ends in the task's status exactly
  for the other tasks (`QueueEvents.LogEndsInStatusExactlyWhen`, `QueueEvents.DeletedAgentLeavesLogBehind`).
- Compaction is per agent but archives per session, so another agent's older messages leave its history
  too (`Compaction.OtherAgentUnaffectedExactlyWhen`, `Compaction.OtherAgentLosesItsMessage`).
- A JSON answer in a tagged block is cut at a fence inside one of its strings
  (`JsonExtract.FencedValueRecoveredExactlyWhen`, `JsonExtract.BackticksCutAnswerShort`); in a block
  without a tag it is not (`JsonExtract.BareValueAlwaysRecovered`).
- Evicting idle rate-limit buckets is invisible exactly when a bucket refills within the age limit
  (`RateLimit.EvictionIsInvisible`, `RateLimit.EvictionVisibleOtherwise`); a slow rate with a large burst
  does not meet that with the ten minutes the gateway uses.

## Model

| member | source | states |
|---|---|---|
| `Backoff.RetryDelay` | internal/persistence/tasks.go:486-513 | The doubling loop computes the capped, jittered delay, between 1s and 30s, without leaving 64 bits. |
| `Backoff.DelaysNeverOverlap` | internal/persistence/tasks.go:486-513 | A later attempt never waits less than an earlier one, of the same or another task, whatever the jitter of both. |
| `Backoff.BaseIsCappedPower` | internal/persistence/tasks.go:486-500 | Without jitter the n-th delay is a second times 2^(n-1), at most thirty seconds. |
| `Backoff.JitterIsTheSource` | internal/persistence/tasks.go:501-513 | The jitter is the hash value itself where that is below half the base. |
| `QueueStore.Store.AppendTaskEventTx` | internal/persistence/store.go:1186-1205 | The log grows by exactly this event at its end. |
| `QueueStore.Store.TransitionTaskTx` | internal/persistence/store.go:1207-1270 | Moves one row and logs the move when the source status is listed and the table allows it; a listed but illegal move is an error; otherwise nothing changes. |
| `QueueStore.Store.CreateTask` | internal/persistence/tasks.go:98-129 | Commits the step that inserts a queued row and its enqueue event. |
| `QueueStore.Store.CreateSubtask` | internal/persistence/tasks.go:1246-1256 | Commits the step that inserts a queued row with the given priority and no event. |
| `QueueStore.Store.RecordToolTask` | internal/persistence/tasks.go:1139-1173 | Commits the step that inserts a finished row, failed exactly when the call failed, and no event. |
| `QueueStore.Store.SelectNext` | internal/persistence/tasks.go:145-180 | Returns an eligible task that no other eligible task precedes by priority, age and ID, or nothing when none is eligible. |
| `QueueStore.Store.ClaimNextPendingTask` | internal/persistence/tasks.go:135-211 | Commits the claim of that task with a new lease, or nothing. |
| `QueueStore.Store.StartTaskRun` | internal/persistence/tasks.go:214-263 | Succeeds exactly for a claimed task whose lease token is presented, and then commits the start. |
| `QueueStore.Store.HeartbeatLease` | internal/persistence/tasks.go:265-282 | Extends the lease exactly when an in-flight task's token is presented. |
| `QueueStore.Store.RequeueExpiredLeases` | internal/persistence/tasks.go:284-348 | The loop commits one step that requeues exactly the in-flight tasks past their expiry, with one event each, and counts them. |
| `QueueStore.Store.AgeQueuedPriorities` | internal/persistence/tasks.go:353-368 | Raises the priority of exactly the waiting rows below the cap by one and returns their number. |
| `QueueStore.Store.CompleteTask` | internal/persistence/tasks.go:370-402 | Succeeds exactly for a running task, and commits result, cleared error and cleared lease. |
| `QueueStore.Store.FailTask` | internal/persistence/tasks.go:421-453 | Fails a running task; on a queued or claimed one it returns the illegal transition and changes nothing. |
| `QueueStore.Store.Decide` | internal/persistence/tasks.go:544-572 | The two rules in code order give the counters, the decision and the reason of the specification. |
| `QueueStore.Store.DeadLetterTx` | internal/persistence/tasks.go:574-633 | Two moves and two metadata writes leave one dead-lettered row and two chained events. |
| `QueueStore.Store.RetryTx` | internal/persistence/tasks.go:643-695 | Two moves and a metadata write leave one queued row, due later, and two chained events. |
| `QueueStore.Store.HandleTaskFailure` | internal/persistence/tasks.go:516-698 | Commits the failure step of a running task, and the decision returned agrees with the row committed. |
| `QueueStore.Store.DeleteOrphans` | internal/persistence/tasks.go:828-838 | Removes exactly the session's assistant messages from that moment on. |
| `QueueStore.Store.RecoverRunningTasks` | internal/persistence/tasks.go:769-846 | The loop commits one step that requeues every in-flight task and deletes exactly the messages orphaned by some running one, and counts the tasks. |
| `QueueStore.Store.RequestCancel` | internal/persistence/tasks.go:899-911 | Sets the cancel flag exactly on claimed, running or retry-waiting rows. |
| `QueueStore.Store.AbortTask` | internal/persistence/tasks.go:922-974 | Commits two steps, the cancel flag and then the cancellation; returns true exactly when the task existed and was not final. |
| `QueueStore.Store.DeleteAgent` | internal/persistence/agents.go:99-142 | An agent that is not in the table is an error and changes nothing; otherwise it goes, with exactly the messages and delegations that name it, and its queued and claimed tasks are cancelled silently. |
| `QueueStore.Store.PurgeSessionPII` | internal/persistence/store.go:1336-1440 | Commits one step that deletes the session's messages and overwrites the texts and change times of all its tasks, finished ones too, and counts messages, tasks, events and redactions. |
| `QueueRuns.EveryStateOk` | internal/persistence/tasks.go:98-956 | In every committed state: no RETRY_WAIT row, leases exactly on in-flight rows, attempts left on every unfinished row, distinct issued lease tokens. |
| `QueueRuns.RetryWaitNeverCommitted` | internal/persistence/tasks.go:643-695 | RETRY_WAIT is never a committed status. |
| `QueueRuns.TerminalIsPermanent` | internal/coordinator/waiter.go:208-217 | Rows are never deleted; a row with a final status keeps status, attempts, error, error code and no lease for ever, although the table lets FAILED move on, and is at every later time exactly what the last purge of its session made of it, or unchanged if there was none. |
| `QueueRuns.WaitForAllIsASnapshot` | internal/coordinator/waiter.go:134-206 | Against one look at any later state, results collected at different moments have the same statuses and errors; they are the same in full exactly when no purge of the session came between, or it changed nothing. |
| `QueueRuns.PurgeRewritesResult` | internal/persistence/store.go:1384-1390 | A run in which a purge changes output and duration of a finished task. |
| `QueueRuns.LeasedExactlyInFlight` | internal/persistence/tasks.go:192-200 | Owner and expiry are set exactly while a task is claimed or running. |
| `QueueRuns.ExpiryStrandsNoTask` | internal/persistence/tasks.go:291-342 | The sweep requeues every in-flight task whose expiry has passed (or were missing) and no other. |
| `QueueRuns.LostTokenNeverAccepted` | internal/persistence/tasks.go:221-282 | A later start or heartbeat with a token taken from its task changes no row, event or message, for any task. |
| `QueueRuns.HeldByAtMostOne` | internal/persistence/tasks.go:192-200 | A lease token never appears on a second task, in any later state. |
| `QueueRuns.RecoveryIsComplete` | internal/persistence/tasks.go:769-846 | From every reachable state recovery leaves each task final and untouched, or queued, unleased and otherwise the same; the count is the number of in-flight tasks. |
| `QueueRuns.RecoveryIsIdempotent` | internal/persistence/tasks.go:769-846 | Recovering again finds no task, appends no event and deletes no message. |
| `QueueEvents.EventLogIsThePath` | internal/persistence/store.go:111-137 | In every run the events of a task are an unbroken path of allowed moves, ending in its status exactly when its agent's deletion did not cancel it. |
| `QueueEvents.LogEndsInStatusExactlyWhen` | internal/persistence/agents.go:128-134 | In terms of the run: the events end in the status exactly when no step deleted the task's agent while the task was queued or claimed. |
| `QueueEvents.DeletedAgentLeavesLogBehind` | internal/persistence/agents.go:128-134 | A run that ends with a cancelled task whose log ends in QUEUED. |
| `QueueEvents.RetainedEventsEndThePath` | internal/persistence/retention_store.go:19-31 | However many of the oldest events are deleted, what is left of a task's events is the end of the same path, and ends in the status exactly when the whole path does. |
| `QueueEvents.RowEventsLead` | internal/persistence/tasks.go:574-695 | The one or two events of a transaction lead from the old status to the new one through allowed moves. |
| `QueueFailures.CountersTellHistory` | internal/persistence/tasks.go:541-572 | In every run `attempt` is the number of failures so far and `poison_count` the length of their trailing run of equal fingerprints. |
| `QueueFailures.LongerRuns` | internal/persistence/tasks.go:550-553 | The trailing run is at least m exactly when the last m fingerprints are equal. |
| `QueueFailures.DeadLetterExactlyWhen` | internal/persistence/tasks.go:562-572 | A failure dead-letters exactly when the history reaches the budget or ends in three equal fingerprints, with the reason of whichever rule wins. |
| `QueueFailures.ThirdFailureEndsTask` | internal/persistence/store.go:81-84 | With a budget of three, or none given, it is the third failure that dead-letters. |
| `QueueFailures.AttemptsLeft` | internal/persistence/tasks.go:568-571 | Every queued or in-flight task has failed less often than its budget. |
| `QueueFailures.PoisonPillNeedsLargerBudget` | internal/persistence/store.go:81-84 | With a budget of at most three the poison-pill reason is unreachable. |
| `QueueFailures.PoisonPillReachable` | internal/persistence/tasks.go:564-567 | With any larger budget a run reaches it. |
| `QueueOrder.NextIsUnique` | internal/persistence/tasks.go:149-170 | The claim query has one answer. |
| `QueueOrder.ClaimTakesTheNext` | internal/persistence/tasks.go:135-211 | A claim in a run takes the first eligible task, leases it, and changes no other row. |
| `QueueOrder.PrioritiesStayCapped` | internal/persistence/tasks.go:353-368 | If creations and aging respect a cap, every priority stays at or below it. |
| `QueueOrder.AgedTaskNeverOvertaken` | internal/persistence/tasks.go:135-211 | A waiting, available task at the cap is passed only by tasks created earlier (ties by ID), in any interleaving. |
| `QueueOrder.ClaimShortensTheLine` | internal/persistence/tasks.go:135-211 | A claim that leaves an available task at the cap waiting takes one of the older tasks ahead of it out of the line. |
| `QueueOrder.BoundedBypass` | internal/persistence/tasks.go:350-368 | While an available task at the cap waits, all the claims that could have taken it, for any agent or its own, are at most the older tasks ahead of it plus those that come to stand there (retries, requeues). |
| `QueueOrder.BoundedBypassByAgent` | internal/persistence/agents.go:149-153 | The claims for its own agent are bounded by that agent's line alone. |
| `QueueRecords.NoEarlyClaim` | internal/persistence/tasks.go:145-170 | In any run a claim takes only a queued task that is available, for its agent. |
| `QueueRecords.DueTaskIsClaimable` | internal/persistence/tasks.go:145-180 | A claim comes back empty only if no such task is there. |
| `QueueRecords.ClaimOrder` | internal/persistence/tasks.go:149-170 | Of those it takes one of the highest priority, then the oldest, then the smallest ID. |
| `QueueRecords.NoEarlyRetry` | internal/persistence/tasks.go:638-695 | A task that failed and is to be retried is not claimed again within a second, whatever happens meanwhile. |
| `QueueRecords.RetryWaitGrows` | internal/persistence/tasks.go:486-513 | After its n-th failure it waits at least min(30s, 2^(n-1) s), and at most one and a half times that or 30s. |
| `QueueRecords.LeaseTellsRenewal` | internal/persistence/tasks.go:192-282 | An in-flight task's lease ends thirty seconds after it was last claimed, started or renewed. |
| `QueueRecords.SweepTakesSilentWorkers` | internal/persistence/tasks.go:291-342 | The sweep requeues an in-flight task exactly if that was thirty seconds ago or more. |
| `QueueRecords.CancelFlagTellsRequest` | internal/persistence/tasks.go:899-920 | The cancel flag is set exactly if the task was asked to cancel at some time while in flight. |
| `QueueRecords.PriorityCountsRaises` | internal/persistence/tasks.go:353-368 | A task's priority is what it was plus the number of sweeps that met it queued, available, untouched for the threshold and below the cap. |
| `QueueRecords.EndIsRecorded` | internal/persistence/tasks.go:370-453 | The step that ends a task leaves status, result and error as given, and they stay until a purge. |
| `QueueRecords.ReportsTakeEffect` | internal/persistence/tasks.go:370-698 | What a running task's worker reports is what its row says. |
| `QueueRecords.WorkersMoveTasks` | internal/persistence/tasks.go:192-263 | A claim and a start with the right token move the task on; an abort ends any unfinished one. |
| `QueueRecords.ChangeTellsTime` | internal/persistence/tasks.go:192-956 | Whatever changes a row leaves its time in it. |
| `QueueRecords.NewTaskIsDue` | internal/persistence/tasks.go:98-129 | A created task is queued and available at once, with what it was created with. |
| `QueueRecords.OtherNewTasks` | internal/persistence/tasks.go:1139-1256 | Likewise a subtask with its priority, and a recorded tool call with its outcome. |
| `QueueRecords.IdentityIsFixed` | internal/persistence/tasks.go:98-129 | Session, agent, kind and creation time never change; the payload only by a purge. |
| `QueueRecords.MessagesTellSteps` | internal/persistence/tasks.go:828-838 | Recovery deletes exactly the messages a running task may have left unfinished, a purge exactly the session's, both keep the order, and nothing else deletes any. |
| `Planner.TopoSort` | internal/coordinator/executor.go:454-508 | On any input: reports an unknown dependency exactly when there is one; otherwise succeeds exactly when IDs are unique and the graph is acyclic, and returns the levels of the graph; terminates. |
| `Planner.Validate` | internal/coordinator/plan.go:51-80 | Accepts exactly the non-empty plans with distinct non-empty IDs, known dependencies and no cycle, and an error names something that is wrong. |
| `PlanGraph.LongChainMeansCycle` | internal/coordinator/executor.go:494-497 | A dependency chain longer than the plan contains a cycle (pigeonhole). |
| `PlanGraph.CycleMeansLongChains` | internal/coordinator/executor.go:494-497 | A step on a cycle has dependency chains of every length, so it is never processed. |
| `PlanGraph.RunnableIsLevel` | internal/coordinator/executor.go:476-492 | After k waves a step can run exactly when its longest dependency chain has length k. |
| `Planner.StuckMeansBad` | internal/coordinator/executor.go:494-497 | An empty wave with steps left means a cycle or a repeated ID. |
| `Planner.ExactlyOneWave` | internal/coordinator/executor.go:469-507 | Every step is in exactly one wave, numbered by its longest dependency chain. |
| `Planner.DependenciesComeEarlier` | internal/coordinator/executor.go:469-507 | Every dependency of a step is in a strictly earlier wave. |
| `Planner.WavesAreMinimal` | internal/coordinator/executor.go:452-453 | No valid layering puts a step in an earlier wave, so none has fewer waves. |
| `PlanRuns.EveryWorldOk` | internal/coordinator/executor.go:97-348 | The invariant of execution, crashes and resumption holds in every reachable state. |
| `PlanRuns.TasksFollowDependencies` | internal/coordinator/executor.go:223-258 | Across crashes, resumptions and retries a step's task is created only when each dependency has had a task reach a final status. |
| `PlanRuns.StoredWaveNeverDecreases` | internal/persistence/store.go:2008-2019 | The stored wave number never decreases. |
| `PlanRuns.NoStepStartsAgain` | internal/coordinator/executor.go:176-211 | No step of a wave below a wave number once stored is ever started again. |
| `PlanRuns.FinishedWaveNeverRunsAgain` | internal/coordinator/executor.go:108-111 | Once the number after a wave is stored, each of its steps has had a task end and none gets another. |
| `PlanRuns.SucceededMeansSettled` | internal/coordinator/executor.go:114-117 | A plan marked succeeded has had, for every step, a task that reached a final status. |
| `PlanRuns.ResumeRepeatsTheWholeWave` | internal/coordinator/executor.go:150-192 | Step rows always stay pending, and a resumption takes up every step of the stored wave. |
| `PlanRuns.FinishedStepIsRepeated` | internal/coordinator/executor.go:150-192 | A run in which a step succeeds and is recorded, the process crashes and resumes, and the step gets another task. |
| `PlanRepeats.TwoTasksPerProcess` | internal/coordinator/executor.go:223-337 | Between two moments without a resumption in between, a step gets at most two new tasks, a first try and one retry, and loses none. |
| `PlanRepeats.RepetitionIsBounded` | internal/coordinator/executor.go:124-219 | So over all processes a step gets at most two tasks for each of them. |
| `PlanResumes.RepetitionNeedsASettledStep` | internal/coordinator/executor.go:176-211 | If a step that has finished ever gets another task, in whatever later process, some step of the wave stored now has finished. |
| `PlanResumes.ResumedWaveGetsOneMore` | internal/coordinator/executor.go:176-211 | When a resumption has created the tasks of its first wave, each step of that wave has exactly one task more, finished before or not. |
| `PlanResumes.ResumeRepeatsExactlyWhen` | internal/coordinator/executor.go:176-211 | It has then repeated finished work exactly when some step of the stored wave had finished. |
| `PlanExecutor.Executor.CreateTasks` | internal/coordinator/executor.go:223-258 | The loop makes one task for each step, in order; if one cannot be created, the tasks made are those of exactly the steps before it, and it is reported as failed without a task. |
| `PlanExecutor.Executor.WaitForAll` | internal/coordinator/waiter.go:134-166 | Returns tasks that ended; without error exactly when every awaited task ended, and then all of them. |
| `PlanExecutor.Executor.Outcome` | internal/coordinator/executor.go:285-321 | A failed task gets exactly one more for its step if one can be created, which is the one reported exactly if it ends in time; in all other cases nothing is made and the task itself is reported. |
| `PlanExecutor.Executor.ExecuteWave` | internal/coordinator/executor.go:223-348 | Follows the modelled actions; success reports an ended task for each step of the wave, and where creation never fails each failed first try has one retry. |
| `PlanExecutor.Executor.Execute` | internal/coordinator/executor.go:46-120 | Refuses exactly the invalid plans, changing nothing; reports a failed initialisation exactly when the step rows cannot be written, making no task; otherwise the rows are reached by a run of the plan, the stored status is the outcome if it could be written, success reports an ended task for exactly each step, a failed wave comes with the results so far (ended tasks for all earlier waves, and no entry that names another step's task), the stored wave number is one more than the last finished wave whose number could be stored, and without failures each step gets exactly one task, wave by wave. |
| `PlanExecutor.Executor.Resume` | internal/coordinator/executor.go:124-219 | An invalid plan, or rows that are missing or cannot be read, are errors that change nothing; otherwise it continues the run from the stored wave, reports exactly the steps from there on, or the results so far with a failed wave, advances the stored wave number in the same way, makes tasks only for those steps, and without failures exactly one new task for each. |
| `PlanExecutor.LastStoredExact` | internal/coordinator/executor.go:108-111 | That number is one more than the last such wave, or unchanged if there is none. |
| `PlanExecutor.Executor.ExecuteAndResume` | internal/coordinator/executor.go:97-211 | If every wave number can be stored, resuming after a failed wave makes no task for a step of an earlier wave. |
| `PlanExecutor.LevelsAreUnique` | internal/coordinator/executor.go:165-171 | Sorting the plan again gives the same waves. |
| `JsonExtract.ExtractBalanced` | internal/engine/structured.go:166-219 | The scanning loop computes the first balanced prefix. |
| `JsonExtract.ValueIsNeutral` | internal/engine/structured.go:186-216 | No printed value, with any strings and brackets inside, brings the counted depth below where it started. |
| `JsonExtract.BalancedRecoversValue` | internal/engine/structured.go:166-219 | For every object or array and any text after it, exactly the printed value is cut out. |
| `JsonExtract.PrintedContainersArePrefixFree` | internal/engine/structured.go:166-219 | No printed object or array is the beginning of another, so where the scanner stops is determined. |
| `JsonExtract.ExtractJSON` | internal/engine/structured.go:119-157 | Computes the extraction that the following rows characterise: tagged block, bare block, then the search. |
| `JsonExtract.ExtractsValueFromProse` | internal/engine/structured.go:146-156 | From an answer without fences the value after bracket-free prose is recovered. |
| `JsonSearch.ExtractsFirstAcceptedValue` | internal/engine/structured.go:146-156 | From an answer without fences, whatever brackets precede it, a value is extracted if the parser accepts it and no balanced text before it. |
| `JsonSearch.NothingExtractedMeansNothingThere` | internal/engine/structured.go:119-157 | From any answer nothing is extracted only if no object or array that the parser accepts stands anywhere in it. |
| `JsonSearch.NothingFoundExactlyWhen` | internal/engine/structured.go:146-156 | The search ends empty exactly when no balanced text is accepted. |
| `JsonSearch.PlaceholderIsPassedOver` | internal/engine/structured.go:146-156 | A placeholder in braces before the value does not end the search. |
| `JsonSearch.PlaceholderIsBalanced` | internal/engine/structured.go:186-216 | After a brace only braces count, whatever other brackets stand in between. |
| `JsonExtract.FencedValueRecoveredExactlyWhen` | internal/engine/structured.go:120-133 | A value in a tagged block, after any prose that holds no tagged fence and before anything, is recovered exactly when its text contains no three backticks in a row. |
| `JsonExtract.BackticksCutAnswerShort` | internal/engine/structured.go:120-133 | A concrete value that is not recovered. |
| `JsonExtract.BareValueRecoveredExactlyWhen` | internal/engine/structured.go:135-156 | A value in a block without a tag, after bracket-free prose, is recovered exactly when it contains no fence or the parser rejects what the fence leaves of it. |
| `JsonExtract.BareValueAlwaysRecovered` | internal/engine/structured.go:135-156 | With a parser that takes only whole values it is always recovered, unlike in a tagged block. |
| `Breaker.FailoverBrain.IsTripped` | internal/engine/failover.go:146-165 | Blocks exactly a tripped breaker within its cooldown, and resets one past it. |
| `Breaker.FailoverBrain.RecordFailure` | internal/engine/failover.go:175-193 | Counts the failure, trips at the threshold, and stores the breaker if the write succeeds. |
| `Breaker.FailoverBrain.RecordSuccess` | internal/engine/failover.go:196-209 | Clears the breaker and stores it if the write succeeds. |
| `Breaker.FailoverBrain.LoadBreakerState` | internal/engine/failover.go:234-257 | Every breaker the store knows is replaced by the stored one, and the rest stay as they were. |
| `Breaker.FailoverBrain.Respond` | internal/engine/failover.go:74-107 | The candidate loop makes the decisions and gives the answer that the next rows characterise. |
| `Failover.FirstUnblockedAnswers` | internal/engine/failover.go:74-165 | After any requests and crashes: the first candidate that is not tripped within its cooldown and replies or overflows gives the answer, earlier ones were skipped exactly if blocked, and all have failed exactly if there is none. |
| `Failover.SecondProviderAnswers` | internal/engine/failover.go:78-104 | With two fresh providers the second answers when the first fails in passing. |
| `Failover.ReplyClearsBreaker` | internal/engine/failover.go:196-209 | A reply clears the breaker of who gave it, and no other, in memory and in the store. |
| `Failover.FailureCounts` | internal/engine/failover.go:175-193 | A failure is counted, from one after a cooldown, and trips the breaker at the threshold. |
| `Breaker.CrashesAreInvisible` | internal/engine/failover.go:74-257 | When writes succeed: over any sequence of requests and crashes, between requests or inside one, the decisions and answers are those of a process that never crashed and whose requests are cut at the same places. |
| `Breaker.OnlyUnwrittenBreakersDiffer` | internal/engine/failover.go:211-232 | Whichever writes fail, that holds until a request comes to a candidate whose breaker a crash found unwritten. |
| `Breaker.UnwrittenBreakerShows` | internal/engine/failover.go:211-232 | A run in which a tripped breaker that was not written no longer keeps the next request away. |
| `Breaker.TrippedExactlyAtThreshold` | internal/engine/failover.go:184-189 | After any requests and crashes a breaker is tripped exactly when its failures reach the threshold, in memory and in the store. |
| `RateLimit.RateLimiter.Allow` | internal/gateway/ratelimit.go:37-55 | Admits exactly when the refilled, capped level reaches one token, and takes it. |
| `RateLimit.RateLimiter.GetBucket` | internal/gateway/ratelimit.go:164-182 | Returns the key's bucket, or stores a full one. |
| `RateLimit.RateLimiter.EvictStale` | internal/gateway/ratelimit.go:110-126 | The loop drops exactly the buckets not used within the age limit. |
| `RateLimit.EvictionIsInvisible` | internal/gateway/ratelimit.go:110-126 | If a bucket refills within the age limit, every run admits the same requests with and without eviction. |
| `RateLimit.EvictionVisibleOtherwise` | internal/gateway/ratelimit.go:110-126 | If not, some run tells the difference. |
| `RateLimit.WindowBound` | internal/gateway/ratelimit.go:37-55 | In any window of any run each key is admitted at most burst plus rate times the window's length. |
| `RateWindows.DeniedExactlyWhen` | internal/gateway/ratelimit.go:24-55 | A request is turned away exactly when letting it through would put more than burst plus requestsPerMinute/60 per second into some window that ends with it. |
| `RateWindows.AdmittedAreDecided` | internal/gateway/ratelimit.go:24-55 | The requests counted there are those the evicting limiter lets through. |
| `Replay.AfterIsExact` | internal/persistence/tasks.go:47-92 | The event query returns exactly the session's later events, in increasing order. |
| `Replay.BoundsAreExact` | internal/persistence/tasks.go:28-45 | The bounds are the session's first and last event, or zeros. |
| `Replay.EveryWorldOk` | internal/gateway/gateway.go:1486-1574 | The invariant of subscribing and forwarding holds in every interleaving. |
| `Replay.NothingBelowTheMarkIsMissed` | internal/gateway/gateway.go:691-739 | Every event of the session after the start of the last accepted subscription and up to the mark has been sent. |
| `Replay.CaughtUp` | internal/gateway/gateway.go:1535-1539 | When the forwarder finds nothing new, everything asked for has been sent. |
| `Replay.BacklogShrinks` | internal/gateway/gateway.go:1535-1572 | A forwarded batch removes exactly its events from what is still to be forwarded, and the mark stays only when nothing is. |
| `Replay.UndisturbedRound` | internal/gateway/gateway.go:1523-1574 | The actions of a round that nothing disturbs send the listed events and raise the mark to the last. |
| `Replay.UndisturbedSubscribe` | internal/gateway/gateway.go:691-739 | The actions of a subscription that nothing disturbs change nothing, close the connection, or send all later events and set the mark, as the client's method does. |
| `Replay.RefusedExactlyWhen` | internal/gateway/gateway.go:696-699 | A subscription is refused exactly if it starts before the predecessor of the first stored event. |
| `Replay.Client.Subscribe` | internal/gateway/gateway.go:691-739 | Refuses exactly a start before the first stored event's predecessor, closes on more than 64 events, otherwise writes all later events in order and sets the mark. |
| `Replay.Client.Forward` | internal/gateway/gateway.go:1523-1574 | Writes the next hundred events of a subscribed session in order and raises its mark to the last. |
| `AgentLoop.LoopRunner.Run` | internal/engine/loop.go:84-258 | Always returns, along a path of the model; result, calls, tokens and the checkpoints left behind are those of the first step at which a budget is used up, the deadline has passed, the model fails or its answer holds the keyword. |
| `AgentLoop.EachStatusHasItsCause` | internal/engine/loop.go:145-224 | Each final status has its one cause at that step, in this order, and up to it nothing of the kind happened. |
| `AgentLoop.TokensAreTheReplies` | internal/engine/loop.go:211-214 | The tokens are those at the start plus a quarter of each reply's length. |
| `AgentLoop.CheckpointIsTheLastStored` | internal/engine/loop.go:226-229 | The running checkpoint is that of the last multiple of the interval that could be stored. |
| `AgentLoop.CallsAreBounded` | internal/engine/loop.go:145-258 | Over any crashes and restarts: model calls are at most maxSteps plus interval times (crashes plus checkpoints that a crash found unwritten), and recorded tokens exceed their budget by less than one reply. |
| `AgentLoop.BoundIsReached` | internal/engine/loop.go:145-258 | The bound is reached exactly, for any interval, token budget, number of crashes and number of lost checkpoints at each, and any step limit with room for them. |
| `Compaction.FindSplit` | internal/engine/compactor.go:100-124 | The backward scan finds the earliest split that archives something, keeps enough messages, and fits the window beyond those. |
| `Compaction.KeptFitsOrIsMinimal` | internal/engine/compactor.go:105-119 | The kept part fits the window or is exactly the messages that must be kept, and one more would not fit. |
| `Compaction.WindowIsSixTenths` | internal/engine/compactor.go:101 | The window is six tenths of what is available, rounded down. |
| `Compaction.UsualThreshold` | internal/engine/compactor.go:76-91 | With the usual settings compaction starts at three quarters of what is available, at least 750 tokens, and needs more messages than are kept. |
| `Compaction.Compactor.CompactIfNeeded` | internal/engine/compactor.go:52-215 | Below the threshold, or with too few messages, nothing changes; otherwise the table is the compacted one for such a split, and the fresh history is returned. |
| `Compaction.HistoryAfterCompaction` | internal/engine/compactor.go:200-214 | The agent's active history becomes what followed the cut, unchanged, and then the summary. |
| `Compaction.CompactedTableOk` | internal/persistence/sessions.go:28-50 | Rows stay in the order of their IDs. |
| `Compaction.ReturnedHistory` | internal/engine/compactor.go:213-214 | What is returned is the kept messages and then the summary, cut to the oldest thousand; the summary is in it exactly when fewer than a thousand messages are kept; compaction would go ahead again exactly when it is still over the threshold. |
| `Compaction.StillOverExactlyWhen` | internal/engine/compactor.go:76-91 | For up to a thousand messages that is exactly when the kept tokens and the summary reach the threshold. |
| `Compaction.OneCompactionIsEnough` | internal/engine/compactor.go:76-124 | One compaction is enough when the messages that must be kept fit the window and the summary fits between window and threshold. |
| `Compaction.ArchiveKeepsRows` | internal/persistence/sessions.go:106-116 | Archiving loses and alters no row; it marks exactly the session's rows up to the ID. |
| `Compaction.OtherAgentUnaffectedExactlyWhen` | internal/persistence/sessions.go:106-116 | Another agent's history is left alone exactly when all its active messages are newer than the cut. |
| `Compaction.OtherAgentLosesItsMessage` | internal/persistence/sessions.go:106-116 | A table on which compaction goes ahead for one agent and takes the other agent's only message. |

## Left out

- SQL text, drivers, migrations and lock retries: tables are maps and sequences, and a transaction commits as a whole or changes nothing.
- Timestamp formats and resolution: database time and process time are one integer clock.
- QueueEvents.EventLogIsThePath: about the whole log; what event retention leaves of it is in `QueueEvents.RetainedEventsEndThePath`.
- Message retention, token, cost and parent columns: nothing proved here reads them.
- QueueStore.Store.PurgeSessionPII: the redaction records and the payloads of events are counted, not modelled.
- `RecordStepComplete` counters, plan costs and prompt substitution: the plan model keeps the rows that decide what runs next, not the texts passed between steps.
- Replay.Client.Forward: the class is one client that nothing disturbs; the concurrency of subscribing, forwarding and appending is in the state machine, and the locks are not modelled.
- PlanExecutor.Executor.Execute: a caller that owns the plan's row is one whose final status the executor does not store; tasks end while they are waited for (other moments are in the state machine); a negative retry limit is a retry that cannot be created.
- Two processes working on one plan execution, or a second `Execute` with the same execution ID: one process at a time, begun by one `Execute`.
- ExtractJSON: the JSON library's parser is a parameter, and trimming knows the ASCII blanks only.
- RateLimit.RateLimiter.Allow: real arithmetic without floating-point rounding, and lookup plus token taken as one step.
- Breaker.FailoverBrain.LoadBreakerState: stored values can be read back and parsed.
- AgentLoop.LoopRunner.Run: the prompt, the reply text and the event bus are not modelled; a reply is its length and whether it holds the keyword.
- Compaction.Compactor.CompactIfNeeded: token counts are not negative, ratios are reals without rounding, and the summary is an input.
- The bus, which may drop events: a forwarder wakes at any moment or never; delivery is at least once, and writes to the connection are counted as sent.
- Streaming replies, delegation, approvals, policies, sandboxes, channels, configuration, CLI and TUI: input and output, host-dependent rules or easy members.
