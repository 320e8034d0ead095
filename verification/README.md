# Verified model of the task master

This project models the coordinator of a master/worker task system and proves
what it keeps: tasks are dispatched in priority order; the coordinator never
loses one, and holds each in one place as long as no send of it fails; retries
and dead-lettering follow the attempt budget; sleeping dispatch loops are always
woken; failing and silent workers are isolated; and a restart finds again
the unfinished work, with two exceptions listed below.
Whether a timed-out or disconnected worker still runs a task is outside the
coordinator and outside this model.

`dafny verify dfyconfig.toml` checks everything.

## How it is built

The objects are classes whose methods change their fields step by step, as the
Go code does; each method is proved against a function of the old state.

| file | what it holds |
|---|---|
| `basics.dfy` | helpers: maximum, distinctness, enumerations, parts of a list |
| `clock.dfy` | 64-bit durations and the backoff arithmetic |
| `tasks.dfy` | `Task` with its transition table; `Record` is the value of a task |
| `priority_queue.dfy` | sift-up and sift-down of container/heap over the queue's ordering |
| `dashboard.dfy` | what a cut of the heap array shows |
| `scheduler_model.dfy` | the scheduler as a value, its moves, runs of moves |
| `scheduler.dfy` | `Scheduler`: five containers of task objects, every operation proved to be the move it stands for |
| `runs.dfy`, `accounts.dfy`, `budget.dfy`, `transitions.dfy`, `progress.dfy`, `retry_timing.dfy`, `sweeps.dfy`, `trails.dfy`, `deadlines.dfy` | whole runs; a per-task theorem asks only that this task's own dispatches are one step and none of its sends failed |
| `solo_runs.dfy` | runs of a single task, used to exhibit what can happen |
| `interleavings.dfy` | whole runs in which Dequeue, Assign, Start and Send are separate steps and a send may fail |
| `wakeup.dfy` | the one-slot wake-up protocol between producers and any number of dispatch loops |
| `badger_store.dfy`, `recovery.dfy` | the store, and what a restart gets back after any run |
| `circuit_breaker.dfy`, `breaker_registry.dfy` | the breaker against its call history; concurrent `Get` |
| `failure_detector.dfy` | heartbeats, the health checker, worker histories |
| `node_server.dfy` | the server object: each of its operations extends a run of the models, so the run theorems hold of the live scheduler and store |

A task object stands for its identity in the models, as a pointer does in the
code. The scheduler keeps a ghost map from every task ever enqueued to its
value; the invariant says that the objects really have those values.

What a method writes is stated twice: by the function of the old state it is
proved against, and, independently of that function, by what the history of
moves, calls or events says (`trails.dfy`, `deadlines.dfy`, and the lemmas whose
contracts read a run, a breaker's calls or a worker's events).

The current time and the jitter are parameters. The order in which a Go map is
walked is arbitrary: sweeps return the order they took as a ghost result and
the theorems hold for every order.

## Where the code and its documentation differ

- internal/task/scheduler.go:341-352 says the dashboard cut shows the highest
  priorities. It does so for all queues only if nothing is cut or at most one
  entry is shown (`Dashboard.TopListExactlyWhenNotCut`, with a queue that pushes
  alone build in `Dashboard.MisleadingIsBuilt`); what holds in general is
  `Dashboard.PrefixGuarantee`.
- internal/circuitbreaker/circuit_breaker.go:9 says HALF_OPEN lets one request
  through. The code admits every request while probing
  (`CircuitBreakers.AdmitsUnlessOpen`; two at once in
  `CircuitBreakers.TwoProbesAtOnce`).
- internal/config/config.go:55-56 says that `WorkerDeadTimeout` runs from the
  SUSPECT mark and that a dead worker's tasks are reassigned. The code measures
  it from the last heartbeat, so with every positive timeout a worker can be
  declared dead sooner after the mark
  (`FailureDetector.DeadTimeoutIsNotFromTheMark`), and the health checker
  requeues nothing (`NodeServers.NodeServer.CheckWorkerHealth`); only the end of
  the stream does.
- internal/task/task.go:220-227 gives the backoff as a power of two. A task's
  delays are that in every run if and only if its MaxRetries is at most 34
  (`RetryTiming.DelaysExactly`); from attempt 34 on the 64-bit nanosecond count
  overflows and the retry may be due before the failure
  (`RetryTiming.OverflowRetriesAtOnce`). The constructors set MaxRetries to 3 and
  nothing else in the repository assigns it, so this needs a caller that does.
- internal/server/node_server.go:329-334 puts a task whose send failed back on
  the queue and leaves it in flight, so it is in two places
  (`Interleavings.FailedSendDuplicates`) until a later dequeue finds it in flight
  (`Interleavings.OnePlaceExactly`).
- internal/store/badger_store.go:131-133 promises the tasks in flight at a crash.
  Two kinds come out differently (`Recovery.RecoveryExact`): a task revived from
  the dead-letter list after a reported failure is lost unless it was dispatched
  again, because the revival is not saved (`Recovery.RevivedTaskIsLost`); and a
  task that died of a timeout comes back, because that death is not saved
  (`Recovery.TimedOutTaskComesBack`).

## Model

| member | source | states |
|---|---|---|
| `Tasks.EnteredFrom` | internal/task/task.go:70-78 | the table read by target: from which states each state can be entered, and no others |
| `Tasks.Task.Transition` | internal/task/task.go:167-176 | moves exactly along the table, otherwise changes nothing and names the refused edge |
| `Tasks.Task.Assign` | internal/task/task.go:179-187 | worker, time and attempt change only if the transition is allowed |
| `Tasks.Task.Complete` | internal/task/task.go:199-207 | result fields are written only from RUNNING |
| `Tasks.Task.Fail` | internal/task/task.go:210-218 | error fields are written only from RUNNING |
| `Tasks.Task.ScheduleRetry` | internal/task/task.go:228-240 | DEAD when the attempts are used up, else RETRYING with the backed-off time; which transition was attempted |
| `Tasks.Task.RetryFromDLQ` | internal/task/task.go:247-255 | a fresh attempt budget, only from a state that may be queued |
| `PriorityQueue.StrictWeakOrder` | internal/task/scheduler.go:385-392 | the queue's ordering is a strict weak order |
| `PriorityQueue.Push` | internal/task/scheduler.go:398-400 | keeps heap order, adds exactly the pushed task, and leaves the array that sifting it up gives |
| `PriorityQueue.SiftDown` | internal/task/scheduler.go:394-396 | restores heap order of the first n, leaves the others, keeps the bag |
| `PriorityQueue.Pop` | internal/task/scheduler.go:402-409 | removes exactly one task and keeps heap order; every task in the queue has a lower priority, or the same and was created no earlier |
| `PriorityQueue.Drain` | internal/task/scheduler.go:378-409 | popping until empty is a permutation with priorities descending and, at equal priority, creation times ascending |
| `Dashboard.PrefixGuarantee` | internal/task/scheduler.go:350-360 | each omitted queued task has floor(log2(cap+1)) shown tasks not after it, 7 for the cut at 200 |
| `Dashboard.TopListExactlyWhenNotCut` | internal/task/scheduler.go:341-360 | the cut is the true top list for all queues of n if and only if n <= cap or cap <= 1 |
| `Scheduling.Scheduler.OmittedFromDashboard` | internal/task/scheduler.go:350-360 | in the live queue, for each task past the first 200, 7 of the first 200 have a higher priority, or the same and were created no later |
| `Dashboard.MisleadingIsBuilt` | internal/task/scheduler.go:350-360 | pushing tasks one by one builds a queue whose best omitted task comes before a shown one |
| `Scheduling.Scheduler.Enqueue` | internal/task/scheduler.go:58-70 | the task is queued with its value, heap order is kept, the token is set |
| `Scheduling.Scheduler.Dequeue` | internal/task/scheduler.go:81-101 | nil exactly on an empty queue; else a task goes in flight that no queued task exceeds in priority, nor one of its priority precedes in creation; the token is set if tasks remain |
| `Scheduling.Scheduler.Complete` | internal/task/scheduler.go:119-136 | nil and no change for an ID not in flight; else the task leaves flight for the history and the capped list keeps its shape |
| `Scheduling.Scheduler.Fail` | internal/task/scheduler.go:139-167 | nil and no change for an ID not in flight; else retry or dead-letter by the resulting state, and the counter |
| `Scheduling.Scheduler.RequeueFromWorker` | internal/task/scheduler.go:171-196 | reclaims exactly the worker's in-flight tasks, each once, in any order; count; token if any |
| `Scheduling.Scheduler.ProcessRetries` | internal/task/scheduler.go:200-228 | what is released had its retry time passed, what still waits had not; both keep the list's order and make it up; count; token if any |
| `Scheduling.Scheduler.CheckTimeouts` | internal/task/scheduler.go:232-269 | expires exactly the in-flight tasks that are RUNNING, have a timeout, and started longer ago than it (wrapped as in `Clock.TimeoutExact`), each once, in any order; count |
| `Scheduling.Scheduler.RetryFromDLQ` | internal/task/scheduler.go:282-301 | true exactly if a dead-lettered task has the ID; then that task is revived |
| `Scheduling.Scheduler.GetStats` | internal/task/scheduler.go:313-325 | the sizes of the containers as the model counts them |
| `Scheduling.Scheduler.InFlightTasks` | internal/task/scheduler.go:328-337 | every in-flight task exactly once |
| `Scheduling.Scheduler.AllTasks` | internal/task/scheduler.go:346-376 | the first 200 queued, all in flight, retry, dead-letter, and the last 50 completions of the whole history; of the first 200 shown, 7 do not come after any queued task left out |
| `Scheduling.Scheduler.CompletedWindow` | internal/task/scheduler.go:130-134 | the completed list is the last 100 of all completions, in order |
| `Scheduling.RemoveFirstAt` | internal/task/scheduler.go:286-288 | cutting out the first match by position is removing its first occurrence |
| `Runs.ContainerDeterminesState` | internal/task/scheduler.go:58-301 | over every run a known task is in exactly one container, the one its state names, within the attempt bounds of that container; an unknown task is nowhere |
| `Trails.FieldsFromMoves` | internal/task/task.go:179-255 | over every run a task's worker, times, output, error and exit code are those of the last move that bears them: the worker of its last dispatch unless taken back since, the error of its last failure or timeout unless revived since |
| `Trails.InFlightWhereDispatched` | internal/server/node_server.go:293-303 | a task in flight bears the worker and the time of its last dispatch |
| `Trails.CompletionsInOrder` | internal/task/scheduler.go:119-130 | the history is the tasks completed by the run, oldest first |
| `Runs.FailureOutcome` | internal/task/task.go:210-240 | a running task that fails goes to DEAD exactly if its attempts are used up, keeping its attempt number |
| `Accounts.Conservation` | internal/task/scheduler.go:58-325 | container sizes add up to the tasks enqueued; dispatches = in flight + completed + failed + timeouts + requeues; counters are exact |
| `Accounts.ShiftStep` | internal/task/scheduler.go:58-301 | every effective operation takes one task from one container to one other |
| `Budget.RetryBudget` | internal/task/task.go:179-239 | attempt = failures + timeouts + requeues (+1 under way); at most max(1, MaxRetries) failures and timeouts between revivals; dead at exactly the first with attempts used up |
| `Budget.NextEvolves` | internal/task/task.go:167-255 | what each effective operation does to state and attempt |
| `Transitions.NoDiscardedError` | internal/task/scheduler.go:129-288 | over every run the outcomes of the Task calls whose errors are dropped are all nil, for a task none of whose sends failed |
| `Transitions.DroppedErrors` | internal/task/scheduler.go:119-301 | over any stretch of a run a dropped error is about a task one of whose sends failed |
| `Transitions.ReclaimIsOutsideTheTable` | internal/task/scheduler.go:179-180 | taking a task back from a lost worker makes no Task call and moves it from RUNNING to QUEUED, an edge outside the table |
| `Progress.MovesBounded` | internal/task/task.go:228-243 | after any run, a forward continuation moves a task at most as often as its potential |
| `Progress.FreshTaskMoves` | internal/task/task.go:228-243 | a fresh task is moved fewer than 3 * max(1, MaxRetries) times |
| `Progress.RunsEnd` | internal/task/scheduler.go:81-269 | the summed potential pays for every effective move, so forward runs end |
| `Progress.SomethingCanMove` | internal/task/scheduler.go:81-269 | while a task is neither COMPLETED nor DEAD some forward move is possible |
| `Progress.FinishedIsStuck` | internal/task/scheduler.go:81-269 | a COMPLETED or DEAD task takes part in no forward move |
| `Progress.CompletedIsFinal` | internal/task/scheduler.go:119-167 | a completed task stays exactly as it is over every continuation, late and duplicate reports included |
| `RetryTiming.BackoffExact` | internal/task/task.go:236-236 | the delay is 2^attempt seconds if and only if attempt <= 33 |
| `RetryTiming.OverflowRetriesAtOnce` | internal/task/task.go:236-238 | with MaxRetries 35 or more, a run of 33 lost workers and one failure after which the task may be released before the time it failed |
| `RetryTiming.DelaysExactly` | internal/task/task.go:220-238 | in every run each waiting task's delay is 2^attempt seconds plus jitter, if and only if its MaxRetries is at most 34 |
| `RetryTiming.BackoffWraps` | internal/task/task.go:236-236 | at every attempt number the delay is 2^attempt seconds wrapped to 64 bits of nanoseconds |
| `RetryTiming.DueExactly` | internal/task/scheduler.go:209-209 | a waiting task of MaxRetries up to 34 is due exactly when more than 2^attempt seconds and its jitter have passed since it failed |
| `RetryTiming.DelaysGrow` | internal/task/task.go:236-238 | delays grow strictly with the attempt, whatever the jitter |
| `RetryTiming.RetryTimeIsSet` | internal/task/task.go:228-239 | a waiting task's retry time is its last failure plus backoff and jitter |
| `RetryTiming.RetryTimeFromMoves` | internal/task/task.go:228-239 | in every state a task's retry time is what its last failure or timeout with attempts left set it to |
| `RetryTiming.NeverReleasedEarly` | internal/task/scheduler.go:208-211 | no run releases a task of MaxRetries up to 34 before 2^attempt seconds have passed since it failed |
| `Clock.TimeoutExact` | internal/task/scheduler.go:242-243 | the deadline product is exact if and only if the timeout is at most 9223372036 seconds, and wraps to 64 bits beyond |
| `Deadlines.OverdueExactly` | internal/task/scheduler.go:241-246 | a task in flight with a timeout of up to 9223372036 seconds is overdue exactly when that has passed since its last dispatch |
| `Deadlines.NeverExpiredEarly` | internal/task/scheduler.go:241-246 | no run expires a task before its timeout, of up to 9223372036 seconds, has passed since its last dispatch, nor a task without a timeout |
| `Deadlines.OwnedExactly` | internal/task/scheduler.go:176-177 | the tasks in flight on a worker are those last dispatched to it |
| `RetryTiming.WaitBeforeDeadLetter` | internal/task/task.go:228-239 | a task dead-lettered without lost workers waited between 2^M - 2 and 2^M + M - 3 seconds |
| `Sweeps.TimeoutSweepExact` | internal/task/scheduler.go:232-269 | from any state, after the sweep nothing overdue is in flight, all else is untouched, the swept are appended by attempts left, for any map order |
| `Sweeps.RetrySweepExact` | internal/task/scheduler.go:208-218 | from any state, a retry tick adds exactly the due tasks to the queue, the waiting ones as QUEUED, and leaves all else |
| `Sweeps.LostWorkerSweepExact` | internal/task/scheduler.go:171-186 | from any state, after a worker's stream ends nothing of it is in flight, exactly its tasks join the queue, and all else is untouched, for any map order |
| `Sweeps.TimeoutSweepIsLegal` | internal/task/scheduler.go:249-266 | a sweep is a stretch of a legal run |
| `Sweeps.RequeueIsLegal` | internal/task/scheduler.go:176-186 | taking back a worker's tasks is a stretch of a legal run |
| `Sweeps.RetriesAreLegal` | internal/task/scheduler.go:208-218 | releasing the due tasks is a stretch of a legal run |
| `Interleavings.OccurrenceLaw` | internal/server/node_server.go:293-335 | with separate steps and failed sends: places held + merges = 1 + failed sends |
| `Interleavings.NothingIsLost` | internal/server/node_server.go:249-335 | every enqueued task is always somewhere, in every order of the steps |
| `Interleavings.OnePlaceExactly` | internal/server/node_server.go:329-334 | a task is in exactly one place if and only if every failed send of it was made good by a later dequeue |
| `Interleavings.FailedSendDuplicates` | internal/server/node_server.go:329-334 | a run of three steps after which a task is queued and in flight at once |
| `WakeUp.SafeExactlyWithBothSignals` | internal/server/node_server.go:276-296 | no interleaving loses a wake-up if and only if both the re-arm in Dequeue and the re-signal on refusal are there |
| `WakeUp.IdleMeansEmptyOrToken` | internal/task/scheduler.go:81-116 | with all loops idle, queued tasks mean a token to take |
| `WakeUp.ReachableCanDrain` | internal/server/node_server.go:276-343 | from every reachable state with a loop left, the loops can empty the queue without outside signals |
| `WakeUp.WithoutRearm` | internal/task/scheduler.go:74-98 | a run that strands a task without the re-arm |
| `WakeUp.WithoutResignal` | internal/server/node_server.go:284-290 | a run that strands a task without the re-signal |
| `BadgerStore.Store.Save` | internal/store/badger_store.go:49-58 | the task's whole value under its ID, nothing else |
| `BadgerStore.Store.List` | internal/store/badger_store.go:83-104 | every stored record exactly once, in some order |
| `BadgerStore.Store.GetByState` | internal/store/badger_store.go:112-124 | the listed records filtered by state, in order |
| `BadgerStore.WithStateExactly` | internal/store/badger_store.go:117-122 | the filter keeps each record of the state as often as it is listed, and no other |
| `BadgerStore.WithStateInOrder` | internal/store/badger_store.go:117-122 | ... in the order of the list |
| `BadgerStore.Store.RecoverTasks` | internal/store/badger_store.go:134-150 | the listed unfinished records, reset, in order |
| `BadgerStore.RecoverableExactly` | internal/store/badger_store.go:139-147 | a record is recovered if and only if it is the snapshot of an unfinished task made QUEUED and without worker, all else as saved |
| `BadgerStore.RecoverableInOrder` | internal/store/badger_store.go:139-147 | every unfinished snapshot is recovered, as often as it is listed and in that order |
| `Recovery.SnapshotTracks` | internal/server/node_server.go:121-180 | over every run, how a task's snapshot relates to its value in memory |
| `Recovery.RecoveryExact` | internal/store/badger_store.go:134-150 | after a crash a task none of whose sends failed comes back if and only if it is unfinished and not revived since a reported death, or died of a timeout; as QUEUED, without worker, with its attempt unless it died since its last dispatch |
| `Recovery.RecoveryWithoutRevivals` | internal/store/badger_store.go:131-150 | without revivals every unfinished task comes back, and no completed or reported-dead one |
| `Recovery.RevivedTaskIsLost` | internal/task/scheduler.go:282-301 | a run whose revived, queued task is lost by a crash |
| `Recovery.TimedOutTaskComesBack` | internal/task/scheduler.go:249-266 | a run whose timed-out dead task comes back |
| `CircuitBreakers.CircuitBreaker.Allow` | internal/circuitbreaker/circuit_breaker.go:84-106 | refused exactly while open and no more than the timeout after the last failure or trip of the call history; an open breaker that admits begins to probe |
| `CircuitBreakers.CircuitBreaker.RecordSuccess` | internal/circuitbreaker/circuit_breaker.go:109-126 | the same for a success |
| `CircuitBreakers.CircuitBreaker.RecordFailure` | internal/circuitbreaker/circuit_breaker.go:129-149 | the same for a failure |
| `CircuitBreakers.CircuitBreaker.Trip` | internal/circuitbreaker/circuit_breaker.go:186-192 | the same for a manual trip |
| `CircuitBreakers.CircuitBreaker.Reset` | internal/circuitbreaker/circuit_breaker.go:195-202 | the same for a manual reset |
| `CircuitBreakers.ClosedCountsFailures` | internal/circuitbreaker/circuit_breaker.go:109-149 | closed: the counter is the failures since the last success or reset, below the threshold; probing: successes below theirs |
| `CircuitBreakers.CountsFailures` | internal/circuitbreaker/circuit_breaker.go:109-149 | in every state the failure counter is the failures since the last reset or success that left the breaker closed |
| `CircuitBreakers.ClosedUntilTheThreshold` | internal/circuitbreaker/circuit_breaker.go:70-80 | a breaker is closed as long as it was never tripped and never had the threshold's failures in a row; a new one is |
| `CircuitBreakers.RefusedExactly` | internal/circuitbreaker/circuit_breaker.go:88-105 | a call is refused if and only if the breaker is open and no more than the timeout has passed since the last failure or trip |
| `CircuitBreakers.OpensExactly` | internal/circuitbreaker/circuit_breaker.go:129-192 | opens if and only if tripped, failing while probing, or on the threshold's failure in a row |
| `CircuitBreakers.OpenAdmitsExactly` | internal/circuitbreaker/circuit_breaker.go:91-100 | open: a call is let through if and only if more than the timeout passed since the last failure or trip |
| `CircuitBreakers.NoEarlyAdmission` | internal/circuitbreaker/circuit_breaker.go:84-149 | absent a reset, the first call let through after opening comes later than that |
| `CircuitBreakers.AdmitsUnlessOpen` | internal/circuitbreaker/circuit_breaker.go:89-102 | while closed or probing every call is let through and changes nothing |
| `CircuitBreakers.TwoProbesAtOnce` | internal/circuitbreaker/circuit_breaker.go:91-102 | for every configuration a history in which two requests are let through before either reports |
| `CircuitBreakers.Probing` | internal/circuitbreaker/circuit_breaker.go:91-122 | probing began with a late enough Allow, with no failure, trip or reset since; the counter is the successes since |
| `CircuitBreakers.ClosesOnlyAfterProbes` | internal/circuitbreaker/circuit_breaker.go:113-147 | closes if and only if reset, or by the last of successThreshold successes since probing began |
| `BreakerRegistry.Registry.Get` | internal/circuitbreaker/circuit_breaker.go:232-251 | the stored breaker, or a new closed one stored for this worker only |
| `BreakerRegistry.AgreementExactlyWithRecheck` | internal/circuitbreaker/circuit_breaker.go:232-251 | in every interleaving all callers for a worker agree and one breaker is made, if and only if the write-locked part looks again |
| `BreakerRegistry.WithoutRecheck` | internal/circuitbreaker/circuit_breaker.go:243-246 | two callers with two breakers when it does not |
| `FailureDetector.WorkerTable.Register` | internal/server/node_server.go:232-240 | a new ACTIVE entry replaces the old one and starts a history |
| `FailureDetector.WorkerTable.SendHeartbeat` | internal/server/node_server.go:131-153 | an unknown worker changes nothing; a known one's history gains the beat and its entry follows |
| `FailureDetector.WorkerTable.CheckWorkerHealth` | internal/server/node_server.go:372-408 | every worker's history gains the check and every entry follows, in any map order |
| `FailureDetector.WorkerTable.EndStream` | internal/server/node_server.go:264-268 | the worker's history gains the end and its entry follows |
| `FailureDetector.StateFromHistory` | internal/server/node_server.go:131-153 | the state read off the history: DEAD exactly when the stream ended or two checks declared it and it has not registered since, else SUSPECT exactly when a check found silence with no sign since, else ACTIVE |
| `FailureDetector.RemembersLastSign` | internal/server/node_server.go:142-143 | the heartbeat time and load are those of the last sign |
| `FailureDetector.SuspectWasSilent` | internal/server/node_server.go:382-401 | SUSPECT means a check found silence beyond the heartbeat timeout, with no sign since |
| `FailureDetector.DeadWasSilent` | internal/server/node_server.go:382-390 | DEAD by the checker means an earlier suspecting check and a later one that found silence beyond the dead timeout |
| `FailureDetector.DeathAfterMark` | internal/server/node_server.go:382-401 | how long after the mark the death comes: more than the dead timeout less the silence at the mark |
| `FailureDetector.DeadTimeoutIsNotFromTheMark` | internal/server/node_server.go:384-401 | a death less than the dead timeout after the mark is possible if and only if that timeout is positive |
| `FailureDetector.DeadUntilRegistered` | internal/server/node_server.go:147-150 | DEAD persists through anything but a new registration |
| `FailureDetector.SilentWorkerDiesInTime` | internal/server/node_server.go:372-407 | with checks at most P apart a silent worker is DEAD within max(HT + 2P, DT + P) of its last sign |
| `NodeServers.NodeServer.Enqueue` | internal/server/node_server.go:121-125 | saving and enqueuing extend the run by one move; a token waits |
| `NodeServers.NodeServer.ReportTaskStatus` | internal/server/node_server.go:156-181 | a report of a task in flight makes it COMPLETED with its output, or RETRYING or DEAD with its error, and is saved; of another it changes nothing; the worker's breaker hears of it either way |
| `NodeServers.NodeServer.Serve` | internal/server/node_server.go:281-335 | a turn takes the token and leaves one behind while tasks are queued; a refusal dispatches nothing; it is refused exactly while the worker's breaker is open and its timeout has not passed; otherwise the queued task of highest priority and earliest creation is dispatched, RUNNING on this worker from now on, and saved, or put back QUEUED without worker when the send fails; dropped errors are about tasks whose send had failed |
| `NodeServers.NodeServer.EndStream` | internal/server/node_server.go:257-268 | exactly the in-flight tasks last dispatched to the worker join the queue, none of them stays in flight, a token waits if tasks do, and its entry is DEAD |
| `NodeServers.NodeServer.CheckWorkerHealth` | internal/server/node_server.go:372-408 | the health tick judges the workers and leaves the scheduler as it is |
| `NodeServers.NodeServer.ProcessRetries` | internal/server/node_server.go:362-363 | a retry tick puts exactly the tasks whose wait since their last failure is over on the queue, in list order, and none of MaxRetries up to 34 is left waiting past 2^attempt seconds and its jitter |
| `NodeServers.NodeServer.CheckTimeouts` | internal/server/node_server.go:364-365 | a timeout tick expires exactly the tasks dispatched longer ago than their timeout of up to 9223372036 seconds, and leaves none of those in flight |
| `NodeServers.NodeServer.RetryFromDLQ` | internal/task/scheduler.go:282-301 | true exactly if a dead-lettered task has the ID; its revival extends the run by one move |
| `NodeServers.NodeServer.EveryTaskInItsPlace` | internal/task/scheduler.go:58-325 | in the live scheduler a task none of whose sends failed is in the one container its state names, whatever happened to others |
| `NodeServers.NodeServer.EveryFieldFromItsMoves` | internal/task/task.go:179-255 | in the live scheduler the fields of such a task are what its last moves say |
| `NodeServers.NodeServer.LastCompletions` | internal/task/scheduler.go:130-134 | the live completed list is the last 100 tasks completed, in order |
| `NodeServers.NodeServer.CountsBalance` | internal/task/scheduler.go:58-325 | the live counts balance as long as every send succeeded |
| `NodeServers.NodeServer.NoTaskIsLost` | internal/server/node_server.go:293-335 | the live scheduler always holds every task somewhere |
| `NodeServers.NodeServer.RecoveryFromHere` | internal/store/badger_store.go:134-150 | what the live store would give back after a crash of a task none of whose sends failed, exactly |

## Left out

- Task IDs are assumed unique: the in-flight map is keyed by ID, and two live tasks with one ID would overwrite each other there.
- One stream per worker ID is assumed; a second stream's cleanup would act on the first one's entry.
- The scheduler's lock is modelled by making each of its operations one step; only the signal channel, the loop's steps after Dequeue, and the registry's two lock sections are interleaved.
- `NodeServers.NodeServer.ReportTaskStatus`: does not model another operation coming between the scheduler's part and the save, which the code does outside the lock.
- `NodeServers.NodeServer.Serve`: does not model other operations between its steps; `Interleavings` does, for the containers.
- `Tasks.Task.Assign`: does not model the 32-bit wrap-around of the attempt counter; attempts are unbounded.
- Go's saturation of time differences beyond 292 years: times are unbounded integers; only the two duration products in the code are wrapped to 64 bits.
- Each operation reads the clock once; the code reads it a few times within one operation.
- `BadgerStore.Store.Save`: does not model the error returned when encoding or the database fails; the server drops it.
- `BadgerStore.Store.List`: does not model the error of a failing read.
- `BadgerStore.Store.GetByState`: does not model the error of a failing read.
- `BadgerStore.Store.RecoverTasks`: does not model the error of a failing read, and returns values, not new task objects; the objects the code resets are private copies.
- JSON encoding loses nothing. The in-memory store shares pointers with the scheduler and is not modelled.
- Re-enqueuing the recovered tasks at startup: the master in this repository does not do it.
- Strings are opaque values compared only for equality.
- gRPC transport and contexts: a send succeeds or fails, and a stream ends, as a step.
- internal/worker, internal/master, internal/events, internal/middleware: outside the coordinator's task handling.
- Logging, metrics, tracing, TLS, event publishing, state names and JSON shapes.
