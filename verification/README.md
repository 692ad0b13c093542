# nTask: a model of the manager/worker protocol

nTask is a distributed task queue. A manager keeps a `task` table, a `worker` table and a map `WebSockets` from
worker names to live connections. Its scheduler sends pending tasks to idle workers; workers run the commands and
answer with a result, a refusal or their status. Connections break, workers crash and reconnect, the manager
restarts. This project models that protocol as a step machine with all its faults and proves what every run keeps.

## How the model is built

| file | what it holds |
|---|---|
| `Types`, `Connections` | tasks, workers, messages, connections with their two queues |
| `Tables`, `TaskDatabase` | the SQL statements: as functions on the tables, and as a class whose methods change them |
| `Handlers`, `Manager` | the manager's handlers: as functions on its whole state, and as a class that works in place and is proved equal to them |
| `WorkerProcesses` | a worker process and its message handlers |
| `Protocol` | the step machine (23 kinds of step), its runs and the invariant |
| `Safety`, `Guarantees`, `Progress` | the invariant holds in every run; what it means; everything in flight lands |
| `Finality`, `Stranding` | when a status is final; when a pending task is left to a worker that is gone |
| `WorkerLaws`, `Addressing` | what a worker executes, registers and loses; whose tasks it gets |
| `OneWorker`, `Counterexamples` | what one worker of one thread does, and the runs that show what is not guaranteed |
| `TaskColumns`, `WorkerColumns`, `ConnColumns` | a second account of every step, column by column and field by field, that the handlers are proved to meet |
| `Results` | where the contents of done and failed rows come from |
| `Recovery` | the countdown that removes a vanished worker |
| `Conservation` | rows, requests and counters over whole runs |
| `Dispatch`, `DispatchLaws` | the scheduler's nested loop, and what one round achieves |
| `Heartbeat`, `Execution`, `Commands`, `Pagination` | the smaller loops: monitor, command execution, argv, pages |
| `Sums` | totals over the values of a map |

An operation appears twice: once in the form of the source, as a method over mutable fields, and once as a function
on values. The method's `ensures` says that it computes the function; the lemmas and the step machine speak about
the function. What the functions do is stated once more without them: the three column modules say, for every step
and every column of both tables, every flag and queue of every connection and the map of names, what the new value
is. Setters that cannot fail, whose contract is their assignment, and lemmas that only serve a proof have no row below.

## Assumptions

- Each handler is one atomic step. In particular `sendAddTask` writes the message (manager/utils/workerRequest.go:214)
  and marks the row (line 226) in one step; a result that arrived in between would be overwritten. Between any two
  selects of the scheduler, and between a send and the select after it, other handlers may run (the step `Rereads`
  and the free limit of `Fetches`).
- A SQL statement fails only with "not found" or "duplicate entry", and "not found" means that no row has the key.
  `updatedAt`, `executedAt` and the second-granularity effects of `RowsAffected` are not modelled; text columns
  compare exactly.
- Messages decode. Worker names are not empty. A worker process announces one name, its own.
- A write fails only on a broken connection, and a write to a broken connection may still be reported as done; the
  message is then lost. The writes and reads of one connection are in order, and what is queued when a connection
  breaks or is closed may still be read.
- `requestTask.Status = "running"` (worker/websockets/websockets.go:199) is written before the goroutine started at
  line 196 writes its result, so a callback carries `done` or `failed`.
- Task ids are random and never repeat, also not after a row was trimmed.
- `StatusCheckDown` does not change while the manager runs. `ORDER BY RAND()` is an arbitrary order, and rows that
  compare equal come in any order.
- Commands end by themselves or are killed; either way a result follows. What a command gives is a parameter, and
  so is whether `kill -9` of a process succeeds. Killing process 0, which is what a missing id in `WorkingIDs` reads
  as, ends the worker, whose process group it is.
- Executions that a worker brings along from before the manager's start name that worker.
- In `Heartbeat`, time is in whole seconds, writes take no time and the next tick comes at most 30 seconds after the
  previous check.

## Where the code differs from what one would expect

- `AddWorker` wraps its error (manager/database/DBworkers.go:20), so the type assertion at
  manager/utils/handleErrors.go:14 never matches: a second registration of a name changes neither table
  (`Manager.Manager.AddWorker`), against the comment on line 17 of that file.
- The cleanup of an old connection closes and removes whatever connection is now stored under its name
  (`Guarantees.ReconnectIsUndone`).
- Requeueing keeps `workerName`: a requeued task stays pinned to its worker until that worker is removed, which is
  why `Recovery` needs the countdown to free it.
- Neither `done` nor `deleted` is final (`Counterexamples`): `sendAddTask` overwrites the row with the scheduler's
  snapshot, and the failure of a killed command overwrites `deleted`. status.log:138-146 shows the number of done
  tasks falling. `Finality` says exactly when a status is kept.
- A deletion that finds no registered id ends the worker with all its executions (`WorkerLaws.DeletionIsLocal`,
  `Counterexamples.DeletionEndsAll`): `status.WorkingIDs[requestTask.ID]` then reads as 0, and only negative numbers
  are refused (worker/websockets/websockets.go:227-232). An executing task has no registered id between two commands.
- A pending task may name a worker without a row (`Stranding.StepStrands`, `Counterexamples.TaskStranded`).
- `len(WorkingIDs) <= DefaultThreads` does not hold, and has no bound at all (`Counterexamples.ThreadsAreNoBound`):
  an id is registered only while a command of its task runs. `WorkerLaws.ThreadsExceeded` gives the exact step.
- The read deadline uses `globalstructs.PongWait`, 60 seconds; the local `pongWait` of 120 seconds
  (manager/websockets/websockets.go:21) is unused.

## Model

| member | source | states |
|---|---|---|
| Safety.StepKeepsInv | manager/websockets/websockets.go:150-318 | every step of manager, workers and network (post, delete, send, each message, break, cleanup, crash, dial, tick, trim, restart) keeps the invariant: running tasks are connected and carried |
| Safety.RunsKeepInv | manager/manager.go:284-292 | the invariant holds in every state of every run from a start on arbitrary tables |
| Safety.QuiescentRunsNothing | manager/utils/workerRequest.go:356-392 | no task is lost: once queues are empty, executions over and broken connections cleaned up, no task is `running` |
| Safety.RestartsOk | manager/manager.go:284-292 | a restart re-establishes the running-task clauses from any table contents |
| Safety.SendsOk | manager/utils/workerRequest.go:178-242 | a send, successful or not, leaves every running task connected and carried by the connection it was sent on |
| Safety.DisconnectsOk | manager/utils/workerRequest.go:356-392 | disconnecting a name keeps the invariant, whichever connection is stored under it |
| Safety.CleansUpOk | manager/websockets/websockets.go:150-168 | when a reader goes away no running task depends on its connection any more |
| Safety.DeliversOk | manager/websockets/websockets.go:181-243 | handling a message and dropping it from its queue loses no running task |
| Safety.HandlesOk | manager/websockets/websockets.go:181-318 | each kind of message keeps the invariant, with the message still queued |
| Safety.ReceivesOk | worker/websockets/websockets.go:42-89 | a worker that reads a message either starts the execution or answers with a refusal: the task stays carried |
| Safety.FinishesOk | worker/process/processTask.go:47-54 | an execution that ends hands its task over to a queued callback |
| Safety.DialsOk | worker/websockets/websockets.go:93-170 | replacing a worker's connection keeps the tasks sent on the old one recoverable |
| Safety.TicksOk | manager/utils/workerRequest.go:87-101 | a verify tick keeps the invariant |
| Safety.VerifyApplies | manager/utils/workerRequest.go:86-101 | what the verify loop relies on holds in every reachable state: keyed rows, non-empty names, no connection under two names |
| TaskColumns.TaskRowsMeetReference | manager/database/DBtask.go:16-67 | for every step and every task row: status, worker, details and priority are written exactly by a send, a result, a refusal, a deletion, a removal, a cleanup or a restart, each its own columns; user and creation time never; rows appear by an accepted post and go by the trim |
| WorkerColumns.WorkerRowsMeetReference | manager/database/DBworkers.go:15-188 | for every step and every worker row: up, downCount and idle count are written exactly by a status, a send, a tick without a socket or a cleanup; name and threads never; rows appear by the first registration and go by a dismissal |
| WorkerColumns.ShutdownRemoves | manager/websockets/websockets.go:254-260 | an orderly shutdown removes exactly the worker's row and frees its tasks; the running ones become pending, all else is unchanged |
| WorkerColumns.RowGoes | manager/database/DBworkers.go:25-43 | a worker's row goes exactly by the API, by its own message or by the tick that ends its countdown |
| WorkerColumns.TickMarksDown | manager/utils/workerRequest.go:144-153 | after a tick a worker is up exactly when it was and is connected, so no other is offered tasks |
| ConnColumns.ConnsMeetReference | manager/utils/workerRequest.go:189-220 | for every step and every connection: what is written to and read from both queues, which name its reader knows, when it breaks and when its reader goes |
| ConnColumns.SocketsMeetReference | manager/websockets/websockets.go:245-252 | a name stands for the connection it was last registered on, until the cleanup of one that had announced it, or a restart |
| WorkerLaws.NextProcs | worker/websockets/websockets.go:187-200 | for every step and every process: its connection, executions and registered ids; a task is accepted exactly below the number of threads |
| Results.DoneRowsHoldResults | manager/websockets/websockets.go:337-352 | in every reachable state a done or failed row is so since the start or holds status, outputs and all details exactly as an earlier execution of its task finished with them |
| Results.ResultIsStored | manager/database/DBtask.go:35-67 | a result that arrives is written as it is; user, creation time and all other rows stay |
| Progress.RunningCanLand | manager/websockets/websockets.go:128-147 | while a task is running, some landing step (a delivery, a receipt, a cleanup, the end of a command or of an execution) is enabled that brings something in flight closer to its end |
| Progress.MaximalRunsDrain | worker/process/processTask.go:47-54 | from every reachable state every run of such steps, however they are chosen, is no longer than what was in flight, and when none is left no task is running |
| Progress.LandingRunsEnd | manager/websockets/websockets.go:128-147 | each such step uses up something in flight |
| Progress.CanDrain | worker/process/processTask.go:47-54 | from every reachable state a finite run of such steps ends with no task running |
| Guarantees.RunningIsConnected | manager/utils/workerRequest.go:184-226 | in every reachable state a running task names a worker with a row and a live WebSockets entry |
| Guarantees.DeleteReachesWorker | manager/api/APItask.go:187-216 | deleting a task fails exactly when it is running and the write to its broken connection fails; "websocket not found" never happens |
| Guarantees.DeleteTellsWorker | manager/api/APItask.go:193-204 | exactly the deletion of a running task tells its worker to kill it |
| Guarantees.ReconnectIsUndone | manager/utils/workerRequest.go:369-389 | whenever a registered worker reconnects and registers before the manager has cleaned up its old connection, the cleanup closes the connection the worker is using, forgets the name and marks the row down |
| Guarantees.CleanupCloses | manager/utils/workerRequest.go:369-373 | a cleanup closes another connection exactly when that one is stored under the announced name |
| WorkerLaws.ThreadsExceeded | worker/modules/modules.go:41-44 | a step lifts `len(WorkingIDs)` above DefaultThreads exactly when it registers a new id while as many ids as threads are registered |
| WorkerLaws.RunsKeepRegistered | worker/modules/modules.go:41-53 | in every run registered ids are ids of executing tasks, so the reported idle count is at least the threads minus the executing tasks |
| Guarantees.TickAsksConnected | manager/utils/workerRequest.go:109-126 | a tick asks exactly the connected workers with a row for their status, once each |
| Guarantees.TickKeepsStatuses | manager/utils/workerRequest.go:164-172 | removal by tick changes no status: a running task never belongs to a worker without a connection |
| Guarantees.TickRemoves | manager/utils/workerRequest.go:155-172 | a tick removes exactly the unconnected workers whose countdown is over, and no task keeps their name |
| WorkerLaws.DeletionIsLocal | worker/websockets/websockets.go:227-241 | handling a deletion leaves every execution and every other worker alone exactly when the id is registered; otherwise the worker ends, its executions are gone and its connection breaks |
| WorkerLaws.DeletionAnswer | worker/websockets/websockets.go:227-253 | a starting command is neither killed nor answered, a running one is answered by the outcome of the kill |
| Addressing.ExecutesItsOwn | manager/utils/workerRequest.go:189-207 | in every reachable state a worker executes only tasks that carry its own, non-empty name, and every result on its way carries the name of the worker that produced it |
| Addressing.StepAddresses | manager/utils/workerRequest.go:189-207 | every step keeps requests, executions and results with the worker they name |
| Stranding.StepStrands | manager/websockets/websockets.go:221-237 | from a state in which every pinned pending task names a worker with a row, a step breaks this exactly when it handles a refusal for a row whose worker has been removed |
| Finality.StepKeepsStatus | manager/database/DBtask.go:35-67 | a step changes the status of a task that is not running, or removes its row, exactly when it successfully sends a copy from the scheduler's snapshot, handles a result or refusal that says otherwise, deletes or trims it |
| Finality.FinalWithoutCopies | manager/websockets/websockets.go:337-352 | when no copy of a done, failed or deleted task is in the snapshot, a queue or an execution, every run keeps its status exactly as long as nobody deletes or trims it |
| Finality.NoCopyStays | manager/utils/manageTasks.go:18-21 | no step makes a copy of a task that is not pending and has none |
| Counterexamples.DeletedTaskRuns | manager/utils/workerRequest.go:222-226 | for every unpinned task a reachable state in which it is deleted and the next send makes it running |
| Counterexamples.DeletedTaskFails | worker/process/processTask.go:26-38 | for every unpinned task a reachable state in which it has been deleted while its command ran, the command has been killed, and the failure this causes makes it failed |
| Counterexamples.DoneTaskRunsAgain | status.log:138-146 | for every unpinned task a reachable state in which it is done, the next send makes it running, and its worker executes it again |
| Counterexamples.TaskStranded | manager/websockets/websockets.go:221-237 | for every two unpinned tasks a reachable state without stranded tasks in which the next message leaves one pending for a worker that has no row |
| Counterexamples.DeletionEndsAll | worker/websockets/websockets.go:227-241 | for every n > 0 a reachable state in which the deletion of one of n executing tasks ends all n executions |
| Counterexamples.ThreadsAreNoBound | worker/websockets/websockets.go:187-200 | for every n a reachable state in which a worker of one thread has n registered ids and has reported 1 - n idle threads |
| Recovery.VanishedWorkerRecovery | manager/utils/workerRequest.go:131-175 | after the cleanup of w's connection, in any run quiet about w, the row survives every tick but the (StatusCheckDown - downCount)-th, which removes it and leaves all tasks w was running pending without a worker |
| Recovery.CleanupStarts | manager/utils/workerRequest.go:369-389 | the cleanup makes exactly the tasks w was running pending, pinned to w, with the countdown where it was |
| Recovery.StillVanished | manager/utils/workerRequest.go:155-165 | until the countdown is over, the downCount is its start plus the number of ticks, whatever else happens |
| Recovery.RunsKeepDownCount | manager/manager.go:218-220 | when rows start from 0, every row has 0 <= downCount < StatusCheckDown in every state of every run |
| Recovery.StepKeepsDownCount | manager/utils/workerRequest.go:155-172 | every step keeps those bounds |
| Recovery.StatusKeepsRow | manager/websockets/websockets.go:301-317 | after a status message the row survives the next StatusCheckDown - 1 ticks, unless a message or the API removes it |
| Conservation.RowsConserved | manager/database/DBtask.go:304-327 | at every point of a run, the number of rows is that at the start plus tasks posted minus rows trimmed |
| Conservation.StepConservesRows | manager/api/APItask.go:137 | only an accepted post adds a row, under a new id; only the trim removes rows, and only done ones |
| Conservation.RunsKeepRequests | manager/database/DBtask.go:41-44 | a surviving row keeps owner, creation time, priority and the user's request, though UpdateTask overwrites it with copies that were queued or executing |
| Conservation.ExecutesWhatWasPosted | manager/api/APItask.go:117-137 | at every point after an accepted post, as long as the row exists, row and executions hold the request, owner, priority and creation time that were posted |
| Conservation.StepKeepsCopies | worker/modules/modules.go:282-311 | every copy in the scheduler, the queues and the executions agrees with its row on what the user wrote |
| Conservation.CountersSum | manager/utils/stats.go:10-50 | the five counters never count a row twice, and sum to the row count exactly when no row has another status |
| Conservation.RunsKeepCounters | manager/utils/stats.go:10-50 | in every reachable state of five-status tables the counters sum to the row count |
| Dispatch.DispatchRound | manager/utils/manageTasks.go:15-57 | even if tables and connections change arbitrarily between iterations, each fetched task is sent at most once and a pinned one only to its worker; undisturbed, the loop is the specified round |
| Dispatch.OfferTask | manager/utils/manageTasks.go:37-47 | the inner loop does not break on success, yet makes at most one call: the name written into the loop's task stops it |
| Dispatch.SendOne | manager/utils/manageTasks.go:39-46 | one call for a matching worker; after a success the loop's task carries that worker's name |
| DispatchLaws.LedgerPerWorker | manager/database/DBworkers.go:143-154 | each worker's idle count falls by exactly the calls made for it and never below zero |
| DispatchLaws.LedgerTotal | manager/utils/workerRequest.go:183-187 | total idle threads before minus after is the number of sendAddTask calls |
| DispatchLaws.AttemptsBounded | manager/utils/workerRequest.go:64-84 | a round makes at most max(1, DefaultThreads of the workers that are up) calls |
| DispatchLaws.RoundRows | manager/utils/workerRequest.go:222-226 | after a round exactly the dispatched rows differ: running, on the worker they were sent to |
| DispatchLaws.MarkedAt | manager/utils/workerRequest.go:222-226 | a row is as before or running, and the dispatched ones are running |
| DispatchLaws.PrefixDispatched | manager/utils/manageTasks.go:36-56 | in the offered prefix a task is dispatched exactly when an idle worker may take it: an unpinned one always, a pinned one unless its worker was not up and idle at its turn |
| DispatchLaws.PrefixRuns | manager/utils/manageTasks.go:36-56 | the unpinned tasks running after a round are exactly the unpinned ones of the prefix; the tasks after it keep their rows |
| DispatchLaws.InversionIsFailure | manager/utils/manageTasks.go:36-56 | with failed sends, too: a dispatched task has overtaken an unpinned task left pending only if that task's own attempt came before and failed |
| DispatchLaws.PendingAfter | manager/utils/manageTasks.go:38-46 | an unpinned task that was offered is still pending exactly when its own attempt failed |
| DispatchLaws.NoPriorityInversion | manager/database/DBtask.go:171-179 | a dispatched task has a higher priority than every unpinned task left pending, or the same and an earlier or equal creation time |
| DispatchLaws.SendsSucceed | manager/utils/workerRequest.go:189-220 | when every idle worker has a working connection, no send of the round fails |
| DispatchLaws.RoundIsRun | manager/utils/manageTasks.go:15-57 | the loop of the scheduler is a run of the step machine, so the invariants hold between its iterations |
| Tables.RemovalDetaches | manager/database/DBworkers.go:25-43 | removing a worker leaves no task with its name; its running tasks become pending, every other status, task and row is unchanged |
| Tables.DoubleRequeue | manager/utils/workerRequest.go:165-172 | requeueing before RmWorkerName requeues again equals a single requeue |
| Tables.RemovalKeepsStatuses | manager/database/DBworkers.go:35-41 | removing a worker without running tasks changes no status |
| TaskDatabase.TrimKeepsNewest | manager/database/DBtask.go:304-327 | exactly min(total, maxEntries) done rows remain, no removed row is younger than a kept done row, no other row is touched |
| TaskDatabase.Database.DeleteMaxEntriesHistory | manager/database/DBtask.go:304-327 | deletes exactly the excess oldest done rows |
| TaskDatabase.Database.GetTasksPending | manager/database/DBtask.go:171-179 | returns pending rows, higher priority and then earlier creation first; at most the limit (1 when there is none), and whatever is left out comes after all of them |
| TaskDatabase.Database.AddTask | manager/database/DBtask.go:16-33 | inserts the row under a new id; a duplicate id is a wrapped error that changes nothing |
| TaskDatabase.Database.UpdateTask | manager/database/DBtask.go:35-67 | overwrites the row but for username and createdAt, or reports that there is none |
| TaskDatabase.Database.SetTaskStatus | manager/database/DBtask.go:279-291 | changes one row's status, or reports that there is none |
| TaskDatabase.Database.AddWorker | manager/database/DBworkers.go:15-23 | inserts the row under a new name; a duplicate name is a wrapped error that changes nothing |
| TaskDatabase.Database.RmWorkerName | manager/database/DBworkers.go:25-43 | three statements in a row detach the worker on both tables, or nothing changes |
| TaskDatabase.Database.UpdateWorker | manager/database/DBworkers.go:86-97 | replaces the row, or reports that there is none |
| TaskDatabase.Database.SetWorkerUPto | manager/database/DBworkers.go:99-128 | sets `up` in one row; setting it to what it was is a success |
| TaskDatabase.Database.SetIddleThreadsTo | manager/database/DBworkers.go:130-141 | sets the idle count of one row |
| TaskDatabase.Database.SubtractWorkerIddleThreads1 | manager/database/DBworkers.go:143-154 | takes one idle thread from one row, stopping at zero |
| TaskDatabase.Database.SetWorkerDownCount | manager/database/DBworkers.go:166-176 | sets the down count of one row |
| TaskDatabase.Database.AddWorkerDownCount | manager/database/DBworkers.go:178-188 | adds one to the down count of one row |
| TaskDatabase.Database.GetWorkers | manager/database/DBworkers.go:51-55 | every row exactly once, in any order |
| TaskDatabase.Database.GetWorkerUP | manager/database/DBworkers.go:76-80 | exactly the rows that are up, once each |
| TaskDatabase.Database.GetWorkerIddle | manager/database/DBworkers.go:70-74 | exactly the rows that are up with idle threads, once each, in any order |
| Handlers.TickOneMore | manager/utils/workerRequest.go:94-100 | verifying workers one after the other does the same to every row in any order |
| Manager.Manager.constructor | manager/manager.go:186-227 | a manager starts with positive StatusCheckDown, no sockets and the tasks left running made pending |
| Manager.Manager.SendMessage | manager/utils/workerRequest.go:21-38 | a failed write means a broken connection; otherwise the message is queued unless the connection is broken |
| Manager.Manager.SendAddTask | manager/utils/workerRequest.go:177-242 | the idle count pays first; then missing socket, failed write, or message and running mark; the caller's task variable afterwards |
| Manager.Manager.SendDeleteTask | manager/utils/workerRequest.go:244-287 | without socket or write nothing changes; otherwise the message is queued and the row deleted |
| Manager.Manager.WorkerDisconnected | manager/utils/workerRequest.go:356-392 | closes and forgets the stored connection, marks the row down, requeues its running tasks |
| Manager.Manager.HandleMissingWebSocket | manager/utils/workerRequest.go:129-175 | counts down, and at the limit removes the row and frees its tasks |
| Manager.Manager.VerifyWorker | manager/utils/workerRequest.go:103-127 | asks a connected worker, counts down for another |
| Manager.Manager.VerifyWorkers | manager/utils/workerRequest.go:86-101 | the loop over a snapshot is one row-by-row tick |
| Manager.Manager.GetWorkersThreads | manager/utils/workerRequest.go:64-84 | the total DefaultThreads of the workers that are up, in any order of the rows |
| Manager.Manager.HandleAddWorkerError | manager/utils/handleErrors.go:12-40 | a bare duplicate error requeues and resets the worker; a wrapped error is swallowed and changes nothing |
| Manager.Manager.AddWorker | manager/websockets/websockets.go:320-335 | never fails; a second registration changes neither table |
| Manager.Manager.HandleAddWorker | manager/websockets/websockets.go:245-252 | the connection takes the name before the row is inserted |
| Manager.Manager.HandleWorkerStatus | manager/websockets/websockets.go:292-318 | a status of a known worker marks it up, restarts its countdown and takes over its idle count |
| Manager.Manager.HandleMessage | manager/websockets/websockets.go:181-243 | what each message type does to tables, map and connection |
| Manager.Manager.ReadMessage | manager/websockets/websockets.go:128-147 | the read loop handles a connection's messages in order |
| Manager.Manager.HandleConnectionError | manager/websockets/websockets.go:150-168 | the reader goes; the worker is disconnected only if it had announced itself |
| Manager.Manager.HandleTaskPost | manager/api/APItask.go:97-142 | accepted exactly when the named worker, if any, exists and the id is new |
| Manager.Manager.HandleTaskDelete | manager/api/APItask.go:177-228 | success exactly when the row exists and is deleted afterwards |
| Manager.Manager.GetStatusTask | manager/utils/stats.go:10-50 | the five counts |
| WorkerProcesses.WorkerProcess.MessageAddTask | worker/websockets/websockets.go:172-210 | starts an execution or refuses, by the number of registered ids |
| WorkerProcesses.WorkerProcess.MessageStatusTask | worker/websockets/websockets.go:258-282 | reports threads minus registered ids |
| WorkerProcesses.WorkerProcess.MessageDeleteTask | worker/websockets/websockets.go:212-256 | the process id registered for the task decides: negative, nothing happens; positive, the kill is answered; missing, the worker ends |
| WorkerProcesses.WorkerProcess.GetMessage | worker/websockets/websockets.go:42-89 | answers each message type by its handler |
| Execution.ProcessModule | worker/modules/modules.go:263-335 | succeeds exactly when every command's module exists and runs without error; outputs before the first failure are set, the ones after it and all modules and arguments are unchanged; no other id in WorkingIDs changes |
| Execution.RunTask | worker/process/processTask.go:21-56 | `done` exactly when files were saved and every command succeeds, else `failed`; the callback is retried until the first success |
| Execution.Status.RunModule | worker/modules/modules.go:41-53 | the id is registered only while the command runs; trailing newlines are cut |
| Execution.TrimRight | worker/modules/modules.go:52 | what remains does not end in a newline, and only newlines were cut |
| Commands.CreateSecureCommand | worker/modules/modules.go:92-111 | program and arguments joined by single spaces are the text of the insecure command, minus its one leading space when the module command is empty and the arguments are not |
| Commands.ArgvDetermined | worker/modules/modules.go:75-111 | for a module command without spaces the secure argv is the only space-free one with that text |
| Commands.JoinSplit | worker/modules/modules.go:93 | joining the split parts gives the string back |
| Commands.SplitJoin | worker/modules/modules.go:93 | splitting joined space-free parts gives the parts back |
| Pagination.PageRows | manager/database/DBtask.go:113-136 | a page holds the rows from (page - 1) * limit on, at most limit of them, 1000 when no limit is given |
| Pagination.PagesTile | manager/database/DBtask.go:113-136 | pages 1..ceil(n/limit) one after the other are the whole listing |
| Pagination.PageEmpty | manager/database/DBtask.go:113-122 | a page is empty exactly when it is past the last one |
| Pagination.PagesArePrefix | manager/database/DBtask.go:113-122 | each page starts where the one before ended |
| Heartbeat.Monitor.constructor | manager/websockets/websockets.go:31-36 | the deadline starts at lastPong + PongWait |
| Heartbeat.Monitor.Sleep | manager/websockets/websockets.go:37-48 | whatever pongs arrive meanwhile, the read deadline stays lastPong + PongWait |
| Heartbeat.Monitor.Check | manager/websockets/websockets.go:64-124 | which of the up to six pings of a tick decides, and what it decides |
| Heartbeat.Monitor.Run | manager/websockets/websockets.go:63-126 | closes only on a failed write or a missed final check, and within PongWait + pingInterval + maxRecovery * recoveryBackoff of the last pong |
| Heartbeat.ReaderFailsFirst | manager/websockets/websockets.go:36-43 | when the monitor sees a missed heartbeat, the reader's deadline is already over |
| Heartbeat.LastPongGrows | manager/websockets/websockets.go:39-41 | the last pong only moves forward, and not without a pong |

## Left out

- TLS, certificates, HTTP routing, JSON, WebSocket framing, size limits: library plumbing; messages are datatypes.
- SSH tunnelling, the DigitalOcean client, token authentication, configuration files other than `StatusCheckDown`.
- MySQL itself, its retries, back-off, column widths, case-insensitive comparison and NULLs.
- File upload and deletion, saving to disk, the user's callback request, logging, documentation pages, scripts.
- The timeout branch of `ProcessModule`, whose goroutine goes on writing in the background, and the unsynchronised
  access to `WorkingIDs` and `WebSockets`.
- `getInt`, `getPage`, `getLimit`, `buildFiltersWithParams` and `RmTask`: parsing, or never called.
- The worker's own ping loop: when it reconnects is arbitrary here (the steps `Dials`, `Breaks` and `Announces`).
- `GetStatusTask` reads the five counters from one state; the source reads them one after the other.
- Wide integers: counts, priorities and the sum of threads are unbounded here.
- Execution.ProcessModule: the commands are an array; the loop variable's copy of each element is not modelled.
- Execution.RunTask: that the callback is ever sent is a requirement (some attempt succeeds), as the source waits
  for it without bound.
- Dispatch.DispatchRound: one iteration of the scheduler's infinite loop; the pauses between rounds are not modelled.
- WorkerLaws.RunsKeepRegistered: the registered ids a worker starts with must be ids of tasks it is executing.
- Recovery.RunsKeepDownCount: rows added over the API must start with downCount 0, which the source does not enforce.
- Conservation.RunsKeepRequests: executions that are left over from before the start must hold copies that agree with
  their rows (`InitiallyFaithful`); the tables alone cannot tell.
- Safety.RunsKeepInv: rows added over the API must have a name, which the source does not enforce.
