# Two control-plane components, modelled and proved in Dafny

This project models two parts of the control plane of a distributed data-processing engine.

**The two-phase task dispatcher** is modelled in `task_dispatcher.dfy`, module `EngineClient`. It hands a new worker to an executor in two phases:
- Pre-dispatch is retried at a fixed one-second interval.
- Confirm-dispatch is sent exactly once.

Each executor reply is sorted by its gRPC status:
- pre-dispatch: retryable, not retryable, or the fatal `AlreadyExists`;
- confirm-dispatch: a guaranteed failure (`Aborted`, `NotFound`) or an undetermined one.

The caller's two callbacks, `startWorkerTimer` and `abortWorker`, fire in a fixed order around the two phases. Everything the dispatcher does that can be seen from outside goes into a ghost `trace` on the `TaskDispatcher` class: each request sent, with the clock reading, and each callback fired. Two functions specify the dispatcher's behaviour, and the lemmas are stated about them:
- `RetryLoop` is the pre-dispatch loop;
- `TwoPhaseDispatch` is the whole protocol.

The methods of `TaskDispatcher` are proved equal to these two functions, result and trace.

The environment is an input:
- The executor's replies and the fresh uuid of each attempt come as a script of `Attempt(requestId, reply)`.
- The clock is an integer in milliseconds. Only the retry wait advances it.
- The context is a value `Context(deadline, cancelAt)`. It is done from the earlier of the two times on.

**The balance scheduler tick** is modelled in `scheduler_balance.dfy`, module `SchedulerV3`. On each tick it works as follows:
- A cool-down interval gates the tick, unless the previous productive tick set `forceBalance`.
- No moves are planned while any capture is stopping.
- Each move the planner returns becomes one `MoveTable` task.
- `forceBalance` is re-armed exactly when the tick produced tasks.

`Tick` is the specification function, and `BalanceScheduler.Schedule` is proved equal to it. The move planner is a function value handed to each tick.

Two details of the code are kept as written:
- A cancellation during the retry wait returns an error already wrapped as a pre-dispatch failure. `DispatchTask` then wraps it a second time. The model keeps both wraps (`PreDispatchFailed(PreDispatchFailed(Ctx(..)))`).
- `abortWorker` receives the unwrapped error after a failed pre-dispatch. After a guaranteed confirm failure it receives the same wrapped error that is returned.

## Model

| member | source | states |
|---|---|---|
| `EngineClient.ClassifyPreDispatch` | engine/client/task_dispatcher.go:180-204 | Success gives back the attempt's own request ID. An error without a status and `Aborted` are not retried. `AlreadyExists`, and only it, is the fatal panic. Every other code asks for a retry. Every error returned is the send error itself. |
| `EngineClient.ClassifyConfirm` | engine/client/task_dispatcher.go:220-237 | No error exactly when the send succeeded. A guaranteed failure exactly for `Aborted` or `NotFound`. Any other failure, including one without a status, is undetermined. The error is the send error. |
| `EngineClient.RetryLoop` | engine/client/task_dispatcher.go:120-157 | The retry loop as a function of the clock, the context and the script. It sends at most one request per scripted attempt. Success and the panic follow at least one request. It runs out of script only after using all of it. |
| `EngineClient.RoundAfter` | engine/client/task_dispatcher.go:130-155 | After a retryable failure, the round stops with `WouldExceedDeadline` exactly when the wait would end after the deadline. It waits exactly when the attempt asked for a retry, the wait ends by the deadline and the context stays live until the timer fires. It stops with success exactly on a successful attempt. |
| `EngineClient.RetryLoopSends` | engine/client/task_dispatcher.go:123-133 | Attempt j sends the pre-dispatch request carrying the j-th fresh ID, at clock reading start + j·interval. No attempt is sent once the context is done. An already-done context returns its unwrapped `Err` with nothing sent. Otherwise the first attempt is always made. |
| `EngineClient.RetryLoopEnds` | engine/client/task_dispatcher.go:123-156 | Every attempt but the last was a retryable failure. The loop returns only in these cases: cancelled at the top (unwrapped `ctx.Err()`); success, with the last attempt's ID and time; a transport or `Aborted` error, returned as is; the `AlreadyExists` panic; a wait that would overrun the deadline; cancelled during the wait (wrapped); or, in the model only, the end of the script. |
| `EngineClient.RetryLoopExit` | engine/client/task_dispatcher.go:123-156 | After a retryable last attempt the exit is fixed by the clock and the context, in this order: a wait that would end after the deadline returns `WouldExceedDeadline` without waiting; a context done before the timer fires returns the wrapped `ctx.Err()`; a context done when the next round starts returns the unwrapped one; otherwise (model only) the script ran out. With no attempt, the context was done at the start or the script was empty. The exits exclude one another. |
| `EngineClient.AttemptsBoundedByDeadline` | engine/client/task_dispatcher.go:139-145 | With a deadline d and a positive interval, every attempt is sent before d. So at most (d - start)/interval + 1 attempts are made, and none when d <= start. |
| `EngineClient.DeadlineEndsRetrying` | engine/client/task_dispatcher.go:139-145 | With a deadline, a script of attempts that reaches past it is never exhausted: the loop stops by one of its own exits. |
| `EngineClient.AttemptIdsDistinct` | engine/client/task_dispatcher.go:162-163 | Fresh uuids give every pre-dispatch request of one call a different request ID. |
| `EngineClient.TwoPhaseDispatch` | engine/client/task_dispatcher.go:82-118 | The whole protocol. Its events begin with the pre-dispatch requests. It returns nil exactly when pre-dispatch succeeded and the confirm reply is neither `Aborted` nor `NotFound`. It panics exactly when pre-dispatch panicked. |
| `EngineClient.PreDispatchFailureAborts` | engine/client/task_dispatcher.go:88-92 | A failed pre-dispatch calls `abortWorker` exactly once, with that error. It never starts the worker timer and never sends confirm-dispatch. It returns the error wrapped as a pre-dispatch failure. |
| `EngineClient.ConfirmPhase` | engine/client/task_dispatcher.go:94-117 | After a successful pre-dispatch, `startWorkerTimer` fires exactly once, immediately before the single confirm-dispatch, which carries the ID of the successful attempt. `Aborted`/`NotFound` call `abortWorker` once, with the very error returned. Anything else returns nil without calling `abortWorker`. |
| `EngineClient.DispatchErrorIffAborted` | engine/client/task_dispatcher.go:82-118 | The returned error is non-nil exactly when `abortWorker` was called, and then it was called exactly once, with that error or its unwrapped cause. The timer starts and confirm-dispatch is sent exactly when pre-dispatch succeeded. A panic fires no callback. |
| `EngineClient.DeadlineScenario` | engine/client/task_dispatcher.go:139-145 | Deadline 2.5 s, interval 1 s, all retryable: attempts at 0, 1 and 2 s, then `WouldExceedDeadline` without waiting. The worker is aborted with that error. |
| `EngineClient.AlreadyExistsScenario` | engine/client/task_dispatcher.go:196-198 | `AlreadyExists` at the first attempt panics after one request, with no retry and no callback. |
| `EngineClient.TaskDispatcher.constructor` | engine/client/task_dispatcher.go:46-51 | The retry interval is the one-second constant, and the trace starts empty. |
| `EngineClient.TaskDispatcher.DispatchTask` | engine/client/task_dispatcher.go:82-118 | The result and the events appended to the trace are those of `TwoPhaseDispatch`. |
| `EngineClient.TaskDispatcher.PreDispatchTaskWithRetry` | engine/client/task_dispatcher.go:120-157 | The loop's result and the requests it appends to the trace are those of `RetryLoop`. |
| `EngineClient.TaskDispatcher.PreDispatchTaskOnce` | engine/client/task_dispatcher.go:159-205 | Sends one request carrying the attempt's fresh ID and returns the `ClassifyPreDispatch` verdict on the reply. |
| `EngineClient.TaskDispatcher.ConfirmDispatchTask` | engine/client/task_dispatcher.go:207-238 | Sends one confirm-dispatch request with the given request and worker IDs, and returns the `ClassifyConfirm` verdict. |
| `SchedulerV3.Tick` | cdc/scheduler/internal/v3/scheduler_balance.go:54-80 | One tick. It returns no more tasks than the planner's moves. Tasks are returned only when no capture is stopping, and then `forceBalance` is set. `lastRebalanceTime` either stays or becomes `now`. |
| `SchedulerV3.TickCoolDown` | cdc/scheduler/internal/v3/scheduler_balance.go:60-65 | Unforced and inside the interval: no tasks, and both fields unchanged. |
| `SchedulerV3.TickStamp` | cdc/scheduler/internal/v3/scheduler_balance.go:60-67 | Unforced with the interval elapsed: `lastRebalanceTime` becomes `now`, even if a stopping capture then aborts the tick. A forced tick leaves it untouched. |
| `SchedulerV3.TickStoppingAborts` | cdc/scheduler/internal/v3/scheduler_balance.go:69-74 | Any stopping capture: no tasks, and `forceBalance` unchanged. |
| `SchedulerV3.TickPlans` | cdc/scheduler/internal/v3/scheduler_balance.go:76-79 | A tick that reaches the planner returns exactly one task per move, `tasks[i]` wrapping `moves[i]`. `forceBalance` becomes `len(tasks) != 0`. |
| `SchedulerV3.TickWithinBudget` | cdc/scheduler/internal/v3/scheduler_balance.go:103-104 | If the planner keeps to the concurrency budget, so does the tick. |
| `SchedulerV3.ProductiveTickForcesNext` | cdc/scheduler/internal/v3/scheduler_balance.go:76-78 | After a tick that produced tasks, the next tick passes the gate whatever the clock reads. |
| `SchedulerV3.IdleTicksStayUnforced` | cdc/scheduler/internal/v3/scheduler_balance.go:54-80 | A series of ticks whose planner finds no moves never produces a task and never sets `forceBalance`. With a clock that does not go back, `lastRebalanceTime` never decreases. |
| `SchedulerV3.HasStoppingCapture` | cdc/scheduler/internal/v3/scheduler_balance.go:69-74 | The early-exit scan returns true exactly when some capture is in state Stopping. |
| `SchedulerV3.GroupTablesByCapture` | cdc/scheduler/internal/v3/scheduler_balance.go:89-101 | Tables without a replication set are skipped. Every other current table is listed under its non-empty primary and its non-empty secondary. A capture lists only current tables it serves, and the empty ID is never a key. |
| `SchedulerV3.BuildBalanceMoveTables` | cdc/scheduler/internal/v3/scheduler_balance.go:82-111 | One task per planner move, `tasks[i]` wrapping `moves[i]`, in order. The output depends only on the planner's result, not on the grouping. |
| `SchedulerV3.BalanceScheduler.constructor` | cdc/scheduler/internal/v3/scheduler_balance.go:42-48 | The interval and budget are as given, with no forced tick and the zero last-rebalance time. |
| `SchedulerV3.BalanceScheduler.Schedule` | cdc/scheduler/internal/v3/scheduler_balance.go:54-80 | The new `lastRebalanceTime` and `forceBalance`, and the tasks returned, are those of `Tick` on the planner's moves. |

## Left out

- The gRPC transport, `status.FromError` and `status.Convert` are replaced by the reply type `SendOutcome` (`Ok`, or a failure without a status, or a status code). A send takes no time on the model's clock.
- A context cancelled while a send is in flight is modelled through the scripted reply: gRPC's Canceled and DeadlineExceeded codes fall under `OtherCode`.
- `uuid.New()` is the script's sequence of request IDs. Their uniqueness is a hypothesis of `AttemptIdsDistinct`, not a property of the model.
- `time.Now`, `time.NewTimer` and `context` are the integer clock and the `Context` value. When the context becomes done at exactly the moment the retry timer fires, Go picks either case at random. The model lets the timer win, and the next round's cancellation check then returns the unwrapped error.
- `TaskDispatcher.PreDispatchTaskWithRetry` runs on a finite script. Go retries for ever when there is no deadline, no cancellation and only retryable replies. The model instead stops with `StillRetrying` (and `DispatchTask` with `PreDispatchUnfinished`) when the script runs out. `DeadlineEndsRetrying` shows this never happens with a deadline and a long enough script.
- `log.Panic` is the `Panicked`/`Panic` result. `log.Warn` and `log.Debug` are dropped.
- Error messages, stack traces and the error-code registry are reduced to the error kinds of `Error`.
- Concurrent `DispatchTask` calls sharing one dispatcher are not modelled; each call is modelled on its own.
- `GroupTablesByCapture`: states which tables are listed under which capture, but not the order of each list, nor that a table listed twice in `currentTables` is appended twice.
- `newBalanceMoveTables` (the move heuristic) and its `math/rand` source are not part of this model. The planner is a function value handed to each tick, so its bound by `maxTaskConcurrency` can only be assumed, as in `TickWithinBudget`.
- `lastRebalanceTime` starts as Go's zero `time.Time`, modelled as clock reading 0. The saturation of `time.Time.Sub` at the range of a 64-bit duration is not modelled.
- `balanceScheduler.Name` returns a constant label and is not modelled.
- engine/pkg/version/version.go (build-information logging) and pkg/etcd/migrate_test.go (an integration test against a live store) are not part of this model.
