# redux-saga's task interpreter, in Dafny

This project models the core of redux-saga's cooperative task interpreter and proves properties of it:

- **the scheduler**, which defers re-entrant work and drains it in FIFO order under a counting semaphore;
- **the fork queue** of a task: its main flow and attached forks. It completes with the main flow's result once every sub-task is done, and aborts on the first error;
- **the task descriptor**: the RUNNING → CANCELLED / ABORTED / DONE status machine, `end`, `cancel`, `toPromise`, the status queries and the layered context;
- **the generator driver `proc`**: the `next` step's routing of errors, TASK_CANCEL, TERMINATE and values; `runEffect`'s dispatch order; and `digestEffect`'s settled latch, which makes completion and cancellation of an effect exclusive and at-most-once;
- **the state-machine iterator** `fsmIterator` and the `takeEvery` helper built on it;
- **the effect constructors** of `io.js` and the type predicates of the `is` package.

## How the model is built

- **JavaScript values** are the datatype `JsValues.Value`: undefined, null, booleans, strings, symbols, functions with their own properties, arrays and plain objects. The library's symbol keys and sentinels (`IO`, `TASK`, `MULTICAST`, `TASK_CANCEL`, `TERMINATE`, `SELF_CANCELLATION`) are distinct `@@redux-saga/...` strings.
- **State the source updates in place is a class**: `Scheduling.Scheduler`, `ForkQueues.ForkQueue`, `Tasks.Task`, `Tasks.ContextLayer`, `SagaErrors.SagaStack`, `Procs.Proc`, `FsmIterators.FsmIterator` and `Coroutines.Coroutine`.
  - Each method's `ensures` ties the new state to a pure specification function of the old state (`Drain`, `HookStep`, `EndSpec`, `DigestSpec`, `DriveSpec`, `NextSpec`, …).
  - The lemmas about those functions state what the source promises.
- **Calls to code a component does not own are recorded** as a trace of calls, in the order they are made. Examples are the owner's `cont`, a sub-task's `cancel`, joiner callbacks, `env.onError`, effect runners, `resolvePromise` and a child `proc`.
- **A generator is a `Coroutines.Coroutine`**: it follows the iterator protocol of section 27.1 of ECMA-262, with `next`, `throw` and an optional `return`. Its behaviour is an arbitrary function of the resumptions it has received, so every property proved about `proc` holds for any generator.
- **`fsmIterator`'s state functions** are Dafny functions over the machine's shared memory (takeEvery's captured `action`). State updaters are named in the state records and looked up in the machine.
- **Context layers.** A child task's context is created with `Object.create(parentContext)`. So the parent's writes made after the child was created are visible to the child too. `Tasks.ContextLayer.Lookup` reads through to the parent at lookup time, and `Tasks.InheritsParent` states this.
- **`take` with an invalid argument** returns `undefined`. The throw for this case exists only in the development build, which the model leaves out.

## Model

| member | source | states |
|---|---|---|
| Scheduling.Scheduler.constructor | packages/core/src/internal/scheduler.js:4-15 | The queue starts empty and the semaphore at zero (released). |
| Scheduling.Scheduler.Suspend | packages/core/src/internal/scheduler.js:65-67 | Adds exactly one lock. |
| Scheduling.Scheduler.Release | packages/core/src/internal/scheduler.js:73-75 | Drops exactly one lock. |
| Scheduling.Scheduler.RunBody | packages/core/src/internal/scheduler.js:27 | Running a task under a lock only queues what it schedules, at the tail and in request order; nothing else runs. |
| Scheduling.Scheduler.Exec | packages/core/src/internal/scheduler.js:24-31 | `exec` leaves the semaphore where it found it even when the task throws. It runs exactly that task, queues its spawns at the tail, and reports the exception. |
| Scheduling.Scheduler.Flush | packages/core/src/internal/scheduler.js:81-88 | Releases one lock. If locks remain, nothing runs. If it reaches zero, the queue is drained in FIFO order (`Drain`), and the drain stops at the first task that throws. |
| Scheduling.Scheduler.Asap | packages/core/src/internal/scheduler.js:37-45 | Appends the task at the tail. While suspended nothing runs; when released, the whole queue is drained and the scheduler ends released. |
| Scheduling.Scheduler.Immediately | packages/core/src/internal/scheduler.js:51-58 | Runs the task at once and returns its value, then flushes. The suspend/release pair is balanced. A throwing task or drain makes the whole call throw. |
| Scheduling.DrainEmptiesQueue | packages/core/src/internal/scheduler.js:85-87 | A drain that no task interrupts leaves the queue empty. |
| Scheduling.QueuedRunFirst | packages/core/src/internal/scheduler.js:85-87 | The tasks queued before the drain run first, in queue order. |
| Scheduling.SpawnsRunAfterQueued | packages/core/src/internal/scheduler.js:37-45 | Tasks scheduled while a task runs are executed after the tasks already queued, in the order they were requested. |
| Scheduling.AsapLeavesReleased | packages/core/src/internal/scheduler.js:37-45 | Starting released, an `asap` that returns without an exception leaves the queue empty. |
| Scheduling.Ids | packages/core/src/internal/scheduler.js:85-87 | The ids of a task list, index by index. |
| ForkQueues.RemoveFirst | packages/core/src/internal/forkQueue.js:56 | `remove` drops one occurrence of the task, or nothing if it is absent. |
| ForkQueues.RemoveFirstOrder | packages/core/src/internal/forkQueue.js:56 | The occurrence removed is the first (the one `indexOf` finds), and the other tasks keep their order. |
| ForkQueues.CancelCalls | packages/core/src/internal/forkQueue.js:80-83 | One `cancel()` per live task, in list order. |
| ForkQueues.ForkQueue.constructor | packages/core/src/internal/forkQueue.js:28-35 | The live set is exactly `[mainTask]`, its hook is installed, and the queue is not completed. |
| ForkQueues.ForkQueue.AddTask | packages/core/src/internal/forkQueue.js:47-50 | Appends the task to the live set and installs the completion hook on it. |
| ForkQueues.ForkQueue.CancelAll | packages/core/src/internal/forkQueue.js:75-85 | Acts as `CancelAllStep`: when not completed, marks completed, unhooks and cancels every live task once in order, and empties the set. Otherwise it does nothing. |
| ForkQueues.ForkQueue.Abort | packages/core/src/internal/forkQueue.js:40-44 | Calls `onAbort`, then `cancelAll`, then the owner's `cont(err, true)`, in that order. |
| ForkQueues.ForkQueue.Complete | packages/core/src/internal/forkQueue.js:50-71 | The completion hook, as `HookStep`: ignored after completion. Otherwise it removes and unhooks the task; an error aborts; the main task's value is captured; the owner is called when the set empties. |
| ForkQueues.StepOwnerCalls | packages/core/src/internal/forkQueue.js:40-85 | One event calls the owner at most once and only as it completes the queue. After completion, only `abort` still calls it. |
| ForkQueues.AbortCallsOwnerOnce | packages/core/src/internal/forkQueue.js:40-44 | `abort` always calls the owner exactly once and leaves the queue completed, even when the queue had already completed. |
| ForkQueues.OwnerCalledAtMostOnce | packages/core/src/internal/forkQueue.js:40-85 | Over any sequence of `addTask`, hook, `cancelAll` and `abort` events in which `abort` reaches only a live queue, the owner's `cont` is called at most once, and not at all once completed. |
| ForkQueues.StepWhileRunning | packages/core/src/internal/forkQueue.js:55-65 | While the queue runs, a task leaves the live set only by completing normally, and the result changes only on the main task's normal completion. |
| ForkQueues.AccountedStep | packages/core/src/internal/forkQueue.js:50-72 | Each event preserves the bookkeeping invariant: every task gone from the live set completed normally, and the stored result is the main task's own value. |
| ForkQueues.AccountedRun | packages/core/src/internal/forkQueue.js:28-72 | The bookkeeping invariant holds from construction over any sequence of events. |
| ForkQueues.AbortReportsError | packages/core/src/internal/forkQueue.js:40-44 | An abort tells the owner only of the error, never of a normal completion. |
| ForkQueues.NotifyingStep | packages/core/src/internal/forkQueue.js:62-69 | Only the normal completion of a hooked task that empties the live set reports normal completion. The value reported is the main task's. |
| ForkQueues.NormalHookNotifies | packages/core/src/internal/forkQueue.js:62-69 | A normal completion notifies the owner only if the task was hooked, the queue was live, and the task was the last one. The value sent is the main task's. |
| ForkQueues.LastNormalCompletionNotifies | packages/core/src/internal/forkQueue.js:62-69 | Conversely, when a hooked task of a live queue completes normally and was the last one, the queue completes and calls the owner exactly once, with the main task's value. |
| ForkQueues.NormalCompletionStep | packages/core/src/internal/forkQueue.js:62-69 | The step that reports normal completion reports a value the main task delivered, and every added task has completed normally. |
| ForkQueues.NormalCompletionResult | packages/core/src/internal/forkQueue.js:62-69 | From construction, the owner is told of normal completion only with the main task's delivered value, after every added task completed. |
| ForkQueues.HookCompletes | packages/core/src/internal/forkQueue.js:50-71 | A hook completes the queue exactly when it calls the owner, and calls it at most once. |
| ForkQueues.CompletedIgnoresSignals | packages/core/src/internal/forkQueue.js:51-53 | Once completed, every completion hook is a no-op. |
| ForkQueues.CancelAllOnce | packages/core/src/internal/forkQueue.js:75-85 | `cancelAll` cancels each live task once, in order, and unhooks it; a second `cancelAll` does nothing. |
| ForkQueues.ErrorAborts | packages/core/src/internal/forkQueue.js:59-60 | An error from a live task calls `onAbort` with the remaining tasks, cancels each of them, and passes the error to the owner. |
| Tasks.MainTask.constructor | packages/core/src/internal/proc.js:30 | A main task starts RUNNING. |
| Tasks.PromiseOf | packages/core/src/internal/newTask.js:104-110 | A promise made for a task is pending exactly while it runs. It is rejected with the task's error exactly when the task aborted, and otherwise resolved with the task's result. |
| Tasks.AbortedIsNotCancelled | packages/core/src/internal/newTask.js:150 | An aborted or done task never reports cancelled, whatever its main flow's status. A running task reports cancelled exactly when its main flow was cancelled. |
| Tasks.EndFinishes | packages/core/src/internal/newTask.js:57-89 | `end` gives the status: TASK_CANCEL, or a task already CANCELLED, means CANCELLED; an error means ABORTED; anything else means DONE. It stores the result or the error, calls `cont` once and then every joiner in order with the same arguments, and drops the joiners. The promise agrees. |
| Tasks.ErrorFrames | packages/core/src/internal/newTask.js:68-79 | An error `end` of a root task reports the frames with its own pushed on top, and clears the shared stack. A non-root task leaves its frame for its parent and reports nothing. |
| Tasks.PromiseCommutesWithEnd | packages/core/src/internal/newTask.js:99-113 | Asking for the promise before or after `end` gives the same settled promise. |
| Tasks.ToPromiseIdempotent | packages/core/src/internal/newTask.js:100-102 | A second `toPromise` returns the same promise and changes nothing. |
| Tasks.DeliverConsistent | packages/core/src/internal/newTask.js:25-31 | Handing the queue's calls to a consistent task keeps it consistent. The task ends exactly when the queue calls its owner (`end`). |
| Tasks.HookKeepsAgreement | packages/core/src/internal/newTask.js:25-31 | After any sub-task hook, the task is still running exactly while its fork queue has not completed. |
| Tasks.ContextLayer.constructor | packages/core/src/internal/newTask.js:23 | `Object.create(parent)`: an empty own layer over the parent. |
| Tasks.ContextLayer.Lookup | packages/core/src/internal/newTask.js:23 | A read finds the own property first, then falls through to the parent, and is `undefined` at the root. |
| Tasks.ContextLayer.Assign | packages/core/src/internal/newTask.js:96 | Writes land in this layer only. |
| Tasks.InheritsParent | packages/core/src/internal/newTask.js:23 | A key the layer does not hold reads as the parent's, including parent writes made after the layer was created. |
| Tasks.Task.constructor | packages/core/src/internal/newTask.js:10-31 | A new task is RUNNING, with an empty joiner list, no promise, a fresh fork queue on its main task, and an empty context layer over the parent's. It satisfies the task/queue invariant. |
| Tasks.Task.RecordOutcome | packages/core/src/internal/newTask.js:58-82 | Records the outcome as `Record` does: status, result or error, the promise settled, frames pushed, and a root task's report. |
| Tasks.Task.End | packages/core/src/internal/newTask.js:57-89 | `end` as `EndSpec`: record, then call `cont`, then each joiner in order, then drop the joiner list. |
| Tasks.NotifyJoiners | packages/core/src/internal/newTask.js:85-87 | Every joiner is called back once, in list order, with the same `(result, isErr)`. |
| Tasks.Task.Dispatch | packages/core/src/internal/newTask.js:25-31 | The task's reactions to its queue's calls, in order: `onAbort` records the live task names, sub-task cancels are passed on, and the owner continuation is `end`. |
| Tasks.Task.Cancel | packages/core/src/internal/newTask.js:43-55 | Does nothing unless RUNNING. Otherwise it sets CANCELLED, cancels the queue (and every live sub-task), and ends with TASK_CANCEL as a normal result. The task/queue invariant is kept. |
| Tasks.Task.PassOnCancels | packages/core/src/internal/newTask.js:50 | The queue's cancels of live tasks are passed on one per task, in order. |
| Tasks.Task.SubtaskCont | packages/core/src/internal/forkQueue.js:50-71 | A sub-task's completion hook updates the queue as `HookStep` and the task as `AfterHook`, keeping the two in agreement. |
| Tasks.Task.SetContext | packages/core/src/internal/newTask.js:91-97 | `setContext` merges the properties into the task's own layer only. |
| Tasks.Task.ToPromise | packages/core/src/internal/newTask.js:99-113 | Returns the existing promise if there is one. Otherwise it creates one rejected for ABORTED, resolved for another terminal status, or pending. |
| Tasks.Task.IsRunning | packages/core/src/internal/newTask.js:131 | True exactly while the promise `toPromise` would give is pending. |
| Tasks.StatusQueries | packages/core/src/internal/newTask.js:131-151 | On a task that agrees with its queue, `isRunning()` holds exactly while the queue has not completed, the continuation has not been called, and joiners are still accepted. An aborted task has called its continuation once, and a promise it already handed out is rejected exactly when it aborted. |
| Tasks.Task.IsCancelled | packages/core/src/internal/newTask.js:150 | CANCELLED, or RUNNING with a CANCELLED main task. |
| Tasks.Task.IsAborted | packages/core/src/internal/newTask.js:151 | True exactly when the promise `toPromise` would give is rejected. |
| Tasks.Names | packages/core/src/internal/newTask.js:28 | The names of the live tasks, in order. |
| Tasks.JoinerCalls | packages/core/src/internal/newTask.js:85-87 | One callback per joiner, in list order, with the same arguments. |
| Tasks.Cancels | packages/core/src/internal/forkQueue.js:80-83 | One sub-task cancel per live task, in order. |
| SagaErrors.SagaStack.AddFrame | packages/core/src/internal/newTask.js:71 | Pushes the task's frame on top of the existing ones. |
| SagaErrors.SagaStack.Clear | packages/core/src/internal/newTask.js:77 | Forgets every frame and the crashed effect. |
| SagaErrors.SagaStack.SetCrashedEffect | packages/core/src/internal/proc.js:216-218 | Records the effect that failed. |
| Is.NotUndef | packages/is/src/index.js:3-4 | `notUndef` is the exact complement of `undef`. |
| Is.Object | packages/is/src/index.js:9 | True exactly for plain objects; false for arrays and null. |
| Is.Promise | packages/is/src/index.js:10 | True exactly for a truthy value with a callable `then`. |
| Is.Iterator | packages/is/src/index.js:11 | An iterator has callable `next` and `throw`. |
| Is.Task | packages/is/src/index.js:13 | True exactly for an object-like value with a truthy TASK marker. |
| Is.Buffer | packages/is/src/index.js:17 | A buffer has callable `isEmpty`, `take` and `put`. |
| Is.Pattern | packages/is/src/index.js:18 | Patterns are non-empty strings, symbols, functions, and arrays. |
| Is.ArrayPattern | packages/is/src/index.js:18 | An array is a pattern exactly when every element is one, so the empty array is a pattern. |
| Is.EveryAll | packages/is/src/index.js:18 | `every(pattern)` holds exactly when each element is a pattern. |
| Is.Channel | packages/is/src/index.js:20 | A channel has callable `take` and `close`. |
| Is.StringableFunc | packages/is/src/index.js:21 | True exactly for a function with an own `toString`. |
| Is.Multicast | packages/is/src/index.js:25 | Every multicast channel is a channel. |
| Is.Effect | packages/is/src/index.js:26 | True exactly for an object-like value with a truthy IO marker. |
| Io.MakeEffect | packages/core/src/internal/io.js:22-29 | An IO effect of the given type and payload, with `combinator` false. |
| Io.SetPayloadField | packages/core/src/internal/io.js:109-113 | Setting a payload flag changes that field only. |
| Io.Detach | packages/core/src/internal/io.js:46-51 | Fails exactly for `null` and `undefined`, where reading `eff.payload` throws. Otherwise it gives a FORK effect whose payload keeps every field of the original and adds `detached: true`. |
| Io.Take | packages/core/src/internal/io.js:67-94 | `'*'` is the default argument. A pattern gives `{pattern}`; a multicast channel with a pattern gives `{channel, pattern}`; any other channel gives `{channel}`; anything else gives `undefined`. |
| Io.TakeMaybe | packages/core/src/internal/io.js:109-113 | The `take` effect with `payload.maybe = true` and nothing else changed; it fails exactly when `take` gives no effect. |
| Io.Put | packages/core/src/internal/io.js:129-145 | With an undefined action the single argument becomes the action and the channel becomes undefined. |
| Io.PutActionOnly | packages/core/src/internal/io.js:139-144 | `put(action)` and `put(undefined, action)` build the same effect. |
| Io.PutResolve | packages/core/src/internal/io.js:161-165 | The `put` effect with `payload.resolve = true` and nothing else changed. |
| Io.All | packages/core/src/internal/io.js:177-181 | An ALL effect with `combinator` set. |
| Io.Race | packages/core/src/internal/io.js:193-197 | A RACE effect with `combinator` set. |
| Io.GetFnCallDescriptor | packages/core/src/internal/io.js:240-263 | A function gets context null. `[context, fn]` and `{context, fn}` are unpacked, and a string `fn` naming a method of a truthy context resolves to that method. `args` pass through unchanged; null or undefined fails. |
| Io.FnEffect | packages/core/src/internal/io.js:278-327 | `call`, `cps` and `fork` build an effect of their type over the resolved descriptor. |
| Io.Apply | packages/core/src/internal/io.js:297-305 | A CALL effect over `[context, fn]`, with `args` defaulting to `[]`. |
| Io.ApplyIsCall | packages/core/src/internal/io.js:297-305 | `apply(context, fn, args)` equals `call([context, fn], ...args)`. |
| Io.Spawn | packages/core/src/internal/io.js:335-340 | `spawn` is `detach(fork(...))`: the fork's descriptor plus `detached: true`. |
| Io.Join | packages/core/src/internal/io.js:347-362 | A JOIN effect over the task or tasks. |
| Io.Cancel | packages/core/src/internal/io.js:369-386 | A CANCEL effect, defaulting to SELF_CANCELLATION. |
| Io.Select | packages/core/src/internal/io.js:394-400 | A SELECT effect whose selector defaults to `identity`, with the arguments. |
| Io.ActionChannel | packages/core/src/internal/io.js:411-422 | An ACTION_CHANNEL effect with the pattern and the buffer. |
| Io.Cancelled | packages/core/src/internal/io.js:428-430 | A CANCELLED effect with an empty payload. |
| Io.Flush | packages/core/src/internal/io.js:435-441 | A FLUSH effect on the channel. |
| Io.GetContext | packages/core/src/internal/io.js:446-452 | A GET_CONTEXT effect on the property. |
| Io.SetContext | packages/core/src/internal/io.js:457-463 | A SET_CONTEXT effect with the properties. |
| Io.Delay | packages/core/src/internal/io.js:465 | A CALL of `delayP` with context null and the given arguments. |
| Coroutines.Coroutine.constructor | packages/core/src/internal/proc.js:12 | A generator that has not been resumed yet. |
| Coroutines.Coroutine.Resume | packages/core/src/internal/proc.js:88-121 | Resuming through `next`, `throw` or (only if it exists) `return` gives what the generator does for that resumption and records it. |
| Procs.RouteOf | packages/core/src/internal/proc.js:88-121 | `return` is used only when the iterator has one. |
| Procs.SignalsFinish | packages/core/src/internal/proc.js:88-121 | An error goes through `throw`. TASK_CANCEL and TERMINATE end the generator, through `return` or else with a made-up `done` result. Only an ordinary value reaches `next`. |
| Procs.Resolve | packages/core/src/internal/proc.js:124-143 | A yield is digested exactly when the result is not done. The error escapes exactly when the generator threw while CANCELLED. A finished main task is never RUNNING. |
| Procs.ResolveOutcomes | packages/core/src/internal/proc.js:126-143 | On `done` the main task becomes DONE unless CANCELLED and the value goes to `cont`. A throw aborts it and sends the error unless it is CANCELLED. A CANCELLED task stays CANCELLED. |
| Procs.Classify | packages/core/src/internal/proc.js:164-179 | Dispatch order: a promise is adopted. A non-promise iterator runs as a child, even when it is also an IO effect. Any other IO effect goes to the runner for its `type`, with its `payload`. Anything else comes back as it is. |
| Procs.PrimitivesAsIs | packages/core/src/internal/proc.js:175-179 | A value that is not an object is never run: it settles at once with itself. |
| Procs.DescriptionsRun | packages/core/src/internal/proc.js:171-174 | An effect description goes to the runner for its type, with its payload. |
| Procs.LatchExclusive | packages/core/src/internal/proc.js:196-243 | Completion and cancellation of one effect exclude each other, and each takes effect at most once. |
| Procs.AsIsComesBack | packages/core/src/internal/proc.js:175-179 | A plain value yielded to `next` is settled at once and fed back to `next`, with a fresh effect id and no outgoing call. |
| Procs.CancellationSticks | packages/core/src/internal/proc.js:131-139 | Once the main task is CANCELLED, or `next` gets TASK_CANCEL, it is never marked DONE or ABORTED. |
| Procs.RethrowsOnlyCancelled | packages/core/src/internal/proc.js:136-139 | An exception escapes `next` only when the main task is CANCELLED, and the generator is then over. |
| Procs.CallsGrow | packages/core/src/internal/proc.js:84-144 | `next` only appends outgoing calls. |
| Procs.StepCallsGrow | packages/core/src/internal/proc.js:84-144 | One step of `next` only appends outgoing calls. |
| Procs.CancelReachesPendingEffect | packages/core/src/internal/proc.js:102-107 | TASK_CANCEL first cancels the effect the generator waits on, before the generator runs its cleanup. |
| Procs.MainContsSnoc | packages/core/src/internal/proc.js:134 | Counting main continuations over an appended call. |
| Procs.SettleKeeps | packages/core/src/internal/proc.js:200-222 | `currCb` preserves the driver invariant; when it resumes `next`, nothing else can resume it. |
| Procs.WithdrawKeeps | packages/core/src/internal/proc.js:229-243 | `cb.cancel` preserves the driver invariant; `next.cancel` leaves no effect able to resume `next`. |
| Procs.DigestKeeps | packages/core/src/internal/proc.js:183-247 | `digestEffect` preserves the driver invariant; only `next`'s own plain value can feed `next` at once. |
| Procs.PrepareKeeps | packages/core/src/internal/proc.js:88-121 | Resuming the generator preserves the invariant, with nothing left able to resume it. |
| Procs.ResolveKeeps | packages/core/src/internal/proc.js:124-143 | Digesting, finishing or rethrowing preserves the invariant, with the end recorded. |
| Procs.StepKeeps | packages/core/src/internal/proc.js:84-144 | One step of `next` preserves the driver invariant. |
| Procs.DriveKeeps | packages/core/src/internal/proc.js:84-144 | `next` with its nested resumptions preserves the driver invariant. |
| Procs.MainContAtMostOnce | packages/core/src/internal/proc.js:124-143 | For any generator, `mainTask.cont` is called at most once, and only with the main task no longer RUNNING. |
| Procs.Proc.constructor | packages/core/src/internal/proc.js:26-30 | `next.cancel` withdraws nothing, the main task is RUNNING, and no effect is dispatched yet. |
| Procs.Proc.Settle | packages/core/src/internal/proc.js:200-222 | `currCb` as `SettleSpec`: the first call closes the latch, drops the callback's cancel, records a failing effect as crashed, and calls the callback; later calls do nothing. |
| Procs.Proc.Withdraw | packages/core/src/internal/proc.js:229-243 | `cb.cancel` as `WithdrawSpec`: an open effect is closed and its runner's cancel is called; otherwise nothing happens. |
| Procs.Proc.Digest | packages/core/src/internal/proc.js:183-247 | `digestEffect` as `DigestSpec`: a fresh id, an open latch, the callback's cancel pointed at it, then dispatch in `runEffect`'s order. |
| Procs.Proc.DigestForRunner | packages/core/src/internal/proc.js:41-44 | A runner's `digestEffect` through the executing context keeps the driver invariant. |
| Procs.Proc.Prepare | packages/core/src/internal/proc.js:88-121 | The resumption half of `next`, as `PrepareSpec`. |
| Procs.Proc.Conclude | packages/core/src/internal/proc.js:124-143 | The resolution half of `next`, as `ResolveSpec`. |
| Procs.Proc.Step | packages/core/src/internal/proc.js:84-144 | One step of `next`, as `StepSpec`, keeping the invariant. |
| Procs.Proc.Next | packages/core/src/internal/proc.js:84-144 | `next` with its nested self-resumptions, as `DriveSpec`, keeping the invariant. |
| Procs.Proc.Start | packages/core/src/internal/proc.js:69 | `proc` kicks the generator off with `next()`. |
| Procs.Proc.CancelMain | packages/core/src/internal/proc.js:50-55 | Acts only while the main task is RUNNING: sets CANCELLED and resumes with TASK_CANCEL; otherwise nothing changes. |
| Procs.Proc.Callback | packages/core/src/internal/proc.js:200-222 | A runner settling an effect: as `SettleSpec`, then `next` runs on if the effect was `next`'s. |
| FsmIterators.SafeName | packages/core/src/internal/sagaHelpers/fsmIterator.js:7-21 | `'channel'` for channels. `String(f)` for a function with an own `toString`. The `name` property, as it is, for any other function; that is the function's own name when no `name` property is set. `String(x)` for everything else, which fails where `String` throws. |
| FsmIterators.SafeNameFails | packages/core/src/internal/sagaHelpers/fsmIterator.js:7-21 | `safeName` throws exactly for a non-channel array holding a symbol at some depth, because `String` joins the elements. A symbol on its own is described, not rejected. |
| JsValues.JoinFailsOnSymbols | packages/core/src/internal/sagaHelpers/fsmIterator.js:20 | Joining an array's elements, as `String(array)` does, fails exactly when a symbol appears in it at some depth. |
| FsmIterators.SafeNameOfPatterns | packages/core/src/internal/sagaHelpers/fsmIterator.js:20 | A string pattern names itself, an array of two strings is its elements joined with a comma, and a symbol is `Symbol(desc)`. |
| FsmIterators.RunCalls | packages/core/src/internal/sagaHelpers/fsmIterator.js:37-54 | A run of calls yields one outcome per call. |
| FsmIterators.EndedStaysEnded | packages/core/src/internal/sagaHelpers/fsmIterator.js:39-41 | At `qEnd` the machine stays there, and every later call, `throw` included, returns `done(arg)`. |
| FsmIterators.UnhandledErrorEnds | packages/core/src/internal/sagaHelpers/fsmIterator.js:43-46 | An error with no error state is rethrown and finishes the iterator for good. |
| FsmIterators.HandledErrorGoesToErrorState | packages/core/src/internal/sagaHelpers/fsmIterator.js:48-52 | An error with an error state first runs a pending updater with `null`, then calls the error state with the error. The whole record becomes current over the updated memory, and its effect (or `done(null)`) is returned. |
| FsmIterators.FsmIterator.constructor | packages/core/src/internal/sagaHelpers/fsmIterator.js:30-34 | Starts at the start state with no effect, updater or error state. |
| FsmIterators.FsmIterator.Next | packages/core/src/internal/sagaHelpers/fsmIterator.js:37-54 | `next(arg, error)` as `NextSpec`: `done(arg)` at `qEnd`; an unhandled error ends and rethrows. Otherwise the updater is applied to `arg`, the error or next state is called, and its effect or `done(arg)` is returned. |
| FsmIterators.FsmIterator.Throw | packages/core/src/internal/sagaHelpers/fsmIterator.js:56 | `throw(error)` is `next(null, error)`. |
| TakeEvery.YFork | packages/core/src/internal/sagaHelpers/takeEvery.js:19 | A FORK of the worker with the extra arguments and the action appended last. |
| TakeEvery.MachineBehaves | packages/core/src/internal/sagaHelpers/takeEvery.js:24-35 | q1 yields the take and registers `setAction`; q2 yields the fork with the stored action; `setAction` stores what it is fed. |
| TakeEvery.TakeEveryName | packages/core/src/internal/sagaHelpers/takeEvery.js:34 | When it can be built, the iterator's name has the form `takeEvery(…)`. |
| TakeEvery.SymbolArrayPatternThrows | packages/core/src/internal/sagaHelpers/takeEvery.js:34 | For an array pattern holding a symbol at some depth the name cannot be built, whatever the worker. |
| TakeEvery.NameOfStringPattern | packages/core/src/internal/sagaHelpers/takeEvery.js:34 | A string pattern and a worker function give the name `takeEvery(<pattern>, <function name>)`. |
| TakeEvery.NewTakeEvery | packages/core/src/internal/sagaHelpers/takeEvery.js:4-36 | Fails exactly for a null or undefined worker, or when the name cannot be built. Otherwise it is a fresh iterator over takeEvery's machine, with its name, starting at q1 with nothing captured. |
| TakeEvery.StepAlternates | packages/core/src/internal/sagaHelpers/takeEvery.js:26-31 | q1 yields the take and moves to q2. q2 stores the value fed as the action, yields the fork with it, and moves back to q1. |
| TakeEvery.RunStaysInPhase | packages/core/src/internal/sagaHelpers/takeEvery.js:24-33 | Fed only values, takeEvery alternates q1 and q2 and never reaches `qEnd`. |
| TakeEvery.RunAlternates | packages/core/src/internal/sagaHelpers/takeEvery.js:24-33 | Fed only values, the outputs alternate take and fork, each fork carrying the value fed right after the take. |
| TakeEvery.ErrorEndsTakeEvery | packages/core/src/internal/sagaHelpers/takeEvery.js:24-35 | takeEvery has no error state, so an error thrown into it is rethrown and ends it. |

## Left out

- Re-entrancy across components: components record their calls to each other (owner `cont`, sub-task `cancel`, joiners, runners, `resolvePromise`, a child `proc`) instead of invoking them. `Tasks.Task.SubtaskCont` and `Tasks.Task.Dispatch` connect a fork queue's calls to its task.
- `proc`'s own `newTask` call, the wiring of `mainTask.cont` to the fork queue, and `cont.cancel = task.cancel` are not modelled. `MainCont` is recorded rather than delivered.
- The effect runners (`effectRunnerMap`), `resolvePromise`, `env.finalizeRunEffect` and `sagaMonitor` are not part of this model. A runner is a recorded call whose settlement arrives through `Procs.Proc.Callback`.
- An exception thrown by an effect runner or by `mainTask.cont` inside `next`'s `try` is not modelled; only the generator's own exceptions are.
- The global `nextEffectId` counter (uid.js is not part of this model) is modelled as a per-driver counter. This keeps ids fresh within one driver.
- Procs.Proc.Next: the nested `next` calls made by values that settle at once are bounded by a `fuel` argument. A resumption still owed after that many calls is returned as `pending` rather than taken.
- The async-generator check at the top of `proc` and every development-only `check`/`console.warn` in io.js are not modelled. These are diagnostics that do not change the returned value.
- Rendering the saga stack as text (sagaError.js is not part of this model): reports carry the frame list. `SagaStack.Clear` also forgets the crashed effect.
- makeIterator (utils.js is not part of this model): `FsmIterators.FsmIterator` offers `next` and `throw` directly; its `return` and its `name` property's attachment are left out.
- FsmIterators.NextSpec: state updaters are assumed not to throw, and a state function sees only the machine's memory and its argument.
- Tasks.Task.End: requires a live joiner list. A second `end` would record again and call `cont` before throwing on `null.forEach`; that is not modelled. The fork queue calls `end` at most once when `abort` reaches only a live queue (`ForkQueues.OwnerCalledAtMostOnce`), and `cancel` first completes the queue. An `abort` of a completed queue would call `end` again (`ForkQueues.AbortCallsOwnerOnce`). The model assumes the caller of `abort`, `runForkEffect`, aborts only a live queue; `runForkEffect` is not part of this model.
- Numbers, `iterable`, `observable` and `sagaAction` of the `is` package are not modelled; the interpreter core does not use them.
- The middleware, `deferred`, `delay-p`, io-helpers.js and the re-exporting index are not part of this model. `toPromise`'s promise is an abstract pending/resolved/rejected value.
- Floating point and timers do not occur in the modelled core.
- Spreading an array or a string (`{ ...v }`) would copy its indices. The model's `Spread` copies only a plain object's properties; `detach` and `setContext` spread plain objects.
