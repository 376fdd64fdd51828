# Callback dispatch thread

A model of the callback dispatch worker of the robot-control hardware abstraction layer (`CallbackThreadHAL` and its handle `CallbackThread`). A background worker runs a three-phase lifecycle around user hooks: `init(param)` once, `process(mask, param)` per notification, and `end(param)` at shutdown. It calls every hook with its lock released. Handle calls (`SetFunc`, `Notify`) post into a single-slot mailbox, a notify flag plus the last mask, so a burst of notifications collapses into one `process` call.

The model is sequential. Each handle call, the owner's shutdown request, and each stretch of the worker's `Main` between two lock boundaries is one atomic event. The one exception is after the loop: leaving the loop (`break`) and considering `end` are two steps, although the lock is held from one to the other. The split changes nothing observable: the exit step commutes with every handle call and shutdown request (`Interleavings.LoopExitCommutes`), so a run with such an event between the two steps ends in the same state as the run with that event before the exit, which the code allows. Any interleaving of these events is a sequence of `Action`s. The worker's position in `Main` is a program counter with five values:

- `FirstWait`: the first wait.
- `Initing`: `init` is running.
- `LoopHead`: at the head of the processing loop.
- `Ending`: the loop has exited.
- `Done`: `Main` has returned.

A ghost trace `calls` records every hook call with the hook and the arguments it received. The lifecycle, ordering and coalescing properties are stated over that trace, for every interleaving.

Modules:

- `HalTypes` (`types.dfy`): `uint64` masks, `int32` init status, opaque `Addr` parameters (0 is `nullptr`), hook identities, trace entries.
- `CallbackState` (`callback_state.dfy`): the worker's shared state as a value, and the function for each atomic operation. The handle-level `SetFunc`, `Notify` and `GetParam` take an `Option<Worker>`: `None` is a handle whose `GetThread()` finds no thread.
- `CallbackThreads` (`callback_threads.dfy`): the two classes whose fields the methods update in place. Every method is specified by the matching `CallbackState` function. The file also holds the raw `CallbackHandler` entry point and a small client.
- `Interleavings` (`interleavings.dfy`): runs of actions, the trace invariant, and the lemmas that hold for all interleavings.
- `Scenarios` (`scenarios.dfy`): concrete schedules, covering the usage scenarios and the behaviours that depend on timing.

What is a parameter of the model rather than computed by it:

- The value `init` returns is the `rv` of the step that completes the `init` call.
- The first content of the uninitialised `m_mask` is the `junk` argument of `Fresh` and of the constructors. Every lemma holds for every `junk`.
- The scheduler is the order of the actions.
- A wake-up while the wait predicate is false leaves the state unchanged. This covers spurious wakeups.

Behaviours of the code (hal/lib/Athena/CallbackThread.cpp) that depend on timing or are easy to miss:

- With only `end` installed, a handle torn down without a further notification does not always skip `end`. `SetFunc` itself sets the notify flag. If the worker wakes on it before shutdown, it enters the loop because no `init` is installed, and `end` runs at shutdown (`Scenarios.EndRunsIfWokenBeforeStop`). If shutdown comes first, no hook runs (`Scenarios.EndSkippedIfStoppedUnwoken`).
- With all three hooks installed and one `Notify` before shutdown, the trace is `init`, `process(m)`, `end`, with the one `process` call carrying the notified mask, only if the `Notify` arrives before the worker's first loop iteration (`Scenarios.FullLifecycle`). `SetFunc`'s own notify flag already drives one loop iteration. If the worker takes it first, `process` runs with the uninitialised mask. The later `Notify` then adds a second `process` call before `end` only if the worker runs another loop iteration before shutdown (`Scenarios.LateNotifyAddsSecondProcess`). If shutdown comes first, the loop tests the active flag before the notify flag, so the late mask is never delivered: the trace is still one `init`, one `process` and one `end`, but that `process` carries the uninitialised mask (`Scenarios.LateNotifyThenStopIsLost`).
- A `Notify` that arrives while no `process` hook is installed is dropped only if the worker runs its next loop iteration before a `process` hook is installed: that iteration clears the flag without a call (`Interleavings.NotifyWithoutProcessIsDropped`). If a `SetFunc` installs a `process` hook first and the worker then runs its next iteration before shutdown, that hook receives the notified mask, because `SetFunc` leaves the mask alone (`Scenarios.PendingNotifyReachesLaterProcess`). If shutdown comes before that iteration, the mask is never delivered, as above.
- A `Notify` before any `SetFunc` can wake the worker, if the worker runs before `SetFunc` does. No `init` is installed then, so the worker enters the loop, and an `init` installed later is never called (`Scenarios.EarlyNotifySkipsInit`).
- The bodies of `SetFunc` and `Notify` write the shared fields without locking `m_mutex` themselves. Whether `GetThread()` holds any lock meanwhile is up to `SafeThread`, which is not part of this model. `SetFunc` can also overwrite the hooks and the parameter at any time, not only while the worker is idle. The model treats each of these calls as atomic.

## Model

| member | source | states |
|---|---|---|
| `CallbackState.Fresh` | hal/include/HAL/CallbackThread.hpp:23-28 | A new worker is active, has no notification pending, a null parameter and no hooks. Its mask is an arbitrary given value, and it is blocked until signalled. |
| `CallbackState.Install` | hal/lib/Athena/CallbackThread.cpp:10-15 | After `SetFunc`'s writes, the parameter and all three hooks hold the given values and the notify flag is set. The active flag, mask, lifecycle position and trace are unchanged. The worker can run unless it has finished. |
| `CallbackState.Signal` | hal/include/HAL/CallbackThread.hpp:40-42 | `Notify`'s writes set the mask to the new value and set the notify flag. They leave the parameter, the hooks, the active flag, the lifecycle position and the trace unchanged, and wake the worker unless it has finished. |
| `CallbackState.RequestStop` | hal/lib/Athena/CallbackThread.cpp:27-28 | Shutdown clears the active flag and changes nothing else. It wakes the worker unless the worker has finished. |
| `CallbackState.Step` | hal/lib/Athena/CallbackThread.cpp:24-62 | A worker step never changes the active flag, mask, parameter or hooks. It clears the notify flag exactly when a loop iteration proceeds: `init` leaves it set. It appends at most one hook call to the trace and never alters earlier entries. A worker that is not enabled stays as it was. |
| `CallbackState.SetFunc` | hal/lib/Athena/CallbackThread.cpp:6-16 | `SetFunc` on a handle without a thread leaves it without one. Otherwise the worker stays owned and `GetParam` returns the new parameter, or null when there is no thread. |
| `CallbackState.GetParam` | hal/lib/Athena/CallbackThread.cpp:18-22 | A handle that owns no thread yields null. |
| `CallbackState.Notify` | hal/include/HAL/CallbackThread.hpp:37-43 | `Notify` on a handle without a thread is a no-op. It never changes whether a thread is owned, nor the parameter `GetParam` returns. |
| `CallbackState.NotifyTwiceIsNotifyLast` | hal/include/HAL/CallbackThread.hpp:17-18 | `Notify(a); Notify(b)` leaves the same state as `Notify(b)` alone. |
| `CallbackState.NotifyIgnoresPending` | hal/include/HAL/CallbackThread.hpp:40-41 | `Notify(b)` while a notification with any mask is pending leaves the same state as `Notify(b)` with nothing pending, so there is never more than one pending notification. |
| `CallbackThreads.CallbackThreadHAL.constructor` | hal/include/HAL/CallbackThread.hpp:19-29 | The object's state is the fresh worker with the given uninitialised mask. |
| `CallbackThreads.CallbackThreadHAL.WorkerStep` | hal/lib/Athena/CallbackThread.cpp:24-62 | Running one stretch of `Main` (one lock boundary to the next, with loop exit and `end` as two steps) updates the fields and the trace exactly as `Step` says, with snapshots taken before each hook call. |
| `CallbackThreads.CallbackThreadHAL.Stop` | hal/lib/Athena/CallbackThread.cpp:41-43 | Shutdown updates the object as `RequestStop` says. |
| `CallbackThreads.CallbackThread.Start` | hal/include/HAL/CallbackThread.hpp:31 | A started handle owns a new worker in the fresh state. |
| `CallbackThreads.CallbackThread.Empty` | hal/lib/Athena/CallbackThread.cpp:8-9 | A handle that owns no thread. |
| `CallbackThreads.CallbackThread.SetFunc` | hal/lib/Athena/CallbackThread.cpp:6-16 | Writes the owned worker's fields exactly as `CallbackState.SetFunc` says. Without a thread it changes nothing. |
| `CallbackThreads.CallbackThread.GetParam` | hal/lib/Athena/CallbackThread.cpp:18-22 | Returns the owned worker's parameter, or null without a thread. |
| `CallbackThreads.CallbackThread.Notify` | hal/include/HAL/CallbackThread.hpp:37-43 | Writes the owned worker's mask and flag exactly as `CallbackState.Notify` says. Without a thread it changes nothing. |
| `CallbackThreads.CallbackHandler` | hal/lib/Athena/CallbackThread.cpp:64-66 | The trigger entry point has exactly the effect of `Notify(mask)` on the handle passed as its parameter. |
| `Interleavings.Run` | hal/lib/Athena/CallbackThread.cpp:24-62 | Over any interleaving of events, the trace only grows and its earlier entries never change. Once the active flag is false it stays false. |
| `Interleavings.RunConsistent` | hal/lib/Athena/CallbackThread.cpp:24-62 | Every interleaving preserves the link between lifecycle position and trace. The trace is empty before the first wake and is a single `Init` while `init` runs. An `Init` can only be the first entry and an `End` only the last. No `End` appears before the worker finishes. `End` implies the active flag is false, and the loop exits only once it is. |
| `Interleavings.Lifecycle` | hal/lib/Athena/CallbackThread.cpp:29-61 | From a fresh worker, over any interleaving, `init` is called at most once and before any `process`. `end` is called at most once and after every other hook. A trace holding `end` belongs to a finished worker whose active flag is false. |
| `Interleavings.DoneIsFinal` | hal/lib/Athena/CallbackThread.cpp:28 | A finished worker calls no further hook and stays finished, whatever events follow. |
| `Interleavings.StopBeforeFirstWake` | hal/lib/Athena/CallbackThread.cpp:27-28 | If the first wake finds the active flag false, the worker finishes without calling any hook, `end` included, under any later events. |
| `Interleavings.InitFailureIsFinal` | hal/lib/Athena/CallbackThread.cpp:29-37 | When `init` returns nonzero, the worker finishes. Its trace stays the single `Init` call forever: no `process` and no `end`. |
| `Interleavings.BurstLeavesLast` | hal/include/HAL/CallbackThread.hpp:40-41 | Any non-empty burst of `Notify` calls leaves exactly the last mask pending, and changes nothing else. |
| `Interleavings.Coalescing` | hal/lib/Athena/CallbackThread.cpp:42-50 | Any number of `Notify` calls before the worker's next wake in its loop yield exactly one `process` call. That call carries the last mask and the installed parameter, and afterwards nothing is pending. |
| `Interleavings.StepCallsUseSnapshot` | hal/lib/Athena/CallbackThread.cpp:31-57 | A step that calls a hook calls the hook installed when the step takes its snapshot under the lock: `init` at the first wake, `process` in a loop iteration, `end` after the loop. It passes the parameter held at that moment, and for `process` the mask held at that moment. |
| `Interleavings.LoopExitCommutes` | hal/lib/Athena/CallbackThread.cpp:40-42 | Leaving the loop after shutdown commutes with any `SetFunc`, `Notify` or shutdown request: doing the exit step first or the event first gives the same state. |
| `Interleavings.InstalledInitIsCalled` | hal/lib/Athena/CallbackThread.cpp:29-34 | The first wake of an active, notified worker with `init` installed calls that `init` with the installed parameter, and the worker moves into the `init` call. |
| `Interleavings.NotifyWithoutProcessIsDropped` | hal/lib/Athena/CallbackThread.cpp:43-45 | A notification consumed while no `process` hook is installed is cleared without any hook call, and the worker blocks again. |
| `Interleavings.EndOnlyIfInstalled` | hal/lib/Athena/CallbackThread.cpp:54-61 | The step that first records `end` starts after the loop has exited with the active flag false. An `end` hook is installed at that point, and the worker finishes. |
| `Scenarios.LatestMaskWins` | hal/include/HAL/CallbackThread.hpp:37-43 | With only `process` installed, `Notify(5); Notify(9)` before the worker runs yields the single call `process(9, param)`. |
| `Scenarios.FailedInitCallsNothingElse` | hal/lib/Athena/CallbackThread.cpp:34-36 | When `init` returns 1 after a notification, the trace is exactly `[Init]` under any later events. |
| `Scenarios.FullLifecycle` | hal/lib/Athena/CallbackThread.cpp:24-62 | Schedule: `SetFunc` with all hooks, then `Notify(m)` before the worker's first step, a successful `init`, one loop iteration, then shutdown. The trace is exactly `init`, `process(m)`, `end`, in that order. |
| `Scenarios.LateNotifyAddsSecondProcess` | hal/lib/Athena/CallbackThread.cpp:14 | Schedule: `SetFunc` with all hooks, a successful `init` and one loop iteration, then `Notify(m)`, one more iteration and shutdown. The trace is `init`, `process` with the uninitialised mask, `process(m)`, `end`. |
| `Scenarios.LateNotifyThenStopIsLost` | hal/lib/Athena/CallbackThread.cpp:40-42 | Schedule: `SetFunc` with all hooks, a successful `init` and one loop iteration, then `Notify(m)` and shutdown before another iteration. The trace is `init`, `process` with the uninitialised mask, `end`: `m` is never delivered. |
| `Scenarios.PendingNotifyReachesLaterProcess` | hal/lib/Athena/CallbackThread.cpp:10-14 | From the loop head of an active worker, `Notify(m)`, then a `SetFunc` that installs a `process` hook, then one iteration: that hook is called once with `m` and the new parameter. |
| `Scenarios.ShutdownAtLoopRunsEnd` | hal/lib/Athena/CallbackThread.cpp:41-61 | A shutdown while the worker is at the head of its loop makes it leave the loop and call the installed `end` once, as the last hook, then finish. |
| `Scenarios.EndSkippedIfStoppedUnwoken` | hal/lib/Athena/CallbackThread.cpp:27-28 | With only `end` installed, shutdown before the first wake finishes the worker with no hook call. |
| `Scenarios.EndRunsIfWokenBeforeStop` | hal/lib/Athena/CallbackThread.cpp:14 | With only `end` installed, if the worker wakes on `SetFunc`'s signal before shutdown, `end` runs exactly once. |
| `Scenarios.FirstProcessAfterInitSeesStaleMask` | hal/include/HAL/CallbackThread.hpp:28 | After a successful `init`, the loop calls `process` at once with no `Notify`, and passes the uninitialised mask. The worker is then back at the loop head, still active, with nothing pending. |
| `Scenarios.EarlyNotifySkipsInit` | hal/lib/Athena/CallbackThread.cpp:27-29 | If the worker wakes on a `Notify` before `SetFunc`, it enters the loop with no `init` installed. Then `SetFunc` installs `init` and `process`, and one iteration gives exactly `process(m)`. No `Init` call appears under any later events. |
| `Interleavings.NoInitLater` | hal/lib/Athena/CallbackThread.cpp:29-37 | A worker past its first wake that has not called `init` never calls it under any later events, however the hooks are reinstalled. |
| `Scenarios.StoppedBeforeStartCallsNothing` | hal/lib/Athena/CallbackThread.cpp:27-28 | A shutdown requested before the worker first wakes means no hook is ever called, under any later events. |

## Left out

- Mutex, condition variable and OS scheduling: replaced by interleaving atomic events. The model does not show that holding no lock during a hook keeps `Notify` non-blocking, and it does not model the data race of the unlocked writes in `SetFunc` and `Notify`.
- `SafeThread` and `SafeThreadOwner` are not part of this model. That covers `GetThread`, thread creation, join and destruction. Shutdown is the abstract `Stop` event, and the model makes no claim about joining or idempotent teardown. A handle does not release its worker in the model.
- What the hooks themselves do, including faults they raise: a hook is an identity, and its only effect is its entry in the trace. `init`'s status is an input.
- The JNI bridges (`wpilibj/src/athena/cpp/lib/InterruptJNI.cpp`, `wpilibj/src/athena/cpp/lib/NotifierJNI.cpp`): calls into the Java VM, timestamps and timeouts. Their `init` returning 1 on a null parameter or a failed attach is one instance of the failing `init` input.
- `hal/include/HAL/Notifier.hpp` holds only declarations of the hardware alarm functions, whose implementation is not part of this model.
- `CallbackState.GetParam`, `CallbackState.SetFunc` and `CallbackState.Notify` state only their no-thread behaviour and their relation to each other in their own contracts. What they write into an owned worker is stated by `Install` and `Signal`.
