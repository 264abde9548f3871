# sap_core, modelled and proved in Dafny

The project models the parts of `sap_core` whose correctness is hard to see from one function: the coroutine runtime and
its cancellation, coroutine frames, the Windows poll protocol, the lock-free queue and the job system on top of it, the
arena and block pool, generational handles and the wire format.

Each part has the same build-up. A value-level state and its operations come first, with an invariant that is a
conjunction of small predicates over single fields. Then every step is shown to keep the invariant, and theorems follow
about whole runs from the initial state. Beside them stand, for each operation, statements of what it changes and what it
leaves alone, in terms of its inputs. Where the source updates an object in place there is also a class with the same
fields, whose methods and loops are proved equal to the value-level operations.

| part | files | main results |
|---|---|---|
| Runtime: `IoAwaiter`, `Executor`, stop sources | `Runtime`, `RuntimeRuns`, `RuntimeEffects`, `Executor` | no lost or double wakeup in any run; stop semantics; the loop ends idle only with nothing parked |
| Stop list as pointers | `StopList` | the doubly linked list under arm, destroy and stop; who fires and in which order |
| Coroutine results | `Tasks`, `Trampoline` | symmetric transfer computes what direct evaluation computes; `when_all` |
| Coroutine frames | `Frames`, `FrameSteps`, `FrameRuns`, `FrameEffects`, `FrameHeap` | each step is safe if and only if a condition on the state before it holds; no use after destruction, no double destruction, no leak |
| IOCP reactor | `Iocp`, `IocpRuns`, `IocpEffects`, `IocpReactor` | `pending` means one outstanding poll; freshness; the drain loses no completion |
| SPSC queue | `Spsc`, `SpscQueue` | FIFO refinement under arbitrarily stale views |
| Job system | `JobSystem`, `JobRuns`, `JobPool`, `JobRings` | idle means all ran, despite a wrapping counter; exactly once and in order; the same on SPSC rings by simulation |
| Arena and pool | `Bits`, `Arena`, `Pool` | mask rounding, disjointness; conservation of blocks over explicit memory bytes |
| Generational handles | `Generational`, `GenerationalClasses` | a retired handle stays dead; storage is a map on live handles |
| Serialization | `Bytes`, `Codec`, `CodecClasses` | round trip and failure of every strict prefix, on both byte orders |

`dafny verify dfyconfig.toml` checks everything.

How the environment appears: the reactor's answers, kernel completions, what a resumed coroutine does, callbacks of a stop,
stale atomic reads and the interleaving of threads are parameters or steps that may be chosen freely, so the theorems hold
for every choice. Machine integers are written out where width matters: the job counter and generations are modulo 2^32,
addresses and `align_up` modulo 2^64.

## Where code and documentation differ, the model follows the code

- The async documentation says a cancelled `IoAwaiter` throws `CancelledError` (include/sap_core/async/README.md:384). The code
  returns an error result (include/sap_core/async/executor.h:136-148), and so does `ResumeOutcome`.
- The I/O documentation says the Windows backend submits the poll again on each completion
  (include/sap_core/io/README.md:216-217). `wait` does not (src/io/iocp_reactor.cpp:340-379), and neither does the model.
- `htonll` exchanges the halves on every host. On a big-endian host that leaves the low word first; `Wire64IsNetworkOrder`
  gives the exact condition. Reading back is right on either host.
- An `add` whose poll the kernel refuses on a known handle leaves the context marked active, so every later `add` of the
  handle fails until it is removed; `RefusedPollLeavesHandle` states this and `RefusedTwiceIsStuck` is a run that gets there.
- Re-`add` gives up draining after a timeout and submits with the old poll still outstanding. `ReAddSafeIffDrained` says this
  breaks the protocol exactly when the drain did not finish, and `TimedOutReAddBreaks` is a run in which it does.
- `~Task` destroys its frame in any state. `StepExact` gives the condition under which that is safe, and
  `RawStartCanFault` a run outside it; `LazySafe` shows the library's own ways of starting tasks never leave it.
- The comment on `detach` says awaiting a detached task is a no-op (include/sap_core/async/task.h:127-129). `await_ready` does
  say yes, but `await_resume` then reads the promise of an empty handle; `AwaitingEmptyFaults` and `AwaitingDetachedFaults`.

## Model

| member | source | states |
|---|---|---|
| `Runtime.TokensLive` | src/async/executor.cpp:53-67 | every token a wait can report is the address of a live awaiter on which a coroutine is still parked |
| `Runtime.SuspendKeeps` | include/sap_core/async/executor.h:120-134 | suspending keeps the invariant whether the reactor accepts or refuses the handle |
| `Runtime.OnCancelKeeps` | include/sap_core/async/executor.h:150-165 | a cancellation deregisters and queues at most once and keeps the invariant |
| `Runtime.PopKeeps` | include/sap_core/async/executor.h:136-148 | resuming the front of the queue keeps the invariant |
| `Runtime.FireBatchKeeps` | src/async/executor.cpp:59-67 | dispatching a batch, repeated tokens included, keeps the invariant |
| `Runtime.RequestStopKeeps` | include/sap_core/async/stop_token.h:57-68 | firing all callbacks of a source keeps the invariant, also between unlinking a node and its callback |
| `Runtime.DestroyKeeps` | include/sap_core/async/stop_token.h:71-74 | destroying an awaiter nobody is parked on keeps the invariant |
| `Runtime.StepKeeps` | src/async/executor.cpp:31-69 | every action of user code, pop and wait keeps the invariant |
| `RuntimeRuns.WokenExactlyOnce` | include/sap_core/async/executor.h:120-165 | in every run a parked coroutine is in the ready queue exactly once if its awaiter is queued, and otherwise absent and registered with the reactor |
| `RuntimeRuns.ResumedOncePerSuspension` | src/async/executor.cpp:36-68 | over every run suspensions of a coroutine equal its resumptions, plus one while it is parked |
| `RuntimeRuns.StepParks` | include/sap_core/async/executor.h:120-148 | exactly which steps park and unpark a coroutine |
| `RuntimeRuns.NothingPendingMeansNothingParked` | src/async/executor.cpp:50-51 | the pending count is the size of the reactor's interest set; at zero with an empty queue nothing is parked |
| `RuntimeRuns.RequestStopEffect` | include/sap_core/async/stop_token.h:57-68 | a stop empties the list and appends to the queue only coroutines parked on awaiters of this source |
| `RuntimeRuns.StoppedAwaitersAreQueued` | include/sap_core/async/stop_token.h:57-68 | after a stop no awaiter of the source is registered, and each still parked one is queued once and resumes with an error |
| `RuntimeRuns.StopIsForever` | include/sap_core/async/executor.h:136-148 | whatever runs after a stop, no awaiter of the source reports success |
| `RuntimeRuns.TriggerWakesOnlyFirstAwait` | include/sap_core/async/executor.h:57-57 | in every state of a run, a trigger wakes a coroutine if and only if its vacant awaiter had never been awaited |
| `RuntimeRuns.SecondAwaitIsLost` | include/sap_core/async/executor.h:120-134 | in every state of a run, awaiting a used awaiter again parks the coroutine with nothing left that could wake it |
| `RuntimeRuns.BatchForgets` | src/async/executor.cpp:59-67 | no batch of triggers wakes a coroutine so lost |
| `RuntimeRuns.StopForgets` | include/sap_core/async/stop_token.h:57-68 | no stop of any source wakes it |
| `RuntimeRuns.PopForgets` | include/sap_core/async/executor.h:136-148 | no resumption of another coroutine wakes or unparks it |
| `RuntimeRuns.UsedAwaiterIsReachable` | include/sap_core/async/executor.h:120-148 | a run from the start that ends with an awaiter whose second await is lost |
| `RuntimeRuns.RefusalReported` | include/sap_core/async/executor.h:120-148 | a refused registration queues the coroutine and is reported as an error if and only if the message is not empty |
| `RuntimeEffects.BatchQueuesAll` | src/async/executor.cpp:60-66 | after a batch every triggered awaiter is queued and the coroutine parked on it is in the queue |
| `RuntimeEffects.BatchQueuesInOrder` | src/async/executor.cpp:60-66 | a batch appends exactly the triggered, not yet queued coroutines, in the order of their first triggers |
| `RuntimeEffects.BatchKeepsLastEvents` | src/async/executor.cpp:60-66 | an awaiter keeps the events of its last trigger |
| `RuntimeEffects.BatchOnlyFires` | src/async/executor.cpp:60-66 | a batch changes nothing else, and nothing of awaiters without a trigger |
| `RuntimeEffects.AddedIsWatched` | include/sap_core/async/executor.h:120-134 | a granted suspension parks the coroutine, registers its awaiter and puts it in front of its source's list |
| `RuntimeEffects.ArmedTooLate` | include/sap_core/async/stop_token.h:86-98 | one that finds its source stopped meanwhile is undone at once: out of the reactor, queued, on no list, to resume cancelled |
| `RuntimeEffects.RefusedIsQueued` | include/sap_core/async/executor.h:120-134 | a refused one queues the coroutine at once and registers and links nothing |
| `RuntimeEffects.RefusalComesFirst` | include/sap_core/async/executor.h:136-148 | a refusal is reported in the reactor's words, cut to 127 characters, before any cancellation |
| `RuntimeEffects.PopEffect` | src/async/executor.cpp:40-46 | a resume takes the front of the queue and unparks it |
| `RuntimeEffects.PopLeavesReactor` | include/sap_core/async/executor.h:136-148 | the resumed coroutine's awaiter leaves the reactor and no other does |
| `RuntimeEffects.StopWakesInListOrder` | include/sap_core/async/stop_token.h:57-68 | a stop appends only coroutines on its list, in the order of the list |
| `RuntimeEffects.ScheduleEffect` | src/async/executor.cpp:22-22 | scheduling queues the coroutine behind what is there and does nothing else |
| `RuntimeEffects.DestroyEffect` | include/sap_core/async/stop_token.h:71-74 | a destroyed awaiter is off its list and no other awaiter or list changes |
| `Executors.Executor.RequestStop` | include/sap_core/async/stop_token.h:57-68 | the unlinking loop fires every linked awaiter; returns whether the flag flipped |
| `Executors.Executor.Dispatch` | src/async/executor.cpp:60-66 | the trigger loop computes the batch of the model |
| `Executors.Executor.DrainReady` | src/async/executor.cpp:40-46 | the inner loop is a run of the model; it reports the target if and only if it is done, right after the resume that finished it, and resumes nothing after a stop |
| `Executors.Executor.RunUntil` | src/async/executor.cpp:31-69 | the loop is a run of the model that exits on the target if and only if it is done, right after the resume that finished it; goes on past no stop; waits only while something is registered; an idle exit leaves nothing parked, ready or registered |
| `StopLists.StopState.Link` | include/sap_core/async/stop_token.h:37-44 | pointers spell the list with the node in front |
| `StopLists.StopState.Splice` | include/sap_core/async/stop_token.h:46-55 | the pointer writes join the neighbours of any node |
| `StopLists.StopState.Unlink` | include/sap_core/async/stop_token.h:46-55 | pointers spell the list without the node, which is on no list |
| `StopLists.LeaveList` | include/sap_core/async/stop_token.h:71-74 | a linked node leaves whichever source's list it is on and every other list is untouched |
| `StopLists.StopState.Arm` | include/sap_core/async/stop_token.h:86-98 | linked before a stop; after it the callback fires at once and nothing is linked |
| `StopLists.StopState.RequestStop` | include/sap_core/async/stop_token.h:57-68 | terminates with an empty list, having fired exactly the specified nodes in order, though callbacks destroy nodes of this and other sources; every other source loses exactly the destroyed nodes |
| `StopLists.FiresAtMostOnce` | include/sap_core/async/stop_token.h:57-68 | no node fires twice |
| `StopLists.DestroyedNeverFires` | include/sap_core/async/stop_token.h:57-68 | what a fired callback destroys does not fire after it |
| `StopLists.FiresUnlessDestroyed` | include/sap_core/async/stop_token.h:57-68 | a linked node with a callback fires if and only if no callback fired before it destroys it |
| `StopLists.UnfiredWasDestroyed` | include/sap_core/async/stop_token.h:57-68 | a linked node with a callback that did not fire was destroyed by a callback that did |
| `Tasks.FrameRuns` | include/sap_core/async/task.h:47-66 | from any point in any nest of frames, the machine runs a body to its direct outcome and touches no other frame |
| `Tasks.AwaitStarts` | include/sap_core/async/task.h:111-118 | awaiting enters the child with the parent as its continuation and changes nothing else |
| `Tasks.AwaitReturns` | include/sap_core/async/task.h:120-125 | the child's value or exception selects the parent's branch and the child's frame is gone |
| `Tasks.MachineComputesDirect` | include/sap_core/async/task.h:47-125 | for every finite task tree the continuation-jumping machine halts with the value or exception and the effects of direct evaluation |
| `Tasks.WhenAllValues` | include/sap_core/async/when_all.h:10-13 | without a throw, the results in argument order |
| `Tasks.WhenAllThrows` | include/sap_core/async/when_all.h:10-13 | the first throw wins and later tasks never start |
| `Tasks.RunnerIsTransparent` | include/sap_core/async/spawn.h:140-146 | the spawn runner passes effects, value and exception through |
| `Trampolines.Trampoline.Drive` | include/sap_core/async/task.h:47-125 | the jump loop ends, never through a dead frame, with the effects of direct evaluation |
| `Frames.DestroyKeeps` | include/sap_core/async/task.h:106-109 | destroying a frame with all it owns keeps the ownership invariant, removes only frames at rest and leaves every other frame's phase alone |
| `Frames.DestroyExact` | include/sap_core/async/task.h:106-109 | destroying a frame is an error if and only if something running or parked is among what it owns through handles |
| `FrameSteps.CreateKeeps` | include/sap_core/async/task.h:82-84 | a new task has one owner, and handles passed as arguments move into it |
| `FrameSteps.SpawnKeeps` | include/sap_core/async/spawn.h:140-158 | a spawned runner owns its task, runs at once and has one owner |
| `FrameSteps.MoveKeeps` | include/sap_core/async/task.h:95-95 | a move keeps exactly one owner per frame |
| `FrameSteps.ClearExact` | include/sap_core/async/spawn.h:121-131 | dropping a handle is safe if and only if the frame is an unfinished runner, which then owns itself, or is at rest |
| `FrameSteps.AwaitExact` | include/sap_core/async/task.h:111-118 | awaiting is safe if and only if the handle is not empty and its task has not been entered before |
| `FrameSteps.DetachExact` | include/sap_core/async/task.h:130-136 | detaching is safe if and only if the handle is empty or its task has not started |
| `FrameSteps.CompleteExact` | include/sap_core/async/spawn.h:45-57 | final suspension goes wrong only if a self-owned frame owns something running or parked; every jump reaches a frame that waits for it |
| `FrameSteps.StepExact` | include/sap_core/async/task.h:47-136 | every step is free of fault if and only if it is used as stated, and then keeps the invariant |
| `FrameRuns.LazySafe` | include/sap_core/async/spawn.h:140-158 | if tasks start only by await, detach or a runner, the conditions reduce to not awaiting an empty handle and not detaching a finished task |
| `FrameRuns.RunsAreSafe` | include/sap_core/async/task.h:47-136 | no fault in any such run |
| `FrameRuns.DestroyedOnce` | include/sap_core/async/task.h:97-136 | a destroyed frame never exists, runs or is destroyed again |
| `FrameRuns.NoneDestroyedUnderWay` | include/sap_core/async/README.md:495-503 | no parked or awaiting frame is ever destroyed |
| `FrameRuns.NothingLeaks` | include/sap_core/async/spawn.h:121-131 | a completed frame has a handle; with no handle left every remaining frame is running or parked |
| `FrameRuns.DroppedNeverTransfers` | include/sap_core/async/spawn.h:45-57 | a dropped runner or detached task that completes is gone and starts no other frame |
| `FrameRuns.CompletionResumesAwaiter` | include/sap_core/async/task.h:47-63 | an owned frame that completes resumes exactly the frame that waits for it |
| `FrameEffects.AwaitEffect` | include/sap_core/async/task.h:111-118 | awaiting a done child changes nothing; otherwise the awaiter waits for the child, the child will jump back, a task is entered and a runner left as it is |
| `FrameEffects.AwaitAndReturn` | include/sap_core/async/task.h:47-118 | a task awaited and completed gives control back with everything but itself as before |
| `FrameEffects.ParkThenResume` | include/sap_core/async/executor.h:120-134 | parking takes the frame off the stack and resuming restores the state |
| `FrameEffects.DetachEffect` | include/sap_core/async/task.h:130-136 | the task loses its handle, owns itself and runs; no other handle changes |
| `FrameEffects.MoveEffect` | include/sap_core/async/task.h:95-95 | the destination owns what the source owned, the source nothing, and moving back undoes it |
| `FrameEffects.CreateEffect` | include/sap_core/async/task.h:82-84 | the new frame has the new handle, holds the handles passed to it and has not started |
| `FrameEffects.SpawnEffect` | include/sap_core/async/spawn.h:140-158 | the same for a runner, which runs on top of its caller |
| `FrameEffects.ClearEffect` | include/sap_core/async/spawn.h:121-131 | a dropped handle's frame goes on self-owned if it is a runner under way, and is gone otherwise |
| `FrameEffects.FinishEffect` | include/sap_core/async/task.h:47-63 | a frame nobody awaits just stops, done |
| `FrameRuns.DroppingParkedTaskFaults` | include/sap_core/async/task.h:106-109 | dropping a parked task is always an error |
| `FrameRuns.RawStartCanFault` | include/sap_core/async/task.h:106-109 | a run that resumes a task through its raw handle and then drops it |
| `FrameRuns.AwaitingEmptyFaults` | include/sap_core/async/task.h:111-125 | awaiting an empty handle is always an error |
| `FrameRuns.AwaitingDetachedFaults` | include/sap_core/async/task.h:127-136 | a run in which a coroutine detaches a task and then awaits the same object |
| `FrameHeaps.FrameHeap.DestroyFrame` | include/sap_core/async/task.h:106-109 | the loop over everything a frame owns ends in the specified state |
| `FrameHeaps.FrameHeap.MoveAssign` | include/sap_core/async/task.h:97-104 | the old frame is dropped, then ownership moves; self-assignment changes nothing |
| `FrameHeaps.ReleaseSpares` | include/sap_core/async/task.h:97-104 | releasing one handle never destroys another that running code can reach |
| `Iocp.SubmitKeeps` | src/io/iocp_reactor.cpp:160-181 | submitting for a context that is not pending keeps one outstanding poll per context |
| `Iocp.CancelKeeps` | src/io/iocp_reactor.cpp:184-195 | a cancel request keeps the poll outstanding |
| `Iocp.ConsumeKeeps` | src/io/iocp_reactor.cpp:358-377 | a dequeued completion was its context's one outstanding poll |
| `Iocp.DrainKeeps` | src/io/iocp_reactor.cpp:269-284 | the drain keeps the protocol for any number of rounds |
| `Iocp.AddKeeps` | src/io/iocp_reactor.cpp:261-322 | `add` keeps the protocol whenever its drain finished |
| `Iocp.ReAddSafeIffDrained` | src/io/iocp_reactor.cpp:269-299 | re-`add` keeps the protocol if and only if the drain did not time out |
| `IocpRuns.TimedOutReAddBreaks` | src/io/iocp_reactor.cpp:269-299 | a run after which such a re-`add` leaves two polls in flight on one OVERLAPPED |
| `Iocp.RemoveKeeps` | src/io/iocp_reactor.cpp:330-338 | `remove` keeps the protocol |
| `Iocp.CompletionIsFresh` | src/io/iocp_reactor.cpp:358-377 | a completion of an active registration comes from that registration's own poll and is no cancellation |
| `Iocp.WaitReports` | src/io/iocp_reactor.cpp:340-379 | `wait` reports exactly the dequeued completions of active registrations, in order, and keeps the protocol |
| `IocpRuns.WaitReportsLastRegistration` | src/io/iocp_reactor.cpp:340-379 | in every run each trigger carries the token of its handle's last successful `add` or `modify`, and completes the poll which that call submitted |
| `IocpEffects.WaitTellsEach` | src/io/iocp_reactor.cpp:358-377 | one trigger for each dequeued completion of an active context and no others, in order, with the context's token and the events that fired, or an error if the poll failed |
| `IocpEffects.WaitTakesFront` | src/io/iocp_reactor.cpp:340-379 | a dequeue takes the front of the queue, at most 64 entries, and leaves the rest |
| `IocpEffects.WaitSettlesEach` | src/io/iocp_reactor.cpp:358-377 | exactly the contexts with a dequeued completion stop being pending |
| `IocpEffects.AddEffect` | src/io/iocp_reactor.cpp:286-321 | after a successful `add` the context is active under the caller's token and interest and this call's poll is in flight |
| `IocpEffects.FailedAddEffect` | src/io/iocp_reactor.cpp:261-299 | what a failed `add` leaves |
| `IocpEffects.AddSparesOthers` | src/io/iocp_reactor.cpp:261-322 | no other handle's registration changes, whatever the drain dequeues |
| `IocpEffects.RemoveEffect` | src/io/iocp_reactor.cpp:330-338 | the context is inactive, its poll asked to be cancelled, and nothing else changes |
| `IocpEffects.RemovedIsSilent` | src/io/iocp_reactor.cpp:330-338 | after `remove`, `wait` reports nothing for the handle |
| `IocpEffects.BatchSettlesIff` | src/io/iocp_reactor.cpp:269-284 | a drain pass settles a context if and only if it dequeues its completion and the context is the drained one or inactive |
| `IocpEffects.RoundSettlesIff` | src/io/iocp_reactor.cpp:269-284 | a pass settles the old poll if and only if it dequeues its completion |
| `IocpEffects.DrainStopsWhenSettled` | src/io/iocp_reactor.cpp:269-284 | the drain passes until the old poll is settled, not once more, and gives up only when no pass is left |
| `IocpRuns.StepKeeps` | src/io/iocp_reactor.cpp:261-379 | every call and every kernel move keeps the protocol |
| `IocpRuns.PendingMeansOneOutstanding` | src/io/iocp_reactor.cpp:160-195 | in every run the polls in flight plus those queued for a context are one if it is pending, else none |
| `IocpRuns.DrainConserves` | src/io/iocp_reactor.cpp:269-284 | the drain keeps every queued completion of every other active registration |
| `IocpRuns.SafeToFreeIffNothingPending` | src/io/iocp_reactor.cpp:210-245 | the kernel holds no context if and only if no flag is pending |
| `IocpRuns.RefusedPollLeavesHandle` | src/io/iocp_reactor.cpp:286-321 | what a refused poll leaves behind, for new and known handles |
| `IocpRuns.RefusedTwiceIsStuck` | src/io/iocp_reactor.cpp:286-321 | a run after which a handle refuses a proper `add` although no poll is outstanding |
| `IocpReactors.Reactor.DrainOld` | src/io/iocp_reactor.cpp:269-284 | the drain loop |
| `IocpReactors.Reactor.Add` | src/io/iocp_reactor.cpp:261-322 | new state, result and invariant |
| `IocpReactors.Reactor.Modify` | src/io/iocp_reactor.cpp:324-328 | remove, then add; succeeds if and only if the handle is known and the system grants all three requests |
| `IocpReactors.Reactor.WaitFor` | src/io/iocp_reactor.cpp:340-379 | each dequeued completion of an active registration once, in order |
| `IocpReactors.Reactor.Destroy` | src/io/iocp_reactor.cpp:210-245 | contexts are freed with the kernel done with them if and only if no dequeue timed out |
| `Spsc.StepKeeps` | include/sap_core/stl/spsc_queue.h:13-41 | each atomic step of either side keeps the ring's invariant, whatever stale index it reads |
| `Spsc.StepRefinesFifo` | include/sap_core/stl/spsc_queue.h:13-41 | publishing appends, taking removes the front, nothing else shows; at most capacity minus one items |
| `Spsc.ReadIsOldest` | include/sap_core/stl/spsc_queue.h:33-41 | of all writes a read could see, only the oldest untaken item is possible |
| `Spsc.FullAndEmptyTests` | include/sap_core/stl/spsc_queue.h:16-36 | both comparisons mean full and empty in the view they are made in |
| `Spsc.PushRefusedMeansFull` | include/sap_core/stl/spsc_queue.h:13-31 | a push is refused if and only if the ring is full in the producer's view |
| `Spsc.PopRefusedMeansEmpty` | include/sap_core/stl/spsc_queue.h:33-41 | a pop is refused if and only if the ring is empty in the consumer's view |
| `Spsc.ReadAlwaysPossible` | include/sap_core/stl/spsc_queue.h:33-41 | a consumer that passed its test always finds the item it needs |
| `Spsc.SlotsNeverShared` | include/sap_core/stl/spsc_queue.h:13-41 | the slot being written is not the slot being read |
| `Spsc.RunIsFifo` | include/sap_core/stl/spsc_queue.h:13-41 | in every interleaving items come out once and in order |
| `SpscQueues.SpscQueue.TryPush` | include/sap_core/stl/spsc_queue.h:13-31 | appends unless full |
| `SpscQueues.SpscQueue.TryPop` | include/sap_core/stl/spsc_queue.h:33-41 | removes the front unless empty |
| `JobSystem.TurnsCover` | src/job_system.cpp:28-41 | one submit probes every queue |
| `JobSystem.StepKeeps` | src/job_system.cpp:28-72 | every step of submitter and workers keeps counter, queues and jobs in hand in balance modulo 2^32 |
| `JobRuns.TotalBounds` | include/sap_core/job_system.h:34-34 | at most one queue capacity of open jobs per worker |
| `JobRuns.ZeroMeansAllRan` | src/job_system.cpp:43-46 | between submits the counter is zero if and only if every pushed job has run |
| `JobRuns.IdleMeansAllRan` | src/job_system.cpp:43-46 | the same over every run |
| `JobRuns.IdleIsStable` | src/job_system.cpp:43-46 | without another submit idle stays idle |
| `JobRuns.CounterWrapsInsideSubmit` | src/job_system.cpp:28-41 | a run in which the counter wraps below zero inside a submit |
| `JobRuns.AcceptedOnceInOrder` | src/job_system.cpp:52-72 | between submits the queues hold exactly the jobs whose submit returned true, each queue in the order of the calls, and each worker has run a prefix of its own queue |
| `JobRuns.ExitedRanEverything` | src/job_system.cpp:21-26 | once all workers have exited every job has run |
| `JobRuns.RejectedMeansAllFull` | src/job_system.cpp:28-41 | a false submit found every queue full and changed neither queues nor counter |
| `JobRuns.FailedProbeChangesNothing` | src/job_system.cpp:28-41 | a probe that finds its queue full leaves contents and counter |
| `JobRuns.ProbeEffect` | src/job_system.cpp:34-37 | a probe with room appends the job to its queue and nothing to any other |
| `JobRuns.SubmitsTakeTurns` | src/job_system.cpp:29-31 | in every run call number k starts at queue k mod 2^32 mod n |
| `JobRuns.ProbesFollowTurn` | src/job_system.cpp:33-35 | probe j of a call goes to the j-th queue after the one it started at |
| `JobRings.PushCheckMatches` | include/sap_core/stl/spsc_queue.h:23-31 | the ring's full test is the full test on the sequence of jobs |
| `JobRings.PushStoreMatches` | include/sap_core/stl/spsc_queue.h:23-31 | the ring's store is the push, with room for it |
| `JobRings.PopCheckMatches` | include/sap_core/stl/spsc_queue.h:33-41 | the ring's empty test is the empty test on the sequence of jobs |
| `JobRings.PopStoreMatches` | include/sap_core/stl/spsc_queue.h:33-41 | the item taken off the ring is the next job |
| `JobRings.EventMatched` | src/job_system.cpp:28-72 | every atomic event of the system on SPSC rings is one step of the model or invisible to it |
| `JobRings.RunIsMatched` | src/job_system.cpp:28-72 | every run on the rings is a run of the model ending in a matching state |
| `JobRings.RingsDeliverOnceInOrder` | src/job_system.cpp:28-72 | in every run on the rings, between submits they have been pushed exactly the accepted jobs, in the order of the calls, and workers have run exactly what they popped |
| `JobRings.RingsIdleMeansAllRan` | src/job_system.cpp:43-46 | in every run on the rings, between submits the counter is zero if and only if every pushed job has run |
| `JobPools.JobPool.Submit` | src/job_system.cpp:28-41 | against any activity of the workers: true means exactly this job was accepted, false that none was and every queue was full when probed |
| `JobPools.JobPool.WaitIdle` | src/job_system.cpp:43-46 | the loop spins exactly while the counter is not zero and ends idle if and only if every job accepted so far has run |
| `JobPools.JobPool.WorkerMain` | src/job_system.cpp:52-72 | against any activity of the other threads: looks into its queue once per round, and leaves only when asked to stop and with its whole queue run in order |
| `JobPools.JobPool.PopAndRun` | src/job_system.cpp:58-63 | one pop runs exactly the next job of the worker's own queue, or finds none |
| `JobPools.JobPool.Shutdown` | src/job_system.cpp:21-26 | asks all to stop; joined if and only if all workers have exited, and then every accepted job has run |
| `Bits.PowerOfTwoTest` | include/sap_core/stl/arena.h:11-11 | a positive number passes the mask test if and only if it is a power of two |
| `Arenas.AlignUpIsLeastMultiple` | include/sap_core/stl/arena.h:10-14 | the mask form is the least multiple at or above its input if and only if the sum does not wrap |
| `Arenas.FitTestExact` | include/sap_core/stl/arena.h:45-47 | the 64-bit test for a request that fits is exact if and only if its end does not wrap to a place inside the arena |
| `Arenas.Placement` | include/sap_core/stl/arena.h:44-56 | the aligned cursor starts a region behind and apart from all others |
| `Arenas.LinearArena.constructor` | include/sap_core/stl/arena.h:27-32 | an empty arena over the memory |
| `Arenas.LinearArena.Allocate` | include/sap_core/stl/arena.h:44-56 | in range, disjoint and aligned; null if and only if the aligned request does not fit; the peak is the maximum of use |
| `Arenas.LinearArena.Reset` | include/sap_core/stl/arena.h:60-60 | no region left, peak kept |
| `Arenas.LinearArena.ResetTo` | include/sap_core/stl/arena.h:34-42 | other memory, peak restarted |
| `Pools.LoadStored` | include/sap_core/stl/arena.h:101-107 | a link written as bytes reads back |
| `Pools.WriteKeepsChain` | include/sap_core/stl/arena.h:93-107 | a write outside the free blocks leaves the free list |
| `Pools.FixedBlockPool.constructor` | include/sap_core/stl/arena.h:86-91 | blocks hold at least a pointer |
| `Pools.FixedBlockPool.CutChunk` | include/sap_core/stl/arena.h:120-125 | the loop links every block of a chunk once, disjoint from all others |
| `Pools.FixedBlockPool.AddChunk` | include/sap_core/stl/arena.h:115-129 | grows by one chunk, or fails for lack of space with nothing changed |
| `Pools.FixedBlockPool.Allocate` | include/sap_core/stl/arena.h:93-99 | a free block moves to held, and free and held partition the carved blocks; no block, the source's `bad_alloc`, only when list and arena are exhausted |
| `Pools.FixedBlockPool.Deallocate` | include/sap_core/stl/arena.h:101-107 | a held block moves to the front of the free list |
| `Pools.FixedBlockPool.ClientWrites` | include/sap_core/stl/arena.h:93-107 | any bytes written into a held block leave the pool intact |
| `Generational.AllocateKeeps` | include/sap_core/stl/generational.h:30-40 | the new handle is alive and was never issued before |
| `Generational.DeallocateKeeps` | include/sap_core/stl/generational.h:42-47 | giving back any handle, dead ones included, keeps the free list exact |
| `Generational.SetKeeps` | include/sap_core/stl/generational.h:84-99 | a write through a live handle agrees with the client's map |
| `Generational.StaleSetIsRefused` | include/sap_core/stl/generational.h:90-93 | a write through a handle older than the stored value leaves every read as it was |
| `Generational.SetIsReadBack` | include/sap_core/stl/generational.h:84-99 | any other write is read back, hides other generations of its slot and touches no other slot |
| `Generational.RemoveHides` | include/sap_core/stl/generational.h:101-104 | a removal empties its slot and touches no other |
| `Generational.DeallocateKillsOne` | include/sap_core/stl/generational.h:42-47 | giving back a live handle kills that handle only; giving back a dead one does nothing |
| `Generational.AllocateRaisesOne` | include/sap_core/stl/generational.h:30-40 | an allocation brings exactly its own handle to life, in the slot freed last if there is one |
| `Generational.FreedSlotComesBack` | include/sap_core/stl/generational.h:30-47 | giving a handle back and allocating returns its slot, one generation on |
| `Generational.RemoveKeeps` | include/sap_core/stl/generational.h:101-104 | so does a removal |
| `Generational.RetiredStaysDead` | include/sap_core/stl/generational.h:42-52 | in every run a handle given back is never alive again |
| `Generational.LiveHandleIsMapKey` | include/sap_core/stl/generational.h:84-124 | in every run a live handle reads what was last stored under it and is never refused a write |
| `Generational.GenerationCountsReuses` | include/sap_core/stl/generational.h:30-47 | after any calls whatever, a slot's generation is its old one plus the number of its reuses, modulo 2^32 |
| `Generational.AliveIffWholeTurns` | include/sap_core/stl/generational.h:30-52 | after any calls whatever, a handle that was alive is alive if and only if its slot is and was reused a multiple of 2^32 times |
| `Generational.RetiredHandleReturns` | include/sap_core/stl/generational.h:30-52 | calls that give a handle back and, after exactly the multiples of 2^32 turns, make it alive again |
| `Generational.ScanListsLiveKeys` | include/sap_core/stl/generational.h:126-139 | the scan lists exactly the live keys |
| `Generational.Valid` | include/sap_core/stl/generational.h:126-139 | in ascending order, each live and present |
| `GenerationalClasses.GenerationalVector.GetAllValidIndices` | include/sap_core/stl/generational.h:126-139 | the loop computes the scan |
| `GenerationalClasses.GenerationalVector.GetFirstValidEntry` | include/sap_core/stl/generational.h:143-155 | the first entry of the scan with its value, if there is one |
| `Codec.HtonInvolutive` | src/serialization.cpp:31-41 | network conversion undoes itself on either byte order |
| `Codec.HtonllInvolutive` | src/serialization.cpp:14-24 | `ntohll` undoes `htonll` on either byte order |
| `Codec.WireIsNetworkOrder` | src/serialization.cpp:31-41 | 16 and 32 bit values go out most significant byte first |
| `Codec.Wire64IsNetworkOrder` | src/serialization.cpp:14-18 | 64 bit values do if and only if the host is little-endian or both halves are equal |
| `Codec.NetworkDigit` | src/serialization.cpp:31-63 | network order byte by byte: each is the digit of its weight |
| `Codec.FieldOnTheWire` | src/serialization.cpp:26-75 | what every kind of field puts on the wire |
| `Codec.FieldRoundTrip` | src/serialization.cpp:84-164 | a field wholly there is read back and passed |
| `Codec.FieldCutOff` | src/serialization.cpp:84-164 | a field cut off anywhere is never read as a value |
| `Codec.FailedReadOffset` | src/serialization.cpp:84-164 | a failed read leaves the offset, except that a text whose length is there has used it up |
| `Codec.UnderflowTestExact` | src/serialization.cpp:149-158 | the reader's 64-bit underflow test is exact if and only if offset plus length does not wrap |
| `Codec.RoundTrip` | src/serialization.cpp:26-164 | every message reads back and uses the buffer exactly |
| `Codec.StrictPrefixFails` | src/serialization.cpp:84-164 | every strict prefix fails at the first field not wholly in it, with all earlier fields right |
| `CodecClasses.ByteWriter.WriteAll` | src/serialization.cpp:26-80 | the buffer grows by the message's encoding |
| `CodecClasses.ByteReader.ReadMessage` | src/serialization.cpp:84-164 | field after field until one is missing |
| `CodecClasses.WriteThenRead` | src/serialization.cpp:26-164 | writer then reader gives the message again |

## Left out

- The epoll reactor and the sleep backends (src/io/epoll_reactor.cpp, src/async/sleep_linux.cpp): kernel calls with little logic.
- AFD structures, handle resolution and event-flag conversion of the Windows backend: foreign calls; their answers are parameters.
- `sync_wait`, timers, clocks, logging, GUIDs: threads, time, output or randomness.
- The stl wrappers, `result`, `fixed_string`, `stack_allocator`: would only add easy members.
- Liveness: that the kernel completes polls, workers are scheduled and a drain ends is not stated; loops over the environment end when the given events do.
- The runtime holds stop lists as sequences; the pointers behind them are the subject of `StopList`.
- Awaiters awaited twice, a second registration of a watched descriptor and `schedule` of a parked coroutine are outside the runtime's runs, as the source assumes; `SecondAwaitIsLost` says what a second await does.
- Frames: the order in which the handles inside a destroyed frame are taken is not modelled, they go generation by generation; a handle is awaited by the frame that holds it.
- Tasks: `when_all` creates its argument frames when it awaits them; values are numbers and tuples, not user types.
- JobRuns.IdleMeansAllRan: for worker counts whose queues together hold fewer than 2^32 jobs, beyond which the counter itself is ambiguous; one submitting thread, and jobs neither throw nor submit.
- JobRuns.ZeroMeansAllRan: the same bound on the number of workers.
- Methods that mirror one value-level function in place have no row above; the loops built on them do.
- Spsc: one producer and one consumer; acquire and release are modelled as monotone, possibly stale views over the history of writes.
- Arenas.LinearArena.Allocate: the cursor plus alignment and size stays within 2^64; the source's pointer sum is undefined beyond, and `FitTestExact` says when its test still agrees.
- Pools.FixedBlockPool.Allocate: the same bound, when the free list is empty.
- Pools.FixedBlockPool.AddChunk: the same bound; blocks whose size is no multiple of the alignment are not aligned and alignment of blocks is not stated.
- Pools.FixedBlockPool.Deallocate: for blocks the client holds; a foreign or repeated pointer is not detected by the source.
- Generational.RetiredStaysDead: while no slot is reused 2^32 times; `AliveIffWholeTurns` is exact without that bound.
- CodecClasses.ByteReader.ReadBytes: offset plus length is unbounded here; `UnderflowTestExact` says when the 64-bit test agrees.
- CodecClasses.ByteReader.ReadString: the same.
- Iocp: wakes that the drain of a re-`add` dequeues are dropped, as in the source; no statement is made about them.
