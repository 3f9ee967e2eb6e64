# Verified model of the Tokio executor services

Two executor services bind user work to a Tokio runtime. The *blocking service* runs closures on Tokio's blocking pool,
the *IO service* runs futures on Tokio's scheduler. Both accept work under a submission lock up to a fixed capacity,
keep an abort map keyed by the address of a registration marker, derive the lifecycle `Terminated` from a stored
lifecycle and a task count, and wake termination waiters and capacity retriers. This project models both services
twice, and connects the two views:

* **As interleaved steps.** `BlockingModel` and `IoModel` are transition systems over unboundedly many tasks, submitting
  threads, `shutdown` and `stop` calls, waiters and retriers. Every party has its own program counter, and every gap of
  the code is a gap here: the tracker's compare-exchange and the count update, the decrement and its two notifications,
  the removal of a map entry and the end of the accounting, the load of the lifecycle and the read of the counts, the
  capacity check and the increment of the IO count, the steps of a guard's drop, of a cancellation and of an abort hook.
  `BlockingTask` and `IoTask` hold the steps of one task; `BlockingInvariant` and `IoInvariant` the inductive invariants;
  `BlockingTaskSteps`, `BlockingThreadSteps`, `BlockingCloserSteps`, `IoTaskSteps`, `IoThreadSteps` and `IoCloserSteps`
  the proof that every step keeps them; the theorem modules lift them to whole runs.
* **As methods on shared objects.** `Lifecycles`, `TaskCounts`, `Submissions`, `Registrations`, `TaskSlots`,
  `BlockingState`, `BlockingService`, `IoState` and `IoService` follow the source's classes and loops, each method with its
  full effect on the shared state. `TimedWait`, `BlockingAwait` and `IoAwait` are the waiting loops, each run beside an
  arbitrary run of its service. What these methods ask of their callers beyond the code's debug assertions (a counted task
  is in its count, entries belong to different tasks, the map holds no more entries than there are active futures) is what
  the transition systems prove of every reachable state.
* **As calls that are runs.** `BlockingCalls`, `BlockingServiceCalls`, `BlockingWorkerCalls` and `BlockingStopCalls` show
  that `finish_task`, `mark_started`, `cancel_queued`, the drop of the lifecycle guard, a submission, the pool's side of a
  closure, a cancellation through a handle, `shutdown` and `stop`, taken without interruption, are runs of the transition system with exactly the effect that the methods promise; `IoCalls`,
  `IoServiceCalls` and `IoStopCalls` do the same for `try_accept_task`, the drops of the guard and of a guarded future, the
  completion of a future, a submission, `shutdown` and `stop` of the IO service. Such a call continues every execution that leads up to it.

The main theorems, for every run of a new service and every interleaving:

* the blocking service refines one in which accepting, starting and finishing are atomic (`BlockingRefinement`);
* counts are exact, accounting is released exactly once, result slots have one owner, the abort map behaves as if keyed
  by task identity under every reuse of freed addresses (`BlockingAccounting`, `IoTermination`, `IoStop`);
* termination is final, `lifecycle()` is linearizable, no termination wake-up and no capacity hint is lost
  (`BlockingTermination`, `IoTermination`, `BlockingAwait`, `IoAwait`);
* a returned `stop` cuts off every task that had not started, and reports never over-count (`BlockingStop`, `IoStop`);
* a closed service comes to rest in boundedly many steps, counted over tasks, closers, waiters and retriers, and is free
  of deadlock: at rest everybody who waits for it has returned (`BlockingDrain`, `BlockingSettles`, `BlockingProgress`,
  `IoSettles`, `IoProgress`);
* caller code never runs on a thread that holds the submission lock or the counts monitor, whatever kind of thread it is
  (`BlockingReentrancy`, `IoReentrancy`).

Both locks have an owner in the state. The monitor of the counts is taken with the first access of a section and left with
the last one, in separate steps, and every other thread may move in between: the acceptance of a task, the count update of
`mark_started`, the write of `finish_task`, the snapshot of `stop`, the termination check of a closer, the count read of an
asynchronous waiter and the check of a synchronous one are such sections.

Assumed interfaces: atomics are sequentially consistent; a oneshot send fails exactly when the receiver is gone, and
dropping the receiver drops a delivered payload; Tokio's blocking pool runs a closure at most once or drops it unstarted;
Tokio may drop an IO task while it waits or is polled; `notify_waiters` wakes exactly the enabled waiters; a watch
channel is a growing version; a marker address is free for reuse once nothing refers to the marker. A stop of the blocking
service works on one entry of its map at a time, in any order; a stop of the IO service may also interleave them, which
includes the source's loop. Runtime behaviour (closed or not, which closures are dropped, when bodies end) is chosen by the
transition system, and by parameters of the methods.

## Model

| member | source | states |
|---|---|---|
| Lifecycles.DecodingInvertsEncoding | src/executor_service_lifecycle_bits.rs:57-65 | decoding inverts encoding, and exactly the values above the last discriminant are clamped to Terminated |
| Lifecycles.LifecycleCell.Load | src/executor_service_lifecycle_bits.rs:23-25 | a load answers the stored lifecycle, which is never Terminated |
| Lifecycles.LifecycleCell.Shutdown | src/executor_service_lifecycle_bits.rs:32-36 | a shutdown closes a running service, leaves any other byte alone and never moves the lifecycle back |
| Lifecycles.LifecycleCell.Stop | src/executor_service_lifecycle_bits.rs:43-45 | a stop overwrites the lifecycle with Stopping and never moves it back |
| TaskCounts.TaskCounters.AcceptTask | src/tokio_executor_service_state/internal/tokio_executor_task_counts.rs:19-21 | one more queued task |
| TaskCounts.TaskCounters.MarkStarted | src/tokio_executor_service_state/internal/tokio_executor_task_counts.rs:24-28 | one task moves from queued to running; the total is kept |
| TaskCounts.TaskCounters.FinishTask | src/tokio_executor_service_state/internal/tokio_executor_task_counts.rs:35-43 | one task leaves the count that held it; the total falls by one |
| TaskCounts.TaskCounters.IsEmpty | src/tokio_executor_service_state/internal/tokio_executor_task_counts.rs:46-48 | true exactly when no task is counted |
| Registrations.TaskRegistration.Finish | src/tokio_task_registration.rs:31-33 | the marker is finished afterwards |
| Registrations.TaskRegistration.IsFinished | src/tokio_task_registration.rs:42-44 | the answer is the completion flag |
| TaskSlots.TaskSlotCell.Take | src/tokio_task_slot_cancellation.rs:55-57 | the slot is taken at most once |
| TaskSlots.TaskSlotCell.RunTask | src/tokio_executor_service.rs:288-294 | the body runs only if the slot was still there and its result pending, and then the result is complete |
| BlockingState.CancelUnstartedTaskSlotIfQueued | src/tokio_task_slot_cancellation.rs:79-89 | the accounting is consulted first; the slot is touched only if this call released queued accounting, and then it is emptied and a pending result in it becomes cancelled; a late stop cannot cancel a started result |
| BlockingState.ServiceState.NotifyCapacityChanged | src/tokio_executor_service_state.rs:122-125 | the generation advances by one, wraps around, and always differs from the one before |
| BlockingState.ServiceState.TryAcceptTask | src/tokio_executor_service_state.rs:136-144 | accepts exactly below the capacity although the sum saturates, and never exceeds the capacity |
| BlockingState.ServiceState.MarkTaskStarted | src/tokio_executor_service_state.rs:147-149 | one queued task becomes running and nothing else changes |
| BlockingState.ServiceState.FinishTask | src/tokio_executor_service_state.rs:156-165 | counts, then the generation, then both notifications if and only if the write left a closed service empty |
| BlockingState.ServiceState.TaskCountSnapshot | src/tokio_executor_service_state.rs:173-175 | both counts as they are |
| BlockingState.ServiceState.RegisterAbortHandle | src/tokio_executor_service_state.rs:193-209 | an entry is listed unless marker or Tokio task is finished, and never replaces another |
| BlockingState.ServiceState.RemoveAbortHandle | src/tokio_executor_service_state.rs:216-219 | the marker is finished and its key unlisted |
| BlockingState.ServiceState.AbortTrackedTasks | src/tokio_executor_service_state.rs:226-238 | empties the map; finishes exactly the queued trackers whose Tokio task is not gone, counts them, empties their result slots and turns a pending result into a cancelled one; aborts the other known tasks, leaves gone ones and all other slots alone; the shared state is that of as many cancellations |
| BlockingState.ServiceState.NotifyIfTerminated | src/tokio_executor_service_state.rs:241-248 | notifies both kinds of waiters exactly when the service is closed and empty |
| BlockingState.ServiceState.NotifyTerminationWaiters | src/tokio_executor_service_state.rs:286-289 | one notification to each kind of waiter |
| BlockingState.ServiceState.ObserveLifecycle | src/tokio_executor_service_state.rs:301-309 | Terminated exactly for a closed service without tasks, otherwise the stored lifecycle |
| BlockingState.ServiceState.IsNotRunning | src/tokio_executor_service_state.rs:312-314 | true exactly when the stored lifecycle is not Running |
| BlockingState.TaskTracker.MarkStarted | src/tokio_service_task_guard/internal/tokio_service_task_tracker.rs:71-85 | only a queued task moves to running and is counted; the answer is false exactly for a finished one |
| BlockingState.TaskTracker.FinishQueued | src/tokio_service_task_guard/internal/tokio_service_task_tracker.rs:92-105 | true exactly when this call released the queued accounting |
| BlockingState.TaskTracker.CancelQueued | src/tokio_service_task_guard/internal/tokio_service_task_tracker.rs:112-115 | the entry is unlisted whether or not the queued accounting was still there to release |
| BlockingState.TaskTracker.Finish | src/tokio_service_task_guard/internal/tokio_service_task_tracker.rs:118-124 | the count that holds the task is released, at most once |
| BlockingService.ServiceTaskGuard.Drop | src/tokio_service_task_guard.rs:78-84 | marker finished, entry unlisted, accounting released from whatever state the tracker was in |
| BlockingService.BlockingTaskHandle.Cancel | src/tokio_blocking_task_handle.rs:224-235 | accounting, marker, map and Tokio task are touched exactly when the cancellation wins the pending result |
| BlockingService.Service.PrepareBlockingSubmission | src/tokio_executor_service.rs:375-388 | Shutdown before Saturated, both exact; a rejection changes nothing and releases admission, an acceptance keeps it |
| BlockingService.Service.SpawnAcceptedBlockingTask | src/tokio_executor_service.rs:408-429 | closure and hook are registered under admission, which is released; a closed runtime leaves no entry |
| BlockingService.Service.TrySubmit | src/tokio_executor_service.rs:217-239 | a rejected submission changes nothing; an accepted one is counted, listed under its own fresh marker with its own hook and a handle that nobody has aborted, and delivered, or, on a closed runtime, gives its slot back; also the skeleton of lines 270-299 and 329-362 |
| BlockingService.Service.SubmitAndRun | src/tokio_executor_service.rs:217-239 | conservation: a submission that the pool runs at once, or that the closed runtime hands back, leaves map and counts as they were and bumps the generation; the body runs exactly if it was delivered and its slot and pending result are there |
| BlockingService.Service.RunDelivered | src/tokio_executor_service.rs:419-425 | the body runs exactly if mark_started allows it and the slot is there; afterwards the slot is taken if the task was allowed to run, its result is complete if the body ran and untouched otherwise, and the accounting is released |
| BlockingService.Service.ShutDown | src/tokio_executor_service.rs:552-559 | lifecycle under admission, then the bump, then the conditional notification; admission is released |
| BlockingService.Service.Stop | src/tokio_executor_service.rs:572-582 | the report holds the counts at the request and the number of queued tasks cancelled, which is at most the queued count; lifecycle, counts, generation and number of notifications are exact; every entry that Tokio still knows is aborted, every hit tracker is finished, every hit slot is empty and its pending result cancelled, and nothing else of any entry changes |
| BlockingCalls.CallsContinueExecutions | src/tokio_executor_service.rs:217-582 | what a thread does without interruption continues every execution that leads up to it, so all theorems over runs apply to it |
| BlockingCalls.FinishTaskIsARun | src/tokio_executor_service_state.rs:156-165 | finish_task without interruption is the monitor section, the bump and, if it saw termination, both notifications |
| BlockingCalls.FinishTaskAgrees | src/tokio_executor_service_state.rs:156-165 | that run has the effect of the method and wakes waiters exactly when the method notifies them |
| BlockingCalls.MarkStartedIsARun | src/tokio_service_task_guard/internal/tokio_service_task_tracker.rs:71-85 | mark_started is the compare-exchange and, if it won, the count update |
| BlockingCalls.MarkStartedAgrees | src/tokio_service_task_guard/internal/tokio_service_task_tracker.rs:71-85 | that run has the effect of the method; the worker goes on exactly if the answer is true |
| BlockingCalls.GuardDropIsARun | src/tokio_service_task_guard.rs:78-84 | the guard's drop is mark, remove, swap and the release pipeline |
| BlockingCalls.GuardDropAgrees | src/tokio_service_task_guard.rs:78-84 | that run has the effect of the method on counts, generation, map, marker and waiters, and touches no other task |
| BlockingCalls.CancelQueuedIsARun | src/tokio_service_task_guard/internal/tokio_service_task_tracker.rs:112-115 | cancel_queued is mark, remove, compare-exchange and, if it won, the release pipeline |
| BlockingCalls.CancelQueuedAgrees | src/tokio_service_task_guard/internal/tokio_service_task_tracker.rs:112-115 | that run has the effect of the method on counts, generation, map, marker and waiters, whether or not it won, and touches no other task |
| BlockingServiceCalls.RefusalIsARun | src/tokio_executor_service.rs:378-381 | a submission to a closed service takes and gives back admission and changes nothing else |
| BlockingServiceCalls.SaturationIsARun | src/tokio_executor_service.rs:378-384 | a submission to a full service leaves the monitor, then admission, and changes nothing but the thread, which now waits for a hint |
| BlockingServiceCalls.SubmissionIsARun | src/tokio_executor_service.rs:217-239 | an accepted submission is admission, acceptance inside the monitor, registration, release of admission, hand-off and, if the send fails, the guard's drop by the submitter |
| BlockingServiceCalls.SubmissionAgrees | src/tokio_executor_service.rs:217-239 | that run has the effect of the method: listed and counted if delivered, unlisted with counts restored and the generation bumped if not; no waiter is woken and no other task touched |
| BlockingServiceCalls.ShutdownIsARun | src/tokio_executor_service.rs:552-559 | shutdown is the store under admission, the bump, the monitor section and the notifications it asks for |
| BlockingServiceCalls.ShutdownAgrees | src/tokio_executor_service.rs:552-559 | that run has the effect of the method and touches no task and no entry |
| BlockingWorkerCalls.ClosureIsARun | src/tokio_executor_service.rs:419-425 | the pool's side of a delivered closure is the receive, mark_started, the body if it may run, and the guard's drop |
| BlockingWorkerCalls.ClosureAgrees | src/tokio_executor_service.rs:419-425 | that run has the effect of the method: the body runs exactly if the task was not finished and, for a callable, slot and pending result are there; its result is then complete |
| BlockingWorkerCalls.HandleCancelIsARun | src/tokio_blocking_task_handle.rs:224-235 | a cancellation that wins is the pending result, cancel_queued and the request to Tokio |
| BlockingWorkerCalls.HandleCancelAgrees | src/tokio_blocking_task_handle.rs:224-235 | that run has the effect of the method: result cancelled, entry unlisted, accounting released if it was still queued, Tokio asked; it needs a pending result |
| BlockingStopCalls.EveryOrderIsTaken | src/tokio_executor_service_state.rs:226-238 | moving the map out gives a new stop exactly the listed tasks, in whatever order it goes through them |
| BlockingStopCalls.StopIsARun | src/tokio_executor_service.rs:572-582 | stop is the store and the snapshot under admission, the map moved out, the abort of each entry in any order, the bump, the monitor section and the notifications |
| BlockingStopCalls.StopAgrees | src/tokio_executor_service.rs:572-582 | that run has the effect of the method on lifecycle, counts, generation and waiters: as many cancellations as there are queued tasks that Tokio still knows |
| BlockingStopCalls.StopReports | src/tokio_executor_service.rs:572-582 | it aborts the listed tasks that Tokio still knows and no others, releases the queued ones and cancels their pending results, and reports the snapshot with the number of hits |
| BlockingTaskFacts.StepMoves | src/tokio_service_task_guard/internal/tokio_service_task_tracker.rs:71-124 | every step of worker, guard, canceller, stop hook, submitter and runtime keeps the invariant of its task and moves phase, entry and debts only as allowed |
| BlockingTaskFacts.StepSection | src/tokio_executor_service_state.rs:136-165 | a task step enters a section of the monitor, leaves it as the thread that entered, or stays on its side |
| BlockingTaskSteps.WritesNeverSaturate | src/tokio_executor_service_state/internal/tokio_executor_task_counts.rs:24-43 | the counter that a monitor write decrements is positive |
| BlockingTaskSteps.RegistrationNeverOverwrites | src/tokio_executor_service_state.rs:193-209 | an insertion never finds an entry under its address |
| BlockingTaskSteps.RemovalTouchesOnlyItsOwn | src/tokio_executor_service_state.rs:216-219 | a removal by address finds the entry of its own task or none |
| BlockingRuns.InvIsInductive | src/tokio_executor_service_state.rs:122-330 | the invariant of the blocking service survives every step of every party |
| BlockingRefinement.CountsAreAtomic | src/tokio_executor_service_state.rs:136-175 | the counts at any moment are those of the atomic service |
| BlockingRefinement.AcceptRefines | src/tokio_executor_service_state.rs:136-144 | accepted and saturated verdicts are events that the atomic service allows at that point: there is room exactly if it has room |
| BlockingRefinement.StepRefines | src/tokio_executor_service_state.rs:136-165 | every concrete step is one event of the atomic service (acceptance, rejection, start, finish, closing) or invisible |
| BlockingRefinement.RunsRefine | src/tokio_executor_service_state.rs:136-175 | every run is, state by state, a run of the atomic service, with its acceptances and its Shutdown and Saturated rejections, and every count snapshot is exact |
| BlockingAccounting.CountsAreExact | src/tokio_executor_service_state/internal/tokio_executor_task_counts.rs:19-43 | in every reachable state the counts equal the tasks in the matching phase, also between a tracker transition and its count update, and stay within capacity |
| BlockingAccounting.CountersNeverSaturate | src/tokio_executor_service_state/internal/tokio_executor_task_counts.rs:24-43 | no debug assertion fires and no subtraction saturates in any run |
| BlockingAccounting.ReleasedExactlyOnce | src/tokio_service_task_guard/internal/tokio_service_task_tracker.rs:92-124 | whoever gets there first, the accounting of a task is released exactly once |
| BlockingAccounting.SlotHasOneOwner | src/tokio_task_slot_cancellation.rs:55-89 | a started task always finds its result slot, a task whose hook answered true never takes it, an empty slot has exactly one of the two owners |
| BlockingAccounting.MapIsKeyedByIdentity | src/tokio_task_registration.rs:58-60 | under address reuse the map holds exactly the listed unfinished tasks, each under its own address; empty counts mean an empty map |
| BlockingAccounting.MapUpdatesAreOwn | src/tokio_executor_service_state/internal/tracked_abort_handle.rs:15-25 | because an entry keeps its marker alive, insertions never overwrite and removals touch only their own entry |
| BlockingAccounting.FreedAddressesAreReused | src/tokio_task_registration.rs:58-60 | the reuse is real: an address is free for the next marker as soon as no guard, entry or handle refers to the old one |
| BlockingTermination.TerminationIsStable | src/tokio_executor_service_state.rs:301-309 | no step of any party leads out of termination, accepts a task or starts a body |
| BlockingTermination.TerminationIsFinal | src/tokio_executor_service.rs:375-429 | from a terminated state on nothing is accepted, no body runs and none starts, whatever is still queued in Tokio |
| BlockingTermination.LifecycleNeverGoesBack | src/executor_service_lifecycle_bits.rs:32-45 | the stored lifecycle only moves forward along every run: a closed service stays closed, a stopping one stays stopping |
| BlockingTermination.LifecycleIsLinearizable | src/tokio_executor_service_state.rs:301-309 | a Terminated answer means that the service is terminated at the count read; every other answer is the lifecycle stored at the load, when the service was not terminated |
| BlockingTermination.ObserversAgree | src/tokio_executor_service_state.rs:301-309 | observers that do not overlap never see the lifecycle go backwards |
| BlockingTermination.ParkedWaitersAreOwed | src/tokio_executor_service.rs:621-634 | an asynchronous or synchronous waiter parked on a terminated service is still owed its notification |
| BlockingTermination.WaitersReturnOnlyAtTermination | src/tokio_executor_service_state.rs:251-254 | waiters return only from a service that is terminated from then on |
| BlockingTermination.ParkedRetriersAreOwed | src/tokio_executor_service_state.rs:95-125 | a retrier parked after Saturated faces a running, full service, or a generation bump is owed |
| BlockingStop.StopCutsOff | src/tokio_executor_service.rs:572-582 | once a stop has returned and no other is sweeping, a task that had not won mark_started never runs its body |
| BlockingStop.NothingAcceptedAfterClose | src/tokio_executor_service.rs:378-381 | a closed service accepts nothing, ever |
| BlockingStop.ShutdownCancelsNothing | src/tokio_executor_service.rs:548-559 | without a stop no task is finished by an abort hook and no report counts anything |
| BlockingStop.CancelledIsAtMostQueued | src/tokio_executor_service.rs:572-582 | every report has cancelled at most queued, also while the stop is still running |
| BlockingStop.NoTaskIsCountedTwice | src/tokio_executor_service_state.rs:226-238 | no task is counted by two stop calls of a run |
| BlockingStop.CountedTasksNeverRun | src/tokio_task_slot_cancellation.rs:79-89 | the body of a counted task never runs, its accounting belongs to the stop that counted it, and from then on the result of a counted callable is cancelled |
| BlockingDrain.StepDrains | src/tokio_executor_service_state.rs:156-248 | in a closed service the measure never grows and every task step shrinks it |
| BlockingDrain.DrainIsBounded | src/tokio_service_task_guard.rs:78-84 | from a closed state on, a run contains at most as many task steps as the measure says |
| BlockingDrain.UnfinishedTasksAreNotStuck | src/tokio_executor_service.rs:419-425 | every unfinished task of a closed service has an enabled step of its own, unless a thread is inside the monitor, and then that thread can leave it |
| BlockingDrain.DrainedServiceIsTerminated | src/tokio_executor_service_state.rs:241-248 | when every task is done, a closed service is terminated, its map is empty and whoever is parked is owed a notification |
| BlockingDrain.ZeroMeasureMeansTerminated | src/tokio_executor_service_state.rs:156-248 | at measure zero the same holds |
| BlockingSettles.SettlingIsBounded | src/tokio_executor_service.rs:552-634 | in a closed service every step of a task, closer, waiter, retrier or submitter that has arrived shrinks one measure, so that many steps at most are left in any order |
| BlockingProgress.RestMeansEverybodyReturned | src/tokio_executor_service.rs:552-634 | deadlock freedom: with no due step left, a closed service is terminated, both locks are free, its map empty, every closer has reported, every waiter and every submission returned and no retrier is parked |
| BlockingProgress.EverybodyReturnsInBoundedSteps | src/tokio_executor_service.rs:552-634 | that rest is reached, whatever the order of the steps, after at most as many of them as the measure says |
| BlockingReentrancy.CallerCodeRunsUnlocked | src/tokio_executor_service.rs:217-239 | no thread, be it a submitter, closer, pool thread, cancelling thread, future or waiter, owns admission or the monitor in a step that may run wakers, bodies, hooks or payload drops, on accept, reject, failed send, shutdown, stop, cancellation and finish paths |
| BlockingReentrancy.SectionsHoldTheMonitor | src/tokio_executor_service_state.rs:136-165 | the sections are real: an acceptor, a worker that has counted its start and a finisher that has written the counts own the monitor until they leave it |
| BlockingAwait.NoLostNotification | src/tokio_executor_service.rs:621-634 | a service that becomes terminated owes the notification until it fires, although finishers and closers notify only on what they saw |
| BlockingAwait.ObserveLifecycle | src/tokio_executor_service_state.rs:301-309 | two reads at two moments answer Terminated only for a service that is terminated now, and always for one that was terminated at the call; any other answer was the stored lifecycle of an unterminated service at some moment of the call |
| BlockingAwait.AwaitTermination | src/tokio_executor_service.rs:621-634 | returns only from a service that stays terminated; if it is still pending when the world stops, the service is not terminated or the notification is owed |
| TimedWait.CheckTerminated | src/tokio_executor_service_state.rs:264-266 | two reads at two moments answer true only for a service that is terminated now, and always for one that was terminated at the call |
| TimedWait.WaitTerminationTimeout | src/tokio_executor_service_state.rs:262-283 | terminates for every timeout; true means terminated from then on; false means the whole timeout has passed or the monitor failed, and that the service was not terminated when the last wait ended; each wait asks for what is left of the timeout, an hour at most, so the call lasts no longer than the timeout and the time that the rest of the world takes |
| IoState.ServiceState.NotifyCapacityChanged | src/tokio_io_executor_service_state.rs:117-120 | the generation advances by one, wraps around, and always differs from the one before |
| IoState.ServiceState.TryAcceptTask | src/tokio_io_executor_service_state.rs:132-138 | accepts exactly below the capacity and never exceeds it |
| IoState.ServiceState.RegisterAbortHandle | src/tokio_io_executor_service_state.rs:150-162 | an entry is listed unless marker or Tokio task is finished, and never replaces another |
| IoState.ServiceState.RemoveAbortHandle | src/tokio_io_executor_service_state.rs:169-172 | the marker is finished and its key unlisted |
| IoState.ServiceState.AbortTrackedTasks | src/tokio_io_executor_service_state.rs:179-189 | empties the map, aborts exactly the tasks that are not gone and counts them |
| IoState.ServiceState.ObserveLifecycle | src/tokio_io_executor_service_state.rs:201-208 | Terminated exactly for a closed service without accepted futures, otherwise the stored lifecycle |
| IoState.ServiceState.NotifyTerminationWaiters | src/tokio_io_executor_service_state.rs:232-234 | one notification, unconditionally |
| IoService.ServiceTaskGuard.Drop | src/tokio_io_service_task_guard.rs:38-46 | only after the future that this guard stands for is gone: unlist, decrement, bump, notify, in this order; if the other entries are fewer than the active futures, nobody ever sees more entries than active futures |
| IoService.GuardedIoFuture.PollOnce | src/internal/tokio_guarded_io_future.rs:69-75 | polls in place, wraps only the error, keeps the future alive and the slot occupied |
| IoService.GuardedIoFuture.Drop | src/internal/tokio_guarded_io_future.rs:26-31 | the destructor of the user future completes, then the slot is given back, then others are told, in this order |
| IoService.SpawnHandoff.Deliver | src/internal/tokio_io_spawn_handoff.rs:68-80 | a failed send destroys the future, then gives the slot back, then tells others, in this order; a successful one changes nothing |
| IoService.Service.PrepareSpawn | src/tokio_io_executor_service.rs:224-248 | Shutdown before Saturated, both exact; admission is released on every path; the user future is not touched |
| IoService.Service.TrySpawn | src/tokio_io_executor_service.rs:191-200 | a rejected future is returned alive and unpolled; an accepted one occupies a slot of this service, by a guard of this service, and is listed with its own fresh marker and unaborted handle until it is destroyed, which a closed runtime does at once, future first |
| IoService.Service.SpawnAndDrop | src/tokio_io_executor_service.rs:191-248 | conservation: an accepted future that is destroyed, by the runtime or by a failed hand-off, leaves count, map and lifecycle as they were, after one bump and one notification |
| IoService.Service.ShutDown | src/tokio_io_executor_service.rs:254-261 | lifecycle under admission, then the bump, then the unconditional notification |
| IoService.Service.Stop | src/tokio_io_executor_service.rs:270-280 | the report holds no queued tasks, the active count at the request and the number of aborts, which is at most the active count; exactly the tasks that Tokio still knows are aborted; then the bump and one notification |
| IoCalls.CallsContinueExecutions | src/tokio_io_executor_service.rs:191-280 | what a thread does without interruption continues every execution that leads up to it |
| IoCalls.GuardDropIsARun | src/tokio_io_service_task_guard.rs:38-46 | the guard's drop is mark, remove, decrement, bump and notification |
| IoCalls.GuardDropAgrees | src/tokio_io_service_task_guard.rs:38-46 | that run has the effect of the method on count, generation, map, marker and waiters, and touches no other task |
| IoCalls.PayloadDropIsARun | src/internal/tokio_guarded_io_future.rs:26-31 | the drop of a guarded future is a run whose first step destroys the user future |
| IoCalls.CompletionIsARun | src/tokio_io_executor_service.rs:241-245 | a delivered future is received, polled until ready, destroyed, and its slot given back |
| IoCalls.CompletionAgrees | src/tokio_io_service_task_guard.rs:38-46 | that run has the effect of the guard's drop and leaves no future, entry or slot behind |
| IoCalls.TryAcceptIsARun | src/tokio_io_executor_service_state.rs:132-138 | try_accept_task under admission is the check and, if it found room, the increment |
| IoCalls.TryAcceptAgrees | src/tokio_io_executor_service_state.rs:132-138 | that run has the effect of the method: one more slot exactly if the count was below the capacity |
| IoServiceCalls.RefusalIsARun | src/tokio_io_executor_service.rs:230-233 | a submission to a closed service takes and gives back admission and changes nothing else |
| IoServiceCalls.SaturationIsARun | src/tokio_io_executor_service.rs:230-236 | a submission to a full service changes nothing but the thread, which now waits for a hint |
| IoServiceCalls.SubmissionIsARun | src/tokio_io_executor_service.rs:191-248 | an accepted submission is admission, acceptance, registration, release of admission, hand-off and, if the send fails, the drop of the payload by the submitter |
| IoServiceCalls.SubmissionAgrees | src/tokio_io_executor_service.rs:191-248 | that run has the effect of the method: one slot and one entry if delivered, otherwise the future destroyed, the slot given back and others told |
| IoServiceCalls.ShutdownIsARun | src/tokio_io_executor_service.rs:254-261 | shutdown is the store under admission, the bump and the notification |
| IoServiceCalls.ShutdownAgrees | src/tokio_io_executor_service.rs:254-261 | that run has the effect of the method and touches no task and no entry |
| IoStopCalls.EveryOrderIsTaken | src/tokio_io_executor_service_state.rs:179-189 | moving the map out gives a new stop exactly the listed tasks, in whatever order it goes through them |
| IoStopCalls.StopIsARun | src/tokio_io_executor_service.rs:270-280 | stop is the store and the count under admission, the map moved out, each entry dealt with in any order, the bump and the notification |
| IoStopCalls.StopAgrees | src/tokio_io_executor_service.rs:270-280 | that run has the effect of the method on lifecycle, count, generation and waiters |
| IoStopCalls.StopReports | src/tokio_io_executor_service.rs:270-280 | it aborts the listed tasks that Tokio still knows and no others, and reports the count with their number |
| IoTask.StepMoves | src/tokio_io_service_task_guard.rs:38-46 | every step of submitter, runtime, guard and abort keeps the invariant of its task; only the decrement frees a slot, and only after the future is gone |
| IoTaskSteps.DecrementNeverWraps | src/tokio_io_service_task_guard.rs:42 | the atomic count is positive at every decrement |
| IoRuns.InvIsInductive | src/tokio_io_executor_service_state.rs:117-251 | the invariant of the IO service survives every step of every party |
| IoTermination.LiveFuturesFitInCapacity | src/internal/tokio_guarded_io_future.rs:26-31 | live accepted futures are at most the active count, which is the number of occupied slots and at most the capacity |
| IoTermination.CountNeverWraps | src/tokio_io_service_task_guard.rs:38-46 | no decrement of any run wraps, and it follows the destruction of its future |
| IoTermination.AdmissionVerdictsAreExact | src/tokio_io_executor_service_state.rs:132-138 | a thread is rejected as saturated exactly when the service is full, and room found in a separate read is still there at the increment |
| IoTermination.SlotIsReleasedExactlyOnce | src/tokio_io_service_task_guard.rs:38-46 | on completion, abort, failed hand-off and closed runtime a slot is released exactly once |
| IoTermination.TerminationIsFinal | src/tokio_io_executor_service_state.rs:201-208 | from a terminated state on nothing is accepted, no accepted future is alive and the map is empty |
| IoTermination.LifecycleIsLinearizable | src/tokio_io_executor_service_state.rs:201-208 | a Terminated answer means that the service is terminated at the count read; every other answer is the lifecycle stored at the load, when the service was not terminated |
| IoTermination.ObserversAgree | src/tokio_io_executor_service_state.rs:201-208 | observers that do not overlap never see the lifecycle go backwards |
| IoTermination.ParkedWaitersAreOwed | src/tokio_io_executor_service_state.rs:240-251 | a parked await_termination faces a service that is not terminated, or a closer or guard still owes its notification |
| IoTermination.WaitersReturnOnlyAtTermination | src/tokio_io_executor_service_state.rs:240-251 | await_termination returns only from a service that is terminated from then on, with no accepted future alive |
| IoTermination.ParkedRetriersAreOwed | src/tokio_io_executor_service_state.rs:92-120 | a retrier parked after Saturated faces a running, full service, or a generation bump is owed |
| IoAwait.NoLostNotification | src/tokio_io_executor_service_state.rs:231-234 | a service that becomes terminated owes the notification until it fires |
| IoAwait.ObserveLifecycle | src/tokio_io_executor_service_state.rs:201-208 | two reads at two moments answer Terminated only for a service that is terminated now, and always for one that was terminated at the call; any other answer was the stored lifecycle of an unterminated service at some moment of the call |
| IoAwait.AwaitTermination | src/tokio_io_executor_service_state.rs:240-251 | returns only from a service that stays terminated, with no accepted future alive; if it is still pending when the world stops, the service is not terminated or the notification is owed |
| IoStop.MapIsKeyedByIdentity | src/tokio_io_executor_service_state/internal/tracked_abort_handle.rs:15-20 | under address reuse the map holds exactly the listed tasks, never more than the active count, and none at zero |
| IoStop.OtherEntriesAreFewer | src/tokio_io_service_task_guard.rs:38-46 | beside an occupied slot there are fewer entries of other tasks than active futures |
| IoStop.FreedAddressesAreReused | src/tokio_task_registration.rs:58-60 | the reuse is real: an address is free for the next marker as soon as no guard and no entry refers to the old one |
| IoStop.MapUpdatesAreOwn | src/tokio_io_executor_service_state.rs:150-172 | insertions never overwrite and removals touch only their own entry |
| IoStop.CancelledIsAtMostRunning | src/tokio_io_executor_service.rs:270-280 | every report has cancelled at most running |
| IoStop.NoFutureIsCountedTwice | src/tokio_io_executor_service_state.rs:179-189 | no future is counted by two stop calls of a run |
| IoStop.StopReachesEveryFuture | src/tokio_io_executor_service.rs:270-280 | once a stop has returned and no other is sweeping, every live accepted future belongs to a Tokio task that is aborted or gone |
| IoSettles.SettlingIsBounded | src/tokio_io_executor_service.rs:254-280 | in a closed service every step of a future, closer, waiter, retrier or submitter that has arrived, user aborts excepted, shrinks one measure, so that many steps at most are left in any order |
| IoProgress.RestMeansEverybodyReturned | src/tokio_io_executor_service.rs:254-280 | deadlock freedom: with no due step left, a closed service is terminated, no future is alive, admission is free, every closer has reported, every waiter and every submission returned and no retrier is parked |
| IoProgress.EverybodyReturnsInBoundedSteps | src/tokio_io_executor_service.rs:254-280 | that rest is reached, whatever the order of the steps, after at most as many of them as the measure says |
| IoReentrancy.CallerCodeRunsUnlocked | src/tokio_io_executor_service.rs:191-280 | no thread, be it a submitter, closer, runtime thread, aborting thread or future, owns admission in a step that may run wakers, polls, destructors or aborts |

## Left out

- BlockingProgress.EverybodyReturnsInBoundedSteps: bounds the number of steps, not their time, and speaks of runs in which no new submission, closer or waiter arrives and no synchronous waiter wakes spuriously; that bodies end and that due steps are eventually taken is not stated.
- IoProgress.EverybodyReturnsInBoundedSteps: the same, and a user may abort a task any number of times.
- BlockingStop.StopCutsOff: claims nothing while another stop is between storing its lifecycle and leaving its abort loop, because that stop may still hold the entry.
- BlockingStop.CancelledIsAtMostQueued: the two numbers need not be equal, because the runtime may drop a closure between its abort and its hook.
- BlockingReentrancy.CallerCodeRunsUnlocked: does not cover the abort-handle lock, under which a removed entry is dropped (src/tokio_executor_service_state.rs:218).
- IoReentrancy.CallerCodeRunsUnlocked: does not cover the abort-handle lock either (src/tokio_io_executor_service_state.rs:171).
- IoStop.StopReachesEveryFuture: an aborted future may still be polled once, because an abort races with a poll in progress.
- BlockingTermination.ParkedRetriersAreOwed: the generation of the transition systems grows without bound; the wrap-around of the stored 64-bit counter is modelled in `BlockingState` and `IoState` only.
- Acquire and release orderings: every atomic access is sequentially consistent.
- Panics and unwinding: a body that panics ends like one that returns.
- `stats()`: samples lifecycle and counts at adjacent moments and is documented as best-effort (src/tokio_executor_service_stats.rs:14-15).
- The moment a cancelled result becomes visible: a stop's hook finishes the accounting before it cancels the slot (src/tokio_task_slot_cancellation.rs:83-85).
- `wait_termination` as a method: a synchronous waiter is a program counter of the transition system, because its loop is inside the monitor library.
- The abort of a queued closure as a reason for Tokio to drop it: the pool may drop any closure that has not started, aborted or not.
- `TokioExecutor`, `TokioTaskHandle`, `RejectedTask` and the statistics structs: wrappers and plain data.
- AtomicCount and the monitor library are not part of this model: the count is a natural number that wraps below zero, and the proofs show that it never gets there.
