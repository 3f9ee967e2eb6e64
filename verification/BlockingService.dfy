/** The blocking service: lifecycle guard, tracked handle, submission, shutdown and stop. */
module BlockingService {
  import opened Lifecycles
  import opened TaskCounts
  import opened BlockingTask
  import opened Registrations
  import opened Submissions
  import opened TaskSlots
  import opened BlockingState

  /** Dropping the guard unlists the task and then releases its accounting. */
  class ServiceTaskGuard {
    const tracker: TaskTracker

    constructor (state: ServiceState, marker: TaskRegistration)
      ensures fresh(tracker) && tracker.state == state && tracker.marker == marker && tracker.cas.CasQueued?
    {
      tracker := new TaskTracker(state, marker);
    }

    method Drop()
      requires tracker.Counted()
      modifies tracker, tracker.marker, tracker.state`handles, tracker.state`generation, tracker.state`syncWakes
      modifies tracker.state`asyncWakes, tracker.state.counters
      ensures tracker.state.Valid() && tracker.cas.CasFinished? && tracker.marker.finished
      ensures tracker.state.counters.queued ==
              old(tracker.state.counters.queued) - if old(tracker.cas).CasQueued? then 1 else 0
      ensures tracker.state.counters.running ==
              old(tracker.state.counters.running) - if old(tracker.cas).CasRunning? then 1 else 0
      ensures tracker.state.handles == old(tracker.state.handles) - {tracker.marker.Key()}
      ensures tracker.state.Look() == AfterRelease(old(tracker.state.Look()), old(tracker.cas))
    {
      tracker.state.RemoveAbortHandle(tracker.marker);
      tracker.Finish();
    }
  }

  /** The handle of a tracked callable. */
  class BlockingTaskHandle {
    const slot: TaskSlotCell
    const tracker: TaskTracker
    const abortHandle: AbortHandle

    constructor (slot: TaskSlotCell, tracker: TaskTracker, abortHandle: AbortHandle)
      ensures this.slot == slot && this.tracker == tracker && this.abortHandle == abortHandle
    {
      this.slot, this.tracker, this.abortHandle := slot, tracker, abortHandle;
    }

    /** Only a cancellation that wins the pending result touches the accounting, and only then Tokio is asked. */
    method Cancel() returns (cancelled: bool)
      requires tracker.CountedIfQueued()
      modifies slot`endpoint, tracker, tracker.marker, tracker.state`handles, tracker.state`generation
      modifies tracker.state`syncWakes, tracker.state`asyncWakes, tracker.state.counters, abortHandle`aborted
      ensures tracker.state.Valid() && (cancelled <==> old(slot.endpoint).EndpointPending?)
      ensures slot.endpoint == if cancelled then EndpointCancelled else old(slot.endpoint)
      ensures tracker.cas == if cancelled then AfterFinishQueued(old(tracker.cas)) else old(tracker.cas)
      ensures tracker.state.Look() ==
              if cancelled && old(tracker.cas).CasQueued? then AfterFinish(old(tracker.state.Look()), false)
              else old(tracker.state.Look())
      ensures tracker.state.handles ==
              if cancelled then old(tracker.state.handles) - {tracker.marker.Key()} else old(tracker.state.handles)
      ensures tracker.marker.finished == (old(tracker.marker.finished) || cancelled)
      ensures abortHandle.aborted == (old(abortHandle.aborted) || cancelled)
    {
      cancelled := slot.Cancel();
      if cancelled {
        var _ := tracker.CancelQueued();
        abortHandle.Abort();
      }
    }
  }

  /** What an accepted submission leaves behind: the pool holds the closure, or the submitter has dropped it. */
  datatype Submission = Submission(
    marker: TaskRegistration, guard: ServiceTaskGuard, handle: AbortHandle, delivered: bool)

  class Service {
    const state: ServiceState

    constructor (capacity: nat)
      requires 0 < capacity <= 0xffff_ffff_ffff_ffff
      ensures fresh(state) && state.Valid() && state.capacity == capacity && !state.admissionHeld
      ensures state.Look() == View(Running, Counts(0, 0), 0, 0, 0) && state.handles == map[]
    {
      state := new ServiceState(capacity);
    }

    /** Shutdown is checked before capacity; admission stays held exactly when the submission is accepted. */
    method PrepareBlockingSubmission(address: nat) returns (prepared: Result<ServiceTaskGuard, SubmissionError>)
      requires state.Valid() && !state.admissionHeld
      modifies state`admissionHeld, state.counters
      ensures state.Valid() && state.admissionHeld == prepared.Ok?
      ensures prepared == Err(Shutdown) <==> !old(state.Look()).life.Running?
      ensures prepared == Err(Saturated) <==>
                old(state.Look()).life.Running? && old(state.counters.queued + state.counters.running) >= state.capacity
      ensures prepared.Ok? <==>
                && old(state.lifecycle.Stored()) == Running
                && old(state.counters.queued + state.counters.running) < state.capacity
      ensures prepared.Err? ==> state.Look() == old(state.Look())
      ensures prepared.Ok? ==>
                && fresh(prepared.value) && fresh(prepared.value.tracker) && fresh(prepared.value.tracker.marker)
                && prepared.value.tracker.state == state && prepared.value.tracker.cas.CasQueued?
                && prepared.value.tracker.marker.Key() == address && !prepared.value.tracker.marker.finished
                && state.Look() == old(state.Look()).(counts := old(state.Look()).counts.Accept())
                && state.counters.queued == old(state.counters.queued) + 1
                && state.counters.running == old(state.counters.running)
                && state.counters.queued + state.counters.running <= state.capacity
    {
      state.LockSubmission();
      var notRunning := state.IsNotRunning();
      if notRunning {
        state.UnlockSubmission();
        return Err(Shutdown);
      }
      var accepted := state.TryAcceptTask();
      if !accepted {
        state.UnlockSubmission();
        return Err(Saturated);
      }
      var marker := new TaskRegistration(address);
      var guard := new ServiceTaskGuard(state, marker);
      prepared := Ok(guard);
    }

    /** The closure and its hook are registered under admission, which is released before the hand-off.  A closed
        runtime drops the closure at once, and then nothing is listed. */
    method SpawnAcceptedBlockingTask(guard: ServiceTaskGuard, slot: TaskSlotCell?, runtimeClosed: bool)
      returns (handle: AbortHandle)
      requires state.admissionHeld && guard.tracker.state == state
      requires !guard.tracker.marker.finished && guard.tracker.marker.Key() !in state.handles
      modifies state`handles, state`admissionHeld
      ensures fresh(handle) && handle.gone == runtimeClosed && !handle.aborted && !state.admissionHeld
      ensures state.handles ==
              if runtimeClosed then old(state.handles)
              else old(state.handles)[guard.tracker.marker.Key() :=
                     TrackedAbortHandle(guard.tracker.marker, handle, Hook(guard.tracker, slot))]
    {
      handle := new AbortHandle(runtimeClosed);
      state.RegisterAbortHandle(guard.tracker.marker, handle, Hook(guard.tracker, slot));
      state.UnlockSubmission();
    }

    /** A submission that no other thread interrupts.  A rejected one changes nothing.  An accepted one is listed
        and delivered; on a closed runtime the failed send drops the payload and with it gives the slot back. */
    method TrySubmit(address: nat, slot: TaskSlotCell?, runtimeClosed: bool)
      returns (r: Result<Submission, SubmissionError>)
      requires state.Valid() && !state.admissionHeld && address !in state.handles
      modifies state
      modifies state.counters
      ensures state.Valid() && !state.admissionHeld
      ensures r == Err(Shutdown) <==> !old(state.Look()).life.Running?
      ensures r == Err(Saturated) <==>
                old(state.Look()).life.Running? && old(state.counters.queued + state.counters.running) >= state.capacity
      ensures r.Ok? <==>
                && old(state.lifecycle.Stored()) == Running
                && old(state.counters.queued + state.counters.running) < state.capacity
      ensures r.Err? ==> state.Look() == old(state.Look()) && state.handles == old(state.handles)
      ensures r.Ok? ==>
                && r.value.delivered == !runtimeClosed && r.value.marker.Key() == address
                && r.value.guard.tracker.state == state && r.value.guard.tracker.marker == r.value.marker
                && !r.value.handle.aborted && r.value.handle.gone == runtimeClosed && r.value.marker.finished == runtimeClosed
                && fresh(r.value.handle) && fresh(r.value.guard) && fresh(r.value.guard.tracker) && fresh(r.value.marker)
      ensures r.Ok? && !runtimeClosed ==>
                && state.Look() == old(state.Look()).(counts := old(state.Look()).counts.Accept())
                && state.handles == old(state.handles)[address :=
                     TrackedAbortHandle(r.value.marker, r.value.handle, Hook(r.value.guard.tracker, slot))]
                && r.value.guard.tracker.cas.CasQueued?
                && state.counters.queued == old(state.counters.queued) + 1
      ensures r.Ok? && runtimeClosed ==>
                && state.Look() == AfterBump(old(state.Look())) && state.handles == old(state.handles)
                && state.counters.queued == old(state.counters.queued) && state.generation != old(state.generation)
                && r.value.guard.tracker.cas.CasFinished?
    {
      var prepared := PrepareBlockingSubmission(address);
      match prepared
      case Err(error) => r := Err(error);
      case Ok(guard) =>
        var handle := SpawnAcceptedBlockingTask(guard, slot, runtimeClosed);
        if runtimeClosed {
          // the send fails because the receiver is gone
          guard.Drop();
        }
        r := Ok(Submission(guard.tracker.marker, guard, handle, !runtimeClosed));
    }

    /** The worker's side of a delivered runnable: true if the body ran. */
    method RunDelivered(guard: ServiceTaskGuard, slot: TaskSlotCell?) returns (ran: bool)
      requires guard.tracker.state == state && guard.tracker.Counted()
      modifies guard.tracker, guard.tracker.marker, state`handles, state`generation, state`syncWakes, state`asyncWakes
      modifies state.counters, slot
      ensures state.Valid() && guard.tracker.cas.CasFinished? && guard.tracker.marker.finished
      ensures ran <==>
                && !old(guard.tracker.cas).CasFinished?
                && (slot == null || (old(slot.full) && old(slot.endpoint).EndpointPending?))
      ensures slot != null ==>
                && slot.full == (old(slot.full) && old(guard.tracker.cas).CasFinished?)
                && slot.endpoint == if ran then EndpointDone else old(slot.endpoint)
      ensures state.handles == old(state.handles) - {guard.tracker.marker.Key()}
      ensures state.counters.queued == old(state.counters.queued) - if old(guard.tracker.cas).CasQueued? then 1 else 0
      ensures state.counters.running == old(state.counters.running) - if old(guard.tracker.cas).CasRunning? then 1 else 0
      ensures state.Look() ==
              AfterRelease(AfterMark(old(state.Look()), old(guard.tracker.cas)), AfterStart(old(guard.tracker.cas)))
    {
      ran := false;
      var mayRun := guard.tracker.MarkStarted();
      if mayRun {
        if slot == null {
          ran := true;
        } else {
          ran := slot.RunTask();
        }
      }
      guard.Drop();
    }

    /** A submission that the pool runs at once, or that the closed runtime hands back: either way the service ends as
        it began, with its map and its counts, and retriers are told. */
    method SubmitAndRun(address: nat, slot: TaskSlotCell?, runtimeClosed: bool)
      returns (r: Result<Submission, SubmissionError>, ran: bool)
      requires state.Valid() && !state.admissionHeld && address !in state.handles
      modifies state, state.counters, slot
      ensures state.Valid() && !state.admissionHeld && state.handles == old(state.handles)
      ensures state.counters.queued == old(state.counters.queued) && state.counters.running == old(state.counters.running)
      ensures state.Look() == if r.Ok? then AfterBump(old(state.Look())) else old(state.Look())
      ensures r.Ok? <==>
                && old(state.lifecycle.Stored()) == Running
                && old(state.counters.queued + state.counters.running) < state.capacity
      ensures ran <==>
                r.Ok? && !runtimeClosed && (slot == null || (old(slot.full) && old(slot.endpoint).EndpointPending?))
      ensures slot != null ==>
                && slot.full == (old(slot.full) && (r.Err? || runtimeClosed))
                && slot.endpoint == if ran then EndpointDone else old(slot.endpoint)
    {
      r := TrySubmit(address, slot, runtimeClosed);
      ran := false;
      if r.Ok? && !runtimeClosed {
        ran := RunDelivered(r.value.guard, slot);
      }
    }

    /** Retriers and, if the service is over, termination waiters learn that the lifecycle has changed. */
    method Announce()
      requires state.Valid()
      modifies state`generation, state`syncWakes, state`asyncWakes
      ensures state.Valid() && state.Look() == AfterNotify(AfterBump(old(state.Look())))
      ensures state.generation ==
              if old(state.generation) + 1 < 0x1_0000_0000_0000_0000 then old(state.generation) + 1 else 0
      ensures var over := state.lifecycle.Stored() != Running && state.counters.queued == 0 && state.counters.running == 0;
              && state.syncWakes == old(state.syncWakes) + (if over then 1 else 0)
              && state.asyncWakes == old(state.asyncWakes) + if over then 1 else 0
    {
      state.NotifyCapacityChanged();
      state.NotifyIfTerminated();
    }

    /** Closing the service publishes the lifecycle under admission and notifies after releasing it. */
    method ShutDown()
      requires state.Valid() && !state.admissionHeld
      modifies state, state.lifecycle
      ensures state.Valid() && !state.admissionHeld && state.handles == old(state.handles)
      ensures state.Look() == AfterNotify(AfterBump(old(state.Look()).(life := ShutdownOf(old(state.Look()).life))))
      ensures state.lifecycle.Stored() ==
              if old(state.lifecycle.Stored()) == Running then ShuttingDown else old(state.lifecycle.Stored())
      ensures state.generation ==
              if old(state.generation) + 1 < 0x1_0000_0000_0000_0000 then old(state.generation) + 1 else 0
      ensures var over := state.counters.queued == 0 && state.counters.running == 0;
              && state.syncWakes == old(state.syncWakes) + (if over then 1 else 0)
              && state.asyncWakes == old(state.asyncWakes) + if over then 1 else 0
    {
      state.LockSubmission();
      state.lifecycle.Shutdown();
      state.UnlockSubmission();
      Announce();
    }

    /** Under admission the lifecycle is stored and the counts are read. */
    method PublishStop() returns (queued: nat, running: nat)
      requires state.Valid() && !state.admissionHeld
      modifies state`admissionHeld, state.lifecycle
      ensures state.Valid() && !state.admissionHeld
      ensures state.Look() == old(state.Look()).(life := Stopping)
      ensures Counts(queued, running) == old(state.Look()).counts
    {
      state.LockSubmission();
      state.lifecycle.Stop();
      queued, running := state.TaskCountSnapshot();
      state.UnlockSubmission();
    }

    /** A stop without its announcement. */
    method CloseAndAbort(ghost hit: set<nat>) returns (report: StopReport)
      requires state.Valid() && !state.admissionHeld && AreOwn(state.handles, state)
      requires hit <= state.handles.Keys && |hit| <= state.counters.queued
      requires forall a :: a in state.handles ==> (a in hit <==> IsHit(LookAt(state.handles[a])))
      modifies state, state.lifecycle, state.counters
      modifies (set a | a in state.handles :: state.handles[a].handle)`aborted
      modifies set a | a in state.handles :: state.handles[a].cancel.tracker
      modifies set a | a in state.handles && state.handles[a].cancel.slot != null :: state.handles[a].cancel.slot
      ensures state.Valid() && !state.admissionHeld && state.handles == map[]
      ensures state.Look() == AfterCancels(old(state.Look()).(life := Stopping), |hit|)
      ensures report == StopReport(old(state.counters.queued), old(state.counters.running), |hit|)
      ensures forall a :: a in old(state.handles) ==>
                LookAt(old(state.handles)[a]) == AfterAbort(old(LookAt(state.handles[a])))
    {
      hide AreOwn, AfterFinish, AfterCancels, LookAt, AfterAbort, IsHit, WasAborted;
      var queued, running := PublishStop();
      var cancelled := state.AbortTrackedTasks(hit);
      report := StopReport(queued, running, cancelled);
    }

    /** A stop that nobody interrupts cancels exactly the queued tasks that Tokio still knows; its report never
        claims more cancellations than tasks were queued. */
    method Stop(ghost hit: set<nat>) returns (report: StopReport)
      requires state.Valid() && !state.admissionHeld && AreOwn(state.handles, state)
      requires hit <= state.handles.Keys && |hit| <= state.counters.queued
      requires forall a :: a in state.handles ==> (a in hit <==> IsHit(LookAt(state.handles[a])))
      modifies state, state.lifecycle, state.counters
      modifies (set a | a in state.handles :: state.handles[a].handle)`aborted
      modifies set a | a in state.handles :: state.handles[a].cancel.tracker
      modifies set a | a in state.handles && state.handles[a].cancel.slot != null :: state.handles[a].cancel.slot
      ensures state.Valid() && !state.admissionHeld && state.handles == map[]
      ensures state.Look() == AfterStop(old(state.Look()).(life := Stopping), |hit|)
      ensures report == StopReport(old(state.counters.queued), old(state.counters.running), |hit|)
      ensures report.cancelled <= report.queued && state.lifecycle.Stored() == Stopping
      ensures state.counters.queued == report.queued - report.cancelled && state.counters.running == report.running
      ensures state.generation == (old(state.generation) + report.cancelled + 1) % 0x1_0000_0000_0000_0000
      ensures var over := state.counters.queued == 0 && state.counters.running == 0;
              var told := if !over then 0 else if report.cancelled == 0 then 1 else 2;
              && state.syncWakes == old(state.syncWakes) + told && state.asyncWakes == old(state.asyncWakes) + told
      ensures forall a :: a in old(state.handles) ==>
                LookAt(old(state.handles)[a]) == AfterAbort(old(LookAt(state.handles[a])))
      ensures forall a :: a in old(state.handles) ==> WasAborted(old(state.handles)[a])
    {
      hide AreOwn, AfterFinish, AfterCancels, AfterBump, AfterNotify, LookAt, AfterAbort, IsHit, WasAborted;
      ghost var entries := state.handles;
      ghost var before := state.Look();
      report := CloseAndAbort(hit);
      StopMeans(before.(life := Stopping), report.cancelled);
      Announce();
      forall a | a in entries
        ensures WasAborted(entries[a])
      {
        AbortsAreExact(entries[a]);
      }
    }
  }

  /** The sum of n cancellations, one bump and one conditional notification. */
  function AfterStop(v: View, n: nat): View {
    AfterNotify(AfterBump(AfterCancels(v, n)))
  }

  lemma StopMeans(v: View, n: nat)
    requires n <= v.counts.queued && v.generation < GENERATIONS && !v.life.Running?
    ensures var told := if v.counts != Counts(n, 0) then 0 else if n == 0 then 1 else 2;
            AfterStop(v, n) ==
              View(v.life, Counts(v.counts.queued - n, v.counts.running), (v.generation + n + 1) % 0x1_0000_0000_0000_0000,
                   v.syncWakes + told, v.asyncWakes + told)
  {
    CancelsAreCounted(v, n);
    CancelsAreTold(v, n);
    NextOfRemainder(v.generation + n);
  }
}
