/** The IO service: capacity guard, guarded future, hand-off, submission, shutdown and stop. */
module IoService {
  import opened Lifecycles
  import opened Registrations
  import opened Submissions
  import opened IoState
  import opened Selections

  datatype Poll<T> = Pending | Ready(value: T)

  /** How a failure of the user future reaches the caller. */
  datatype TaskExecutionError<E> = Failed(error: E)

  /** A user future: it is pending for some polls, then ready, and alive until its destructor has completed. */
  class UserFuture<R, E> {
    const outcome: Result<R, E>
    var pending: nat
    var alive: bool

    constructor (outcome: Result<R, E>, pending: nat)
      ensures this.outcome == outcome && this.pending == pending && alive
    {
      this.outcome, this.pending, alive := outcome, pending, true;
    }

    method PollOnce() returns (p: Poll<Result<R, E>>)
      requires alive
      modifies this`pending
      ensures p == if old(pending) == 0 then Ready(outcome) else Pending
      ensures pending == if old(pending) == 0 then 0 else old(pending) - 1
    {
      if pending == 0 {
        p := Ready(outcome);
      } else {
        pending := pending - 1;
        p := Pending;
      }
    }

    /** The destructor, as the service it was submitted to would see it. */
    method Destroy(ghost state: ServiceState)
      requires alive
      modifies this`alive, state`trail
      ensures !alive && state.trail == old(state.trail) + [Moment(FutureDestroyed, |state.handles|, state.active)]
    {
      alive := false;
      state.trail := state.trail + [Moment(FutureDestroyed, |state.handles|, state.active)];
    }
  }

  /** The guard occupies one slot of the active count until it is dropped. */
  class ServiceTaskGuard<R, E> {
    const state: ServiceState
    const marker: TaskRegistration
    ghost const future: UserFuture<R, E>

    constructor (state: ServiceState, marker: TaskRegistration, ghost future: UserFuture<R, E>)
      ensures this.state == state && this.marker == marker && this.future == future
    {
      this.state, this.marker, this.future := state, marker, future;
    }

    /** The slot is given back only when the future that it stands for is gone, and told to others after that.  The
        entry goes before the slot, so if the other entries belong to other slots, nobody ever sees more entries than
        active futures. */
    method Drop()
      requires state.Valid() && state.active > 0 && !future.alive
      modifies state`handles, state`active, state`generation, state`wakes, state`trail, marker
      ensures state.Valid() && state.Look() == AfterRelease(old(state.Look()))
      ensures marker.finished && state.handles == old(state.handles) - {marker.Key()}
      ensures state.active == old(state.active) - 1 && state.wakes == old(state.wakes) + 1
      ensures state.generation ==
              if old(state.generation) + 1 < 0x1_0000_0000_0000_0000 then old(state.generation) + 1 else 0
      ensures state.trail == old(state.trail) + [Moment(Unlisted, |state.handles|, old(state.active)),
                                                 Moment(Decremented, |state.handles|, state.active),
                                                 Moment(Bumped, |state.handles|, state.active),
                                                 Moment(Notified, |state.handles|, state.active)]
      ensures |state.handles| < old(state.active) ==>
                forall k :: |old(state.trail)| <= k < |state.trail| ==> state.trail[k].listed <= state.trail[k].active
    {
      state.RemoveAbortHandle(marker);
      state.ReleaseSlot();
      state.NotifyCapacityChanged();
      state.NotifyTerminationWaiters();
    }
  }

  /** The user future together with its guard; the field order makes the future go first. */
  class GuardedIoFuture<R, E> {
    const future: UserFuture<R, E>
    const guard: ServiceTaskGuard<R, E>

    /** The guard stands for this future and no other. */
    ghost predicate Valid() {
      guard.future == future
    }

    constructor (future: UserFuture<R, E>, guard: ServiceTaskGuard<R, E>)
      requires guard.future == future
      ensures Valid() && this.future == future && this.guard == guard
    {
      this.future, this.guard := future, guard;
    }

    /** Polls the user future in place; only its error is wrapped, and the slot stays occupied. */
    method PollOnce() returns (p: Poll<Result<R, TaskExecutionError<E>>>)
      requires future.alive
      modifies future`pending
      ensures p.Ready? <==> old(future.pending) == 0
      ensures p.Ready? ==> p.value == match future.outcome { case Ok(r) => Ok(r) case Err(e) => Err(Failed(e)) }
      ensures future.pending == if p.Ready? then 0 else old(future.pending) - 1
      ensures future.alive && guard.state.active == old(guard.state.active)
    {
      var inner := future.PollOnce();
      match inner
      case Pending => p := Pending;
      case Ready(Ok(r)) => p := Ready(Ok(r));
      case Ready(Err(e)) => p := Ready(Err(Failed(e)));
    }

    /** The destructor of the user future has completed before the guard gives anything back. */
    method Drop()
      requires Valid() && future.alive && guard.state.Valid() && guard.state.active > 0
      modifies future`alive, guard.marker
      modifies guard.state`handles, guard.state`active, guard.state`generation, guard.state`wakes, guard.state`trail
      ensures !future.alive && guard.state.Valid() && guard.state.Look() == AfterRelease(old(guard.state.Look()))
      ensures guard.marker.finished && guard.state.handles == old(guard.state.handles) - {guard.marker.Key()}
      ensures guard.state.trail ==
              old(guard.state.trail) + [Moment(FutureDestroyed, old(|guard.state.handles|), old(guard.state.active)),
                                        Moment(Unlisted, |guard.state.handles|, old(guard.state.active)),
                                        Moment(Decremented, |guard.state.handles|, guard.state.active),
                                        Moment(Bumped, |guard.state.handles|, guard.state.active),
                                        Moment(Notified, |guard.state.handles|, guard.state.active)]
      ensures old(|guard.state.handles| <= guard.state.active) && |guard.state.handles| < old(guard.state.active) ==>
                forall k :: |old(guard.state.trail)| <= k < |guard.state.trail| ==>
                  guard.state.trail[k].listed <= guard.state.trail[k].active
    {
      future.Destroy(guard.state);
      guard.Drop();
    }
  }

  /** A registered submission whose user future has not been delivered yet. */
  class SpawnHandoff<R, E> {
    const future: UserFuture<R, E>
    const handle: AbortHandle
    const guard: ServiceTaskGuard<R, E>

    ghost predicate Valid() {
      guard.future == future
    }

    constructor (future: UserFuture<R, E>, handle: AbortHandle, guard: ServiceTaskGuard<R, E>)
      requires guard.future == future
      ensures Valid() && this.future == future && this.handle == handle && this.guard == guard
    {
      this.future, this.handle, this.guard := future, handle, guard;
    }

    /** A failed send gives the payload back, and the submitting thread drops it: future first, then the slot. */
    method Deliver(receiverGone: bool) returns (payload: GuardedIoFuture<R, E>)
      requires Valid() && future.alive && guard.state.Valid() && guard.state.active > 0
      modifies future`alive, guard.marker
      modifies guard.state`handles, guard.state`active, guard.state`generation, guard.state`wakes, guard.state`trail
      ensures fresh(payload) && payload.Valid() && payload.future == future && payload.guard == guard
      ensures guard.state.Valid() && future.alive == !receiverGone
      ensures guard.state.trail ==
              if !receiverGone then old(guard.state.trail)
              else old(guard.state.trail)
                   + DropTrail(old(|guard.state.handles|), |guard.state.handles|, old(guard.state.active))
      ensures guard.state.Look() == if receiverGone then AfterRelease(old(guard.state.Look())) else old(guard.state.Look())
      ensures guard.state.handles ==
              if receiverGone then old(guard.state.handles) - {guard.marker.Key()} else old(guard.state.handles)
      ensures guard.marker.finished == (old(guard.marker.finished) || receiverGone)
    {
      payload := new GuardedIoFuture(future, guard);
      if receiverGone {
        payload.Drop();
      }
    }
  }

  /** What an accepted submission leaves behind. */
  datatype Spawned<R, E> = Spawned(handle: AbortHandle, payload: GuardedIoFuture<R, E>)

  class Service {
    const state: ServiceState

    constructor (capacity: nat)
      requires 0 < capacity <= 0xffff_ffff_ffff_ffff
      ensures fresh(state) && state.Valid() && state.capacity == capacity && !state.admissionHeld
      ensures state.Look() == View(Running, 0, 0, 0) && state.handles == map[]
    {
      state := new ServiceState(capacity);
    }

    /** Registers a receiver-only task under admission, which every path releases; the user future is not touched. */
    method PrepareSpawn<R, E>(address: nat, future: UserFuture<R, E>, runtimeClosed: bool)
      returns (prepared: Result<SpawnHandoff<R, E>, SubmissionError>)
      requires state.Valid() && !state.admissionHeld && address !in state.handles
      modifies state`admissionHeld, state`active, state`handles
      ensures state.Valid() && !state.admissionHeld
      ensures prepared == Err(Shutdown) <==> !old(state.Look()).life.Running?
      ensures prepared == Err(Saturated) <==> old(state.Look()).life.Running? && old(state.active) >= state.capacity
      ensures prepared.Ok? <==> old(state.lifecycle.Stored()) == Running && old(state.active) < state.capacity
      ensures prepared.Err? ==> state.Look() == old(state.Look()) && state.handles == old(state.handles)
      ensures prepared.Ok? ==>
                && fresh(prepared.value) && fresh(prepared.value.guard) && fresh(prepared.value.guard.marker)
                && fresh(prepared.value.handle) && prepared.value.handle.gone == runtimeClosed && !prepared.value.handle.aborted
                && prepared.value.Valid() && prepared.value.future == future && prepared.value.guard.state == state
                && prepared.value.guard.marker.Key() == address && !prepared.value.guard.marker.finished
                && state.Look() == old(state.Look()).(active := old(state.active) + 1) && state.active <= state.capacity
                && state.handles == if runtimeClosed then old(state.handles)
                   else old(state.handles)[address :=
                          TrackedAbortHandle(prepared.value.guard.marker, prepared.value.handle)]
    {
      state.LockSubmission();
      var notRunning := state.IsNotRunning();
      if notRunning {
        state.UnlockSubmission();
        return Err(Shutdown);
      }
      var accepted := state.TryAcceptTask();
      if !accepted {
        state.UnlockSubmission();
        return Err(Saturated);
      }
      var marker := new TaskRegistration(address);
      var guard := new ServiceTaskGuard(state, marker, future);
      var handle := new AbortHandle(runtimeClosed);
      state.RegisterAbortHandle(marker, handle);
      state.UnlockSubmission();
      var handoff := new SpawnHandoff(future, handle, guard);
      prepared := Ok(handoff);
    }

    /** A submission that no other thread interrupts.  A rejected future is returned alive and unpolled; an accepted
        one occupies a slot, unless the closed runtime makes the hand-off fail, which destroys it and then gives the
        slot back. */
    method TrySpawn<R, E>(address: nat, future: UserFuture<R, E>, runtimeClosed: bool)
      returns (r: Result<Spawned<R, E>, SubmissionError>)
      requires state.Valid() && !state.admissionHeld && address !in state.handles && future.alive
      modifies state, future`alive
      ensures state.Valid() && !state.admissionHeld
      ensures r == Err(Shutdown) <==> !old(state.Look()).life.Running?
      ensures r == Err(Saturated) <==> old(state.Look()).life.Running? && old(state.active) >= state.capacity
      ensures r.Ok? <==> old(state.lifecycle.Stored()) == Running && old(state.active) < state.capacity
      ensures future.alive <==> r.Err? || !runtimeClosed
      ensures r.Err? ==>
                state.Look() == old(state.Look()) && state.handles == old(state.handles) && state.trail == old(state.trail)
      ensures r.Ok? && !runtimeClosed ==>
                && state.Look() == old(state.Look()).(active := old(state.active) + 1)
                && state.handles ==
                   old(state.handles)[address := TrackedAbortHandle(r.value.payload.guard.marker, r.value.handle)]
                && state.trail == old(state.trail)
      ensures r.Ok? ==>
                && r.value.payload.Valid() && r.value.payload.future == future && r.value.payload.guard.state == state
                && fresh(r.value.payload) && fresh(r.value.payload.guard) && fresh(r.value.payload.guard.marker)
                && fresh(r.value.handle) && r.value.handle.gone == runtimeClosed && !r.value.handle.aborted
                && r.value.payload.guard.marker.Key() == address && r.value.payload.guard.marker.finished == runtimeClosed
      ensures r.Ok? && runtimeClosed ==>
                && state.Look() == AfterNotify(AfterBump(old(state.Look()))) && state.handles == old(state.handles)
                && state.trail == old(state.trail) + DropTrail(|state.handles|, |state.handles|, state.active + 1)
    {
      hide AfterBump, AfterNotify, AfterRelease;
      DropsUndoAcceptance(state.Look());
      var prepared := PrepareSpawn(address, future, runtimeClosed);
      match prepared
      case Err(error) => r := Err(error);
      case Ok(handoff) =>
        var payload := handoff.Deliver(runtimeClosed);
        r := Ok(Spawned(handoff.handle, payload));
    }

    /** A submission whose future the runtime destroys at once, or that the closed runtime hands back: either way the
        future is gone, its slot and its entry are given back, and everybody is told. */
    method SpawnAndDrop<R, E>(address: nat, future: UserFuture<R, E>, runtimeClosed: bool)
      returns (r: Result<Spawned<R, E>, SubmissionError>)
      requires state.Valid() && !state.admissionHeld && address !in state.handles && future.alive
      modifies state, future`alive
      ensures state.Valid() && !state.admissionHeld && state.handles == old(state.handles)
      ensures state.active == old(state.active) && state.lifecycle.Stored() == old(state.lifecycle.Stored())
      ensures r.Ok? <==> old(state.lifecycle.Stored()) == Running && old(state.active) < state.capacity
      ensures future.alive == r.Err?
      ensures state.wakes == old(state.wakes) + if r.Ok? then 1 else 0
      ensures state.generation ==
              if r.Err? then old(state.generation)
              else if old(state.generation) + 1 < 0x1_0000_0000_0000_0000 then old(state.generation) + 1 else 0
    {
      r := TrySpawn(address, future, runtimeClosed);
      if r.Ok? && !runtimeClosed {
        r.value.payload.Drop();
      }
    }

    method ShutDown()
      requires state.Valid() && !state.admissionHeld
      modifies state, state.lifecycle
      ensures state.Valid() && !state.admissionHeld && state.handles == old(state.handles)
      ensures state.Look() == AfterNotify(AfterBump(old(state.Look()).(life := ShutdownOf(old(state.Look()).life))))
      ensures state.lifecycle.Stored() ==
              if old(state.lifecycle.Stored()) == Running then ShuttingDown else old(state.lifecycle.Stored())
      ensures state.trail ==
              old(state.trail) + [Moment(Bumped, |state.handles|, state.active),
                                  Moment(Notified, |state.handles|, state.active)]
      ensures state.wakes == old(state.wakes) + 1
      ensures state.generation ==
              if old(state.generation) + 1 < 0x1_0000_0000_0000_0000 then old(state.generation) + 1 else 0
    {
      state.LockSubmission();
      state.lifecycle.Shutdown();
      state.UnlockSubmission();
      state.NotifyCapacityChanged();
      state.NotifyTerminationWaiters();
    }

    /** A stop that nobody interrupts aborts exactly the tasks that Tokio still knows; as the map never holds more
        entries than the count, its report never claims more cancellations than active futures. */
    method Stop(ghost known: set<nat>) returns (report: StopReport)
      requires state.Valid() && !state.admissionHeld && |state.handles| <= state.active
      requires forall a, b :: a in state.handles && b in state.handles && a != b ==>
                 state.handles[a].handle != state.handles[b].handle
      requires known == set a | a in state.handles && !state.handles[a].handle.gone
      modifies state, state.lifecycle
      modifies (set a | a in state.handles :: state.handles[a].handle)`aborted
      ensures state.Valid() && !state.admissionHeld && state.handles == map[]
      ensures state.Look() == AfterNotify(AfterBump(old(state.Look()).(life := Stopping)))
      ensures state.lifecycle.Stored() == Stopping && state.active == old(state.active)
      ensures report == StopReport(0, old(state.active), |known|) && report.cancelled <= report.running
      ensures forall a :: a in old(state.handles) ==>
                old(state.handles)[a].handle.aborted == (a in known || old(state.handles[a].handle.aborted))
      ensures state.trail ==
              old(state.trail) + [Moment(Bumped, |state.handles|, state.active),
                                  Moment(Notified, |state.handles|, state.active)]
      ensures state.wakes == old(state.wakes) + 1
      ensures state.generation ==
              if old(state.generation) + 1 < 0x1_0000_0000_0000_0000 then old(state.generation) + 1 else 0
    {
      SubsetIsNoLarger(known, state.handles.Keys);
      state.LockSubmission();
      state.lifecycle.Stop();
      var running := state.active;
      state.UnlockSubmission();
      var cancelled := state.AbortTrackedTasks(known);
      state.NotifyCapacityChanged();
      state.NotifyTerminationWaiters();
      report := StopReport(0, running, cancelled);
    }
  }

  lemma DropsUndoAcceptance(v: View)
    ensures AfterRelease(v.(active := v.active + 1)) == AfterNotify(AfterBump(v))
    ensures AfterNotify(AfterBump(v)).active == v.active
  {
  }
}
