/** The shared state of the IO service, as its methods update it without interruption. */
module IoState {
  import opened Lifecycles
  import opened Registrations
  import opened Selections
  import opened Submissions

  /** The part of the state that observers, waiters and retriers react to. */
  datatype View = View(life: Lifecycle, active: nat, generation: nat, wakes: nat)

  function AfterBump(v: View): View {
    v.(generation := NextGeneration(v.generation))
  }

  /** Unlike the blocking service, every notification is unconditional. */
  function AfterNotify(v: View): View {
    v.(wakes := v.wakes + 1)
  }

  /** What the drop of a capacity guard makes of the state. */
  function AfterRelease(v: View): View
    requires v.active > 0
  {
    AfterNotify(AfterBump(v.(active := v.active - 1)))
  }

  /** What a dropped future does to the service, in the order in which others can see it. */
  datatype Event = FutureDestroyed | Unlisted | Decremented | Bumped | Notified

  /** An event, with the number of entries and the active count as others see them right after it. */
  datatype Moment = Moment(event: Event, listed: nat, active: nat)

  /** The drop of a guarded future, from `listed` entries to `left` and from `active` futures to one less. */
  function DropTrail(listed: nat, left: nat, active: nat): seq<Moment>
    requires active > 0
  {
    [Moment(FutureDestroyed, listed, active), Moment(Unlisted, left, active), Moment(Decremented, left, active - 1),
     Moment(Bumped, left, active - 1), Moment(Notified, left, active - 1)]
  }

  /** An entry keeps the marker alive, so that its address is not reused while the entry is listed. */
  datatype TrackedAbortHandle = TrackedAbortHandle(marker: TaskRegistration, handle: AbortHandle)

  class ServiceState {
    const lifecycle: LifecycleCell
    const capacity: nat
    var active: nat
    var admissionHeld: bool
    var handles: map<nat, TrackedAbortHandle>
    var generation: nat
    var wakes: nat
    ghost var trail: seq<Moment>

    ghost predicate Valid()
      reads this, lifecycle
    {
      lifecycle.Valid() && 0 < capacity <= USIZE_MAX && generation < GENERATIONS
    }

    ghost function Look(): View
      reads this, lifecycle
    {
      View(lifecycle.Stored(), active, generation, wakes)
    }

    constructor (capacity: nat)
      requires 0 < capacity <= 0xffff_ffff_ffff_ffff
      ensures Valid() && fresh(lifecycle) && this.capacity == capacity
      ensures Look() == View(Running, 0, 0, 0) && handles == map[] && !admissionHeld && trail == []
    {
      lifecycle := new LifecycleCell();
      this.capacity := capacity;
      active, admissionHeld, handles, generation, wakes := 0, false, map[], 0, 0;
      trail := [];
    }

    method LockSubmission()
      requires !admissionHeld
      modifies this`admissionHeld
      ensures admissionHeld
    {
      admissionHeld := true;
    }

    method UnlockSubmission()
      requires admissionHeld
      modifies this`admissionHeld
      ensures !admissionHeld
    {
      admissionHeld := false;
    }

    method IsNotRunning() returns (answer: bool)
      ensures answer <==> !Look().life.Running?
    {
      var life := lifecycle.Load();
      answer := life != Running;
    }

    method NotifyCapacityChanged()
      requires Valid()
      modifies this`generation, this`trail
      ensures Valid() && Look() == AfterBump(old(Look()))
      ensures generation == if old(generation) + 1 < 0x1_0000_0000_0000_0000 then old(generation) + 1 else 0
      ensures trail == old(trail) + [Moment(Bumped, |handles|, active)]
    {
      generation := NextGeneration(generation);
      trail := trail + [Moment(Bumped, |handles|, active)];
    }

    method NotifyTerminationWaiters()
      requires Valid()
      modifies this`wakes, this`trail
      ensures Valid() && Look() == AfterNotify(old(Look())) && wakes == old(wakes) + 1
      ensures trail == old(trail) + [Moment(Notified, |handles|, active)]
    {
      wakes := wakes + 1;
      trail := trail + [Moment(Notified, |handles|, active)];
    }

    /** Accepts exactly below the capacity; only the holder of admission may ask. */
    method TryAcceptTask() returns (accepted: bool)
      requires Valid() && admissionHeld
      modifies this`active
      ensures Valid() && (accepted <==> old(active) < capacity)
      ensures Look() == if accepted then old(Look()).(active := old(active) + 1) else old(Look())
      ensures accepted ==> active <= capacity
    {
      if active >= capacity {
        return false;
      }
      active := active + 1;
      accepted := true;
    }

    /** A finished marker or a finished Tokio task leaves no stale entry; an entry never replaces another. */
    method RegisterAbortHandle(marker: TaskRegistration, handle: AbortHandle)
      requires !marker.finished && !handle.gone ==> marker.Key() !in handles
      modifies this`handles
      ensures handles == if marker.finished || handle.gone then old(handles)
                         else old(handles)[marker.Key() := TrackedAbortHandle(marker, handle)]
    {
      var finished := marker.IsFinished();
      var gone := handle.IsFinished();
      if !finished && !gone {
        handles := handles[marker.Key() := TrackedAbortHandle(marker, handle)];
      }
    }

    method RemoveAbortHandle(marker: TaskRegistration)
      modifies this`handles, this`trail, marker
      ensures marker.finished && handles == old(handles) - {marker.Key()}
      ensures trail == old(trail) + [Moment(Unlisted, |handles|, active)]
    {
      marker.Finish();
      handles := handles - {marker.Key()};
      trail := trail + [Moment(Unlisted, |handles|, active)];
    }

    /** The atomic count wraps around at zero, which a guard that still occupies its slot rules out. */
    method ReleaseSlot()
      requires Valid() && active > 0
      modifies this`active, this`trail
      ensures Valid() && Look() == old(Look()).(active := old(active) - 1)
      ensures trail == old(trail) + [Moment(Decremented, |handles|, active)]
    {
      active := active - 1;
      trail := trail + [Moment(Decremented, |handles|, active)];
    }

    /** The lifecycle that observers see: Terminated exactly for a closed service without accepted futures. */
    method ObserveLifecycle() returns (life: Lifecycle)
      requires Valid()
      ensures life == Derived(Look().life, Look().active == 0)
      ensures life == Terminated <==> lifecycle.Stored() != Running && active == 0
      ensures life != Terminated ==> life == lifecycle.Stored()
    {
      life := lifecycle.Load();
      if life != Running && active == 0 {
        life := Terminated;
      }
    }

    /** Takes the whole map and aborts exactly the tasks that Tokio still knows, `known`. */
    method AbortTrackedTasks(ghost known: set<nat>) returns (count: nat)
      requires forall a, b :: a in handles && b in handles && a != b ==> handles[a].handle != handles[b].handle
      requires known == set a | a in handles && !handles[a].handle.gone
      modifies this`handles
      modifies (set a | a in handles :: handles[a].handle)`aborted
      ensures handles == map[] && count == |known|
      ensures forall a :: a in old(handles) ==>
                old(handles)[a].handle.aborted == (a in known || old(handles[a].handle.aborted))
    {
      hide Handled;
      count := 0;
      var taken := handles;
      handles := map[];
      var rest := taken.Keys;
      HandledAtEnds(known, rest);
      while rest != {}
        invariant rest <= taken.Keys && count == Handled(known, rest) && handles == map[]
        invariant forall a :: a in rest ==> taken[a].handle.aborted == old(taken[a].handle.aborted)
        invariant forall a :: a in taken && a !in rest ==>
                    taken[a].handle.aborted == (a in known || old(taken[a].handle.aborted))
      {
        var a :| a in rest;
        HandledGrows(known, rest, a);
        var gone := taken[a].handle.IsFinished();
        if !gone {
          taken[a].handle.Abort();
          count := count + 1;
        }
        rest := rest - {a};
      }
    }
  }
}
