/** The shared state of the blocking service and the tracker of one task, as their methods update them.

    These methods run without interruption; the steps that other threads can see in between are those of the
    transition system, and BlockingCalls shows that the two agree. */
module BlockingState {
  import opened Lifecycles
  import opened TaskCounts
  import opened BlockingTask
  import opened Registrations
  import opened Selections
  import opened Submissions
  import opened TaskSlots

  function SaturatingAdd(a: nat, b: nat): nat {
    if a + b <= USIZE_MAX then a + b else USIZE_MAX
  }

  // ----- what the methods compute

  /** The part of the state that observers, waiters and retriers react to. */
  datatype View = View(life: Lifecycle, counts: Counts, generation: nat, syncWakes: nat, asyncWakes: nat)

  predicate IsTerminated(v: View) {
    !v.life.Running? && v.counts.IsEmpty()
  }

  function AfterBump(v: View): View {
    v.(generation := NextGeneration(v.generation))
  }

  /** A termination notification wakes synchronous and asynchronous waiters, if there is something to tell. */
  function AfterNotify(v: View): View {
    if IsTerminated(v) then v.(syncWakes := v.syncWakes + 1, asyncWakes := v.asyncWakes + 1) else v
  }

  function AfterFinish(v: View, started: bool): View {
    AfterNotify(AfterBump(v.(counts := v.counts.Finish(started))))
  }

  /** How the worker's compare-exchange moves the accounting of its task. */
  function AfterMark(v: View, cas: Cas): View {
    if cas.CasQueued? then v.(counts := v.counts.Start()) else v
  }

  /** How the tracker's swap releases the accounting of its task. */
  function AfterRelease(v: View, cas: Cas): View {
    match ReleaseOwed(cas)
    case ToWrite(started) => AfterFinish(v, started)
    case _ => v
  }

  predicate CountsTask(c: Counts, cas: Cas) {
    match cas
    case CasQueued => c.queued > 0
    case CasRunning => c.running > 0
    case CasFinished => true
  }

  // ----- the abort map

  /** The cancel hook of an entry: a callable's hook also owns its result slot. */
  datatype Hook = Hook(tracker: TaskTracker, slot: TaskSlotCell?)

  /** An entry keeps the marker alive, so that its address is not reused while the entry is listed. */
  datatype TrackedAbortHandle = TrackedAbortHandle(marker: TaskRegistration, handle: AbortHandle, cancel: Hook)

  class ServiceState {
    const lifecycle: LifecycleCell
    const counters: TaskCounters
    const capacity: nat
    var admissionHeld: bool
    var handles: map<nat, TrackedAbortHandle>
    var generation: nat
    var syncWakes: nat
    var asyncWakes: nat

    ghost predicate Valid()
      reads this, lifecycle
    {
      lifecycle.Valid() && 0 < capacity <= USIZE_MAX && generation < GENERATIONS
    }

    ghost function Look(): View
      reads this, lifecycle, counters
    {
      View(lifecycle.Stored(), counters.View(), generation, syncWakes, asyncWakes)
    }

    constructor (capacity: nat)
      requires 0 < capacity <= 0xffff_ffff_ffff_ffff
      ensures Valid() && fresh(lifecycle) && fresh(counters) && this.capacity == capacity
      ensures Look() == View(Running, Counts(0, 0), 0, 0, 0) && handles == map[] && !admissionHeld
    {
      lifecycle := new LifecycleCell();
      counters := new TaskCounters();
      this.capacity := capacity;
      admissionHeld, handles, generation, syncWakes, asyncWakes := false, map[], 0, 0, 0;
    }

    method LockSubmission()
      requires !admissionHeld
      modifies this`admissionHeld
      ensures admissionHeld
    {
      admissionHeld := true;
    }

    method UnlockSubmission()
      requires admissionHeld
      modifies this`admissionHeld
      ensures !admissionHeld
    {
      admissionHeld := false;
    }

    method IsNotRunning() returns (answer: bool)
      ensures answer <==> !Look().life.Running?
    {
      var life := lifecycle.Load();
      answer := life != Running;
    }

    method NotifyCapacityChanged()
      requires Valid()
      modifies this`generation
      ensures Valid() && Look() == AfterBump(old(Look()))
      ensures generation == if old(generation) + 1 < 0x1_0000_0000_0000_0000 then old(generation) + 1 else 0
    {
      generation := NextGeneration(generation);
    }

    /** The saturating sum never hides free capacity: the verdict is that of the exact sum. */
    method TryAcceptTask() returns (accepted: bool)
      requires Valid() && admissionHeld
      modifies counters
      ensures Valid() && (accepted <==> old(counters.queued + counters.running) < capacity)
      ensures counters.running == old(counters.running)
      ensures counters.queued == old(counters.queued) + if accepted then 1 else 0
      ensures Look() == if accepted then old(Look()).(counts := old(Look()).counts.Accept()) else old(Look())
      ensures accepted ==> counters.queued + counters.running <= capacity
    {
      if SaturatingAdd(counters.queued, counters.running) >= capacity {
        return false;
      }
      counters.AcceptTask();
      accepted := true;
    }

    method MarkTaskStarted()
      requires Valid() && counters.queued > 0
      modifies counters
      ensures Valid() && Look() == old(Look()).(counts := old(Look()).counts.Start())
      ensures counters.queued == old(counters.queued) - 1 && counters.running == old(counters.running) + 1
    {
      counters.MarkStarted();
    }

    method NotifyTerminationWaiters()
      requires Valid()
      modifies this`syncWakes, this`asyncWakes
      ensures Valid() && Look() == old(Look()).(syncWakes := old(syncWakes) + 1, asyncWakes := old(asyncWakes) + 1)
    {
      syncWakes := syncWakes + 1;
      asyncWakes := asyncWakes + 1;
    }

    method FinishTask(started: bool)
      requires Valid() && (if started then counters.running > 0 else counters.queued > 0)
      modifies this`generation, this`syncWakes, this`asyncWakes, counters
      ensures Valid() && Look() == AfterFinish(old(Look()), started)
      ensures counters.queued == old(counters.queued) - if started then 0 else 1
      ensures counters.running == old(counters.running) - if started then 1 else 0
      ensures generation == if old(generation) + 1 < 0x1_0000_0000_0000_0000 then old(generation) + 1 else 0
      ensures var over := lifecycle.Stored() != Running && counters.queued == 0 && counters.running == 0;
              && syncWakes == old(syncWakes) + (if over then 1 else 0)
              && asyncWakes == old(asyncWakes) + if over then 1 else 0
    {
      counters.FinishTask(started);
      var notRunning := IsNotRunning();
      var empty := counters.IsEmpty();
      var terminated := notRunning && empty;
      NotifyCapacityChanged();
      if terminated {
        NotifyTerminationWaiters();
      }
    }

    method NotifyIfTerminated()
      requires Valid()
      modifies this`syncWakes, this`asyncWakes
      ensures Valid() && Look() == AfterNotify(old(Look()))
      ensures var over := lifecycle.Stored() != Running && counters.queued == 0 && counters.running == 0;
              && syncWakes == old(syncWakes) + (if over then 1 else 0)
              && asyncWakes == old(asyncWakes) + if over then 1 else 0
    {
      var notRunning := IsNotRunning();
      var empty := counters.IsEmpty();
      if notRunning && empty {
        NotifyTerminationWaiters();
      }
    }

    method TaskCountSnapshot() returns (queued: nat, running: nat)
      ensures queued == counters.queued && running == counters.running
    {
      queued, running := counters.queued, counters.running;
    }

    /** The lifecycle that observers see: Terminated exactly for a closed service without tasks. */
    method ObserveLifecycle() returns (life: Lifecycle)
      requires Valid()
      ensures life == Derived(Look().life, Look().counts.IsEmpty())
      ensures life == Terminated <==> lifecycle.Stored() != Running && counters.queued == 0 && counters.running == 0
      ensures life != Terminated ==> life == lifecycle.Stored()
    {
      life := lifecycle.Load();
      var empty := counters.IsEmpty();
      if life != Running && empty {
        life := Terminated;
      }
    }

    /** A finished marker or a finished Tokio task leaves no stale entry; an entry never replaces another. */
    method RegisterAbortHandle(marker: TaskRegistration, handle: AbortHandle, cancel: Hook)
      requires !marker.finished && !handle.gone ==> marker.Key() !in handles
      modifies this`handles
      ensures handles == if marker.finished || handle.gone then old(handles)
                         else old(handles)[marker.Key() := TrackedAbortHandle(marker, handle, cancel)]
    {
      var finished := marker.IsFinished();
      var gone := handle.IsFinished();
      if !finished && !gone {
        handles := handles[marker.Key() := TrackedAbortHandle(marker, handle, cancel)];
      }
    }

    method RemoveAbortHandle(marker: TaskRegistration)
      modifies this`handles, marker
      ensures marker.finished && handles == old(handles) - {marker.Key()}
    {
      marker.Finish();
      handles := handles - {marker.Key()};
    }

    /** Moves the map out, so that hooks and wakers run without its lock. */
    method TakeHandles() returns (taken: map<nat, TrackedAbortHandle>)
      requires Valid()
      modifies this`handles
      ensures Valid() && taken == old(handles) && handles == map[] && Look() == old(Look())
    {
      taken := handles;
      handles := map[];
    }

    /** Takes the whole map, then aborts every task that Tokio still knows and counts the ones that were queued:
        exactly those in `hit`. */
    method AbortTrackedTasks(ghost hit: set<nat>) returns (count: nat)
      requires Valid() && AreOwn(handles, this) && hit <= handles.Keys && |hit| <= counters.queued
      requires forall a :: a in handles ==> (a in hit <==> IsHit(LookAt(handles[a])))
      modifies this`handles, this`generation, this`syncWakes, this`asyncWakes, counters
      modifies (set a | a in handles :: handles[a].handle)`aborted
      modifies set a | a in handles :: handles[a].cancel.tracker
      modifies set a | a in handles && handles[a].cancel.slot != null :: handles[a].cancel.slot
      ensures Valid() && handles == map[] && count == |hit|
      ensures Look() == AfterCancels(old(Look()), count)
      ensures forall a :: a in old(handles) ==> LookAt(old(handles)[a]) == AfterAbort(old(LookAt(handles[a])))
      ensures forall a :: a in old(handles) ==> WasAborted(old(handles)[a])
    {
      hide AfterFinish, AfterCancels, AreOwn, ServiceState.Look, LookAt, AfterAbort, IsHit, WasAborted;
      var taken := TakeHandles();
      count := AbortAll(taken, this, hit);
      forall a | a in taken
        ensures WasAborted(taken[a])
      {
        AbortsAreExact(taken[a]);
      }
    }
  }

  /** Every entry belongs to a task of its own, which is accounted for in this state. */
  ghost predicate AreOwn(m: map<nat, TrackedAbortHandle>, state: ServiceState) {
    forall a :: a in m ==> IsOwn(m, state, a)
  }

  ghost predicate IsOwn(m: map<nat, TrackedAbortHandle>, state: ServiceState, a: nat)
    requires a in m
  {
    m[a].cancel.tracker.state == state && forall b :: b in m && b != a ==> Disjoint(m[a], m[b])
  }

  predicate Disjoint(e: TrackedAbortHandle, f: TrackedAbortHandle) {
    && e.handle != f.handle
    && e.cancel.tracker != f.cancel.tracker
    && (e.cancel.slot == null || e.cancel.slot != f.cancel.slot)
  }

  /** What an abort sees and changes of an entry; a runnable has no slot to cancel. */
  datatype EntryView = EntryView(gone: bool, aborted: bool, cas: Cas, slotFull: bool, endpoint: Endpoint)

  ghost function LookAt(e: TrackedAbortHandle): EntryView
    reads e.handle, e.cancel.tracker, e.cancel.slot
  {
    EntryView(e.handle.gone, e.handle.aborted, e.cancel.tracker.cas, e.cancel.slot != null && e.cancel.slot.full,
              if e.cancel.slot == null then EndpointPending else e.cancel.slot.endpoint)
  }

  /** Tokio still knows the task and it has not started. */
  predicate IsHit(e: EntryView) {
    !e.gone && e.cas.CasQueued?
  }

  /** Only a task that Tokio still knows is aborted, and only a queued one loses its result slot. */
  function AfterAbort(e: EntryView): EntryView {
    if e.gone then e
    else if e.cas.CasQueued? then EntryView(false, true, CasFinished, false, CancelUnstarted(e.slotFull, e.endpoint))
    else e.(aborted := true)
  }

  /** What a stop owes to one entry, field by field: Tokio is asked to abort whatever it still knows; a queued task is
      finished, its slot is emptied and a pending result in it is cancelled; nothing else changes. */
  twostate predicate WasAborted(e: TrackedAbortHandle)
    reads e.handle, e.cancel.tracker, e.cancel.slot
  {
    && e.handle.gone == old(e.handle.gone)
    && e.handle.aborted == (old(e.handle.aborted) || !e.handle.gone)
    && var hit := !e.handle.gone && old(e.cancel.tracker.cas).CasQueued?;
       && e.cancel.tracker.cas == (if hit then CasFinished else old(e.cancel.tracker.cas))
       && (e.cancel.slot != null ==>
             && e.cancel.slot.full == (old(e.cancel.slot.full) && !hit)
             && e.cancel.slot.endpoint ==
                if hit && old(e.cancel.slot.full) && old(e.cancel.slot.endpoint).EndpointPending? then EndpointCancelled
                else old(e.cancel.slot.endpoint))
  }

  twostate lemma AbortsAreExact(e: TrackedAbortHandle)
    requires LookAt(e) == AfterAbort(old(LookAt(e)))
    ensures WasAborted(e)
  {
  }

  /** What n cancellations of queued tasks, one after the other, make of the state. */
  function AfterCancels(v: View, n: nat): View {
    if n == 0 then v else AfterFinish(AfterCancels(v, n - 1), false)
  }

  lemma {:induction false} CancelsAreCounted(v: View, n: nat)
    requires n <= v.counts.queued
    ensures AfterCancels(v, n).counts == Counts(v.counts.queued - n, v.counts.running)
    ensures AfterCancels(v, n).life == v.life
  {
    if n > 0 {
      CancelsAreCounted(v, n - 1);
    }
  }

  /** Only the cancellation that empties a closed service notifies, and every one bumps. */
  lemma {:induction false} CancelsAreTold(v: View, n: nat)
    requires n <= v.counts.queued && v.generation < GENERATIONS
    ensures var told := if n > 0 && !v.life.Running? && v.counts == Counts(n, 0) then 1 else 0;
            && AfterCancels(v, n).syncWakes == v.syncWakes + told && AfterCancels(v, n).asyncWakes == v.asyncWakes + told
    ensures AfterCancels(v, n).generation == (v.generation + n) % 0x1_0000_0000_0000_0000
  {
    CancelsAreCounted(v, n);
    if n > 0 {
      CancelsAreTold(v, n - 1);
      CancelsAreCounted(v, n - 1);
      NextOfRemainder(v.generation + n - 1);
    }
  }

  lemma NextOfRemainder(g: nat)
    ensures NextGeneration(g % GENERATIONS) == (g + 1) % 0x1_0000_0000_0000_0000
  {
  }

  lemma OneMoreCancelled(v: View, n: nat)
    ensures AfterCancels(v, n + 1) == AfterFinish(AfterCancels(v, n), false)
  {
  }

  /** The abort loop has dealt with all entries but the rest. */
  ghost predicate Progress(m: map<nat, TrackedAbortHandle>, rest: set<nat>, entries: map<nat, EntryView>)
    reads set a | a in m :: m[a].handle, set a | a in m :: m[a].cancel.tracker
    reads set a | a in m && m[a].cancel.slot != null :: m[a].cancel.slot
  {
    && entries.Keys == m.Keys
    && forall a :: a in m ==> LookAt(m[a]) == if a in rest then entries[a] else AfterAbort(entries[a])
  }

  /** What holds of the state and of the taken entries between two iterations. */
  ghost predicate Sweeping(state: ServiceState, m: map<nat, TrackedAbortHandle>, rest: set<nat>, hit: set<nat>,
      entries: map<nat, EntryView>, before: View, count: nat)
    reads state, state.lifecycle, state.counters, set a | a in m :: m[a].handle, set a | a in m :: m[a].cancel.tracker
    reads set a | a in m && m[a].cancel.slot != null :: m[a].cancel.slot
  {
    && state.Valid() && state.handles == map[]
    && count == Handled(hit, rest) && |hit| <= before.counts.queued
    && state.Look() == AfterCancels(before, count)
    && Progress(m, rest, entries)
    && forall a :: a in m ==> (a in hit <==> IsHit(entries[a]))
  }

  lemma NothingAborted(state: ServiceState, m: map<nat, TrackedAbortHandle>, hit: set<nat>, entries: map<nat, EntryView>)
    requires state.Valid() && state.handles == map[] && hit <= m.Keys && |hit| <= state.counters.queued
    requires entries == map a | a in m :: LookAt(m[a])
    requires forall a :: a in m ==> (a in hit <==> IsHit(LookAt(m[a])))
    ensures Sweeping(state, m, m.Keys, hit, entries, state.Look(), 0)
  {
    HandledAtEnds(hit, m.Keys);
    hide Handled, LookAt, AfterAbort, IsHit;
  }

  lemma EverythingAborted(state: ServiceState, m: map<nat, TrackedAbortHandle>, hit: set<nat>,
      entries: map<nat, EntryView>, before: View, count: nat)
    requires Sweeping(state, m, {}, hit, entries, before, count) && hit <= m.Keys
    ensures state.Valid() && state.handles == map[] && count == |hit| && entries.Keys == m.Keys
    ensures state.Look() == AfterCancels(before, count)
    ensures forall a :: a in m ==> LookAt(m[a]) == AfterAbort(entries[a])
  {
    HandledAtEnds(hit, m.Keys);
    hide Handled, AfterCancels, LookAt, AfterAbort, IsHit;
  }

  lemma QueuedLeft(state: ServiceState, before: View, n: nat)
    requires state.Look() == AfterCancels(before, n) && n <= before.counts.queued
    ensures state.counters.queued == before.counts.queued - n
  {
    CancelsAreCounted(before, n);
  }

  /** A stop's hook: the accounting first, and only if that was still queued the result slot. */
  method CancelUnstartedTaskSlotIfQueued(slot: TaskSlotCell, tracker: TaskTracker) returns (cancelled: bool)
    requires tracker.CountedIfQueued()
    modifies tracker, tracker.state`generation, tracker.state`syncWakes, tracker.state`asyncWakes, tracker.state.counters
    modifies slot
    ensures tracker.state.Valid() && (cancelled <==> old(tracker.cas).CasQueued?)
    ensures tracker.cas == AfterFinishQueued(old(tracker.cas))
    ensures tracker.state.Look() ==
            if cancelled then AfterFinish(old(tracker.state.Look()), false) else old(tracker.state.Look())
    ensures if cancelled then !slot.full && slot.endpoint == CancelUnstarted(old(slot.full), old(slot.endpoint))
            else slot.full == old(slot.full) && slot.endpoint == old(slot.endpoint)
    ensures cancelled && old(slot.full) && old(slot.endpoint).EndpointPending? ==> slot.endpoint.EndpointCancelled?
    ensures !old(slot.full) || !old(slot.endpoint).EndpointPending? ==> slot.endpoint == old(slot.endpoint)
  {
    cancelled := tracker.FinishQueued();
    if cancelled {
      var _ := slot.CancelUnstarted();
    }
  }

  method RunCancelHook(hook: Hook) returns (cancelled: bool)
    requires hook.tracker.CountedIfQueued()
    modifies hook.tracker, hook.tracker.state`generation, hook.tracker.state`syncWakes, hook.tracker.state`asyncWakes
    modifies hook.tracker.state.counters
    modifies hook.slot
    ensures hook.tracker.state.Valid() && (cancelled <==> old(hook.tracker.cas).CasQueued?)
    ensures hook.tracker.cas == AfterFinishQueued(old(hook.tracker.cas))
    ensures hook.tracker.state.Look() ==
            if cancelled then AfterFinish(old(hook.tracker.state.Look()), false) else old(hook.tracker.state.Look())
    ensures hook.slot != null ==>
              && hook.slot.full == (old(hook.slot.full) && !cancelled)
              && hook.slot.endpoint ==
                 if cancelled then CancelUnstarted(old(hook.slot.full), old(hook.slot.endpoint))
                 else old(hook.slot.endpoint)
  {
    if hook.slot == null {
      cancelled := hook.tracker.FinishQueued();
    } else {
      cancelled := CancelUnstartedTaskSlotIfQueued(hook.slot, hook.tracker);
    }
  }

  /** One iteration of the abort loop; a task that Tokio has finished with is left alone. */
  method AbortTracked(tracked: TrackedAbortHandle) returns (cancelled: bool)
    requires tracked.cancel.tracker.state.Valid()
    requires !tracked.handle.gone ==> tracked.cancel.tracker.CountedIfQueued()
    modifies tracked.handle`aborted
    modifies tracked.cancel.tracker, tracked.cancel.tracker.state`generation, tracked.cancel.tracker.state`syncWakes
    modifies tracked.cancel.tracker.state`asyncWakes, tracked.cancel.tracker.state.counters
    modifies tracked.cancel.slot
    ensures LookAt(tracked) == AfterAbort(old(LookAt(tracked)))
    ensures cancelled <==> IsHit(old(LookAt(tracked)))
    ensures tracked.cancel.tracker.state.Valid()
    ensures tracked.cancel.tracker.state.Look() ==
            if cancelled then AfterFinish(old(tracked.cancel.tracker.state.Look()), false)
            else old(tracked.cancel.tracker.state.Look())
  {
    hide AfterFinish;
    cancelled := false;
    var gone := tracked.handle.IsFinished();
    if !gone {
      tracked.handle.Abort();
      cancelled := RunCancelHook(tracked.cancel);
    }
  }

  /** Aborting one entry leaves the others alone. */
  method AbortAlone(m: map<nat, TrackedAbortHandle>, state: ServiceState, a: nat) returns (cancelled: bool)
    requires a in m && IsOwn(m, state, a)
    requires state.Valid() && (IsHit(LookAt(m[a])) ==> state.counters.queued > 0)
    modifies m[a].handle`aborted, m[a].cancel.tracker, m[a].cancel.slot
    modifies state`generation, state`syncWakes, state`asyncWakes, state.counters
    ensures state.Valid() && (cancelled <==> IsHit(old(LookAt(m[a]))))
    ensures state.Look() == if cancelled then AfterFinish(old(state.Look()), false) else old(state.Look())
    ensures LookAt(m[a]) == AfterAbort(old(LookAt(m[a])))
    ensures forall b :: b in m && b != a ==> LookAt(m[b]) == old(LookAt(m[b]))
  {
    hide AfterFinish, ServiceState.Valid, ServiceState.Look, AfterAbort;
    cancelled := AbortTracked(m[a]);
  }

  method AbortNext(state: ServiceState, m: map<nat, TrackedAbortHandle>, ghost rest: set<nat>, a: nat,
      ghost hit: set<nat>, ghost entries: map<nat, EntryView>, ghost before: View, ghost count: nat)
    returns (cancelled: bool)
    requires a in m && a in rest && AreOwn(m, state) && Sweeping(state, m, rest, hit, entries, before, count)
    modifies m[a].handle`aborted, m[a].cancel.tracker, m[a].cancel.slot
    modifies state`generation, state`syncWakes, state`asyncWakes, state.counters
    ensures Sweeping(state, m, rest - {a}, hit, entries, before, count + if cancelled then 1 else 0)
  {
    hide AfterFinish, AfterCancels, Handled, IsOwn, ServiceState.Valid, ServiceState.Look, LookAt, AfterAbort, IsHit;
    HandledGrows(hit, rest, a);
    QueuedLeft(state, before, count);
    OneMoreCancelled(before, count);
    cancelled := AbortAlone(m, state, a);
    assert cancelled <==> a in hit;
  }

  /** The abort loop over entries that were moved out of the map. */
  method AbortAll(m: map<nat, TrackedAbortHandle>, state: ServiceState, ghost hit: set<nat>) returns (count: nat)
    requires state.Valid() && state.handles == map[] && AreOwn(m, state) && hit <= m.Keys
    requires |hit| <= state.counters.queued
    requires forall a :: a in m ==> (a in hit <==> IsHit(LookAt(m[a])))
    modifies state`generation, state`syncWakes, state`asyncWakes, state.counters
    modifies (set a | a in m :: m[a].handle)`aborted
    modifies set a | a in m :: m[a].cancel.tracker
    modifies set a | a in m && m[a].cancel.slot != null :: m[a].cancel.slot
    ensures state.Valid() && state.handles == map[] && count == |hit|
    ensures state.Look() == AfterCancels(old(state.Look()), count)
    ensures forall a :: a in m ==> LookAt(m[a]) == AfterAbort(old(LookAt(m[a])))
  {
    hide AfterFinish, AfterCancels, AreOwn, Sweeping, ServiceState.Look, LookAt, AfterAbort, IsHit;
    ghost var entries := map a | a in m :: LookAt(m[a]);
    ghost var before := state.Look();
    count := 0;
    var rest := m.Keys;
    NothingAborted(state, m, hit, entries);
    while rest != {}
      invariant rest <= m.Keys && Sweeping(state, m, rest, hit, entries, before, count)
    {
      var a :| a in rest;
      var cancelled := AbortNext(state, m, rest, a, hit, entries, before, count);
      if cancelled {
        count := count + 1;
      }
      rest := rest - {a};
    }
    EverythingAborted(state, m, hit, entries, before, count);
  }

  /** The accounting of one task; `cas` moves one way, from queued over running to finished. */
  class TaskTracker {
    const state: ServiceState
    const marker: TaskRegistration
    var cas: Cas

    constructor (state: ServiceState, marker: TaskRegistration)
      ensures this.state == state && this.marker == marker && cas == CasQueued
    {
      this.state, this.marker, cas := state, marker, CasQueued;
    }

    ghost predicate Counted()
      reads this, state, state.lifecycle, state.counters
    {
      state.Valid() && CountsTask(state.counters.View(), cas)
    }

    /** All that the two transitions out of the queued state ask for. */
    ghost predicate CountedIfQueued()
      reads this, state, state.lifecycle, state.counters
    {
      state.Valid() && (cas.CasQueued? ==> state.counters.queued > 0)
    }

    /** True to the worker that may run the body; a second call is true but counts nothing. */
    method MarkStarted() returns (mayRun: bool)
      requires CountedIfQueued()
      modifies this, state.counters
      ensures state.Valid() && cas == AfterStart(old(cas)) && (mayRun <==> MayRun(old(cas)))
      ensures cas == if old(cas).CasQueued? then CasRunning else old(cas)
      ensures mayRun <==> !old(cas).CasFinished?
      ensures state.Look() == AfterMark(old(state.Look()), old(cas))
      ensures var counted := if old(cas).CasQueued? then 1 else 0;
              && state.counters.queued == old(state.counters.queued) - counted
              && state.counters.running == old(state.counters.running) + counted
      ensures old(Counted()) ==> Counted()
    {
      match cas
      case CasQueued =>
        cas := CasRunning;
        state.MarkTaskStarted();
        mayRun := true;
      case CasRunning => mayRun := true;
      case CasFinished => mayRun := false;
    }

    /** True exactly when this call released the queued accounting. */
    method FinishQueued() returns (finished: bool)
      requires CountedIfQueued()
      modifies this, state`generation, state`syncWakes, state`asyncWakes, state.counters
      ensures state.Valid() && (finished <==> old(cas).CasQueued?) && cas == AfterFinishQueued(old(cas))
      ensures cas == if finished then CasFinished else old(cas)
      ensures state.counters.queued == old(state.counters.queued) - if finished then 1 else 0
      ensures state.Look() == if finished then AfterFinish(old(state.Look()), false) else old(state.Look())
    {
      finished := cas.CasQueued?;
      if finished {
        cas := CasFinished;
        state.FinishTask(false);
      }
    }

    /** The entry is gone before the accounting, so that a later stop does not count the task again. */
    method CancelQueued() returns (finished: bool)
      requires CountedIfQueued()
      modifies this, state`handles, state`generation, state`syncWakes, state`asyncWakes, state.counters, marker
      ensures state.Valid() && (finished <==> old(cas).CasQueued?) && cas == AfterFinishQueued(old(cas))
      ensures cas == if finished then CasFinished else old(cas)
      ensures state.counters.queued == old(state.counters.queued) - if finished then 1 else 0
      ensures state.Look() == if finished then AfterFinish(old(state.Look()), false) else old(state.Look())
      ensures marker.finished && state.handles == old(state.handles) - {marker.Key()}
    {
      state.RemoveAbortHandle(marker);
      finished := FinishQueued();
    }

    method Finish()
      requires Counted()
      modifies this, state`generation, state`syncWakes, state`asyncWakes, state.counters
      ensures state.Valid() && cas.CasFinished? && state.Look() == AfterRelease(old(state.Look()), old(cas))
      ensures state.counters.queued == old(state.counters.queued) - if old(cas).CasQueued? then 1 else 0
      ensures state.counters.running == old(state.counters.running) - if old(cas).CasRunning? then 1 else 0
      ensures old(cas).CasFinished? ==> state.generation == old(state.generation)
    {
      var before := cas;
      cas := CasFinished;
      match before
      case CasQueued => state.FinishTask(false);
      case CasRunning => state.FinishTask(true);
      case CasFinished =>
    }
  }
}
