/** Accounting, result slots and the abort map over whole runs of the blocking service. */
module BlockingAccounting {
  import opened Lifecycles
  import opened TaskCounts
  import opened BlockingTask
  import opened BlockingTaskFacts
  import opened BlockingModel
  import opened BlockingInvariant
  import opened BlockingRuns
  import opened BlockingTermination
  import TaskSteps = BlockingTaskSteps
  import CloserSteps = BlockingCloserSteps

  lemma CapacityFrame(s: State, a: Action)
    requires Enabled(s, a)
    ensures Apply(s, a).capacity == s.capacity
  {
    hide StepTask, CanStepTask, HasHook;
    if a.OnTask? {
      TaskSteps.StepFrame(s, a.task, a.step);
    } else if IsCloserStep(a) {
      hide Apply;
      CloserFrame(s, a);
    } else {
      hide Apply;
      ThreadFrame(s, a);
    }
  }

  lemma {:induction false} CapacityIsFixed(states: seq<State>, actions: seq<Action>, n: nat)
    requires IsRun(states, actions) && n < |states|
    ensures states[n].capacity == states[0].capacity
  {
    hide Apply, Enabled;
    if n > 0 {
      CapacityIsFixed(states, actions, n - 1);
      CapacityFrame(states[n - 1], actions[n - 1]);
    }
  }

  /** In every reachable state the counters equal the number of tasks in the matching phase, also between a
      tracker transition and its count update, and never exceed the capacity. */
  lemma CountsAreExact(states: seq<State>, actions: seq<Action>, n: nat)
    requires IsExecution(states, actions) && n < |states|
    ensures states[n].counts == Counts(|QueuedTasks(states[n].tasks)|, |ActiveTasks(states[n].tasks)|)
    ensures states[n].counts.Total() <= states[0].capacity
  {
    hide Inv, Apply, Enabled, QueuedTasks, ActiveTasks;
    ExecutionsKeepInv(states, actions, n);
    CapacityIsFixed(states, actions, n);
    InvParts(states[n]);
  }

  /** The debug assertions never fire: every monitor write of every run finds its counter positive. */
  lemma CountersNeverSaturate(states: seq<State>, actions: seq<Action>, i: nat)
    requires IsExecution(states, actions) && i < |actions| && actions[i].OnTask?
    ensures actions[i].step == ByJob(MarkCount) ==>
              states[i].counts.queued > 0 && states[i + 1].counts.Total() == states[i].counts.Total()
    ensures IsWrite(actions[i].step) ==> states[i + 1].counts.Total() == states[i].counts.Total() - 1
  {
    hide Inv, StepTask, AllTasks, Counted;
    ExecutionsKeepInv(states, actions, i);
    InvParts(states[i]);
    TaskSteps.WritesNeverSaturate(states[i], actions[i].task, actions[i].step);
    TaskSteps.StepFrame(states[i], actions[i].task, actions[i].step);
  }

  // ----- every accepted task is released exactly once

  predicate IsDone(s: State, t: nat) {
    t in s.tasks && PhaseOf(s.tasks[t]).Done?
  }

  predicate Releases(a: Action, t: nat) {
    a.OnTask? && a.task == t && IsWrite(a.step)
  }

  function ReleaseCount(actions: seq<Action>, t: nat, n: nat): nat
    requires n <= |actions|
  {
    if n == 0 then 0 else ReleaseCount(actions, t, n - 1) + if Releases(actions[n - 1], t) then 1 else 0
  }

  lemma ReleaseFinishes(s: State, a: Action, t: nat)
    requires Inv(s) && Enabled(s, a)
    ensures IsDone(Apply(s, a), t) <==> IsDone(s, t) || Releases(a, t)
    ensures Releases(a, t) ==> !IsDone(s, t)
  {
    hide Inv, PhaseOf, Apply, Enabled, TakeEntries, AllTasks, Counted, ExactMap;
    if a.OnTask? {
      TaskReleaseFinishes(s, a.task, a.step, t);
    } else if a.TryAccept? {
      AcceptedIsNotDone(s, a, t);
    } else {
      TasksFrame(s, a);
      if a.TakeHandles? && t in s.tasks {
        InvParts(s);
        CloserSteps.TakenTasks(s, a.closer);
        CloserSteps.TakenKeepsEachTask(s, a.closer, t);
      } else if a.TakeHandles? {
        InvParts(s);
        CloserSteps.TakenTasks(s, a.closer);
      }
    }
  }

  lemma AcceptedIsNotDone(s: State, a: Action, t: nat)
    requires Enabled(s, a) && a.TryAccept?
    ensures IsDone(Apply(s, a), t) <==> IsDone(s, t)
  {
    NewTaskInv(a.kind, a.thread);
    hide PhaseOf;
  }

  lemma TaskReleaseFinishes(s: State, u: nat, x: TaskStep, t: nat)
    requires Inv(s) && Enabled(s, OnTask(u, x))
    ensures IsDone(Apply(s, OnTask(u, x)), t) <==> IsDone(s, t) || Releases(OnTask(u, x), t)
    ensures Releases(OnTask(u, x), t) ==> !IsDone(s, t)
  {
    hide Inv, StepTask, Step, TaskInv, PhaseOf, Counted, ExactMap;
    InvParts(s);
    TaskSteps.StepFrame(s, u, x);
    StepMoves(s.tasks[u], x);
  }

  /** Whichever of worker, cancellation, stop and runtime gets there first, the accounting of a task is
      released exactly once, namely by the time its phase is done. */
  lemma {:induction false} ReleasedExactlyOnce(states: seq<State>, actions: seq<Action>, t: nat, n: nat)
    requires IsExecution(states, actions) && n < |states|
    ensures ReleaseCount(actions, t, n) == if IsDone(states[n], t) then 1 else 0
  {
    hide Inv, Apply, Enabled, IsDone, Releases;
    if n == 0 {
      assert states[0].tasks == map[];
      NothingIsDoneInitially(states[0], t);
    } else {
      ReleasedExactlyOnce(states, actions, t, n - 1);
      ExecutionsKeepInv(states, actions, n - 1);
      ReleaseFinishes(states[n - 1], actions[n - 1], t);
    }
  }

  lemma NothingIsDoneInitially(s: State, t: nat)
    requires s.tasks == map[]
    ensures !IsDone(s, t)
  {
  }

  // ----- the result slot

  lemma SlotFacts(k: Task)
    requires TaskInv(k) && !k.kind.Runnable?
    ensures k.job.Taking? ==> k.won && k.slotFull
    ensures k.releasedBy.ByTheHook? ==> !k.won && !k.job.Launching? && !k.job.UserBody? && !k.ran
    ensures !k.slotFull ==> (k.won <==> !k.releasedBy.ByTheHook?)
  {
  }

  /** Whenever mark_started returned true the runner finds the slot; whenever the stop hook returned true the
      runner never takes it; an empty slot has exactly one of the two owners. */
  lemma SlotHasOneOwner(states: seq<State>, actions: seq<Action>, n: nat, t: nat)
    requires IsExecution(states, actions) && n < |states| && t in states[n].tasks && !states[n].tasks[t].kind.Runnable?
    ensures var k := states[n].tasks[t];
            && (k.job.Taking? ==> k.won && k.slotFull)
            && (k.releasedBy.ByTheHook? ==> !k.won && !k.job.Launching? && !k.job.UserBody? && !k.ran)
            && (!k.slotFull ==> (k.won <==> !k.releasedBy.ByTheHook?))
  {
    hide Inv, Apply, Enabled, TaskInv;
    ExecutionsKeepInv(states, actions, n);
    TaskOfRun(states[n], t);
    SlotFacts(states[n].tasks[t]);
  }

  lemma TaskOfRun(s: State, t: nat)
    requires Inv(s) && t in s.tasks
    ensures TaskInv(s.tasks[t])
  {
  }

  // ----- the abort map

  /** The map as it would be if it were keyed by task identity. */
  function Listed(s: State): set<nat> {
    set t | t in s.tasks && s.tasks[t].entry.InMap?
  }

  /** Under every reuse of freed marker addresses the address-keyed map behaves like the identity-keyed one:
      its entries are the listed tasks, each under its own address, and each is unfinished. */
  lemma MapIsKeyedByIdentity(states: seq<State>, actions: seq<Action>, n: nat)
    requires IsExecution(states, actions) && n < |states|
    ensures states[n].handles.Values == Listed(states[n])
    ensures forall a :: a in states[n].handles ==>
              states[n].handles[a] in states[n].tasks && states[n].tasks[states[n].handles[a]].addr == a
    ensures forall a :: a in states[n].handles ==> !PhaseOf(states[n].tasks[states[n].handles[a]]).Done?
    ensures states[n].counts.IsEmpty() ==> states[n].handles == map[]
  {
    hide Inv, Apply, Enabled;
    ExecutionsKeepInv(states, actions, n);
    MapFacts(states[n]);
  }

  lemma ListedIsUnfinished(k: Task)
    requires TaskInv(k) && k.entry.InMap?
    ensures !PhaseOf(k).Done? && Live(k)
  {
  }

  lemma MapFacts(s: State)
    requires Inv(s)
    ensures s.handles.Values == Listed(s)
    ensures forall a :: a in s.handles ==> s.handles[a] in s.tasks && s.tasks[s.handles[a]].addr == a
    ensures forall a :: a in s.handles ==> !PhaseOf(s.tasks[s.handles[a]]).Done?
    ensures s.counts.IsEmpty() ==> s.handles == map[]
  {
    hide Inv, TaskInv, PhaseOf, Counted;
    InvParts(s);
    forall t | t in Listed(s)
      ensures t in s.handles.Values
    {
      assert s.handles[s.tasks[t].addr] == t;
    }
    forall a | a in s.handles
      ensures !PhaseOf(s.tasks[s.handles[a]]).Done?
    {
      ListedIsUnfinished(s.tasks[s.handles[a]]);
    }
    if s.counts.IsEmpty() {
      NothingRunsWhenEmpty(s);
      assert forall a :: a !in s.handles;
    }
  }

  /** Insertion never overwrites an entry and a removal finds the task's own entry or none. */
  lemma MapUpdatesAreOwn(states: seq<State>, actions: seq<Action>, i: nat)
    requires IsExecution(states, actions) && i < |actions| && actions[i].OnTask?
    ensures var k := states[i].tasks[actions[i].task];
            && (actions[i].step == BySubmitter(Register) ==> k.addr !in states[i].handles && !k.finished)
            && (IsRemoval(actions[i].step) && k.addr in states[i].handles ==> states[i].handles[k.addr] == actions[i].task)
  {
    hide Inv, StepTask, Step, AllTasks, Counted, ExactMap, DistinctAddresses;
    ExecutionsKeepInv(states, actions, i);
    UpdateIsOwn(states[i], actions[i].task, actions[i].step);
  }

  /** The map theorems are about real reuse: as soon as no guard, entry or handle refers to a marker any more, the next
      marker may get its address. */
  lemma FreedAddressesAreReused(s: State, t: nat, addr: nat)
    requires t in s.tasks && s.tasks[t].stage.Reserved?
    requires forall u ::
               && u in s.tasks && s.tasks[u].addr == addr
               && !s.tasks[u].stage.Accepted? && !s.tasks[u].stage.Reserved? ==>
               && s.tasks[u].guard.Dropped? && !s.tasks[u].handle
               && (s.tasks[u].entry.NoEntry? || s.tasks[u].entry.Unregistered?)
    ensures Enabled(s, OnTask(t, BySubmitter(Allocate(addr))))
    ensures Apply(s, OnTask(t, BySubmitter(Allocate(addr)))).tasks[t].addr == addr
  {
  }

  lemma UpdateIsOwn(s: State, t: nat, x: TaskStep)
    requires Inv(s) && CanStepTask(s, t, x)
    ensures x == BySubmitter(Register) ==> s.tasks[t].addr !in s.handles && !s.tasks[t].finished
    ensures IsRemoval(x) && s.tasks[t].addr in s.handles ==> s.handles[s.tasks[t].addr] == t
  {
    hide Inv, TaskInv, Step, Counted, ExactMap, DistinctAddresses;
    InvParts(s);
    if x == BySubmitter(Register) {
      TaskSteps.RegistrationNeverOverwrites(s, t);
      StepMoves(s.tasks[t], x);
    }
    if IsRemoval(x) {
      TaskSteps.RemovalTouchesOnlyItsOwn(s, t, x);
    }
  }
}
