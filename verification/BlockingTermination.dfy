/** Termination of the blocking service: it is final, its observation is linearizable, and waiters see it. */
module BlockingTermination {
  import opened Lifecycles
  import opened TaskCounts
  import opened BlockingTask
  import opened BlockingTaskFacts
  import opened BlockingModel
  import opened BlockingInvariant
  import opened BlockingRuns
  import TaskSteps = BlockingTaskSteps
  import CloserSteps = BlockingCloserSteps

  /** What an observer that reads lifecycle and counts at once would answer. */
  function Observed(s: State): Lifecycle {
    Derived(s.life, s.counts.IsEmpty())
  }

  // ----- one step

  predicate IsSubmitterStep(a: Action) {
    a.Subscribe? || a.Lock? || a.CheckRunning? || a.TryAccept? || a.LeaveFull? || a.Reject? || a.Retry?
  }

  predicate IsCloserStep(a: Action) {
    || a.Close? || a.StoreLifecycle? || a.Snapshot? || a.LeaveSnapshot? || a.ReleaseAdmission? || a.TakeHandles?
    || a.EndLoop? || a.BumpCapacity? || a.CheckLifecycle? || a.CheckTerminated? || a.NotifySync? || a.NotifyAsync?
  }

  predicate IsAsyncStep(a: Action) {
    a.Await? || a.Enable? || a.LoadLifecycle? || a.ReadCounts? || a.LeaveRead? || a.Resume?
  }

  predicate IsSyncStep(a: Action) {
    a.Wait? || a.Enter? || a.Decide? || a.SpuriousWake?
  }

  /** What the steps outside tasks and closers leave alone. */
  predicate OnlyThreadsMove(s: State, a: Action, s': State) {
    && s'.capacity == s.capacity && s'.life == s.life && s'.closers == s.closers
    && (!a.TryAccept? ==> s'.counts == s.counts && s'.tasks == s.tasks)
  }

  lemma SubmitterFrame(s: State, a: Action)
    requires Enabled(s, a) && IsSubmitterStep(a)
    ensures OnlyThreadsMove(s, a, Apply(s, a))
  {
    hide HasCapacity, Counts.Accept, NewTask;
  }

  lemma AsyncFrame(s: State, a: Action)
    requires Enabled(s, a) && IsAsyncStep(a)
    ensures OnlyThreadsMove(s, a, Apply(s, a))
  {
    hide Derived, Counts.IsEmpty;
  }

  lemma SyncFrame(s: State, a: Action)
    requires Enabled(s, a) && IsSyncStep(a)
    ensures OnlyThreadsMove(s, a, Apply(s, a))
  {
    hide Counts.IsEmpty;
  }

  lemma ThreadFrame(s: State, a: Action)
    requires Enabled(s, a) && !a.OnTask? && !IsCloserStep(a)
    ensures OnlyThreadsMove(s, a, Apply(s, a))
  {
    hide Apply, Enabled, OnlyThreadsMove;
    if IsSubmitterStep(a) {
      SubmitterFrame(s, a);
    } else if IsAsyncStep(a) {
      AsyncFrame(s, a);
    } else {
      SyncFrame(s, a);
    }
  }

  lemma TakeFrame(s: State, a: Action)
    requires Enabled(s, a) && a.TakeHandles?
    ensures var s' := Apply(s, a);
            s'.capacity == s.capacity && s'.counts == s.counts && s'.tasks == TakeEntries(s, a.closer).tasks
  {
  }

  lemma PcFrame(s: State, a: Action)
    requires Enabled(s, a) && IsCloserStep(a) && !a.TakeHandles?
    ensures var s' := Apply(s, a); s'.capacity == s.capacity && s'.counts == s.counts && s'.tasks == s.tasks
  {
    hide HasHook, WokenSyncs, WokenAsyncs, QueuedTasks, IsTerminated, Counts.IsEmpty, ShutdownOf, TakeEntries;
  }

  lemma CloserFrame(s: State, a: Action)
    requires Enabled(s, a) && IsCloserStep(a)
    ensures var s' := Apply(s, a);
            && s'.capacity == s.capacity && s'.counts == s.counts
            && s'.tasks == if a.TakeHandles? then TakeEntries(s, a.closer).tasks else s.tasks
  {
    hide Apply, Enabled, TakeEntries;
    if a.TakeHandles? {
      TakeFrame(s, a);
    } else {
      PcFrame(s, a);
    }
  }

  lemma CloserLifecycle(s: State, a: Action)
    requires Enabled(s, a) && IsCloserStep(a)
    ensures Apply(s, a).life ==
            if a.StoreLifecycle? then (if s.closers[a.closer].stop then Stopping else ShutdownOf(s.life)) else s.life
  {
    hide HasHook, WokenSyncs, WokenAsyncs, QueuedTasks, IsTerminated, Counts.IsEmpty, ShutdownOf;
  }

  /** Only a closer that holds admission changes the stored lifecycle. */
  lemma LifecycleFrame(s: State, a: Action)
    requires Enabled(s, a)
    ensures Apply(s, a).life ==
            if a.StoreLifecycle? then (if s.closers[a.closer].stop then Stopping else ShutdownOf(s.life)) else s.life
  {
    hide StepTask, CanStepTask, HasHook, ShutdownOf;
    if a.OnTask? {
      TaskSteps.StepFrame(s, a.task, a.step);
    } else if IsCloserStep(a) {
      hide Apply;
      CloserLifecycle(s, a);
    } else {
      hide Apply;
      ThreadFrame(s, a);
    }
  }

  /** The stored lifecycle only moves forward. */
  lemma LifecycleAdvances(s: State, a: Action)
    requires LifeOk(s) && Enabled(s, a)
    ensures Rank(s.life) <= Rank(Apply(s, a).life) && !Apply(s, a).life.Terminated?
  {
    hide Apply, Enabled;
    LifecycleFrame(s, a);
  }

  lemma AcceptanceNeedsRunning(s: State, a: Action)
    requires LifeOk(s) && Enabled(s, a) && a.TryAccept?
    ensures s.life.Running?
  {
  }

  /** Counts and tasks change only in task steps, in acceptance and when a stop takes the map. */
  lemma TasksFrame(s: State, a: Action)
    requires Enabled(s, a) && !a.OnTask? && !a.TryAccept?
    ensures Apply(s, a).counts == s.counts
    ensures Apply(s, a).tasks == if a.TakeHandles? then TakeEntries(s, a.closer).tasks else s.tasks
  {
    hide Apply, Enabled, TakeEntries;
    if IsCloserStep(a) {
      CloserFrame(s, a);
    } else {
      ThreadFrame(s, a);
    }
  }

  // ----- closers

  function CloserOf(a: Action): nat
    requires IsCloserStep(a)
  {
    match a
    case Close(c, _) => c
    case StoreLifecycle(c) => c
    case Snapshot(c) => c
    case LeaveSnapshot(c) => c
    case ReleaseAdmission(c) => c
    case TakeHandles(c) => c
    case EndLoop(c) => c
    case BumpCapacity(c) => c
    case CheckLifecycle(c) => c
    case CheckTerminated(c) => c
    case NotifySync(c) => c
    case NotifyAsync(c) => c
  }

  /** Where a closer step leads, from its program counter and the state it reads. */
  function PcAfter(s: State, a: Action): ClosePc
    requires IsCloserStep(a)
  {
    match a
    case Close(_, _) => Holding
    case StoreLifecycle(_) => Stored
    case Snapshot(_) => Snapping
    case LeaveSnapshot(_) => Snapped
    case ReleaseAdmission(c) => if c in s.closers && s.closers[c].stop then Unlocked else Bumping
    case TakeHandles(_) => Looping
    case EndLoop(_) => Bumping
    case BumpCapacity(_) => Checking
    case CheckLifecycle(_) => Examining(!s.life.Running?)
    case CheckTerminated(c) =>
      if c in s.closers && s.closers[c].pc == Examining(true) && s.counts.IsEmpty() then NotifyingSync else Reported
    case NotifySync(_) => NotifyingAsync
    case NotifyAsync(_) => Reported
  }

  lemma OnlyOneCloserMoves(s: State, a: Action)
    requires Enabled(s, a) && IsCloserStep(a)
    ensures CloserOf(a) in Apply(s, a).closers && Apply(s, a).closers[CloserOf(a)].pc == PcAfter(s, a)
    ensures Apply(s, a).closers == s.closers[CloserOf(a) := Apply(s, a).closers[CloserOf(a)]]
    ensures a.Close? <==> CloserOf(a) !in s.closers
  {
    hide HasHook, WokenSyncs, WokenAsyncs, QueuedTasks, IsTerminated, HasCapacity, Counts.IsEmpty;
    if a.TakeHandles? {
      assert TakeEntries(s, a.closer).closers == s.closers;
    }
  }

  // ----- termination

  /** A step that is neither a task's nor an acceptance keeps the counts and what every task has done. */
  lemma OtherStepsKeepTasks(s: State, a: Action)
    requires Inv(s) && Enabled(s, a) && !a.OnTask? && !a.TryAccept?
    ensures var s' := Apply(s, a);
            && s'.counts == s.counts && s'.tasks.Keys == s.tasks.Keys
            && forall t :: t in s.tasks ==> s'.tasks[t].ran == s.tasks[t].ran && s'.tasks[t].job == s.tasks[t].job
  {
    hide Inv, Apply, Enabled, TakeEntries, ExactMap, AllTasks, Counted, DistinctAddresses, Exclusive, Staged, Swept,
         HonestReports, AsyncsServed, SyncsServed, HintsServed, GenerationsSeen, OneAtATime, Mutex;
    InvParts(s);
    TasksFrame(s, a);
    if a.TakeHandles? {
      CloserSteps.TakenTasks(s, a.closer);
    }
  }

  /** No step of any party leads out of termination, accepts a task, or starts a user body. */
  lemma TerminationIsStable(s: State, a: Action)
    requires Inv(s) && Enabled(s, a) && IsTerminated(s)
    ensures IsTerminated(Apply(s, a))
    ensures Apply(s, a).tasks.Keys == s.tasks.Keys
    ensures forall t :: t in s.tasks ==>
              Apply(s, a).tasks[t].ran == s.tasks[t].ran && !Apply(s, a).tasks[t].job.UserBody?
  {
    hide Inv, TaskInv, Apply, Enabled, PhaseOf, AllTasks, Counted, ExactMap, Staged;
    InvParts(s);
    LifecycleAdvances(s, a);
    NothingRunsWhenEmpty(s);
    if a.OnTask? {
      OnTaskIsStable(s, a.task, a.step);
    } else if a.TryAccept? {
      AcceptanceNeedsRunning(s, a);
    } else {
      OtherStepsKeepTasks(s, a);
    }
  }

  lemma EmptyCounts(s: State)
    requires CountsOk(s) && s.counts.IsEmpty()
    ensures |QueuedTasks(s.tasks)| == 0 && |ActiveTasks(s.tasks)| == 0
  {
    hide QueuedTasks, ActiveTasks;
  }

  lemma NothingRunsWhenEmpty(s: State)
    requires TasksOk(s) && CountsOk(s) && s.counts.IsEmpty()
    ensures forall t :: t in s.tasks ==> PhaseOf(s.tasks[t]).Done? && !s.tasks[t].job.UserBody?
  {
    hide TaskInv, QueuedTasks, ActiveTasks, PhaseOf, Counted;
    EmptyCounts(s);
    forall t | t in s.tasks
      ensures PhaseOf(s.tasks[t]).Done? && !s.tasks[t].job.UserBody?
    {
      NothingRunsIn(s.tasks, t);
    }
  }

  lemma NothingRunsIn(tasks: map<nat, Task>, t: nat)
    requires t in tasks && TaskInv(tasks[t]) && |QueuedTasks(tasks)| == 0 && |ActiveTasks(tasks)| == 0
    ensures PhaseOf(tasks[t]).Done? && !tasks[t].job.UserBody?
  {
    hide TaskInv, QueuedTasks, ActiveTasks, PhaseOf;
    CountsArePositive(tasks, t);
    BodiesAreActive(tasks[t]);
  }

  lemma BodiesAreActive(k: Task)
    requires TaskInv(k)
    ensures k.job.UserBody? ==> PhaseOf(k).Active?
  {
  }

  lemma OnTaskIsStable(s: State, t: nat, x: TaskStep)
    requires Inv(s) && Enabled(s, OnTask(t, x)) && IsTerminated(s)
    ensures var s' := Apply(s, OnTask(t, x));
            && s'.counts == s.counts && s'.tasks.Keys == s.tasks.Keys
            && s'.tasks == s.tasks[t := Step(s.tasks[t], x)]
            && Step(s.tasks[t], x).ran == s.tasks[t].ran && !Step(s.tasks[t], x).job.UserBody?
  {
    hide Inv, StepTask, Step, TaskInv, QueuedTasks, ActiveTasks;
    InvParts(s);
    TaskSteps.StepFrame(s, t, x);
    TaskSteps.EmptyStaysEmpty(s, t, x);
    NothingRunsWhenEmpty(s);
    StepMoves(s.tasks[t], x);
  }

  // ----- runs

  /** Once terminated, always terminated: nothing is accepted, nothing runs and nothing starts later. */
  lemma {:induction false} TerminationIsFinal(states: seq<State>, actions: seq<Action>, i: nat, j: nat)
    requires IsExecution(states, actions) && i <= j < |states| && IsTerminated(states[i])
    ensures IsTerminated(states[j])
    ensures states[j].tasks.Keys == states[i].tasks.Keys
    ensures forall t :: t in states[i].tasks ==>
              states[j].tasks[t].ran == states[i].tasks[t].ran && !states[j].tasks[t].job.UserBody?
    decreases j
  {
    hide Inv, Apply, Enabled, IsTerminated;
    if i == j {
      ExecutionsKeepInv(states, actions, i);
      NothingRunsAtTermination(states[i]);
    } else {
      TerminationIsFinal(states, actions, i, j - 1);
      ExecutionsKeepInv(states, actions, j - 1);
      TerminationIsStable(states[j - 1], actions[j - 1]);
    }
  }

  lemma NothingRunsAtTermination(s: State)
    requires Inv(s) && IsTerminated(s)
    ensures forall t :: t in s.tasks ==> !s.tasks[t].job.UserBody?
  {
    hide Inv, AllTasks, Counted;
    InvParts(s);
    NothingRunsWhenEmpty(s);
  }

  lemma LifeOfInv(s: State)
    requires Inv(s)
    ensures LifeOk(s) && !s.life.Terminated?
  {
  }

  lemma {:induction false} LifecycleNeverGoesBack(states: seq<State>, actions: seq<Action>, i: nat, j: nat)
    requires IsExecution(states, actions) && i <= j < |states|
    ensures Rank(states[i].life) <= Rank(states[j].life) && !states[j].life.Terminated?
    ensures !states[i].life.Running? ==> !states[j].life.Running?
    ensures states[i].life.Stopping? ==> states[j].life.Stopping?
    decreases j
  {
    hide Inv, Apply, Enabled, Staged;
    ExecutionsKeepInv(states, actions, j);
    LifeOfInv(states[j]);
    if i < j {
      LifecycleNeverGoesBack(states, actions, i, j - 1);
      ExecutionsKeepInv(states, actions, j - 1);
      LifeOfInv(states[j - 1]);
      LifecycleAdvances(states[j - 1], actions[j - 1]);
    }
  }

  /** `lifecycle()` reads the stored lifecycle at i and the counts at j.  A Terminated answer was true at the
      count read, every other answer was true at the lifecycle load. */
  lemma LifecycleIsLinearizable(states: seq<State>, actions: seq<Action>, i: nat, j: nat)
    requires IsExecution(states, actions) && i <= j < |states|
    ensures var answer := Derived(states[i].life, states[j].counts.IsEmpty());
            if answer.Terminated? then IsTerminated(states[j])
            else answer == states[i].life && !IsTerminated(states[i])
    ensures var answer := Derived(states[i].life, states[j].counts.IsEmpty());
            if answer.Terminated? then Observed(states[j]) == answer else Observed(states[i]) == answer
  {
    hide Inv, Apply, Enabled;
    LifecycleNeverGoesBack(states, actions, i, j);
    LifecycleNeverGoesBack(states, actions, i, i);
    if IsTerminated(states[i]) {
      TerminationIsFinal(states, actions, i, j);
    }
  }

  lemma {:induction false} ObservedNeverGoesBack(states: seq<State>, actions: seq<Action>, i: nat, j: nat)
    requires IsExecution(states, actions) && i <= j < |states|
    ensures Rank(Observed(states[i])) <= Rank(Observed(states[j]))
  {
    hide Inv, Apply, Enabled;
    LifecycleNeverGoesBack(states, actions, i, j);
    if IsTerminated(states[i]) {
      TerminationIsFinal(states, actions, i, j);
    }
  }

  /** Two calls of `lifecycle()` that do not overlap never see the lifecycle go backwards. */
  lemma ObserversAgree(states: seq<State>, actions: seq<Action>, i: nat, j: nat, k: nat, l: nat)
    requires IsExecution(states, actions) && i <= j <= k <= l < |states|
    ensures var first := Derived(states[i].life, states[j].counts.IsEmpty());
            var second := Derived(states[k].life, states[l].counts.IsEmpty());
            && Rank(first) <= Rank(second)
            && (!first.Running? ==> !second.Running?)
            && (first.Stopping? ==> second.Stopping? || second.Terminated?)
            && (first.Terminated? ==> second.Terminated?)
  {
    hide Inv, Apply, Enabled;
    LifecycleIsLinearizable(states, actions, i, j);
    LifecycleIsLinearizable(states, actions, k, l);
    ObservedNeverGoesBack(states, actions, i, k);
    ObservedNeverGoesBack(states, actions, i, l);
    ObservedNeverGoesBack(states, actions, j, k);
    ObservedNeverGoesBack(states, actions, j, l);
  }

  // ----- waiters

  lemma ParkedIsOwed(s: State, w: nat)
    requires AsyncsOk(s) && SyncsOk(s) && IsTerminated(s)
    ensures w in s.asyncs && s.asyncs[w] == Parked(false) ==> OwesAsync(s.tasks, s.closers)
    ensures w in s.syncs && s.syncs[w].Blocked? ==> OwesSync(s.tasks, s.closers)
  {
    hide OwesAsync, OwesSync, SomeCloserWillCheck;
    assert w in s.asyncs && s.asyncs[w] == Parked(false) ==> !AsyncSafe(s.asyncs[w]);
  }

  /** No lost wake-up: a waiter parked on a terminated service is still owed its notification. */
  lemma ParkedWaitersAreOwed(states: seq<State>, actions: seq<Action>, n: nat, w: nat)
    requires IsExecution(states, actions) && n < |states| && IsTerminated(states[n])
    ensures w in states[n].asyncs && states[n].asyncs[w] == Parked(false) ==>
              OwesAsync(states[n].tasks, states[n].closers)
    ensures w in states[n].syncs && states[n].syncs[w].Blocked? ==> OwesSync(states[n].tasks, states[n].closers)
  {
    hide Inv, Apply, Enabled, OwesAsync, OwesSync, IsTerminated, AsyncsServed, SyncsServed;
    ExecutionsKeepInv(states, actions, n);
    InvParts(states[n]);
    ParkedIsOwed(states[n], w);
  }

  /** Waiters return only from a terminated service, which stays terminated. */
  lemma WaitersReturnOnlyAtTermination(states: seq<State>, actions: seq<Action>, i: nat, j: nat, w: nat)
    requires IsExecution(states, actions) && i <= j < |states|
    requires || (w in states[i].asyncs && states[i].asyncs[w].Resolved?)
             || (w in states[i].syncs && states[i].syncs[w].Unblocked?)
    ensures IsTerminated(states[j])
  {
    hide Inv, Apply, Enabled, OwesAsync, OwesSync;
    ExecutionsKeepInv(states, actions, i);
    InvParts(states[i]);
    TerminationIsFinal(states, actions, i, j);
  }

  /** No lost hint: a retrier parked after Saturated faces a running, full service, or a bump is owed. */
  lemma ParkedRetriersAreOwed(states: seq<State>, actions: seq<Action>, n: nat, th: nat)
    requires IsExecution(states, actions) && n < |states|
    requires th in states[n].submitters && states[n].submitters[th] == Waiting(states[n].generation)
    ensures (states[n].life.Running? && states[n].counts.Total() == states[n].capacity)
            || OwesBump(states[n].tasks, states[n].closers)
  {
    hide Inv, Apply, Enabled, OwesBump;
    ExecutionsKeepInv(states, actions, n);
    InvParts(states[n]);
  }
}
