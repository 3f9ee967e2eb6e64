/** Termination of the IO service: no accepted future outlives it, it is final, and waiters see it. */
module IoTermination {
  import opened Lifecycles
  import opened Selections
  import opened IoTask
  import opened IoModel
  import opened IoInvariant
  import opened IoRuns
  import Steps = IoTaskSteps
  import Closers = IoCloserSteps

  /** What an observer that reads lifecycle and count at once would answer. */
  function Observed(s: State): Lifecycle {
    Derived(s.life, s.active == 0)
  }

  /** The accepted futures whose destructor has not completed. */
  function AliveFutures(s: State): set<nat> {
    set t | t in s.tasks && Alive(s.tasks[t])
  }

  // ----- one step

  lemma TaskOfRun(s: State, t: nat)
    requires Inv(s) && t in s.tasks
    ensures TaskInv(s.tasks[t])
  {
  }

  /** Only a closer that holds admission changes the stored lifecycle. */
  lemma LifecycleFrame(s: State, a: Action)
    requires Enabled(s, a)
    ensures Apply(s, a).life ==
            if a.StoreLifecycle? then (if s.closers[a.closer].stop then Stopping else ShutdownOf(s.life)) else s.life
    ensures Apply(s, a).capacity == s.capacity
  {
    hide CanStepTask, HasEntry, WokenWaiters, Occupying, Step, HandlesAfter, ClosersAfter, Derived;
  }

  lemma LifecycleAdvances(s: State, a: Action)
    requires LifeOk(s) && Enabled(s, a)
    ensures Rank(s.life) <= Rank(Apply(s, a).life) && !Apply(s, a).life.Terminated?
  {
    hide Apply, Enabled;
    LifecycleFrame(s, a);
  }

  lemma AcceptanceNeedsRunning(s: State, a: Action)
    requires LifeOk(s) && Enabled(s, a) && a.Increment?
    ensures s.life.Running?
  {
  }

  /** Count and tasks change only in task steps, in acceptance and when a stop takes the map. */
  lemma TasksFrame(s: State, a: Action)
    requires Enabled(s, a) && !a.OnTask? && !a.Increment?
    ensures Apply(s, a).active == s.active
    ensures Apply(s, a).tasks == if a.TakeHandles? then TakeEntries(s, a.closer).tasks else s.tasks
  {
    hide HasEntry, WokenWaiters, Occupying, Derived;
  }

  // ----- closers

  predicate IsCloserStep(a: Action) {
    || a.Close? || a.StoreLifecycle? || a.Snapshot? || a.ReleaseAdmission? || a.TakeHandles? || a.EndLoop?
    || a.BumpCapacity? || a.NotifyWaiters?
  }

  function CloserOf(a: Action): nat
    requires IsCloserStep(a)
  {
    match a
    case Close(c, _) => c
    case StoreLifecycle(c) => c
    case Snapshot(c) => c
    case ReleaseAdmission(c) => c
    case TakeHandles(c) => c
    case EndLoop(c) => c
    case BumpCapacity(c) => c
    case NotifyWaiters(c) => c
  }

  /** Where a closer step leads. */
  function PcAfter(s: State, a: Action): ClosePc
    requires IsCloserStep(a)
  {
    match a
    case Close(_, _) => Holding
    case StoreLifecycle(_) => Stored
    case Snapshot(_) => Snapped
    case ReleaseAdmission(c) => if c in s.closers && s.closers[c].stop then Unlocked else Bumping
    case TakeHandles(_) => Looping
    case EndLoop(_) => Bumping
    case BumpCapacity(_) => Notifying
    case NotifyWaiters(_) => Reported
  }

  lemma OnlyOneCloserMoves(s: State, a: Action)
    requires Enabled(s, a) && IsCloserStep(a)
    ensures CloserOf(a) in Apply(s, a).closers && Apply(s, a).closers[CloserOf(a)].pc == PcAfter(s, a)
    ensures Apply(s, a).closers == s.closers[CloserOf(a) := Apply(s, a).closers[CloserOf(a)]]
    ensures a.Close? <==> CloserOf(a) !in s.closers
  {
    hide HasEntry, WokenWaiters, Occupying;
    if a.TakeHandles? {
      assert TakeEntries(s, a.closer).closers == s.closers;
    }
  }

  lemma OthersMoveNoCloser(s: State, a: Action)
    requires Enabled(s, a) && !a.OnTask? && !a.Increment? && !IsCloserStep(a)
    ensures Apply(s, a).closers == s.closers
  {
    hide Derived;
  }

  // ----- accepted futures

  lemma AliveOccupies(k: Task)
    requires TaskInv(k)
    ensures Alive(k) ==> Occupies(k)
    ensures k.entry.InMap? ==> Occupies(k)
  {
  }

  lemma NothingOccupiesAtZero(s: State, t: nat)
    requires CountOk(s) && s.active == 0 && t in s.tasks
    ensures !Occupies(s.tasks[t])
  {
    hide Occupies, Occupying;
    if Occupies(s.tasks[t]) {
      CountIsPositive(s.tasks, t);
    }
  }

  lemma NothingIsAliveAtZero(s: State)
    requires TasksOk(s) && CountOk(s) && s.active == 0
    ensures forall t :: t in s.tasks ==> !Alive(s.tasks[t]) && !Occupies(s.tasks[t]) && !s.tasks[t].entry.InMap?
  {
    hide TaskInv, Occupies, Counted, Alive;
    forall t | t in s.tasks
      ensures !Alive(s.tasks[t]) && !Occupies(s.tasks[t]) && !s.tasks[t].entry.InMap?
    {
      AliveOccupies(s.tasks[t]);
      NothingOccupiesAtZero(s, t);
    }
  }

  lemma OnTaskIsStable(s: State, t: nat, x: TaskStep)
    requires Inv(s) && Enabled(s, OnTask(t, x)) && s.active == 0
    ensures Apply(s, OnTask(t, x)).active == 0
    ensures Apply(s, OnTask(t, x)).tasks.Keys == s.tasks.Keys
  {
    hide Inv, StepTask, Step, TaskInv, Counted;
    InvParts(s);
    Steps.StepFrame(s, t, x);
    if x == OnGuard(Decrement) {
      Steps.DecrementNeverWraps(s, t);
    }
  }

  /** No step of any party leads out of termination or accepts a future. */
  lemma TerminationIsStable(s: State, a: Action)
    requires Inv(s) && Enabled(s, a) && IsTerminated(s)
    ensures IsTerminated(Apply(s, a)) && Apply(s, a).tasks.Keys == s.tasks.Keys
  {
    hide Inv, TaskInv, Apply, Enabled, CanStepTask, StepTask, TakeEntries;
    InvParts(s);
    LifecycleAdvances(s, a);
    if a.OnTask? {
      OnTaskIsStable(s, a.task, a.step);
    } else if a.Increment? {
      AcceptanceNeedsRunning(s, a);
    } else {
      TasksFrame(s, a);
      Closers.TakenTasks(s, if a.TakeHandles? then a.closer else 0);
    }
  }

  lemma AliveFitInCapacity(s: State)
    requires Inv(s)
    ensures AliveFutures(s) <= Occupying(s.tasks)
    ensures s.active == |Occupying(s.tasks)| <= s.capacity
  {
    hide Inv, TaskInv, Alive, Occupies;
    InvParts(s);
    forall t | t in AliveFutures(s)
      ensures t in Occupying(s.tasks)
    {
      AliveOccupies(s.tasks[t]);
    }
  }

  lemma {:induction false} CapacityIsFixed(states: seq<State>, actions: seq<Action>, n: nat)
    requires IsRun(states, actions) && n < |states|
    ensures states[n].capacity == states[0].capacity
  {
    hide Apply, Enabled;
    if n > 0 {
      CapacityIsFixed(states, actions, n - 1);
      LifecycleFrame(states[n - 1], actions[n - 1]);
    }
  }

  /** In every reachable state the atomic count is the number of occupied slots, and a slot stays occupied until
      the destructor of its user future has completed: live futures <= active <= capacity. */
  lemma LiveFuturesFitInCapacity(states: seq<State>, actions: seq<Action>, n: nat)
    requires IsExecution(states, actions) && n < |states|
    ensures AliveFutures(states[n]) <= Occupying(states[n].tasks)
    ensures forall t :: t in states[n].tasks && !states[n].tasks[t].future.Destroyed? ==> t in AliveFutures(states[n])
    ensures |AliveFutures(states[n])| <= states[n].active == |Occupying(states[n].tasks)| <= states[0].capacity
  {
    hide Inv, Apply, Enabled, Occupying, AliveFutures;
    ExecutionsKeepInv(states, actions, n);
    CapacityIsFixed(states, actions, n);
    AliveFitInCapacity(states[n]);
    SubsetIsNoLarger(AliveFutures(states[n]), Occupying(states[n].tasks));
    UndestroyedIsAlive(states[n]);
  }

  lemma UndestroyedIsAlive(s: State)
    ensures forall t :: t in s.tasks && !s.tasks[t].future.Destroyed? ==> t in AliveFutures(s)
  {
  }

  /** No decrement of any run wraps, and it happens only after the user future is gone. */
  lemma CountNeverWraps(states: seq<State>, actions: seq<Action>, i: nat)
    requires IsExecution(states, actions) && i < |actions| && actions[i].OnTask?
    requires actions[i].step == OnGuard(Decrement)
    ensures states[i].active > 0 && states[i + 1].active == states[i].active - 1
    ensures !Alive(states[i].tasks[actions[i].task])
  {
    hide Inv, StepTask, Step, AllTasks, Counted;
    ExecutionsKeepInv(states, actions, i);
    InvParts(states[i]);
    Steps.DecrementNeverWraps(states[i], actions[i].task);
    Steps.StepFrame(states[i], actions[i].task, actions[i].step);
    DecrementFollowsDestruction(states[i], actions[i].task);
  }

  lemma DecrementFollowsDestruction(s: State, t: nat)
    requires TasksOk(s) && CanStepTask(s, t, OnGuard(Decrement))
    ensures !Alive(s.tasks[t])
  {
    hide TaskInv, Step;
    StepMoves(s.tasks[t], OnGuard(Decrement));
  }

  /** Admission: a thread past the running check faces a running service, is rejected as saturated exactly when
      the service is full, and still finds room when it increments the count. */
  lemma AdmissionVerdictsAreExact(states: seq<State>, actions: seq<Action>, i: nat)
    requires IsExecution(states, actions) && i < |actions|
    ensures actions[i].CheckCapacity? ==>
              && states[i].life.Running?
              && (states[i + 1].submitters[actions[i].thread].Full? <==> |Occupying(states[i].tasks)| == states[i].capacity)
    ensures actions[i].Increment? ==> states[i].life.Running? && |Occupying(states[i].tasks)| < states[i].capacity
  {
    hide Inv, Apply, Enabled, Occupying;
    ExecutionsKeepInv(states, actions, i);
    if actions[i].CheckCapacity? {
      CapacityVerdict(states[i], actions[i]);
    } else if actions[i].Increment? {
      RoomLasts(states[i], actions[i]);
    }
  }

  lemma CapacityVerdict(s: State, a: Action)
    requires Inv(s) && Enabled(s, a) && a.CheckCapacity?
    ensures s.life.Running? && a.thread in Apply(s, a).submitters
    ensures Apply(s, a).submitters[a.thread].Full? <==> |Occupying(s.tasks)| == s.capacity
  {
    hide AllTasks, DistinctAddresses, ExactMap, Owned, HonestReports, WaitersServed, HintsServed, InAdmission,
         Occupying;
  }

  lemma RoomLasts(s: State, a: Action)
    requires Inv(s) && Enabled(s, a) && a.Increment?
    ensures s.life.Running? && |Occupying(s.tasks)| < s.capacity
  {
    hide AllTasks, DistinctAddresses, ExactMap, Owned, HonestReports, WaitersServed, HintsServed, InAdmission,
         Occupying;
    assert AboutToIncrement(s.submitters, s.admission);
  }

  // ----- every slot is released exactly once

  predicate IsReleased(s: State, t: nat) {
    t in s.tasks && !Occupies(s.tasks[t])
  }

  predicate Releases(a: Action, t: nat) {
    a.OnTask? && a.task == t && a.step == OnGuard(Decrement)
  }

  function ReleaseCount(actions: seq<Action>, t: nat, n: nat): nat
    requires n <= |actions|
  {
    if n == 0 then 0 else ReleaseCount(actions, t, n - 1) + if Releases(actions[n - 1], t) then 1 else 0
  }

  lemma TaskStepReleases(s: State, u: nat, x: TaskStep, t: nat)
    requires Inv(s) && Enabled(s, OnTask(u, x))
    ensures IsReleased(Apply(s, OnTask(u, x)), t) <==> IsReleased(s, t) || Releases(OnTask(u, x), t)
    ensures Releases(OnTask(u, x), t) ==> !IsReleased(s, t)
  {
    hide Inv, StepTask, Step, TaskInv, Occupies;
    TaskOfRun(s, u);
    Steps.StepFrame(s, u, x);
    StepMoves(s.tasks[u], x);
  }

  lemma IncrementReleasesNothing(s: State, a: Action, t: nat)
    requires Enabled(s, a) && a.Increment?
    ensures IsReleased(Apply(s, a), t) <==> IsReleased(s, t)
  {
    NewTaskInv(a.thread);
    hide Occupies;
  }

  lemma TakeReleasesNothing(s: State, c: nat, t: nat)
    requires Inv(s)
    ensures IsReleased(TakeEntries(s, c), t) <==> IsReleased(s, t)
  {
    hide Inv, TakeEntries, Occupies, ExactMap;
    InvParts(s);
    Closers.TakenTasks(s, c);
    if t in s.tasks {
      Closers.TakenKeepsEachTask(s, c, t);
    }
  }

  lemma StepReleases(s: State, a: Action, t: nat)
    requires Inv(s) && Enabled(s, a)
    ensures IsReleased(Apply(s, a), t) <==> IsReleased(s, t) || Releases(a, t)
    ensures Releases(a, t) ==> !IsReleased(s, t)
  {
    hide Inv, Apply, Enabled, TakeEntries, Occupies;
    if a.OnTask? {
      TaskStepReleases(s, a.task, a.step, t);
    } else if a.Increment? {
      IncrementReleasesNothing(s, a, t);
    } else {
      TasksFrame(s, a);
      if a.TakeHandles? {
        TakeReleasesNothing(s, a.closer, t);
      }
    }
  }

  /** On every exit path (completion, abort, failed hand-off, closed runtime) a slot is released exactly once. */
  lemma {:induction false} SlotIsReleasedExactlyOnce(states: seq<State>, actions: seq<Action>, t: nat, n: nat)
    requires IsExecution(states, actions) && n < |states|
    ensures ReleaseCount(actions, t, n) == if IsReleased(states[n], t) then 1 else 0
  {
    hide Inv, Apply, Enabled, Releases, Occupies;
    if n > 0 {
      SlotIsReleasedExactlyOnce(states, actions, t, n - 1);
      ExecutionsKeepInv(states, actions, n - 1);
      StepReleases(states[n - 1], actions[n - 1], t);
    }
  }

  // ----- termination over runs

  /** Once terminated, always terminated: nothing is accepted and no accepted future is alive any more. */
  lemma {:induction false} TerminationIsFinal(states: seq<State>, actions: seq<Action>, i: nat, j: nat)
    requires IsExecution(states, actions) && i <= j < |states| && IsTerminated(states[i])
    ensures IsTerminated(states[j]) && states[j].tasks.Keys == states[i].tasks.Keys
    ensures AliveFutures(states[j]) == {} && states[j].handles == map[]
    ensures forall t :: t in states[j].tasks ==> states[j].tasks[t].future.Destroyed?
    decreases j
  {
    hide Inv, Apply, Enabled, AliveFutures;
    ExecutionsKeepInv(states, actions, j);
    if i < j {
      TerminationIsFinal(states, actions, i, j - 1);
      ExecutionsKeepInv(states, actions, j - 1);
      TerminationIsStable(states[j - 1], actions[j - 1]);
    }
    NothingLivesAtTermination(states[j]);
    UndestroyedIsAlive(states[j]);
  }

  lemma NothingLivesAtTermination(s: State)
    requires Inv(s) && IsTerminated(s)
    ensures AliveFutures(s) == {} && s.handles == map[]
  {
    hide Inv, Alive, TaskInv, Occupies, Counted;
    InvParts(s);
    NothingIsAliveAtZero(s);
    assert forall a :: a !in s.handles;
  }

  lemma {:induction false} LifecycleNeverGoesBack(states: seq<State>, actions: seq<Action>, i: nat, j: nat)
    requires IsExecution(states, actions) && i <= j < |states|
    ensures Rank(states[i].life) <= Rank(states[j].life) && !states[j].life.Terminated?
    ensures !states[i].life.Running? ==> !states[j].life.Running?
    ensures states[i].life.Stopping? ==> states[j].life.Stopping?
    decreases j
  {
    hide Inv, Apply, Enabled;
    if i < j {
      LifecycleNeverGoesBack(states, actions, i, j - 1);
      ExecutionsKeepInv(states, actions, j - 1);
      InvParts(states[j - 1]);
      LifecycleAdvances(states[j - 1], actions[j - 1]);
    } else {
      ExecutionsKeepInv(states, actions, j);
      StoredIsNeverTerminated(states[j]);
    }
  }

  lemma StoredIsNeverTerminated(s: State)
    requires Inv(s)
    ensures !s.life.Terminated?
  {
  }

  /** `lifecycle()` reads the stored lifecycle at i and the count at j.  A Terminated answer was true at the count
      read, every other answer was true at the lifecycle load. */
  lemma LifecycleIsLinearizable(states: seq<State>, actions: seq<Action>, i: nat, j: nat)
    requires IsExecution(states, actions) && i <= j < |states|
    ensures var answer := Derived(states[i].life, states[j].active == 0);
            if answer.Terminated? then IsTerminated(states[j])
            else answer == states[i].life && !IsTerminated(states[i])
    ensures var answer := Derived(states[i].life, states[j].active == 0);
            if answer.Terminated? then Observed(states[j]) == answer else Observed(states[i]) == answer
  {
    hide Inv, Apply, Enabled, AliveFutures;
    LifecycleNeverGoesBack(states, actions, i, j);
    LifecycleNeverGoesBack(states, actions, i, i);
    if IsTerminated(states[i]) {
      TerminationIsFinal(states, actions, i, j);
    }
  }

  lemma ObservedNeverGoesBack(states: seq<State>, actions: seq<Action>, i: nat, j: nat)
    requires IsExecution(states, actions) && i <= j < |states|
    ensures Rank(Observed(states[i])) <= Rank(Observed(states[j]))
  {
    hide Inv, Apply, Enabled, AliveFutures;
    LifecycleNeverGoesBack(states, actions, i, j);
    if IsTerminated(states[i]) {
      TerminationIsFinal(states, actions, i, j);
    }
  }

  /** Two calls of `lifecycle()` that do not overlap never see the lifecycle go backwards. */
  lemma ObserversAgree(states: seq<State>, actions: seq<Action>, i: nat, j: nat, k: nat, l: nat)
    requires IsExecution(states, actions) && i <= j <= k <= l < |states|
    ensures var first := Derived(states[i].life, states[j].active == 0);
            var second := Derived(states[k].life, states[l].active == 0);
            && Rank(first) <= Rank(second)
            && (!first.Running? ==> !second.Running?)
            && (first.Stopping? ==> second.Stopping? || second.Terminated?)
            && (first.Terminated? ==> second.Terminated?)
  {
    hide Inv, Apply, Enabled, IsExecution;
    LifecycleIsLinearizable(states, actions, i, j);
    LifecycleIsLinearizable(states, actions, k, l);
    ObservedNeverGoesBack(states, actions, i, k);
    ObservedNeverGoesBack(states, actions, i, l);
    ObservedNeverGoesBack(states, actions, j, k);
    ObservedNeverGoesBack(states, actions, j, l);
  }

  // ----- waiters

  lemma ParkedIsOwed(s: State, w: nat)
    requires WaitersOk(s) && IsTerminated(s)
    ensures w in s.waiters && s.waiters[w] == Parked(false) ==> OwesNotify(s.tasks, s.closers)
  {
    hide OwesNotify;
    assert w in s.waiters && s.waiters[w] == Parked(false) ==> !WaiterSafe(s.waiters[w]);
  }

  /** No lost wake-up: a parked await_termination faces a service that is not terminated, or some closer or guard
      still owes its notification. */
  lemma ParkedWaitersAreOwed(states: seq<State>, actions: seq<Action>, n: nat, w: nat)
    requires IsExecution(states, actions) && n < |states|
    requires w in states[n].waiters && states[n].waiters[w] == Parked(false)
    ensures !IsTerminated(states[n]) || OwesNotify(states[n].tasks, states[n].closers)
  {
    hide Inv, Apply, Enabled, OwesNotify, WaitersServed;
    ExecutionsKeepInv(states, actions, n);
    InvParts(states[n]);
    if IsTerminated(states[n]) {
      ParkedIsOwed(states[n], w);
    }
  }

  /** await_termination returns only from a terminated service, which stays terminated. */
  lemma WaitersReturnOnlyAtTermination(states: seq<State>, actions: seq<Action>, i: nat, j: nat, w: nat)
    requires IsExecution(states, actions) && i <= j < |states|
    requires w in states[i].waiters && states[i].waiters[w].Resolved?
    ensures IsTerminated(states[j]) && AliveFutures(states[j]) == {}
  {
    hide Inv, Apply, Enabled, OwesNotify, AliveFutures;
    ExecutionsKeepInv(states, actions, i);
    InvParts(states[i]);
    TerminationIsFinal(states, actions, i, j);
  }

  /** No lost hint: a retrier parked after Saturated faces a running, full service, or a bump is owed. */
  lemma ParkedRetriersAreOwed(states: seq<State>, actions: seq<Action>, n: nat, th: nat)
    requires IsExecution(states, actions) && n < |states|
    requires th in states[n].submitters && states[n].submitters[th] == Parking(states[n].generation)
    ensures (states[n].life.Running? && states[n].active == states[n].capacity)
            || OwesBump(states[n].tasks, states[n].closers)
  {
    hide Inv, Apply, Enabled, OwesBump;
    ExecutionsKeepInv(states, actions, n);
    InvParts(states[n]);
  }
}
