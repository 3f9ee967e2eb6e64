/** What a `stop` call of the blocking service guarantees, over whole runs. */
module BlockingStop {
  import opened Selections
  import opened BlockingTask
  import opened BlockingTaskFacts
  import opened BlockingModel
  import opened BlockingInvariant
  import opened BlockingRuns
  import opened BlockingTermination
  import opened BlockingAccounting
  import TaskSteps = BlockingTaskSteps
  import CloserSteps = BlockingCloserSteps

  /** A stop between storing its lifecycle and leaving its abort loop. */
  predicate IsSweeping(c: Closer) {
    c.stop && (c.pc.Stored? || c.pc.Snapping? || c.pc.Snapped? || c.pc.Unlocked? || c.pc.Looping?)
  }

  predicate NobodySweeps(s: State) {
    forall c :: c in s.closers ==> !IsSweeping(s.closers[c])
  }

  predicate HasReturned(s: State, c: nat) {
    c in s.closers && s.closers[c].stop && s.closers[c].pc.Reported?
  }

  // ----- the cut-off at one state

  lemma EntryCases(k: Task)
    requires TaskInv(k)
    ensures k.entry.Unregistered? ==> InAdmission(k)
    ensures k.entry.NoEntry? ==> k.won || NeverRuns(k)
    ensures k.entry.Unregistered? || k.entry.InMap? || k.entry.NoEntry? || exists c :: HasHook(k, c)
  {
    if !(k.entry.Unregistered? || k.entry.InMap? || k.entry.NoEntry?) {
      assert HasHook(k, k.entry.closer);
    }
  }

  lemma CutOffAt(s: State, t: nat)
    requires TasksOk(s) && MapOk(s) && LifeOk(s) && StopOk(s)
    requires s.life.Stopping? && NobodySweeps(s) && t in s.tasks
    ensures s.tasks[t].won || NeverRuns(s.tasks[t])
  {
    hide TaskInv, HasHook, InAdmission, NeverRuns;
    EntryCases(s.tasks[t]);
    if c :| HasHook(s.tasks[t], c) {
      assert IsLooping(s.closers, c);
    }
    assert s.handles == map[];
  }

  // ----- stability

  lemma NeverRunsIsStable(s: State, a: Action, t: nat)
    requires Inv(s) && Enabled(s, a) && t in s.tasks
    ensures t in Apply(s, a).tasks
    ensures NeverRuns(s.tasks[t]) ==> NeverRuns(Apply(s, a).tasks[t])
    ensures s.tasks[t].releasedBy.ByTheHook? ==> Apply(s, a).tasks[t].releasedBy == s.tasks[t].releasedBy
    ensures s.tasks[t].releasedBy.ByTheHook? && s.tasks[t].entry.NoEntry? ==> Apply(s, a).tasks[t].entry.NoEntry?
  {
    hide Inv, Apply, Enabled, TaskInv, Step, NeverRuns, StepTask, TakeEntries, AllTasks, ExactMap;
    if a.OnTask? {
      TaskStability(s, a.task, a.step, t);
    } else if a.TryAccept? {
      AcceptStability(s, a, t);
    } else {
      TasksFrame(s, a);
      if a.TakeHandles? {
        InvParts(s);
        CloserSteps.TakenTasks(s, a.closer);
        TakenStability(s.tasks[t], a.closer);
      }
    }
  }

  lemma TakenStability(k: Task, c: nat)
    ensures NeverRuns(k.(entry := Taken(c))) <==> NeverRuns(k)
  {
  }

  lemma AcceptStability(s: State, a: Action, t: nat)
    requires Enabled(s, a) && a.TryAccept? && t in s.tasks
    ensures t in Apply(s, a).tasks && Apply(s, a).tasks[t] == s.tasks[t]
  {
  }

  lemma TaskStability(s: State, u: nat, x: TaskStep, t: nat)
    requires Inv(s) && Enabled(s, OnTask(u, x)) && t in s.tasks
    ensures t in Apply(s, OnTask(u, x)).tasks
    ensures NeverRuns(s.tasks[t]) ==> NeverRuns(Apply(s, OnTask(u, x)).tasks[t])
    ensures s.tasks[t].releasedBy.ByTheHook? ==> Apply(s, OnTask(u, x)).tasks[t].releasedBy == s.tasks[t].releasedBy
    ensures s.tasks[t].releasedBy.ByTheHook? && s.tasks[t].entry.NoEntry? ==> Apply(s, OnTask(u, x)).tasks[t].entry.NoEntry?
  {
    hide Inv, TaskInv, Step, NeverRuns, StepTask, PhaseOf, HasHook, Live;
    TaskOfRun(s, u);
    TaskSteps.StepFrame(s, u, x);
    StepMoves(s.tasks[u], x);
  }

  lemma {:induction false} NeverRunsForever(states: seq<State>, actions: seq<Action>, i: nat, j: nat, t: nat)
    requires IsExecution(states, actions) && i <= j < |states| && t in states[i].tasks
    ensures t in states[j].tasks
    ensures NeverRuns(states[i].tasks[t]) ==> NeverRuns(states[j].tasks[t])
    ensures states[i].tasks[t].releasedBy.ByTheHook? ==> states[j].tasks[t].releasedBy == states[i].tasks[t].releasedBy
    ensures states[i].tasks[t].releasedBy.ByTheHook? && states[i].tasks[t].entry.NoEntry? ==>
              states[j].tasks[t].entry.NoEntry?
    decreases j
  {
    hide Inv, Apply, Enabled, NeverRuns;
    if i < j {
      NeverRunsForever(states, actions, i, j - 1, t);
      ExecutionsKeepInv(states, actions, j - 1);
      NeverRunsIsStable(states[j - 1], actions[j - 1], t);
    }
  }

  lemma ClosedServiceAcceptsNothing(s: State, a: Action)
    requires Inv(s) && Enabled(s, a) && !s.life.Running?
    ensures Apply(s, a).tasks.Keys == s.tasks.Keys
  {
    hide Inv, Apply, Enabled, StepTask, TakeEntries, TaskInv;
    InvParts(s);
    if a.OnTask? {
      OnTaskKeepsKeys(s, a);
    } else if a.TryAccept? {
      AcceptanceNeedsRunning(s, a);
    } else {
      TasksFrame(s, a);
      CloserSteps.TakenTasks(s, if a.TakeHandles? then a.closer else 0);
    }
  }

  lemma OnTaskKeepsKeys(s: State, a: Action)
    requires Enabled(s, a) && a.OnTask?
    ensures Apply(s, a).tasks.Keys == s.tasks.Keys
  {
    hide StepTask, Step;
    TaskSteps.StepFrame(s, a.task, a.step);
  }

  lemma {:induction false} NothingAcceptedAfterClose(states: seq<State>, actions: seq<Action>, i: nat, j: nat)
    requires IsExecution(states, actions) && i <= j < |states| && !states[i].life.Running?
    ensures states[j].tasks.Keys == states[i].tasks.Keys && !states[j].life.Running?
    decreases j
  {
    hide Inv, Apply, Enabled;
    if i < j {
      NothingAcceptedAfterClose(states, actions, i, j - 1);
      ExecutionsKeepInv(states, actions, j - 1);
      ClosedServiceAcceptsNothing(states[j - 1], actions[j - 1]);
      LifecycleNeverGoesBack(states, actions, i, j);
    }
  }

  // ----- the guarantees

  /** Once a stop has returned and no other stop is sweeping, a task that had not won mark_started never runs
      its body, however the run goes on. */
  lemma StopCutsOff(states: seq<State>, actions: seq<Action>, i: nat, j: nat, c: nat, t: nat)
    requires IsExecution(states, actions) && i <= j < |states|
    requires HasReturned(states[i], c) && NobodySweeps(states[i])
    requires t in states[j].tasks
    ensures t in states[i].tasks
    ensures states[i].tasks[t].won || !states[j].tasks[t].ran
  {
    hide Inv, Apply, Enabled, TaskInv, AllTasks, Counted, DistinctAddresses, ExactMap, Exclusive, Swept,
         HonestReports, AsyncsServed, SyncsServed, HintsServed, GenerationsSeen, NobodySweeps, NeverRuns;
    ExecutionsKeepInv(states, actions, i);
    InvParts(states[i]);
    assert states[i].life.Stopping?;
    NothingAcceptedAfterClose(states, actions, i, j);
    CutOffAt(states[i], t);
    NeverRunsForever(states, actions, i, j, t);
    NeverRunsMeansNotRan(states[j].tasks[t]);
  }

  lemma NeverRunsMeansNotRan(k: Task)
    ensures NeverRuns(k) ==> !k.ran
  {
  }

  lemma ReportOfInv(s: State, c: nat)
    requires ReportsOk(s) && c in s.closers
    ensures HonestReport(s.tasks, c, s.closers[c])
  {
    hide HonestReport;
  }

  /** A stop report never claims more cancellations than tasks were queued at its snapshot. */
  lemma CancelledIsAtMostQueued(states: seq<State>, actions: seq<Action>, n: nat, c: nat)
    requires IsExecution(states, actions) && n < |states| && c in states[n].closers
    ensures states[n].closers[c].cancelled <= states[n].closers[c].queued
  {
    hide Inv, Apply, Enabled, HonestReports;
    ExecutionsKeepInv(states, actions, n);
    InvParts(states[n]);
    ReportOfInv(states[n], c);
    SubsetIsNoLarger(states[n].closers[c].counted, states[n].closers[c].snap);
  }

  /** No task is counted by two stop calls, not even at different times of a run. */
  lemma NoTaskIsCountedTwice(states: seq<State>, actions: seq<Action>, i: nat, j: nat, c: nat, d: nat, t: nat)
    requires IsExecution(states, actions) && i <= j < |states|
    requires c in states[i].closers && d in states[j].closers
    requires t in states[i].closers[c].counted && t in states[j].closers[d].counted
    ensures c == d
  {
    hide Inv, Apply, Enabled, HonestReports;
    ExecutionsKeepInv(states, actions, i);
    ExecutionsKeepInv(states, actions, j);
    InvParts(states[i]);
    InvParts(states[j]);
    ReportOfInv(states[i], c);
    ReportOfInv(states[j], d);
    NeverRunsForever(states, actions, i, j, t);
  }

  /** A graceful shutdown cancels nothing: as long as no stop has published its lifecycle, no task was finished by
      an abort hook and no report counts anything. */
  lemma ShutdownCancelsNothing(states: seq<State>, actions: seq<Action>, n: nat)
    requires IsExecution(states, actions) && n < |states| && !states[n].life.Stopping?
    ensures forall t :: t in states[n].tasks ==> !states[n].tasks[t].releasedBy.ByTheHook?
    ensures forall c :: c in states[n].closers ==> states[n].closers[c].cancelled == 0
  {
    hide Inv, Apply, Enabled, HonestReport;
    ExecutionsKeepInv(states, actions, n);
    InvParts(states[n]);
    forall c | c in states[n].closers
      ensures states[n].closers[c].cancelled == 0
    {
      EmptyReport(states[n], c);
    }
  }

  lemma EmptyReport(s: State, c: nat)
    requires ReportsOk(s) && LifeOk(s) && !s.life.Stopping? && c in s.closers
    ensures s.closers[c].cancelled == 0
  {
    ReportOfInv(s, c);
    hide HonestReports;
    assert !HasSnapshot(s.closers[c]);
  }

  lemma HookedNeverRuns(k: Task)
    requires TaskInv(k) && k.releasedBy.ByTheHook?
    ensures NeverRuns(k)
  {
  }

  /** The body of a counted task never runs, its accounting was finished by the stop that counted it, and the handle
      of a callable sees its result cancelled. */
  lemma CountedTasksNeverRun(states: seq<State>, actions: seq<Action>, i: nat, j: nat, c: nat, t: nat)
    requires IsExecution(states, actions) && i <= j < |states|
    requires c in states[i].closers && t in states[i].closers[c].counted
    ensures t in states[j].tasks && !states[j].tasks[t].ran && !states[j].tasks[t].won
    ensures states[j].tasks[t].releasedBy == ByTheHook(c)
    ensures !states[j].tasks[t].kind.Runnable? ==>
              states[j].tasks[t].endpoint.EndpointCancelled? && !states[j].tasks[t].slotFull
  {
    hide Inv, Apply, Enabled, TaskInv, HonestReports, NeverRuns;
    ExecutionsKeepInv(states, actions, i);
    InvParts(states[i]);
    ReportOfInv(states[i], c);
    NeverRunsForever(states, actions, i, j, t);
    ExecutionsKeepInv(states, actions, j);
    TaskOfRun(states[j], t);
    HookedNeverRuns(states[j].tasks[t]);
    NeverRunsMeansNotRan(states[j].tasks[t]);
    HookedNeverWon(states[j].tasks[t]);
    if !states[j].tasks[t].kind.Runnable? {
      HookedIsCancelled(states[j].tasks[t]);
    }
  }

  lemma HookedIsCancelled(k: Task)
    requires TaskInv(k) && k.releasedBy.ByTheHook? && k.entry.NoEntry? && !k.kind.Runnable?
    ensures k.endpoint.EndpointCancelled? && !k.slotFull
  {
  }

  lemma HookedNeverWon(k: Task)
    requires TaskInv(k) && k.releasedBy.ByTheHook?
    ensures !k.won
  {
  }
}
