/** `await_termination` of the blocking service: its loop, run beside an arbitrary run of the service. */
module BlockingAwait {
  import opened Lifecycles
  import opened TaskCounts
  import opened BlockingTask
  import opened BlockingModel
  import opened BlockingInvariant
  import opened BlockingRuns
  import opened BlockingTermination
  import TaskSteps = BlockingTaskSteps
  import opened BlockingCloserSteps
  import opened TimedWait

  /** The steps that fire every enabled notification. */
  predicate Notifies(a: Action) {
    a.NotifyAsync? || (a.OnTask? && a.step == OnRelease(WakeAsync))
  }

  // ----- a notification that is owed stays owed until it is paid

  lemma OpenClosersOwe(cl: Closer)
    ensures cl.pc.Holding? || cl.pc.Reported? || CloserOwesAsync(cl)
  {
  }

  lemma ExaminersFindIt(s: State, a: Action)
    requires LifeOk(s) && Enabled(s, a) && a.CheckTerminated? && IsTerminated(s)
    ensures PcAfter(s, a).NotifyingSync?
  {
    hide InAdmission;
  }

  lemma ClosersStayOpen(s: State, a: Action)
    requires LifeOk(s) && Enabled(s, a) && IsCloserStep(a) && IsTerminated(s) && !a.NotifyAsync? && !a.Close?
    ensures !PcAfter(s, a).Reported? && !PcAfter(s, a).Holding?
  {
    hide IsTerminated, Enabled, LifeOk;
    if a.CheckTerminated? {
      ExaminersFindIt(s, a);
    }
  }

  /** At termination a closer keeps its debt through its check, and hands it from one notification to the next. */
  lemma CloserKeepsItsDebt(s: State, a: Action)
    requires LifeOk(s) && Enabled(s, a) && IsCloserStep(a) && IsTerminated(s) && !a.NotifyAsync?
    requires CloserOf(a) in s.closers
    ensures CloserOf(a) in Apply(s, a).closers && CloserOwesAsync(Apply(s, a).closers[CloserOf(a)])
  {
    hide Apply, Enabled, IsTerminated, PcAfter, CloserOf, IsCloserStep, CloserOwesAsync, LifeOk;
    OnlyOneCloserMoves(s, a);
    ClosersStayOpen(s, a);
    OpenClosersOwe(Apply(s, a).closers[CloserOf(a)]);
  }

  lemma CloserStepKeepsDebt(s: State, a: Action)
    requires Inv(s) && Enabled(s, a) && IsCloserStep(a) && IsTerminated(s) && !a.NotifyAsync?
    requires OwesAsync(s.tasks, s.closers)
    ensures OwesAsync(Apply(s, a).tasks, Apply(s, a).closers)
  {
    hide Inv, Apply, Enabled, OwesAsync, TakeEntries, IsTerminated, CloserOwesAsync, ExactMap, Staged;
    InvParts(s);
    var c := CloserOf(a);
    OnlyOneCloserMoves(s, a);
    var cl := Apply(s, a).closers[c];
    if c in s.closers && CloserOwesAsync(s.closers[c]) {
      CloserKeepsItsDebt(s, a);
    }
    TasksFrame(s, a);
    if a.TakeHandles? {
      TakeKeepsDebts(s, c);
    }
    AsyncDebtMoves(Apply(s, a).tasks, s.closers, c, cl);
  }

  lemma TaskStepKeepsDebt(s: State, a: Action)
    requires Inv(s) && Enabled(s, a) && IsTerminated(s) && a.OnTask? && !Notifies(a) && OwesAsync(s.tasks, s.closers)
    ensures OwesAsync(Apply(s, a).tasks, Apply(s, a).closers)
  {
    hide Inv, StepTask, OwesAsync, AllTasks, Counts.IsEmpty;
    InvParts(s);
    TaskSteps.VerdictIsTermination(s, a.task, a.step);
    TaskSteps.AsyncDebtKept(s, a.task, a.step);
  }

  lemma DebtIsKept(s: State, a: Action)
    requires Inv(s) && Enabled(s, a) && IsTerminated(s) && !Notifies(a) && OwesAsync(s.tasks, s.closers)
    ensures OwesAsync(Apply(s, a).tasks, Apply(s, a).closers)
  {
    hide Inv, Apply, Enabled, OwesAsync, Staged;
    if a.OnTask? {
      TaskStepKeepsDebt(s, a);
    } else if a.TryAccept? {
      LifeOfInv(s);
      AcceptanceNeedsRunning(s, a);
    } else if IsCloserStep(a) {
      CloserStepKeepsDebt(s, a);
    } else {
      TasksFrame(s, a);
      ThreadFrame(s, a);
    }
  }

  // ----- whoever completes termination owes the notification

  lemma StoringOwes(s: State, a: Action)
    requires Enabled(s, a) && a.StoreLifecycle?
    ensures OwesAsync(Apply(s, a).tasks, Apply(s, a).closers)
  {
    assert Apply(s, a).closers[a.closer].pc.Stored?;
    AsyncDebtMoves(s.tasks, s.closers, a.closer, Apply(s, a).closers[a.closer]);
    hide OwesAsync;
  }

  lemma TaskStepOwes(s: State, a: Action)
    requires Inv(s) && Enabled(s, a) && a.OnTask? && !IsTerminated(s) && IsTerminated(Apply(s, a))
    ensures OwesAsync(Apply(s, a).tasks, Apply(s, a).closers)
  {
    hide Inv, StepTask, OwesAsync, OwesSync, AllTasks, Counted, Counts.IsEmpty;
    InvParts(s);
    TaskSteps.StepFrame(s, a.task, a.step);
    TaskSteps.EmptyStaysEmpty(s, a.task, a.step);
    TaskSteps.VerdictIsTermination(s, a.task, a.step);
    TaskSteps.SyncDebtKept(s, a.task, a.step);
    TaskSteps.SyncDebtIsAsyncDebt(Apply(s, a));
  }

  lemma AcceptanceIsNotTermination(s: State, a: Action)
    requires Inv(s) && Enabled(s, a) && a.TryAccept?
    ensures !IsTerminated(Apply(s, a))
  {
    hide Inv, Apply, Enabled, Staged;
    LifeOfInv(s);
    AcceptanceNeedsRunning(s, a);
    LifecycleFrame(s, a);
  }

  lemma TerminationIsOwed(s: State, a: Action)
    requires Inv(s) && Enabled(s, a) && !IsTerminated(s) && IsTerminated(Apply(s, a))
    ensures OwesAsync(Apply(s, a).tasks, Apply(s, a).closers)
  {
    hide Inv, Apply, Enabled, OwesAsync;
    if a.OnTask? {
      TaskStepOwes(s, a);
    } else if a.StoreLifecycle? {
      StoringOwes(s, a);
    } else if a.TryAccept? {
      AcceptanceIsNotTermination(s, a);
    } else {
      TasksFrame(s, a);
      LifecycleFrame(s, a);
    }
  }

  /** A service that becomes terminated without notifying owes the notification as long as it does not. */
  lemma {:induction false} NoLostNotification(states: seq<State>, actions: seq<Action>, m: nat, n: nat)
    requires IsExecution(states, actions) && m <= n < |states| && !IsTerminated(states[m])
    requires forall i :: m <= i < n ==> !Notifies(actions[i])
    ensures IsTerminated(states[n]) ==> OwesAsync(states[n].tasks, states[n].closers)
    decreases n
  {
    hide Inv, Apply, Enabled, OwesAsync, IsTerminated, Notifies;
    if m < n {
      NoLostNotification(states, actions, m, n - 1);
      ExecutionsKeepInv(states, actions, n - 1);
      if IsTerminated(states[n - 1]) {
        DebtIsKept(states[n - 1], actions[n - 1]);
      } else if IsTerminated(states[n]) {
        TerminationIsOwed(states[n - 1], actions[n - 1]);
      }
    }
  }

  // ----- the loop

  /** `lifecycle()`: the stored lifecycle at one moment, the counts at a later one. */
  method ObserveLifecycle(w: World) returns (life: Lifecycle)
    requires w.Valid()
    modifies w
    ensures w.Valid() && w.Later() && w.failed == old(w.failed)
    ensures life == Terminated ==> IsTerminated(w.Current())
    ensures old(IsTerminated(w.Current())) ==> life == Terminated
    ensures life != Terminated ==>
              exists k :: old(w.at) <= k <= w.at && life == w.states[k].life && !IsTerminated(w.states[k])
  {
    ghost var start := w.at;
    var stored := w.LoadLifecycle();
    ghost var middle := w.at;
    if IsTerminated(w.states[start]) {
      StaysTerminated(w, start);
    }
    var empty := w.HasNoTasks();
    life := if stored != Running && empty then Terminated else stored;
    StoredIsOpen(w, middle);
    if stored != Running {
      TwoReadsSettle(w, middle);
    }
    if IsTerminated(w.states[start]) {
      StaysTerminated(w, start);
    }
    if IsTerminated(w.states[middle]) {
      StaysTerminated(w, middle);
    }
  }

  lemma StoredIsOpen(w: World, i: nat)
    requires w.Valid() && i < |w.states|
    ensures w.states[i].life != Terminated
  {
    hide Inv, Apply, Enabled;
    LifecycleNeverGoesBack(w.states, w.actions, i, i);
  }

  /** Waits for a notification that fires after `enabled`; false if the world has come to a stop without one. */
  method Notified(w: World, enabled: nat) returns (woken: bool)
    requires w.Valid() && enabled <= w.at
    modifies w
    ensures w.Valid() && w.Later()
    ensures woken ==> exists i :: enabled <= i < w.at && Notifies(w.actions[i])
    ensures !woken ==> w.played == |w.script| && forall i :: enabled <= i < w.at ==> !Notifies(w.actions[i])
  {
    var next := enabled;
    while true
      invariant w.Valid() && w.Later() && enabled <= next <= w.at
      invariant forall i :: enabled <= i < next ==> !Notifies(w.actions[i])
      decreases |w.script| - w.played, w.at - next
    {
      if next < w.at {
        if Notifies(w.actions[next]) {
          return true;
        }
        next := next + 1;
      } else if w.played < |w.script| {
        var _ := w.Advance();
      } else {
        return false;
      }
    }
  }

  /** Enables its notification before it looks.  It returns only from a service that stays terminated; if it is
      still pending when the world stops, the service is not terminated or somebody owes the notification. */
  method AwaitTermination(w: World) returns (resolved: bool)
    requires w.Valid()
    modifies w
    ensures w.Valid() && w.Later()
    ensures resolved ==> forall j :: w.at <= j < |w.states| ==> IsTerminated(w.states[j])
    ensures !resolved ==>
              w.played == |w.script|
              && (IsTerminated(w.Current()) ==> OwesAsync(w.Current().tasks, w.Current().closers))
    ensures old(IsTerminated(w.Current())) ==> resolved
  {
    ghost var begin := w.at;
    while true
      invariant w.Valid() && w.Later() && begin <= w.at
      invariant begin < w.at ==> !IsTerminated(w.states[begin])
      decreases |w.script| - w.played
    {
      var enabled := w.at;
      var life := ObserveLifecycle(w);
      if life == Terminated {
        StaysTerminatedForever(w);
        return true;
      }
      var woken := Notified(w, enabled);
      if !woken {
        NoLostNotification(w.states, w.actions, enabled, w.at);
        return false;
      }
    }
  }
}
