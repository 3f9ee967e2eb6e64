/** `await_termination` of the IO service: its loop, run beside an arbitrary run of the service. */
module IoAwait {
  import opened Lifecycles
  import opened IoTask
  import opened IoModel
  import opened IoInvariant
  import opened IoRuns
  import opened IoTermination
  import Steps = IoTaskSteps
  import opened IoCloserSteps

  /** The steps that fire every enabled notification. */
  predicate Notifies(a: Action) {
    a.NotifyWaiters? || (a.OnTask? && a.step == OnGuard(Notify))
  }

  // ----- a notification that is owed stays owed until it is paid

  lemma OpenClosersOwe(cl: Closer)
    ensures cl.pc.Holding? || cl.pc.Reported? || CloserOwesNotify(cl)
  {
  }

  lemma ClosersStayOpen(s: State, a: Action)
    requires IsCloserStep(a) && !a.NotifyWaiters? && !a.Close?
    ensures !PcAfter(s, a).Reported? && !PcAfter(s, a).Holding?
  {
  }

  lemma TakingKeepsDebt(s: State, c: nat)
    requires MapOk(s) && OwesNotify(s.tasks, s.closers)
    ensures OwesNotify(TakeEntries(s, c).tasks, s.closers)
  {
    TakenTasks(s, c);
    hide TakeEntries;
    if t :| t in s.tasks && TaskOwesNotify(s.tasks[t]) {
      assert TaskOwesNotify(TakeEntries(s, c).tasks[t]);
    }
  }

  lemma CloserStepKeepsDebt(s: State, a: Action)
    requires Inv(s) && Enabled(s, a) && IsCloserStep(a) && !a.NotifyWaiters? && OwesNotify(s.tasks, s.closers)
    ensures OwesNotify(Apply(s, a).tasks, Apply(s, a).closers)
  {
    hide Inv, Apply, Enabled, OwesNotify, TakeEntries, CloserOwesNotify, ExactMap, PcAfter;
    InvParts(s);
    OnlyOneCloserMoves(s, a);
    var cl := Apply(s, a).closers[CloserOf(a)];
    if !a.Close? {
      ClosersStayOpen(s, a);
      OpenClosersOwe(cl);
    }
    TasksFrame(s, a);
    if a.TakeHandles? {
      TakingKeepsDebt(s, a.closer);
    }
    NotifyDebtMoves(Apply(s, a).tasks, s.closers, CloserOf(a), cl);
  }

  lemma TaskStepKeepsDebt(s: State, a: Action)
    requires Inv(s) && Enabled(s, a) && a.OnTask? && !Notifies(a) && OwesNotify(s.tasks, s.closers)
    ensures OwesNotify(Apply(s, a).tasks, Apply(s, a).closers)
  {
    hide Inv, StepTask, OwesNotify, AllTasks;
    InvParts(s);
    Steps.NotifyDebtKept(s, a.task, a.step);
  }

  lemma DebtIsKept(s: State, a: Action)
    requires Inv(s) && Enabled(s, a) && IsTerminated(s) && !Notifies(a) && OwesNotify(s.tasks, s.closers)
    ensures OwesNotify(Apply(s, a).tasks, Apply(s, a).closers)
  {
    hide Inv, Apply, Enabled, OwesNotify, Staged;
    if a.OnTask? {
      TaskStepKeepsDebt(s, a);
    } else if a.Increment? {
      InvParts(s);
      AcceptanceNeedsRunning(s, a);
    } else if IsCloserStep(a) {
      CloserStepKeepsDebt(s, a);
    } else {
      TasksFrame(s, a);
      OthersMoveNoCloser(s, a);
    }
  }

  // ----- whoever completes termination owes the notification

  lemma StoringOwes(s: State, a: Action)
    requires Enabled(s, a) && a.StoreLifecycle?
    ensures OwesNotify(Apply(s, a).tasks, Apply(s, a).closers)
  {
    assert Apply(s, a).closers[a.closer].pc.Stored?;
    NotifyDebtMoves(s.tasks, s.closers, a.closer, Apply(s, a).closers[a.closer]);
    hide OwesNotify;
  }

  lemma TaskStepOwes(s: State, a: Action)
    requires Inv(s) && Enabled(s, a) && a.OnTask? && !IsTerminated(s) && IsTerminated(Apply(s, a))
    ensures OwesNotify(Apply(s, a).tasks, Apply(s, a).closers)
  {
    hide Inv, StepTask, OwesNotify, AllTasks, Counted;
    InvParts(s);
    Steps.StepFrame(s, a.task, a.step);
    Steps.NotifyDebtKept(s, a.task, a.step);
  }

  lemma AcceptanceIsNotTermination(s: State, a: Action)
    requires Inv(s) && Enabled(s, a) && a.Increment?
    ensures !IsTerminated(Apply(s, a))
  {
    hide Inv, Apply, Enabled, Staged;
    InvParts(s);
    AcceptanceNeedsRunning(s, a);
    LifecycleFrame(s, a);
  }

  lemma TerminationIsOwed(s: State, a: Action)
    requires Inv(s) && Enabled(s, a) && !IsTerminated(s) && IsTerminated(Apply(s, a))
    ensures OwesNotify(Apply(s, a).tasks, Apply(s, a).closers)
  {
    hide Inv, Apply, Enabled, OwesNotify;
    if a.OnTask? {
      TaskStepOwes(s, a);
    } else if a.StoreLifecycle? {
      StoringOwes(s, a);
    } else if a.Increment? {
      AcceptanceIsNotTermination(s, a);
    } else {
      TasksFrame(s, a);
      LifecycleFrame(s, a);
    }
  }

  /** A service that becomes terminated without notifying owes the notification as long as it does not. */
  lemma {:induction false} NoLostNotification(states: seq<State>, actions: seq<Action>, m: nat, n: nat)
    requires IsExecution(states, actions) && m <= n < |states| && !IsTerminated(states[m])
    requires forall i :: m <= i < n ==> !Notifies(actions[i])
    ensures IsTerminated(states[n]) ==> OwesNotify(states[n].tasks, states[n].closers)
    decreases n
  {
    hide Inv, Apply, Enabled, OwesNotify, IsTerminated, Notifies;
    if m < n {
      NoLostNotification(states, actions, m, n - 1);
      ExecutionsKeepInv(states, actions, n - 1);
      if IsTerminated(states[n - 1]) {
        DebtIsKept(states[n - 1], actions[n - 1]);
      } else if IsTerminated(states[n]) {
        TerminationIsOwed(states[n - 1], actions[n - 1]);
      }
    }
  }

  // ----- the loop

  /** The rest of the world: a run of the service and a script that says how far it moves at each call. */
  class World {
    const states: seq<State>
    const actions: seq<Action>
    const script: seq<nat>
    var at: nat
    var played: nat

    constructor (states: seq<State>, actions: seq<Action>, script: seq<nat>)
      requires IsExecution(states, actions)
      ensures Valid() && this.states == states && this.script == script && at == 0 && played == 0
    {
      this.states, this.actions, this.script := states, actions, script;
      at, played := 0, 0;
    }

    ghost predicate Valid()
      reads this
    {
      IsExecution(states, actions) && at < |states| && played <= |script|
    }

    /** The service as it is now. */
    function Current(): State
      requires at < |states|
      reads this
    {
      states[at]
    }

    twostate predicate Later()
      reads this
    {
      old(at) <= at && old(played) <= played && (old(at) < at ==> old(played) < played)
    }

    /** The world moves on; an exhausted script lets it stand still. */
    method Advance()
      requires Valid()
      modifies this
      ensures Valid() && Later() && (old(played) < |script| ==> old(played) < played)
    {
      if played < |script| {
        at := if at + script[played] < |states| then at + script[played] else |states| - 1;
        played := played + 1;
      }
    }

    method LoadLifecycle() returns (life: Lifecycle)
      requires Valid()
      modifies this
      ensures Valid() && Later() && life == Current().life
    {
      Advance();
      life := states[at].life;
    }

    method IsZero() returns (zero: bool)
      requires Valid()
      modifies this
      ensures Valid() && Later() && (zero <==> Current().active == 0)
    {
      Advance();
      zero := states[at].active == 0;
    }
  }

  lemma StaysTerminated(w: World, i: nat)
    requires w.Valid() && i <= w.at && IsTerminated(w.states[i])
    ensures forall j :: w.at <= j < |w.states| ==> IsTerminated(w.states[j]) && AliveFutures(w.states[j]) == {}
  {
    hide Inv, Apply, Enabled, IsTerminated, AliveFutures;
    forall j: nat | w.at <= j < |w.states|
      ensures IsTerminated(w.states[j]) && AliveFutures(w.states[j]) == {}
    {
      TerminationIsFinal(w.states, w.actions, i, j);
    }
  }

  lemma StaysClosed(w: World, i: nat)
    requires w.Valid() && i <= w.at
    ensures w.states[i].life != Terminated && (w.states[i].life != Running ==> w.Current().life != Running)
  {
    hide Inv, Apply, Enabled;
    LifecycleNeverGoesBack(w.states, w.actions, i, w.at);
    LifecycleNeverGoesBack(w.states, w.actions, i, i);
  }

  /** `lifecycle()`: the stored lifecycle at one moment and, only if it is closed, the count at a later one. */
  method ObserveLifecycle(w: World) returns (life: Lifecycle)
    requires w.Valid()
    modifies w
    ensures w.Valid() && w.Later()
    ensures life == Terminated ==> IsTerminated(w.Current())
    ensures old(IsTerminated(w.Current())) ==> life == Terminated
    ensures life != Terminated ==>
              exists k :: old(w.at) <= k <= w.at && life == w.states[k].life && !IsTerminated(w.states[k])
  {
    ghost var start := w.at;
    life := w.LoadLifecycle();
    ghost var middle := w.at;
    if IsTerminated(w.states[start]) {
      StaysTerminated(w, start);
    }
    StaysClosed(w, middle);
    if life != Running {
      var zero := w.IsZero();
      StaysClosed(w, middle);
      if IsTerminated(w.states[start]) {
        StaysTerminated(w, start);
      }
      if IsTerminated(w.states[middle]) {
        StaysTerminated(w, middle);
      }
      if zero {
        life := Terminated;
      }
    }
  }

  /** Waits for a notification that fires after `enabled`; false if the world has come to a stop without one. */
  method Notified(w: World, enabled: nat) returns (woken: bool)
    requires w.Valid() && enabled <= w.at
    modifies w
    ensures w.Valid() && w.Later()
    ensures woken ==> exists i :: enabled <= i < w.at && Notifies(w.actions[i])
    ensures !woken ==> w.played == |w.script| && forall i :: enabled <= i < w.at ==> !Notifies(w.actions[i])
  {
    var next := enabled;
    while true
      invariant w.Valid() && w.Later() && enabled <= next <= w.at
      invariant forall i :: enabled <= i < next ==> !Notifies(w.actions[i])
      decreases |w.script| - w.played, w.at - next
    {
      if next < w.at {
        if Notifies(w.actions[next]) {
          return true;
        }
        next := next + 1;
      } else if w.played < |w.script| {
        w.Advance();
      } else {
        return false;
      }
    }
  }

  /** Enables its notification before it looks.  It returns only from a service that stays terminated, with no
      accepted future alive; if it is still pending when the world stops, the service is not terminated or somebody
      owes the notification. */
  method AwaitTermination(w: World) returns (resolved: bool)
    requires w.Valid()
    modifies w
    ensures w.Valid() && w.Later()
    ensures resolved ==>
              forall j :: w.at <= j < |w.states| ==> IsTerminated(w.states[j]) && AliveFutures(w.states[j]) == {}
    ensures !resolved ==>
              w.played == |w.script|
              && (IsTerminated(w.Current()) ==> OwesNotify(w.Current().tasks, w.Current().closers))
    ensures old(IsTerminated(w.Current())) ==> resolved
  {
    ghost var begin := w.at;
    while true
      invariant w.Valid() && w.Later() && begin <= w.at
      invariant begin < w.at ==> !IsTerminated(w.states[begin])
      decreases |w.script| - w.played
    {
      var enabled := w.at;
      var life := ObserveLifecycle(w);
      if life == Terminated {
        StaysTerminated(w, w.at);
        return true;
      }
      var woken := Notified(w, enabled);
      if !woken {
        NoLostNotification(w.states, w.actions, enabled, w.at);
        return false;
      }
    }
  }
}
