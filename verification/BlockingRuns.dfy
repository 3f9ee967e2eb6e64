/** The invariant over every run of the blocking service. */
module BlockingRuns {
  import opened BlockingTask
  import opened BlockingModel
  import opened BlockingInvariant
  import opened BlockingTaskSteps
  import opened BlockingThreadSteps
  import opened BlockingCloserSteps
  import ThreadSteps = BlockingThreadSteps
  import CloserSteps = BlockingCloserSteps

  /** The invariant is inductive: whatever party moves next, it survives. */
  lemma InvIsInductive(s: State, a: Action)
    requires Inv(s) && Enabled(s, a)
    ensures Inv(Apply(s, a))
  {
    hide Inv, Apply, CanStepTask, StepTask;
    match a
    case OnTask(t, x) => OnTaskKeepsInv(s, t, x);
    case Subscribe(_) => SubscribeKeepsInv(s, a);
    case Retry(_) => SubscribeKeepsInv(s, a);
    case Lock(_) => LockKeepsInv(s, a);
    case CheckRunning(_) => ThreadSteps.CheckKeepsInv(s, a);
    case LeaveFull(_) => LeaveFullKeepsInv(s, a);
    case Reject(_) => RejectKeepsInv(s, a);
    case TryAccept(_, _, _) =>
      if HasCapacity(s) {
        AcceptKeepsInv(s, a);
      } else {
        SaturationKeepsInv(s, a);
      }
    case Close(_, _) => CloseKeepsInv(s, a);
    case StoreLifecycle(_) => StoreKeepsInv(s, a);
    case Snapshot(_) => SnapshotKeepsInv(s, a);
    case LeaveSnapshot(_) => LeaveSnapshotKeepsInv(s, a);
    case ReleaseAdmission(_) => ReleaseAdmissionKeepsInv(s, a);
    case TakeHandles(_) => TakeKeepsInv(s, a);
    case EndLoop(_) => EndLoopKeepsInv(s, a);
    case BumpCapacity(_) => BumpKeepsInv(s, a);
    case CheckLifecycle(_) => CheckLifecycleKeepsInv(s, a);
    case CheckTerminated(_) => CloserSteps.CheckKeepsInv(s, a);
    case NotifySync(_) => NotifySyncKeepsInv(s, a);
    case NotifyAsync(_) => NotifyAsyncKeepsInv(s, a);
    case Await(_) => BeginKeepsInv(s, a);
    case Enable(_) => BeginKeepsInv(s, a);
    case LoadLifecycle(_) => LoadKeepsInv(s, a);
    case ReadCounts(_) => ReadKeepsInv(s, a);
    case LeaveRead(_) => LeaveReadKeepsInv(s, a);
    case Resume(_) => BeginKeepsInv(s, a);
    case Wait(_) => WaitKeepsInv(s, a);
    case Enter(_) => EnterKeepsInv(s, a);
    case Decide(_) => DecideKeepsInv(s, a);
    case SpuriousWake(_) => WaitKeepsInv(s, a);
  }

  lemma OnTaskKeepsInv(s: State, t: nat, x: TaskStep)
    requires Inv(s) && Enabled(s, OnTask(t, x))
    ensures Inv(Apply(s, OnTask(t, x)))
  {
    hide Inv, CanStepTask, StepTask;
    TaskStepKeepsInv(s, t, x);
  }

  /** Every state of every run of a new service satisfies the invariant. */
  lemma {:induction false} ExecutionsKeepInv(states: seq<State>, actions: seq<Action>, n: nat)
    requires IsExecution(states, actions) && n < |states|
    ensures Inv(states[n])
  {
    hide Inv, Apply, Enabled;
    if n == 0 {
      InitialInv(states[0].capacity);
    } else {
      ExecutionsKeepInv(states, actions, n - 1);
      InvIsInductive(states[n - 1], actions[n - 1]);
    }
  }
}
