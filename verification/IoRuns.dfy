/** The invariant over every run of the IO service. */
module IoRuns {
  import opened IoTask
  import opened IoModel
  import opened IoInvariant
  import opened IoTaskSteps
  import opened IoThreadSteps
  import opened IoCloserSteps

  lemma OnTaskKeepsInv(s: State, t: nat, x: TaskStep)
    requires Inv(s) && Enabled(s, OnTask(t, x))
    ensures Inv(Apply(s, OnTask(t, x)))
  {
    hide Inv, CanStepTask, StepTask;
    TaskStepKeepsInv(s, t, x);
  }

  /** The invariant is inductive: whatever party moves next, it survives. */
  lemma InvIsInductive(s: State, a: Action)
    requires Inv(s) && Enabled(s, a)
    ensures Inv(Apply(s, a))
  {
    hide Inv, Apply, CanStepTask, StepTask;
    match a
    case OnTask(t, x) => OnTaskKeepsInv(s, t, x);
    case Subscribe(_) => SubscribeKeepsInv(s, a);
    case Retry(_) => SubscribeKeepsInv(s, a);
    case Lock(_) => LockKeepsInv(s, a);
    case CheckRunning(_) => CheckRunningKeepsInv(s, a);
    case CheckCapacity(_) => CheckCapacityKeepsInv(s, a);
    case Increment(_, _) => IncrementKeepsInv(s, a);
    case Reject(_) => RejectKeepsInv(s, a);
    case Close(_, _) => CloseKeepsInv(s, a);
    case StoreLifecycle(_) => StoreKeepsInv(s, a);
    case Snapshot(_) => SnapshotKeepsInv(s, a);
    case ReleaseAdmission(_) => ReleaseAdmissionKeepsInv(s, a);
    case TakeHandles(_) => TakeKeepsInv(s, a);
    case EndLoop(_) => EndLoopKeepsInv(s, a);
    case BumpCapacity(_) => BumpKeepsInv(s, a);
    case NotifyWaiters(_) => NotifyKeepsInv(s, a);
    case Await(_) => AwaitKeepsInv(s, a);
    case Enable(_) => EnableKeepsInv(s, a);
    case LoadLifecycle(_) => LoadLifecycleKeepsInv(s, a);
    case ReadCount(_) => ReadCountKeepsInv(s, a);
    case Resume(_) => AwaitKeepsInv(s, a);
  }

  /** Every state of every run of a new service satisfies the invariant. */
  lemma {:induction false} ExecutionsKeepInv(states: seq<State>, actions: seq<Action>, n: nat)
    requires IsExecution(states, actions) && n < |states|
    ensures Inv(states[n])
  {
    hide Inv, Apply, Enabled;
    if n == 0 {
      InitialInv(states[0].capacity);
    } else {
      ExecutionsKeepInv(states, actions, n - 1);
      InvIsInductive(states[n - 1], actions[n - 1]);
    }
  }
}
