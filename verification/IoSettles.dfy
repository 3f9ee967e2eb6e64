/** A closed IO service comes to rest: every step that is due brings it closer.

    Task and closer steps shrink a first measure.  They may wake waiters and retriers, whose own steps shrink a
    second measure that is bounded as long as nobody new arrives; the two together bound every run. */
module IoSettles {
  import opened Selections
  import opened IoTask
  import opened IoModel
  import opened IoInvariant
  import opened IoRuns
  import opened IoTermination
  import Steps = IoTaskSteps
  import Closers = IoCloserSteps

  /** Steps that the environment may choose never to take: a user abort, and the runtime dropping a live task. */
  predicate IsOptional(x: TaskStep) {
    x == ByAbort(UserAbort) || x == ByJob(DropJob)
  }

  /** A submitting thread or a waiter that has arrived goes on. */
  predicate IsThreadStep(a: Action) {
    || a.Lock? || a.CheckRunning? || a.CheckCapacity? || a.Reject? || a.Retry?
    || a.Enable? || a.LoadLifecycle? || a.ReadCount? || a.Resume?
  }

  /** Steps that somebody takes sooner or later.  New submissions, closers and waiters are not among them. */
  predicate IsDue(a: Action) {
    (a.OnTask? && !IsOptional(a.step)) || (IsCloserStep(a) && !a.Close?) || IsThreadStep(a)
  }

  /** Nobody new arrives in this step, and it is not one of the aborts that a user may ask for again and again. */
  predicate IsSettling(a: Action) {
    (a.OnTask? && a.step != ByAbort(UserAbort)) || IsDue(a)
  }

  // ----- what a task still has ahead of it

  function StageRank(x: Stage): nat {
    match x
    case Reserved => 6
    case Marked => 5
    case Spawned => 4
    case Registered => 3
    case Handoff => 2
    case Dropping => 1
    case Sent => 1
    case Returned => 0
  }

  function JobRank(x: Job): nat {
    match x
    case Unspawned => 4
    case Waiting => 3
    case Polling => 2
    case Unwinding => 1
    case Gone => 0
  }

  function FutureRank(x: Future): nat {
    match x
    case WithSubmitter => 4
    case InChannel => 3
    case InTask => 2
    case BeingDropped => 1
    case Destroyed => 0
  }

  function GuardRank(x: Guard): nat {
    match x
    case Held => 6
    case ToMark => 5
    case ToRemove => 4
    case ToDecrement => 3
    case ToBump => 2
    case ToNotify => 1
    case Released => 0
  }

  function EntryRank(x: Entry): nat {
    match x
    case Unregistered => 4
    case InMap => 3
    case Taken(_) => 2
    case ToAbort(_) => 1
    case NoEntry => 0
  }

  function Remaining(k: Task): nat {
    StageRank(k.stage) + JobRank(k.job) + FutureRank(k.future) + GuardRank(k.guard) + EntryRank(k.entry)
  }

  /** Every step but a repeated user abort brings its task closer to rest. */
  lemma StepDecreases(k: Task, a: TaskStep)
    requires TaskInv(k) && CanStep(k, a)
    ensures Remaining(Step(k, a)) <= Remaining(k)
    ensures a != ByAbort(UserAbort) ==> Remaining(Step(k, a)) < Remaining(k)
  {
    hide TaskInv, Remaining, Submit, Work, DropGuard, AbortTask;
    match a
    case BySubmitter(x) => SubmitDecreases(k, x);
    case ByJob(x) => WorkDecreases(k, x);
    case OnGuard(x) => DropDecreases(k, x);
    case ByAbort(x) => AbortDecreases(k, x);
  }

  lemma SubmitDecreases(k: Task, a: SubmitterAct)
    requires TaskInv(k) && CanSubmit(k, a)
    ensures Remaining(Submit(k, a)) < Remaining(k)
  {
  }

  lemma WorkDecreases(k: Task, a: JobAct)
    requires TaskInv(k) && CanWork(k, a)
    ensures Remaining(Work(k, a)) < Remaining(k)
  {
  }

  lemma DropDecreases(k: Task, a: GuardAct)
    requires CanDrop(k, a)
    ensures Remaining(DropGuard(k, a)) < Remaining(k)
  {
  }

  lemma AbortDecreases(k: Task, a: AbortAct)
    requires CanAbort(k, a)
    ensures Remaining(AbortTask(k, a)) <= Remaining(k)
    ensures !a.UserAbort? ==> Remaining(AbortTask(k, a)) < Remaining(k)
  {
  }

  ghost function Measure(s: State): nat {
    Sum(s.tasks.Keys, s.tasks, Remaining)
  }

  lemma TaskStepDrains(s: State, t: nat, x: TaskStep)
    requires Inv(s) && Enabled(s, OnTask(t, x)) && x != ByAbort(UserAbort)
    ensures Measure(Apply(s, OnTask(t, x))) < Measure(s)
  {
    hide Inv, TaskInv, Step, StepTask, Remaining, Sum;
    TaskOfRun(s, t);
    Steps.StepFrame(s, t, x);
    StepDecreases(s.tasks[t], x);
    SumUpdateDecreases(s.tasks, t, Step(s.tasks[t], x), Remaining);
  }

  lemma TakeDrains(s: State, c: nat)
    requires MapOk(s)
    ensures Sum(TakeEntries(s, c).tasks.Keys, TakeEntries(s, c).tasks, Remaining) <= Measure(s)
  {
    hide TakeEntries, Remaining, Sum, ExactMap;
    Closers.TakenTasks(s, c);
    var tasks := TakeEntries(s, c).tasks;
    forall t | t in s.tasks
      ensures Remaining(tasks[t]) <= Remaining(s.tasks[t])
    {
      if s.tasks[t].entry.InMap? {
        TakenDecreases(s.tasks[t], c);
      }
    }
    SumMonotone(s.tasks.Keys, s.tasks, tasks, Remaining);
  }

  lemma TakenDecreases(k: Task, c: nat)
    requires k.entry.InMap?
    ensures Remaining(k.(entry := Taken(c))) <= Remaining(k)
  {
  }

  lemma CloserStepDrains(s: State, a: Action)
    requires Inv(s) && Enabled(s, a) && IsCloserStep(a)
    ensures Measure(Apply(s, a)) <= Measure(s)
  {
    hide Inv, Apply, Enabled, TakeEntries, Sum, Remaining;
    InvParts(s);
    TasksFrame(s, a);
    if a.TakeHandles? {
      TakeDrains(s, a.closer);
    }
  }

  // ----- the first measure

  function CloserRank(cl: Closer): nat {
    match cl.pc
    case Holding => 7
    case Stored => 6
    case Snapped => 5
    case Unlocked => 4
    case Looping => 3
    case Bumping => 2
    case Notifying => 1
    case Reported => 0
  }

  ghost function Effort(s: State): nat {
    Measure(s) + Sum(s.closers.Keys, s.closers, CloserRank)
  }

  lemma CloserDecreases(s: State, a: Action)
    requires Enabled(s, a) && IsCloserStep(a) && !a.Close?
    ensures CloserOf(a) in s.closers && CloserOf(a) in Apply(s, a).closers
    ensures CloserRank(Apply(s, a).closers[CloserOf(a)]) < CloserRank(s.closers[CloserOf(a)])
  {
    OnlyOneCloserMoves(s, a);
    hide Apply, HasEntry;
  }

  lemma CloserStepWorks(s: State, a: Action)
    requires Inv(s) && Enabled(s, a) && IsCloserStep(a) && !a.Close?
    ensures Effort(Apply(s, a)) < Effort(s)
  {
    hide Inv, Apply, Enabled, Sum, Measure, CloserRank, PcAfter;
    CloserStepDrains(s, a);
    CloserDecreases(s, a);
    OnlyOneCloserMoves(s, a);
    var c := CloserOf(a);
    SumUpdateDecreases(s.closers, c, Apply(s, a).closers[c], CloserRank);
  }

  lemma CountingKeepsRanks(s: State, t: nat, x: TaskStep)
    requires CanStepTask(s, t, x)
    ensures var closers := StepTask(s, t, x).closers;
            closers.Keys == s.closers.Keys && forall c :: c in s.closers ==> CloserRank(closers[c]) == CloserRank(s.closers[c])
  {
    hide Step, CanStep, StepTask;
    Steps.StepFrame(s, t, x);
  }

  lemma TaskStepWorks(s: State, a: Action)
    requires Inv(s) && Enabled(s, a) && a.OnTask? && a.step != ByAbort(UserAbort)
    ensures Effort(Apply(s, a)) < Effort(s)
  {
    hide Inv, StepTask, CanStepTask, Sum, Measure, CloserRank;
    TaskStepDrains(s, a.task, a.step);
    CountingKeepsRanks(s, a.task, a.step);
    SumPointwise(s.closers, Apply(s, a).closers, CloserRank);
  }

  // ----- the second measure

  /** A woken waiter looks once more. */
  function WaiterRank(w: Waiter): nat {
    match w
    case Enabling => 4
    case Loading(woken) => if woken then 7 else 3
    case Reading(_, woken) => if woken then 6 else 2
    case Parked(woken) => if woken then 5 else 0
    case Resolved => 0
  }

  function SubmitterRank(b: Submitter): nat {
    match b
    case Checked(_) => 7
    case HasRoom => 6
    case Full(_) => 5
    case Parking(_) => 4
    case Ready(_) => 3
    case Locked(_) => 2
    case Refused => 1
    case _ => 0
  }

  ghost function Unrest(s: State): nat {
    Sum(s.waiters.Keys, s.waiters, WaiterRank) + Sum(s.submitters.Keys, s.submitters, SubmitterRank)
  }

  /** The most unrest that the threads that have arrived can make. */
  function MostUnrest(s: State): nat {
    7 * |s.waiters.Keys| + 7 * |s.submitters.Keys|
  }

  lemma UnrestIsBounded(s: State)
    ensures Unrest(s) <= MostUnrest(s)
  {
    SumBound(s.waiters.Keys, s.waiters, WaiterRank, 7);
    SumBound(s.submitters.Keys, s.submitters, SubmitterRank, 7);
  }

  predicate SameThreads(s: State, s': State) {
    s'.waiters.Keys == s.waiters.Keys && s'.submitters.Keys == s.submitters.Keys
  }

  lemma TaskStepBringsNobody(s: State, t: nat, x: TaskStep)
    requires TasksOk(s) && AdmissionOk(s) && CanStepTask(s, t, x)
    ensures SameThreads(s, StepTask(s, t, x))
  {
    hide TaskInv, Step, StepTask, WokenWaiters;
    Steps.StepFrame(s, t, x);
    Steps.WokenFacts(s.waiters);
    StepMoves(s.tasks[t], x);
  }

  lemma CloserStepBringsNobody(s: State, a: Action)
    requires Enabled(s, a) && IsCloserStep(a)
    ensures SameThreads(s, Apply(s, a))
  {
    hide HasEntry, WokenWaiters, Occupying;
    Steps.WokenFacts(s.waiters);
    if a.TakeHandles? {
      assert SameThreads(s, TakeEntries(s, a.closer));
    }
  }

  lemma SubmitterStepCalms(s: State, a: Action)
    requires LifeOk(s) && Enabled(s, a) && !s.life.Running?
    requires a.Lock? || a.CheckRunning? || a.CheckCapacity? || a.Reject? || a.Retry?
    ensures SameThreads(s, Apply(s, a)) && Unrest(Apply(s, a)) < Unrest(s) && Effort(Apply(s, a)) == Effort(s)
  {
    hide Sum, Remaining, InAdmission;
    SumUpdateDecreases(s.submitters, a.thread, Apply(s, a).submitters[a.thread], SubmitterRank);
  }

  lemma WaiterStepCalms(s: State, a: Action)
    requires Enabled(s, a) && (a.Enable? || a.LoadLifecycle? || a.ReadCount? || a.Resume?)
    ensures SameThreads(s, Apply(s, a)) && Unrest(Apply(s, a)) < Unrest(s) && Effort(Apply(s, a)) == Effort(s)
  {
    hide Sum, Remaining;
    SumUpdateDecreases(s.waiters, a.waiter, Apply(s, a).waiters[a.waiter], WaiterRank);
  }

  lemma ThreadStepCalms(s: State, a: Action)
    requires LifeOk(s) && Enabled(s, a) && IsThreadStep(a) && !s.life.Running?
    ensures SameThreads(s, Apply(s, a)) && Unrest(Apply(s, a)) < Unrest(s) && Effort(Apply(s, a)) == Effort(s)
  {
    hide Apply, Enabled, Staged, Unrest, Effort, SameThreads;
    if a.Enable? || a.LoadLifecycle? || a.ReadCount? || a.Resume? {
      WaiterStepCalms(s, a);
    } else {
      SubmitterStepCalms(s, a);
    }
  }

  // ----- both together

  ghost function Potential(s: State): nat {
    Weigh(Effort(s), MostUnrest(s), Unrest(s))
  }

  /** Every step of a closed service in which nobody new arrives shrinks its potential. */
  lemma SettlingShrinks(s: State, a: Action)
    requires Inv(s) && Enabled(s, a) && IsSettling(a) && !s.life.Running?
    ensures Potential(Apply(s, a)) < Potential(s)
  {
    hide Inv, Apply, Enabled, Effort, Unrest, MostUnrest, Staged, Weigh, IsDue;
    InvParts(s);
    var s' := Apply(s, a);
    UnrestIsBounded(s');
    if IsThreadStep(a) {
      ThreadStepCalms(s, a);
      SameThreadsSameBound(s, s');
      SecondGoesDown(Effort(s), MostUnrest(s), Unrest(s), Unrest(s'));
    } else {
      WorkShrinks(s, a);
      SameThreadsSameBound(s, s');
      FirstGoesDown(Effort(s), Effort(s'), MostUnrest(s), Unrest(s), Unrest(s'));
    }
  }

  lemma SameThreadsSameBound(s: State, s': State)
    requires SameThreads(s, s')
    ensures MostUnrest(s') == MostUnrest(s)
  {
  }

  lemma WorkShrinks(s: State, a: Action)
    requires Inv(s) && Enabled(s, a) && IsSettling(a) && !IsThreadStep(a) && !s.life.Running?
    ensures Effort(Apply(s, a)) < Effort(s) && SameThreads(s, Apply(s, a))
  {
    hide Inv, Effort, StepTask, CanStepTask;
    if a.OnTask? {
      InvParts(s);
      TaskStepWorks(s, a);
      TaskStepBringsNobody(s, a.task, a.step);
    } else {
      CloserStepWorks(s, a);
      CloserStepBringsNobody(s, a);
    }
  }

  /** A run of a closed service in which nobody new arrives has at most as many steps as the potential says, whatever
      the order in which futures, closers, waiters and retriers move. */
  lemma {:induction false} SettlingIsBounded(states: seq<State>, actions: seq<Action>, i: nat, j: nat)
    requires IsExecution(states, actions) && i <= j < |states| && !states[i].life.Running?
    requires forall n :: i <= n < j ==> IsSettling(actions[n])
    ensures !states[j].life.Running?
    ensures j - i + Potential(states[j]) <= Potential(states[i])
    decreases j
  {
    hide Inv, Apply, Enabled, Potential, IsSettling;
    LifecycleNeverGoesBack(states, actions, i, j);
    if i < j {
      SettlingIsBounded(states, actions, i, j - 1);
      ExecutionsKeepInv(states, actions, j - 1);
      SettlingShrinks(states[j - 1], actions[j - 1]);
    }
  }
}
