/** The blocking service refines a service in which accepting, starting and finishing a task are atomic. */
module BlockingRefinement {
  import opened Lifecycles
  import opened Submissions
  import opened TaskCounts
  import opened BlockingTask
  import opened BlockingTaskFacts
  import opened BlockingModel
  import opened BlockingInvariant
  import opened BlockingRuns
  import opened BlockingTermination
  import opened BlockingAccounting
  import TaskSteps = BlockingTaskSteps
  import CloserSteps = BlockingCloserSteps

  // ----- the atomic service

  datatype Service = Service(capacity: nat, life: Lifecycle, phases: map<nat, Phase>)

  datatype Event =
    | Silent
    | Accepts(task: nat)
    | Rejects(error: SubmissionError)
    | Starts(task: nat)
    | Finishes(task: nat)
    | Closes(life: Lifecycle)

  function InPhase(p: Service, phase: Phase): set<nat> {
    set t | t in p.phases && p.phases[t] == phase
  }

  function Unfinished(p: Service): set<nat> {
    set t | t in p.phases && !p.phases[t].Done?
  }

  predicate Next(p: Service, e: Event, p': Service) {
    match e
    case Silent => p' == p
    case Accepts(t) =>
      p.life.Running? && t !in p.phases && |Unfinished(p)| < p.capacity && p' == p.(phases := p.phases[t := Queued])
    case Rejects(Shutdown) => p' == p && !p.life.Running?
    case Rejects(Saturated) => p' == p && p.life.Running? && |Unfinished(p)| == p.capacity
    case Starts(t) => t in p.phases && p.phases[t].Queued? && p' == p.(phases := p.phases[t := Active])
    case Finishes(t) => t in p.phases && !p.phases[t].Done? && p' == p.(phases := p.phases[t := Done])
    case Closes(life) => !life.Running? && !life.Terminated? && Rank(p.life) <= Rank(life) && p' == p.(life := life)
  }

  // ----- the refinement mapping

  function Phases(tasks: map<nat, Task>): map<nat, Phase> {
    map t | t in tasks :: PhaseOf(tasks[t])
  }

  function Abstract(s: State): Service {
    Service(s.capacity, s.life, Phases(s.tasks))
  }

  /** Accepting, rejecting, starting and finishing take effect at the accesses of the monitor and of the lifecycle;
      everything else is invisible. */
  function EventOf(s: State, a: Action): Event
    requires Enabled(s, a)
  {
    match a
    case CheckRunning(_) => if s.life.Running? then Silent else Rejects(Shutdown)
    case TryAccept(_, t, _) => if HasCapacity(s) then Accepts(t) else Rejects(Saturated)
    case OnTask(t, x) => if x == ByJob(MarkCount) then Starts(t) else if IsWrite(x) then Finishes(t) else Silent
    case StoreLifecycle(c) => Closes(if s.closers[c].stop then Stopping else ShutdownOf(s.life))
    case _ => Silent
  }

  lemma PhasesAgree(s: State)
    ensures InPhase(Abstract(s), Queued) == QueuedTasks(s.tasks)
    ensures InPhase(Abstract(s), Active) == ActiveTasks(s.tasks)
  {
    hide PhaseOf;
  }

  lemma UnfinishedSplits(p: Service)
    ensures |Unfinished(p)| == |InPhase(p, Queued)| + |InPhase(p, Active)|
  {
    assert Unfinished(p) == InPhase(p, Queued) + InPhase(p, Active);
    assert InPhase(p, Queued) !! InPhase(p, Active);
  }

  /** The counts at any moment are those of the atomic service. */
  lemma CountsAreAtomic(s: State)
    requires Inv(s)
    ensures s.counts.queued == |InPhase(Abstract(s), Queued)|
    ensures s.counts.running == |InPhase(Abstract(s), Active)|
    ensures s.counts.Total() == |Unfinished(Abstract(s))|
  {
    hide PhaseOf, Inv, AllTasks, ExactMap, InPhase, Unfinished, QueuedTasks, ActiveTasks;
    CountsOfInv(s);
    PhasesAgree(s);
    UnfinishedSplits(Abstract(s));
  }

  lemma CountsOfInv(s: State)
    requires Inv(s)
    ensures CountsOk(s) && TasksOk(s) && MapOk(s)
    ensures !s.life.Terminated?
    ensures forall th :: th in s.submitters && s.submitters[th].Checked? ==> s.life.Running?
  {
  }

  lemma TaskStepRefines(s: State, t: nat, x: TaskStep)
    requires Inv(s) && CanStepTask(s, t, x)
    ensures Next(Abstract(s), EventOf(s, OnTask(t, x)), Abstract(StepTask(s, t, x)))
  {
    hide Inv, TaskInv, PhaseOf, Step, StepTask;
    CountsOfInv(s);
    StepMoves(s.tasks[t], x);
    TaskSteps.StepFrame(s, t, x);
    var p, p' := Abstract(s), Abstract(StepTask(s, t, x));
    var phase := PhaseOf(Step(s.tasks[t], x));
    assert p'.phases == p.phases[t := phase];
    assert phase == p.phases[t] ==> p'.phases == p.phases;
  }

  lemma AcceptedPhases(tasks: map<nat, Task>, t: nat, kind: Kind, owner: nat)
    ensures Phases(tasks[t := NewTask(kind, owner)]) == Phases(tasks)[t := Queued]
  {
    NewTaskInv(kind, owner);
    hide PhaseOf;
  }

  lemma AcceptedState(s: State, a: Action)
    requires Enabled(s, a) && a.TryAccept?
    ensures a.task !in s.tasks && Apply(s, a).capacity == s.capacity && Apply(s, a).life == s.life
    ensures Apply(s, a).tasks == if HasCapacity(s) then s.tasks[a.task := NewTask(a.kind, a.thread)] else s.tasks
    ensures EventOf(s, a) == if HasCapacity(s) then Accepts(a.task) else Rejects(Saturated)
  {
    hide HasCapacity, Counts.Accept;
  }

  lemma TotalFits(s: State)
    requires CountsOk(s)
    ensures s.counts.Total() <= s.capacity
  {
    hide QueuedTasks, ActiveTasks;
  }

  lemma AbstractKeys(s: State)
    ensures Abstract(s).phases.Keys == s.tasks.Keys
  {
    hide PhaseOf;
  }

  /** The acceptance and saturation verdicts are those of the atomic service. */
  lemma AcceptRefines(s: State, a: Action)
    requires Inv(s) && Enabled(s, a) && a.TryAccept?
    ensures HasCapacity(s) <==> |Unfinished(Abstract(s))| < s.capacity
    ensures Next(Abstract(s), EventOf(s, a), Abstract(Apply(s, a)))
  {
    hide Inv, Phases, Unfinished, InPhase, Apply, Enabled, EventOf, Counts.Total, Staged;
    InvParts(s);
    CountsAreAtomic(s);
    TotalFits(s);
    AcceptanceNeedsRunning(s, a);
    AcceptedState(s, a);
    AbstractKeys(s);
    AcceptedPhases(s.tasks, a.task, a.kind, a.thread);
  }

  lemma TakeRefines(s: State, c: nat)
    requires Inv(s)
    ensures Phases(TakeEntries(s, c).tasks) == Phases(s.tasks)
  {
    hide Inv, PhaseOf, TakeEntries, AllTasks, ExactMap, Counted, TaskInv, Live;
    CountsOfInv(s);
    CloserSteps.TakenTasks(s, c);
    CloserSteps.TakenIsOnlyTaken(s, c);
    forall t | t in s.tasks
      ensures PhaseOf(TakeEntries(s, c).tasks[t]) == PhaseOf(s.tasks[t])
    {
      CloserSteps.TakenKeepsEachTask(s, c, t);
    }
  }

  /** Everything but task steps, the two admission verdicts and the closing of the service is invisible. */
  lemma OtherStepsRefine(s: State, a: Action)
    requires Inv(s) && Enabled(s, a) && !a.OnTask? && !a.TryAccept? && !a.StoreLifecycle?
    ensures EventOf(s, a) == if a.CheckRunning? && !s.life.Running? then Rejects(Shutdown) else Silent
    ensures Abstract(Apply(s, a)) == Abstract(s)
    ensures Next(Abstract(s), EventOf(s, a), Abstract(Apply(s, a)))
  {
    hide Inv, Phases, Apply, Enabled, TakeEntries;
    TasksFrame(s, a);
    LifecycleFrame(s, a);
    CapacityFrame(s, a);
    if a.TakeHandles? {
      TakeRefines(s, a.closer);
    }
  }

  /** Forward simulation: every concrete step is its abstract event. */
  lemma StepRefines(s: State, a: Action)
    requires Inv(s) && Enabled(s, a)
    ensures Next(Abstract(s), EventOf(s, a), Abstract(Apply(s, a)))
  {
    hide Inv, Apply, Enabled, Abstract;
    if a.OnTask? {
      OnTaskRefines(s, a);
    } else if a.TryAccept? {
      AcceptRefines(s, a);
    } else if a.StoreLifecycle? {
      CloseRefines(s, a);
    } else {
      OtherStepsRefine(s, a);
    }
  }

  lemma CloseRefines(s: State, a: Action)
    requires Inv(s) && Enabled(s, a) && a.StoreLifecycle?
    ensures Next(Abstract(s), EventOf(s, a), Abstract(Apply(s, a)))
  {
    hide Inv, Phases, Apply, Enabled, AllTasks, Counted, ExactMap;
    CountsOfInv(s);
    TasksFrame(s, a);
    LifecycleFrame(s, a);
    CapacityFrame(s, a);
  }

  lemma OnTaskRefines(s: State, a: Action)
    requires Inv(s) && Enabled(s, a) && a.OnTask?
    ensures Next(Abstract(s), EventOf(s, a), Abstract(Apply(s, a)))
  {
    hide Inv, PhaseOf, StepTask, CanStepTask, Abstract, Next;
    TaskStepRefines(s, a.task, a.step);
  }

  ghost predicate IsAtomicRun(services: seq<Service>, events: seq<Event>) {
    && |services| == |events| + 1
    && forall i :: 0 <= i < |events| ==> Next(services[i], events[i], services[i + 1])
  }

  /** Every run of the blocking service is, state by state, a run of the atomic service. */
  lemma RunsRefine(states: seq<State>, actions: seq<Action>)
    requires IsExecution(states, actions)
    ensures IsAtomicRun(seq(|states|, i requires 0 <= i < |states| => Abstract(states[i])),
                        seq(|actions|, i requires 0 <= i < |actions| => EventOf(states[i], actions[i])))
    ensures forall i :: 0 <= i < |states| ==>
              states[i].counts == Counts(|InPhase(Abstract(states[i]), Queued)|, |InPhase(Abstract(states[i]), Active)|)
  {
    hide Inv, Apply, Enabled, Abstract, EventOf, Next, InPhase;
    forall i | 0 <= i < |states|
      ensures Inv(states[i])
    {
      ExecutionsKeepInv(states, actions, i);
    }
    forall i | 0 <= i < |states|
      ensures states[i].counts == Counts(|InPhase(Abstract(states[i]), Queued)|, |InPhase(Abstract(states[i]), Active)|)
    {
      CountsAreAtomic(states[i]);
    }
    forall i | 0 <= i < |actions|
      ensures Next(Abstract(states[i]), EventOf(states[i], actions[i]), Abstract(states[i + 1]))
    {
      StepRefines(states[i], actions[i]);
    }
  }
}
