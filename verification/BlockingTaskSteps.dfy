/** Every step of an accepted task keeps the invariant of the blocking service. */
module BlockingTaskSteps {
  import opened Selections
  import opened TaskCounts
  import opened BlockingTask
  import opened BlockingTaskFacts
  import opened BlockingModel
  import opened BlockingInvariant

  /** The parts of the state that a task step leaves alone, and how it moves the others. */
  lemma StepFrame(s: State, t: nat, a: TaskStep)
    requires CanStepTask(s, t, a)
    ensures var s', k := StepTask(s, t, a), s.tasks[t];
            && s'.tasks == s.tasks[t := Step(k, a)]
            && s'.counts == CountsAfter(s.counts, k, a)
            && s'.handles == HandlesAfter(s.handles, t, k, a)
            && s'.closers == ClosersAfter(s.closers, t, k, a)
            && s'.capacity == s.capacity
            && s'.life == s.life
            && s'.monitor == MonitorAfter(s.monitor, t, k, a)
            && s'.admission == (if a == BySubmitter(Unlock) then Free else s.admission)
            && s'.submitters == (if a == BySubmitter(Return) then s.submitters[k.owner := Idle] else s.submitters)
            && s'.generation == (if a == OnRelease(BumpGeneration) then s.generation + 1 else s.generation)
            && s'.syncs == (if a == OnRelease(WakeSync) then WokenSyncs(s.syncs) else s.syncs)
            && s'.asyncs == (if a == OnRelease(WakeAsync) then WokenAsyncs(s.asyncs) else s.asyncs)
  {
    hide Step, CanStep, CountsAfter, MonitorAfter, HandlesAfter, ClosersAfter, IsTerminated, WokenSyncs, WokenAsyncs;
  }

  // ----- accounting

  /** The counter that a monitor write decrements is positive, so its subtraction never saturates. */
  lemma WritesNeverSaturate(s: State, t: nat, a: TaskStep)
    requires TasksOk(s) && CountsOk(s) && CanStepTask(s, t, a)
    ensures a == ByJob(MarkCount) ==> s.counts.queued > 0
    ensures IsWrite(a) ==> if s.tasks[t].release.started then s.counts.running > 0 else s.counts.queued > 0
  {
    hide TaskInv, Step, PhaseOf, QueuedTasks, ActiveTasks;
    StepMoves(s.tasks[t], a);
    CountsArePositive(s.tasks, t);
  }

  lemma CountsKept(s: State, t: nat, a: TaskStep)
    requires TasksOk(s) && CountsOk(s) && CanStepTask(s, t, a)
    ensures CountsOk(StepTask(s, t, a))
  {
    hide TaskInv, Step, StepTask, PhaseOf, QueuedTasks, ActiveTasks;
    StepFrame(s, t, a);
    StepMoves(s.tasks[t], a);
    WritesNeverSaturate(s, t, a);
    QueuedUpdate(s.tasks, t, Step(s.tasks[t], a));
    ActiveUpdate(s.tasks, t, Step(s.tasks[t], a));
  }

  lemma TasksKept(s: State, t: nat, a: TaskStep)
    requires TasksOk(s) && CanStepTask(s, t, a)
    ensures TasksOk(StepTask(s, t, a))
  {
    hide TaskInv, Step, Moves, StepTask;
    StepFrame(s, t, a);
    StepMoves(s.tasks[t], a);
  }

  // ----- the abort map

  lemma AddressesKept(s: State, t: nat, a: TaskStep)
    requires TasksOk(s) && AddressesOk(s) && CanStepTask(s, t, a)
    ensures AddressesOk(StepTask(s, t, a))
  {
    hide TaskInv, Step, Live, StepTask;
    StepFrame(s, t, a);
    StepMoves(s.tasks[t], a);
  }

  /** Registration never overwrites an entry, whatever addresses have been reused. */
  lemma RegistrationNeverOverwrites(s: State, t: nat)
    requires TasksOk(s) && AddressesOk(s) && MapOk(s) && CanStepTask(s, t, BySubmitter(Register))
    ensures s.tasks[t].addr !in s.handles
  {
    hide TaskInv, Step, Live;
    StepMoves(s.tasks[t], BySubmitter(Register));
    if s.tasks[t].addr in s.handles {
      var u := s.handles[s.tasks[t].addr];
      ListedIsLive(s, u);
      assert false;
    }
  }

  lemma ListedIsLive(s: State, t: nat)
    requires TasksOk(s) && t in s.tasks && s.tasks[t].entry.InMap?
    ensures Live(s.tasks[t])
  {
  }

  /** A removal by address finds the task's own entry or none. */
  lemma RemovalTouchesOnlyItsOwn(s: State, t: nat, a: TaskStep)
    requires TasksOk(s) && AddressesOk(s) && MapOk(s) && CanStepTask(s, t, a) && IsRemoval(a)
    ensures s.tasks[t].addr in s.handles <==> s.tasks[t].entry.InMap?
    ensures s.tasks[t].addr in s.handles ==> s.handles[s.tasks[t].addr] == t
  {
    hide TaskInv, Step, Live;
    StepMoves(s.tasks[t], a);
    if s.tasks[t].addr in s.handles {
      ListedIsLive(s, s.handles[s.tasks[t].addr]);
    }
  }

  lemma RegisterKeepsMap(s: State, t: nat)
    requires TasksOk(s) && AddressesOk(s) && MapOk(s) && CanStepTask(s, t, BySubmitter(Register))
    ensures MapOk(StepTask(s, t, BySubmitter(Register)))
  {
    hide TaskInv, Step, Live, StepTask;
    StepFrame(s, t, BySubmitter(Register));
    StepMoves(s.tasks[t], BySubmitter(Register));
    RegistrationNeverOverwrites(s, t);
  }

  lemma RemovalKeepsMap(s: State, t: nat, a: TaskStep)
    requires TasksOk(s) && AddressesOk(s) && MapOk(s) && CanStepTask(s, t, a) && IsRemoval(a)
    ensures MapOk(StepTask(s, t, a))
  {
    hide TaskInv, Step, Live, StepTask;
    StepFrame(s, t, a);
    StepMoves(s.tasks[t], a);
    RemovalTouchesOnlyItsOwn(s, t, a);
  }

  lemma MapKept(s: State, t: nat, a: TaskStep)
    requires TasksOk(s) && AddressesOk(s) && MapOk(s) && CanStepTask(s, t, a)
    ensures MapOk(StepTask(s, t, a))
  {
    hide TaskInv, Step, Live, StepTask;
    if a == BySubmitter(Register) {
      RegisterKeepsMap(s, t);
    } else if IsRemoval(a) {
      RemovalKeepsMap(s, t, a);
    } else {
      StepFrame(s, t, a);
      StepMoves(s.tasks[t], a);
    }
  }

  // ----- admission, lifecycle and stop

  lemma AdmissionIsNotReturned(k: Task)
    ensures InAdmission(k) ==> !k.stage.Returned?
  {
  }

  /** What admission sees of a task: its owner, whether it is in admission, whether its submission returned. */
  lemma SameStanding(s: State, t: nat, k: Task)
    requires AdmissionOk(s) && t in s.tasks
    requires k.owner == s.tasks[t].owner && InAdmission(k) == InAdmission(s.tasks[t])
    requires k.stage.Returned? == s.tasks[t].stage.Returned?
    ensures Exclusive(s.admission, s.submitters, s.tasks[t := k], s.closers)
  {
    hide InAdmission, ClosesUnderAdmission;
  }

  lemma UnlockingKeepsAdmission(s: State, t: nat, k: Task)
    requires AdmissionOk(s) && t in s.tasks && InAdmission(s.tasks[t]) && !s.tasks[t].stage.Returned?
    requires k.owner == s.tasks[t].owner && !InAdmission(k) && !k.stage.Returned?
    ensures Exclusive(Free, s.submitters, s.tasks[t := k], s.closers)
  {
    hide InAdmission, ClosesUnderAdmission;
    forall u | u in s.tasks
      ensures InAdmission(s.tasks[u]) ==> !s.tasks[u].stage.Returned?
    {
      AdmissionIsNotReturned(s.tasks[u]);
    }
  }

  lemma ReturningKeepsAdmission(s: State, t: nat, k: Task)
    requires AdmissionOk(s) && t in s.tasks && !InAdmission(s.tasks[t]) && !s.tasks[t].stage.Returned?
    requires k.owner == s.tasks[t].owner && !InAdmission(k) && k.stage.Returned?
    ensures Exclusive(s.admission, s.submitters[k.owner := Idle], s.tasks[t := k], s.closers)
  {
    hide InAdmission, ClosesUnderAdmission;
    forall u | u in s.tasks
      ensures InAdmission(s.tasks[u]) ==> !s.tasks[u].stage.Returned?
    {
      AdmissionIsNotReturned(s.tasks[u]);
    }
  }

  /** Counting a cancellation does not move a closer. */
  lemma CountingKeepsAdmission(s: State, admission: Admission, submitters: map<nat, Submitter>, tasks: map<nat, Task>,
      t: nat, k: Task, a: TaskStep)
    requires Exclusive(admission, submitters, tasks, s.closers) && CanStep(k, a)
    ensures Exclusive(admission, submitters, tasks, ClosersAfter(s.closers, t, k, a))
  {
    hide InAdmission, CanStep;
  }

  lemma AdmissionKept(s: State, t: nat, a: TaskStep)
    requires TasksOk(s) && AdmissionOk(s) && CanStepTask(s, t, a)
    ensures AdmissionOk(StepTask(s, t, a))
  {
    hide TaskInv, Step, InAdmission, StepTask, Exclusive, ClosersAfter;
    StepMoves(s.tasks[t], a);
    StepFrame(s, t, a);
    var k, s' := Step(s.tasks[t], a), StepTask(s, t, a);
    if a == BySubmitter(Unlock) {
      UnlockingKeepsAdmission(s, t, k);
    } else if a == BySubmitter(Return) {
      ReturningKeepsAdmission(s, t, k);
    } else {
      SameStanding(s, t, k);
    }
    CountingKeepsAdmission(s, s'.admission, s'.submitters, s'.tasks, t, s.tasks[t], a);
  }

  lemma LifeKept(s: State, t: nat, a: TaskStep)
    requires TasksOk(s) && LifeOk(s) && CanStepTask(s, t, a)
    ensures LifeOk(StepTask(s, t, a))
  {
    hide TaskInv, Step, InAdmission, StepTask;
    StepFrame(s, t, a);
    StepMoves(s.tasks[t], a);
  }

  lemma StopKept(s: State, t: nat, a: TaskStep)
    requires TasksOk(s) && LifeOk(s) && StopOk(s) && CanStepTask(s, t, a)
    ensures StopOk(StepTask(s, t, a))
  {
    hide TaskInv, Step, InAdmission, StepTask;
    StepMoves(s.tasks[t], a);
    StepFrame(s, t, a);
    var s' := StepTask(s, t, a);
    if s.handles == map[] {
      assert IsRemoval(a) ==> s'.handles == map[];
    }
    assert s.life.Stopping? ==> s'.handles == map[] || SomeStopBeforeTake(s.closers);
    assert forall c :: c in s.closers ==>
             c in s'.closers && s'.closers[c].pc == s.closers[c].pc && s'.closers[c].stop == s.closers[c].stop;
    forall u, c | u in s'.tasks && HasHook(s'.tasks[u], c)
      ensures IsLooping(s'.closers, c)
    {
      assert HasHook(s.tasks[u], c);
      assert IsLooping(s.closers, c);
    }
    if SomeStopBeforeTake(s.closers) {
      var c :| c in s.closers && BeforeTake(s.closers[c]);
      assert c in s'.closers && BeforeTake(s'.closers[c]);
    }
  }

  lemma CountedOnce(tasks: map<nat, Task>, c: nat, cl: Closer, t: nat, k: Task)
    requires HonestReport(tasks, c, cl) && t in tasks && HasSnapshot(cl)
    requires tasks[t].releasedBy == ByTheHook(c) && !tasks[t].entry.NoEntry?
    requires k.releasedBy == ByTheHook(c) && k.entry.NoEntry? && PhaseOf(k) == PhaseOf(tasks[t])
    ensures HonestReport(tasks[t := k], c, cl.(cancelled := cl.cancelled + 1, counted := cl.counted + {t}))
  {
    hide PhaseOf;
    assert t !in cl.counted && t in cl.snap;
  }

  /** The hook counts its task once: the task was queued at the snapshot and not yet counted. */
  lemma CountingKeepsReport(s: State, t: nat, c: nat)
    requires TasksOk(s) && ReportsOk(s) && CanStepTask(s, t, ByStop(HookCancelSlot))
    requires s.tasks[t].entry.closer == c && c in s.closers
    ensures c in StepTask(s, t, ByStop(HookCancelSlot)).closers
    ensures HonestReport(StepTask(s, t, ByStop(HookCancelSlot)).tasks, c,
                         StepTask(s, t, ByStop(HookCancelSlot)).closers[c])
  {
    hide TaskInv, Step, StepTask, HasHook, PhaseOf, HonestReport;
    StepMoves(s.tasks[t], ByStop(HookCancelSlot));
    StepFrame(s, t, ByStop(HookCancelSlot));
    CountedOnce(s.tasks, c, s.closers[c], t, Step(s.tasks[t], ByStop(HookCancelSlot)));
  }

  /** A task that is already counted stays as it is, and nobody joins the ones queued at the snapshot. */
  lemma OthersKeepReport(tasks: map<nat, Task>, c: nat, cl: Closer, t: nat, k: Task)
    requires HonestReport(tasks, c, cl) && t in tasks
    requires tasks[t].releasedBy == ByTheHook(c) ==>
              k.releasedBy == ByTheHook(c) && (tasks[t].entry.NoEntry? ==> k.entry.NoEntry?)
    requires k.releasedBy == ByTheHook(c) ==> tasks[t].releasedBy == ByTheHook(c) || PhaseOf(tasks[t]).Queued?
    requires PhaseOf(k).Queued? ==> PhaseOf(tasks[t]).Queued?
    ensures HonestReport(tasks[t := k], c, cl)
  {
    hide PhaseOf;
  }

  lemma PhaseNeverReturns(k: Task, a: TaskStep)
    requires TaskInv(k) && CanStep(k, a)
    ensures PhaseOf(Step(k, a)).Queued? ==> PhaseOf(k).Queued?
  {
    hide TaskInv, Step, PhaseOf;
    StepMoves(k, a);
  }

  lemma ReportKept(s: State, t: nat, a: TaskStep, c: nat)
    requires TasksOk(s) && ReportsOk(s) && CanStepTask(s, t, a) && c in s.closers
    ensures c in StepTask(s, t, a).closers
    ensures HonestReport(StepTask(s, t, a).tasks, c, StepTask(s, t, a).closers[c])
  {
    hide TaskInv, Step, StepTask, HasHook, PhaseOf, HonestReport;
    if a == ByStop(HookCancelSlot) && s.tasks[t].entry.closer == c {
      CountingKeepsReport(s, t, c);
    } else {
      StepMoves(s.tasks[t], a);
      PhaseNeverReturns(s.tasks[t], a);
      StepFrame(s, t, a);
      OthersKeepReport(s.tasks, c, s.closers[c], t, Step(s.tasks[t], a));
    }
  }

  lemma ReportsKept(s: State, t: nat, a: TaskStep)
    requires TasksOk(s) && StopOk(s) && ReportsOk(s) && CanStepTask(s, t, a)
    ensures ReportsOk(StepTask(s, t, a))
  {
    hide TaskInv, Step, StepTask, HasHook, HonestReport;
    StepMoves(s.tasks[t], a);
    StepFrame(s, t, a);
    forall c | c in s.closers
      ensures HonestReport(StepTask(s, t, a).tasks, c, StepTask(s, t, a).closers[c])
    {
      ReportKept(s, t, a, c);
    }
    var k, k' := s.tasks[t], Step(s.tasks[t], a);
    if k'.releasedBy.ByTheHook? && !k.releasedBy.ByTheHook? {
      assert IsLooping(s.closers, k'.releasedBy.closer);
    }
  }

  // ----- notifications

  /** Termination is final: no task step takes the counts away from zero. */
  lemma EmptyStaysEmpty(s: State, t: nat, a: TaskStep)
    requires TasksOk(s) && CountsOk(s) && CanStepTask(s, t, a)
    ensures s.counts.IsEmpty() ==> StepTask(s, t, a).counts == s.counts
    ensures !s.counts.IsEmpty() && StepTask(s, t, a).counts.IsEmpty() ==> IsWrite(a)
  {
    hide TaskInv, Step, StepTask, AllTasks, Counted, CanStepTask;
    StepFrame(s, t, a);
    WritesNeverSaturate(s, t, a);
    WritesNeedARelease(s, t, a);
  }

  lemma WritesNeedARelease(s: State, t: nat, a: TaskStep)
    requires CanStepTask(s, t, a)
    ensures t in s.tasks && CanStep(s.tasks[t], a) && (IsWrite(a) ==> s.tasks[t].release.ToWrite?)
  {
  }

  /** Only a release changes the total, and it frees a slot. */
  lemma TotalMoves(s: State, t: nat, a: TaskStep)
    requires TasksOk(s) && CountsOk(s) && CanStepTask(s, t, a)
    ensures StepTask(s, t, a).counts.Total() == s.counts.Total() - One(IsWrite(a))
  {
    hide TaskInv, Step, StepTask, AllTasks, Counted, CanStepTask;
    StepFrame(s, t, a);
    WritesNeverSaturate(s, t, a);
    WritesNeedARelease(s, t, a);
  }

  lemma BumpDebtKept(s: State, t: nat, a: TaskStep)
    requires TasksOk(s) && CanStepTask(s, t, a)
    ensures OwesBump(s.tasks, s.closers) && a != OnRelease(BumpGeneration) ==>
              OwesBump(StepTask(s, t, a).tasks, StepTask(s, t, a).closers)
    ensures IsWrite(a) ==> OwesBump(StepTask(s, t, a).tasks, StepTask(s, t, a).closers)
  {
    hide TaskInv, Step, StepTask;
    StepMoves(s.tasks[t], a);
    StepFrame(s, t, a);
    var s' := StepTask(s, t, a);
    if IsWrite(a) {
      assert TaskOwesBump(s'.tasks[t]);
    } else if OwesBump(s.tasks, s.closers) && a != OnRelease(BumpGeneration) {
      if u :| u in s.tasks && TaskOwesBump(s.tasks[u]) {
        assert TaskOwesBump(s'.tasks[u]);
      } else {
        var c :| c in s.closers && CloserOwesBump(s.closers[c]);
        assert CloserOwesBump(s'.closers[c]);
      }
    }
  }

  lemma HintsKept(s: State, t: nat, a: TaskStep)
    requires TasksOk(s) && CountsOk(s) && HintsOk(s) && SeenOk(s) && CanStepTask(s, t, a)
    ensures HintsOk(StepTask(s, t, a)) && SeenOk(StepTask(s, t, a))
  {
    hide TaskInv, Step, StepTask, OwesBump, AllTasks, Counted, CanStepTask, CountsAfter, Counts.Total;
    StepFrame(s, t, a);
    BumpDebtKept(s, t, a);
    TotalMoves(s, t, a);
  }

  lemma CheckDebtKept(s: State, t: nat, a: TaskStep)
    requires CanStepTask(s, t, a) && SomeCloserWillCheck(s.closers)
    ensures SomeCloserWillCheck(StepTask(s, t, a).closers)
  {
    hide TaskInv, Step, StepTask;
    StepFrame(s, t, a);
    var c :| c in s.closers && CloserWillCheck(s.closers[c]);
    assert CloserWillCheck(StepTask(s, t, a).closers[c]);
  }

  /** A finisher gives its debt up only where it has seen that the service is not over. */
  predicate KeepsDebts(a: TaskStep) {
    IsLeave(a) ==> a.release.verdict
  }

  lemma SyncDebtKept(s: State, t: nat, a: TaskStep)
    requires TasksOk(s) && CanStepTask(s, t, a)
    ensures OwesSync(s.tasks, s.closers) && KeepsDebts(a) && a != OnRelease(WakeSync) ==>
              OwesSync(StepTask(s, t, a).tasks, StepTask(s, t, a).closers)
    ensures IsWrite(a) ==> OwesSync(StepTask(s, t, a).tasks, StepTask(s, t, a).closers)
  {
    hide TaskInv, Step, StepTask, SomeCloserWillCheck;
    StepMoves(s.tasks[t], a);
    StepFrame(s, t, a);
    var s' := StepTask(s, t, a);
    if IsWrite(a) {
      assert TaskOwesSync(s'.tasks[t]);
    } else if OwesSync(s.tasks, s.closers) && KeepsDebts(a) && a != OnRelease(WakeSync) {
      if u :| u in s.tasks && TaskOwesSync(s.tasks[u]) {
        assert TaskOwesSync(s'.tasks[u]);
      } else if SomeCloserWillCheck(s.closers) {
        CheckDebtKept(s, t, a);
      } else {
        var c :| c in s.closers && s.closers[c].pc.NotifyingSync?;
        assert s'.closers[c].pc.NotifyingSync?;
      }
    }
  }

  lemma AsyncDebtKept(s: State, t: nat, a: TaskStep)
    requires TasksOk(s) && CanStepTask(s, t, a)
    ensures OwesAsync(s.tasks, s.closers) && KeepsDebts(a) && a != OnRelease(WakeAsync) ==>
              OwesAsync(StepTask(s, t, a).tasks, StepTask(s, t, a).closers)
  {
    hide TaskInv, Step, StepTask, OwesSync;
    StepMoves(s.tasks[t], a);
    StepFrame(s, t, a);
    SyncDebtKept(s, t, a);
    var s' := StepTask(s, t, a);
    if a == OnRelease(WakeSync) {
      assert s'.tasks[t].release.ToNotifyAsync?;
    } else if !OwesSync(s.tasks, s.closers) && OwesAsync(s.tasks, s.closers) && KeepsDebts(a) && a != OnRelease(WakeAsync) {
      if u :| u in s.tasks && s.tasks[u].release.ToNotifyAsync? {
        assert s'.tasks[u].release.ToNotifyAsync?;
      } else {
        var c :| c in s.closers && s.closers[c].pc.NotifyingAsync?;
        assert s'.closers[c].pc.NotifyingAsync?;
      }
    }
  }

  lemma WokenAsyncFacts(m: map<nat, AsyncWaiter>)
    ensures WokenAsyncs(m).Keys == m.Keys
    ensures forall w :: w in m ==> AsyncSafe(WokenAsyncs(m)[w])
    ensures forall w :: w in m ==> (HasAnswer(WokenAsyncs(m)[w]) <==> HasAnswer(m[w]))
    ensures forall w :: w in m ==> (WokenAsyncs(m)[w].Answering? <==> m[w].Answering?)
    ensures forall w :: w in m ==>
              (WokenAsyncs(m)[w].Reading? <==> m[w].Reading?) && (m[w].Reading? ==> WokenAsyncs(m)[w].seen == m[w].seen)
  {
  }

  lemma AsyncsKept(s: State, t: nat, a: TaskStep)
    requires TasksOk(s) && CountsOk(s) && AsyncsOk(s) && CanStepTask(s, t, a)
    ensures AsyncsOk(StepTask(s, t, a))
  {
    hide TaskInv, Step, StepTask, OwesSync, OwesAsync, CountsAfter, WokenAsyncs, CanStepTask, AllTasks, Counted,
         Counts.IsEmpty;
    WokenAsyncFacts(s.asyncs);
    StepFrame(s, t, a);
    EmptyStaysEmpty(s, t, a);
    SyncDebtKept(s, t, a);
    AsyncDebtKept(s, t, a);
    SyncDebtIsAsyncDebt(StepTask(s, t, a));
    VerdictIsTermination(s, t, a);
  }

  lemma SyncDebtIsAsyncDebt(s: State)
    ensures OwesSync(s.tasks, s.closers) ==> OwesAsync(s.tasks, s.closers)
  {
  }

  /** A finisher that leaves its section knows whether the service is over. */
  lemma VerdictIsTermination(s: State, t: nat, a: TaskStep)
    requires CanStepTask(s, t, a)
    ensures KeepsDebts(a) || !Ended(s.life, s.counts)
    ensures IsLeave(a) ==> !IsWrite(a) && a != OnRelease(WakeSync) && a != OnRelease(WakeAsync)
  {
  }

  lemma WokenSyncFacts(m: map<nat, SyncWaiter>)
    ensures WokenSyncs(m).Keys == m.Keys
    ensures forall w :: w in m ==> !WokenSyncs(m)[w].Blocked? && (!m[w].Blocked? ==> WokenSyncs(m)[w] == m[w])
    ensures forall w :: w in m && m[w].Blocked? ==> WokenSyncs(m)[w].Entering?
  {
  }

  lemma SyncsKept(s: State, t: nat, a: TaskStep)
    requires TasksOk(s) && CountsOk(s) && SyncsOk(s) && CanStepTask(s, t, a)
    ensures SyncsOk(StepTask(s, t, a))
  {
    hide TaskInv, Step, StepTask, OwesSync, CountsAfter, SomeCloserWillCheck, WokenSyncs, CanStepTask, AllTasks,
         Counted, Counts.IsEmpty;
    WokenSyncFacts(s.syncs);
    StepFrame(s, t, a);
    EmptyStaysEmpty(s, t, a);
    SyncDebtKept(s, t, a);
    if SomeCloserWillCheck(s.closers) {
      CheckDebtKept(s, t, a);
    }
    VerdictIsTermination(s, t, a);
  }

  // ----- hooks and the monitor

  lemma NobodyElseEngaged(s: State, t: nat)
    requires CanStepTask(s, t, ByStop(HookCheck)) && s.tasks[t].entry.Taken?
    ensures forall u :: u in s.tasks ==> !Engaged(s.tasks[u], s.tasks[t].entry.closer)
  {
    hide CanStep, Engaged;
  }

  lemma HooksKept(s: State, t: nat, a: TaskStep)
    requires TasksOk(s) && HooksOk(s) && CanStepTask(s, t, a)
    ensures HooksOk(StepTask(s, t, a))
  {
    hide TaskInv, Step, StepTask, Engaged, HasHook, CanStepTask, AllTasks;
    StepFrame(s, t, a);
    CanStepOfTask(s, t, a);
    StepMoves(s.tasks[t], a);
    var s' := StepTask(s, t, a);
    if a == ByStop(HookCheck) && s.tasks[t].entry.Taken? {
      NobodyElseEngaged(s, t);
    }
    forall u, v, c | u in s'.tasks && v in s'.tasks && Engaged(s'.tasks[u], c) && Engaged(s'.tasks[v], c)
      ensures u == v
    {
      assert u != t ==> Engaged(s.tasks[u], c);
      assert v != t ==> Engaged(s.tasks[v], c);
    }
  }

  lemma CanStepOfTask(s: State, t: nat, a: TaskStep)
    requires TasksOk(s) && CanStepTask(s, t, a)
    ensures t in s.tasks && TaskInv(s.tasks[t]) && CanStep(s.tasks[t], a) && (TakesMonitor(a) ==> s.monitor.Vacant?)
  {
  }

  lemma TasksInsideKept(s: State, t: nat, a: TaskStep)
    requires TasksOk(s) && TasksInside(s.monitor, s.tasks) && CanStepTask(s, t, a)
    ensures TasksInside(StepTask(s, t, a).monitor, StepTask(s, t, a).tasks)
  {
    hide TaskInv, Step, CanStep, StepTask, TaskSection, CanStepTask, AllTasks;
    StepFrame(s, t, a);
    CanStepOfTask(s, t, a);
    StepSection(t, s.tasks[t], a);
    SectionsAreTheirs(s.tasks);
    SectionsAreTheirs(StepTask(s, t, a).tasks);
  }

  lemma SectionsAreTheirs(tasks: map<nat, Task>)
    ensures forall t :: t in tasks && TaskSection(t, tasks[t]).HeldBy? ==> TaskSection(t, tasks[t]).section == OfTask(t)
  {
  }

  /** Whether a task enters or leaves, nobody else is inside. */
  lemma OthersInsideKept(s: State, t: nat, a: TaskStep)
    requires TasksOk(s) && MonitorOk(s) && CanStepTask(s, t, a)
    ensures var m := StepTask(s, t, a).monitor;
            && SubmittersInside(m, s.submitters)
            && ClosersInside(m, s.closers)
            && AsyncsInside(m, s.asyncs)
            && SyncsInside(m, s.syncs)
  {
    hide TaskInv, Step, StepTask, TaskSection, CanStepTask, AllTasks, TasksInside;
    StepFrame(s, t, a);
    CanStepOfTask(s, t, a);
    StepSection(t, s.tasks[t], a);
    HolderOfTask(s, t);
    OthersInside(s, StepTask(s, t, a).monitor);
  }

  lemma HolderOfTask(s: State, t: nat)
    requires TasksInside(s.monitor, s.tasks) && t in s.tasks
    ensures TaskSection(t, s.tasks[t]).HeldBy? ==> s.monitor.HeldBy? && s.monitor.section.OfTask?
  {
  }

  lemma OthersInside(s: State, m: Monitor)
    requires MonitorOk(s)
    requires m == s.monitor || ((s.monitor.Vacant? || s.monitor.section.OfTask?) && (m.Vacant? || m.section.OfTask?))
    ensures SubmittersInside(m, s.submitters)
    ensures ClosersInside(m, s.closers)
    ensures AsyncsInside(m, s.asyncs)
    ensures SyncsInside(m, s.syncs)
  {
    hide TasksInside;
  }

  lemma WaitersKeepSections(s: State, t: nat, a: TaskStep, m: Monitor)
    requires CanStepTask(s, t, a) && AsyncsInside(m, s.asyncs) && SyncsInside(m, s.syncs)
    ensures AsyncsInside(m, StepTask(s, t, a).asyncs) && SyncsInside(m, StepTask(s, t, a).syncs)
  {
    hide Step, StepTask, WokenAsyncs, WokenSyncs, CanStepTask;
    StepFrame(s, t, a);
    WokenAsyncFacts(s.asyncs);
    WokenSyncFacts(s.syncs);
  }

  lemma ClosersKeepSections(s: State, t: nat, a: TaskStep, m: Monitor)
    requires TasksOk(s) && CanStepTask(s, t, a) && ClosersInside(m, s.closers)
    ensures ClosersInside(m, StepTask(s, t, a).closers)
  {
    hide Step, StepTask, CanStepTask, AllTasks;
    StepFrame(s, t, a);
    CanStepOfTask(s, t, a);
  }

  lemma SubmittersKeepSections(s: State, t: nat, a: TaskStep, m: Monitor)
    requires CanStepTask(s, t, a) && TasksOk(s) && AdmissionOk(s) && SubmittersInside(m, s.submitters)
    ensures SubmittersInside(m, StepTask(s, t, a).submitters)
  {
    hide TaskInv, Step, StepTask, CanStepTask, AllTasks, InAdmission;
    StepFrame(s, t, a);
    CanStepOfTask(s, t, a);
    StepMoves(s.tasks[t], a);
  }

  /** What a task step does to the tables of other parties does not move them in or out of the monitor. */
  lemma TablesKeepSections(s: State, t: nat, a: TaskStep, m: Monitor)
    requires CanStepTask(s, t, a) && TasksOk(s) && AdmissionOk(s)
    requires SubmittersInside(m, s.submitters) && ClosersInside(m, s.closers)
    requires AsyncsInside(m, s.asyncs) && SyncsInside(m, s.syncs)
    ensures var s' := StepTask(s, t, a);
            && SubmittersInside(m, s'.submitters) && ClosersInside(m, s'.closers)
            && AsyncsInside(m, s'.asyncs) && SyncsInside(m, s'.syncs)
  {
    hide StepTask, CanStepTask, AllTasks, Exclusive, SubmittersInside, ClosersInside, AsyncsInside, SyncsInside;
    SubmittersKeepSections(s, t, a, m);
    ClosersKeepSections(s, t, a, m);
    WaitersKeepSections(s, t, a, m);
  }

  lemma MonitorKept(s: State, t: nat, a: TaskStep)
    requires TasksOk(s) && AdmissionOk(s) && MonitorOk(s) && CanStepTask(s, t, a)
    ensures MonitorOk(StepTask(s, t, a))
  {
    hide StepTask, CanStepTask, AllTasks, TasksInside, SubmittersInside, ClosersInside, AsyncsInside, SyncsInside;
    TasksInsideKept(s, t, a);
    OthersInsideKept(s, t, a);
    TablesKeepSections(s, t, a, StepTask(s, t, a).monitor);
  }

  lemma TaskStepKeepsInv(s: State, t: nat, a: TaskStep)
    requires Inv(s) && CanStepTask(s, t, a)
    ensures Inv(StepTask(s, t, a))
  {
    hide TaskInv, Step, StepTask, TasksOk, CountsOk, AddressesOk, MapOk, AdmissionOk, LifeOk, StopOk, ReportsOk,
         AsyncsOk, SyncsOk, HintsOk, SeenOk, HooksOk, MonitorOk;
    TasksKept(s, t, a);
    CountsKept(s, t, a);
    AddressesKept(s, t, a);
    MapKept(s, t, a);
    AdmissionKept(s, t, a);
    LifeKept(s, t, a);
    StopKept(s, t, a);
    ReportsKept(s, t, a);
    AsyncsKept(s, t, a);
    SyncsKept(s, t, a);
    HintsKept(s, t, a);
    HooksKept(s, t, a);
    MonitorKept(s, t, a);
  }
}
