/** Every step of an accepted future keeps the invariant of the IO service. */
module IoTaskSteps {
  import opened IoTask
  import opened IoModel
  import opened IoInvariant

  /** The parts of the state that a task step leaves alone, and how it moves the others. */
  lemma StepFrame(s: State, t: nat, a: TaskStep)
    requires CanStepTask(s, t, a)
    ensures var s', k := StepTask(s, t, a), s.tasks[t];
            && s'.tasks == s.tasks[t := Step(k, a)]
            && s'.active == (if a == OnGuard(Decrement) then Pred(s.active) else s.active)
            && s'.handles == HandlesAfter(s.handles, t, k, a)
            && s'.closers == ClosersAfter(s.closers, t, k, a)
            && s'.capacity == s.capacity
            && s'.life == s.life
            && s'.admission == (if a == BySubmitter(Unlock) then Free else s.admission)
            && s'.submitters == (if a == BySubmitter(Return) then s.submitters[k.owner := Idle] else s.submitters)
            && s'.generation == (if a == OnGuard(BumpGeneration) then s.generation + 1 else s.generation)
            && s'.waiters == (if a == OnGuard(Notify) then WokenWaiters(s.waiters) else s.waiters)
  {
    hide Step, CanStep, HandlesAfter, ClosersAfter, WokenWaiters;
  }

  lemma TasksKept(s: State, t: nat, a: TaskStep)
    requires TasksOk(s) && CanStepTask(s, t, a)
    ensures TasksOk(StepTask(s, t, a))
  {
    hide TaskInv, Step, Moves, StepTask;
    StepFrame(s, t, a);
    StepMoves(s.tasks[t], a);
  }

  // ----- accounting

  /** The atomic count never wraps: the guard that decrements it still occupies a slot. */
  lemma DecrementNeverWraps(s: State, t: nat)
    requires TasksOk(s) && CountOk(s) && CanStepTask(s, t, OnGuard(Decrement))
    ensures s.active > 0
  {
    hide TaskInv, Step, Occupying;
    StepMoves(s.tasks[t], OnGuard(Decrement));
    CountIsPositive(s.tasks, t);
  }

  /** Nobody is between the capacity check and the increment while an accepted task is still in admission. */
  lemma CountKept(s: State, t: nat, a: TaskStep)
    requires TasksOk(s) && CountOk(s) && AdmissionOk(s) && CanStepTask(s, t, a)
    ensures CountOk(StepTask(s, t, a))
  {
    hide TaskInv, Step, StepTask, Occupies, Occupying, InAdmission, Exclusive;
    StepFrame(s, t, a);
    StepMoves(s.tasks[t], a);
    OccupyingUpdate(s.tasks, t, Step(s.tasks[t], a));
    if a == OnGuard(Decrement) {
      DecrementNeverWraps(s, t);
    }
  }

  // ----- the abort map

  lemma AddressesKept(s: State, t: nat, a: TaskStep)
    requires TasksOk(s) && AddressesOk(s) && CanStepTask(s, t, a)
    ensures AddressesOk(StepTask(s, t, a))
  {
    hide TaskInv, Step, Live, StepTask;
    StepFrame(s, t, a);
    StepMoves(s.tasks[t], a);
  }

  lemma ListedIsLive(s: State, t: nat)
    requires TasksOk(s) && t in s.tasks && s.tasks[t].entry.InMap?
    ensures Live(s.tasks[t]) && Occupies(s.tasks[t])
  {
  }

  /** Registration never overwrites an entry, whatever addresses have been reused. */
  lemma RegistrationNeverOverwrites(s: State, t: nat)
    requires TasksOk(s) && AddressesOk(s) && MapOk(s) && CanStepTask(s, t, BySubmitter(Register))
    ensures s.tasks[t].addr !in s.handles
  {
    hide TaskInv, Step, Live;
    StepMoves(s.tasks[t], BySubmitter(Register));
    if s.tasks[t].addr in s.handles {
      var u := s.handles[s.tasks[t].addr];
      ListedIsLive(s, u);
      assert false;
    }
  }

  /** A removal by address finds the task's own entry or none. */
  lemma RemovalTouchesOnlyItsOwn(s: State, t: nat)
    requires TasksOk(s) && AddressesOk(s) && MapOk(s) && CanStepTask(s, t, OnGuard(GuardRemove))
    ensures s.tasks[t].addr in s.handles <==> s.tasks[t].entry.InMap?
    ensures s.tasks[t].addr in s.handles ==> s.handles[s.tasks[t].addr] == t
  {
    hide TaskInv, Step, Live;
    StepMoves(s.tasks[t], OnGuard(GuardRemove));
    if s.tasks[t].addr in s.handles {
      ListedIsLive(s, s.handles[s.tasks[t].addr]);
    }
  }

  lemma RegisterKeepsMap(s: State, t: nat)
    requires TasksOk(s) && AddressesOk(s) && MapOk(s) && CanStepTask(s, t, BySubmitter(Register))
    ensures MapOk(StepTask(s, t, BySubmitter(Register)))
  {
    hide TaskInv, Step, Live, StepTask;
    StepFrame(s, t, BySubmitter(Register));
    StepMoves(s.tasks[t], BySubmitter(Register));
    RegistrationNeverOverwrites(s, t);
  }

  lemma RemovalKeepsMap(s: State, t: nat)
    requires TasksOk(s) && AddressesOk(s) && MapOk(s) && CanStepTask(s, t, OnGuard(GuardRemove))
    ensures MapOk(StepTask(s, t, OnGuard(GuardRemove)))
  {
    hide TaskInv, Step, Live, StepTask;
    StepFrame(s, t, OnGuard(GuardRemove));
    StepMoves(s.tasks[t], OnGuard(GuardRemove));
    RemovalTouchesOnlyItsOwn(s, t);
  }

  lemma MapKept(s: State, t: nat, a: TaskStep)
    requires TasksOk(s) && AddressesOk(s) && MapOk(s) && CanStepTask(s, t, a)
    ensures MapOk(StepTask(s, t, a))
  {
    hide TaskInv, Step, Live, StepTask;
    if a == BySubmitter(Register) {
      RegisterKeepsMap(s, t);
    } else if a == OnGuard(GuardRemove) {
      RemovalKeepsMap(s, t);
    } else {
      StepFrame(s, t, a);
      StepMoves(s.tasks[t], a);
    }
  }

  // ----- admission, lifecycle and stop

  lemma AdmissionIsNotReturned(s: State)
    ensures forall t :: t in s.tasks && InAdmission(s.tasks[t]) ==> !s.tasks[t].stage.Returned?
  {
  }

  /** What admission sees of a task: its owner, whether it is in admission, whether its submission returned. */
  lemma SameStanding(s: State, t: nat, k: Task)
    requires AdmissionOk(s) && t in s.tasks
    requires k.owner == s.tasks[t].owner && InAdmission(k) == InAdmission(s.tasks[t])
    requires k.stage.Returned? == s.tasks[t].stage.Returned?
    ensures Exclusive(s.admission, s.submitters, s.tasks[t := k], s.closers)
  {
    hide InAdmission, ClosesUnderAdmission;
  }

  lemma UnlockingKeepsAdmission(s: State, t: nat, k: Task)
    requires AdmissionOk(s) && t in s.tasks && InAdmission(s.tasks[t])
    requires k.owner == s.tasks[t].owner && !InAdmission(k) && !k.stage.Returned?
    ensures Exclusive(Free, s.submitters, s.tasks[t := k], s.closers)
  {
    AdmissionIsNotReturned(s);
    hide InAdmission, ClosesUnderAdmission;
  }

  lemma ReturningKeepsAdmission(s: State, t: nat, k: Task)
    requires AdmissionOk(s) && t in s.tasks && !InAdmission(s.tasks[t]) && !s.tasks[t].stage.Returned?
    requires k.owner == s.tasks[t].owner && !InAdmission(k) && k.stage.Returned?
    ensures Exclusive(s.admission, s.submitters[k.owner := Idle], s.tasks[t := k], s.closers)
  {
    AdmissionIsNotReturned(s);
    hide InAdmission, ClosesUnderAdmission;
  }

  /** Counting an abort does not move a closer. */
  lemma CountingKeepsAdmission(
      s: State, admission: Admission, submitters: map<nat, Submitter>, tasks: map<nat, Task>,
      t: nat, k: Task, a: TaskStep)
    requires Exclusive(admission, submitters, tasks, s.closers)
    ensures Exclusive(admission, submitters, tasks, ClosersAfter(s.closers, t, k, a))
  {
    hide InAdmission;
  }

  lemma AdmissionKept(s: State, t: nat, a: TaskStep)
    requires TasksOk(s) && AdmissionOk(s) && CanStepTask(s, t, a)
    ensures AdmissionOk(StepTask(s, t, a))
  {
    hide TaskInv, Step, InAdmission, StepTask, Exclusive, ClosersAfter;
    StepMoves(s.tasks[t], a);
    StepFrame(s, t, a);
    var k, s' := Step(s.tasks[t], a), StepTask(s, t, a);
    if a == BySubmitter(Unlock) {
      UnlockingKeepsAdmission(s, t, k);
    } else if a == BySubmitter(Return) {
      ReturningKeepsAdmission(s, t, k);
    } else {
      SameStanding(s, t, k);
    }
    CountingKeepsAdmission(s, s'.admission, s'.submitters, s'.tasks, t, s.tasks[t], a);
  }

  lemma LifeKept(s: State, t: nat, a: TaskStep)
    requires TasksOk(s) && LifeOk(s) && CanStepTask(s, t, a)
    ensures LifeOk(StepTask(s, t, a))
  {
    hide TaskInv, Step, InAdmission, StepTask;
    StepFrame(s, t, a);
    StepMoves(s.tasks[t], a);
  }

  lemma EntriesKept(s: State, t: nat, a: TaskStep)
    requires TasksOk(s) && EntriesOk(s) && CanStepTask(s, t, a)
    ensures EntriesOk(StepTask(s, t, a))
  {
    hide TaskInv, Step, HasEntry, StepTask;
    StepFrame(s, t, a);
    StepMoves(s.tasks[t], a);
  }

  lemma CountedOnce(tasks: map<nat, Task>, c: nat, cl: Closer, t: nat, k: Task)
    requires HonestReport(tasks, c, cl) && t in tasks && HasSnapshot(cl)
    requires HasEntry(tasks[t], c) && tasks[t].counter.Uncounted? && k.counter == CountedBy(c)
    requires (Occupies(k) ==> Occupies(tasks[t])) && (HasEntry(k, c) ==> HasEntry(tasks[t], c))
    ensures HonestReport(tasks[t := k], c, cl.(cancelled := cl.cancelled + 1, counted := cl.counted + {t}))
  {
    hide Occupies, HasEntry;
    assert t !in cl.counted && t in cl.snap;
  }

  lemma OthersKeepReport(tasks: map<nat, Task>, c: nat, cl: Closer, t: nat, k: Task)
    requires HonestReport(tasks, c, cl) && t in tasks
    requires tasks[t].counter == CountedBy(c) ==> k.counter == CountedBy(c)
    requires (Occupies(k) ==> Occupies(tasks[t])) && (HasEntry(k, c) ==> HasEntry(tasks[t], c))
    ensures HonestReport(tasks[t := k], c, cl)
  {
    hide Occupies, HasEntry;
  }

  lemma EntryOfAbort(k: Task)
    ensures k.entry.ToAbort? ==> HasEntry(k, k.entry.closer)
  {
  }

  lemma ReportKept(s: State, t: nat, a: TaskStep, c: nat)
    requires TasksOk(s) && EntriesOk(s) && ReportsOk(s) && CanStepTask(s, t, a) && c in s.closers
    ensures var s' := StepTask(s, t, a); c in s'.closers && HonestReport(s'.tasks, c, s'.closers[c])
  {
    hide TaskInv, Step, StepTask, Occupies, HasEntry, HonestReport;
    var k, k' := s.tasks[t], Step(s.tasks[t], a);
    StepMoves(k, a);
    StepFrame(s, t, a);
    if a == ByAbort(StopAbort) && k.entry.closer == c {
      EntryOfAbort(k);
      assert IsLooping(s.closers, c);
      CountedOnce(s.tasks, c, s.closers[c], t, k');
    } else {
      OthersKeepReport(s.tasks, c, s.closers[c], t, k');
    }
  }

  lemma ReportsKept(s: State, t: nat, a: TaskStep)
    requires TasksOk(s) && EntriesOk(s) && ReportsOk(s) && CanStepTask(s, t, a)
    ensures ReportsOk(StepTask(s, t, a))
  {
    hide TaskInv, Step, StepTask, HasEntry, HonestReport;
    StepFrame(s, t, a);
    forall c | c in s.closers
      ensures HonestReport(StepTask(s, t, a).tasks, c, StepTask(s, t, a).closers[c])
    {
      ReportKept(s, t, a, c);
    }
  }

  // ----- notifications

  lemma BumpDebtKept(s: State, t: nat, a: TaskStep)
    requires TasksOk(s) && CanStepTask(s, t, a)
    ensures OwesBump(s.tasks, s.closers) && a != OnGuard(BumpGeneration) ==>
              OwesBump(StepTask(s, t, a).tasks, StepTask(s, t, a).closers)
    ensures a == OnGuard(Decrement) ==> OwesBump(StepTask(s, t, a).tasks, StepTask(s, t, a).closers)
  {
    hide TaskInv, Step, StepTask;
    StepMoves(s.tasks[t], a);
    StepFrame(s, t, a);
    var s' := StepTask(s, t, a);
    if a == OnGuard(Decrement) {
      assert s'.tasks[t].guard.ToBump?;
    } else if OwesBump(s.tasks, s.closers) && a != OnGuard(BumpGeneration) {
      if u :| u in s.tasks && s.tasks[u].guard.ToBump? {
        assert s'.tasks[u].guard.ToBump?;
      } else {
        var c :| c in s.closers && CloserOwesBump(s.closers[c]);
        assert CloserOwesBump(s'.closers[c]);
      }
    }
  }

  lemma NotifyDebtKept(s: State, t: nat, a: TaskStep)
    requires TasksOk(s) && CanStepTask(s, t, a)
    ensures OwesNotify(s.tasks, s.closers) && a != OnGuard(Notify) ==>
              OwesNotify(StepTask(s, t, a).tasks, StepTask(s, t, a).closers)
    ensures a == OnGuard(Decrement) ==> OwesNotify(StepTask(s, t, a).tasks, StepTask(s, t, a).closers)
  {
    hide TaskInv, Step, StepTask;
    StepMoves(s.tasks[t], a);
    StepFrame(s, t, a);
    var s' := StepTask(s, t, a);
    if a == OnGuard(Decrement) || a == OnGuard(BumpGeneration) {
      assert TaskOwesNotify(s'.tasks[t]);
    } else if OwesNotify(s.tasks, s.closers) && a != OnGuard(Notify) {
      if u :| u in s.tasks && TaskOwesNotify(s.tasks[u]) {
        assert TaskOwesNotify(s'.tasks[u]);
      } else {
        var c :| c in s.closers && CloserOwesNotify(s.closers[c]);
        assert CloserOwesNotify(s'.closers[c]);
      }
    }
  }

  lemma WokenFacts(m: map<nat, Waiter>)
    ensures WokenWaiters(m).Keys == m.Keys
    ensures forall w :: w in m ==> WaiterSafe(WokenWaiters(m)[w])
    ensures forall w :: w in m ==> (WokenWaiters(m)[w].Resolved? <==> m[w].Resolved?)
    ensures forall w :: w in m ==>
              (WokenWaiters(m)[w].Reading? <==> m[w].Reading?) && (m[w].Reading? ==> WokenWaiters(m)[w].seen == m[w].seen)
  {
  }

  lemma WaitersKept(s: State, t: nat, a: TaskStep)
    requires TasksOk(s) && CountOk(s) && WaitersOk(s) && CanStepTask(s, t, a)
    ensures WaitersOk(StepTask(s, t, a))
  {
    hide TaskInv, Step, StepTask, OwesNotify, WokenWaiters, CanStepTask, AllTasks, Counted;
    WokenFacts(s.waiters);
    StepFrame(s, t, a);
    NotifyDebtKept(s, t, a);
    if a == OnGuard(Decrement) {
      DecrementNeverWraps(s, t);
    }
  }

  lemma HintsKept(s: State, t: nat, a: TaskStep)
    requires TasksOk(s) && HintsOk(s) && SeenOk(s) && CanStepTask(s, t, a)
    ensures HintsOk(StepTask(s, t, a)) && SeenOk(StepTask(s, t, a))
  {
    hide TaskInv, Step, StepTask, OwesBump;
    StepFrame(s, t, a);
    BumpDebtKept(s, t, a);
  }

  lemma TaskStepKeepsInv(s: State, t: nat, a: TaskStep)
    requires Inv(s) && CanStepTask(s, t, a)
    ensures Inv(StepTask(s, t, a))
  {
    hide TaskInv, Step, StepTask, TasksOk, CountOk, AddressesOk, MapOk, AdmissionOk, LifeOk, EntriesOk, ReportsOk,
         WaitersOk, HintsOk, SeenOk;
    TasksKept(s, t, a);
    CountKept(s, t, a);
    AddressesKept(s, t, a);
    MapKept(s, t, a);
    AdmissionKept(s, t, a);
    LifeKept(s, t, a);
    EntriesKept(s, t, a);
    ReportsKept(s, t, a);
    WaitersKept(s, t, a);
    HintsKept(s, t, a);
  }
}
