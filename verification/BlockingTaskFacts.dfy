/** What single steps do to the parts of a task that the shared state mirrors. */
module BlockingTaskFacts {
  import opened BlockingTask

  predicate IsAllocate(a: TaskStep) {
    a.BySubmitter? && a.submitter.Allocate?
  }

  predicate IsWrite(a: TaskStep) {
    a == OnRelease(WriteCounts)
  }

  /** The end of the section in which a finisher has written the counts and seen whether the service is over. */
  predicate IsLeave(a: TaskStep) {
    a.OnRelease? && a.release.LeaveWrite?
  }

  predicate IsRemoval(a: TaskStep) {
    a == OnGuard(GuardRemove) || a == ByCancel(CancelRemoveEntry)
  }

  /** The phase moves only at the two monitor writes, and always out of the count that the write decrements. */
  predicate PhaseMoves(k: Task, a: TaskStep, k': Task) {
    if a == ByJob(MarkCount) then PhaseOf(k).Queued? && PhaseOf(k').Active?
    else if IsWrite(a) then
      k.release.ToWrite? && PhaseOf(k) == (if k.release.started then Active else Queued) && PhaseOf(k').Done?
    else PhaseOf(k') == PhaseOf(k)
  }

  /** References to a marker only disappear, and its address is chosen once. */
  predicate LivenessMoves(k: Task, a: TaskStep, k': Task) {
    if IsAllocate(a) then !Live(k) && k'.addr == a.submitter.addr && !k'.entry.InMap?
    else k'.addr == k.addr && (Live(k') ==> Live(k))
  }

  /** The entry of a task is listed by Register and unlisted by the two removals, while its marker is referenced. */
  predicate ListingMoves(k: Task, a: TaskStep, k': Task) {
    && (k.entry.InMap? ==> Live(k))
    && (if a == BySubmitter(Register) then
          Live(k) && !k.entry.InMap? && !k.finished && (k'.entry.InMap? <==> !k.job.Gone?)
        else if IsRemoval(a) then Live(k) && !k'.entry.InMap?
        else k'.entry.InMap? <==> k.entry.InMap?)
  }

  /** The submitting thread of a task never changes and leaves admission once. */
  predicate SubmitterMoves(k: Task, a: TaskStep, k': Task) {
    && k'.owner == k.owner
    && (InAdmission(k') <==> InAdmission(k) && a != BySubmitter(Unlock))
    && (a == BySubmitter(Unlock) || a == BySubmitter(Register) ==> InAdmission(k))
    && (k'.stage.Returned? <==> k.stage.Returned? || a == BySubmitter(Return))
    && (a == BySubmitter(Return) ==> !k.stage.Returned? && !InAdmission(k))
    && (InAdmission(k) ==> !k.stage.Returned?)
  }

  /** Only the stop that owns the hook moves it, and nobody gains a hook. */
  ghost predicate HookMoves(k: Task, a: TaskStep, k': Task) {
    && (forall c :: HasHook(k', c) ==> HasHook(k, c))
    && (forall c :: Engaged(k', c) ==> Engaged(k, c) || (a == ByStop(HookCheck) && k.entry == Taken(c)))
    && (k'.releasedBy.ByTheHook? && !k.releasedBy.ByTheHook? ==> HasHook(k, k'.releasedBy.closer) && PhaseOf(k).Queued?)
    && (k.releasedBy.ByTheHook? ==> k'.releasedBy == k.releasedBy && (k.entry.NoEntry? ==> k'.entry.NoEntry?))
    && (a == ByStop(HookCancelSlot) ==>
          k.entry.HookSlot? && k.releasedBy == ByTheHook(k.entry.closer) && k'.releasedBy == k.releasedBy && k'.entry.NoEntry?)
    && (k'.releasedBy.ByTheHook? ==> !k'.won && k'.cas.CasFinished?)
  }

  /** Notification debts are discharged only by the step that pays them. */
  predicate DebtMoves(k: Task, a: TaskStep, k': Task) {
    && (k.release.ToBump? && a != OnRelease(BumpGeneration) ==> k'.release == k.release)
    && (k.release.ToNotifySync? && a != OnRelease(WakeSync) ==> k'.release == k.release)
    && (k.release.ToNotifyAsync? && a != OnRelease(WakeAsync) ==> k'.release == k.release)
    && (k.release.ToBump? && k.release.terminated && a == OnRelease(BumpGeneration) ==> k'.release.ToNotifySync?)
    && (a == OnRelease(WakeSync) ==> k'.release.ToNotifyAsync?)
    && (IsWrite(a) ==> k'.release.Written?)
    && (k.release.Written? && !IsLeave(a) ==> k'.release == k.release)
    && (IsLeave(a) ==> k.release.Written? && k'.release == ToBump(a.release.verdict))
  }

  /** A finished task rests, and a task that never runs stays that way. */
  predicate RunMoves(k: Task, k': Task) {
    && (PhaseOf(k).Done? ==> !k.job.UserBody? && !k'.job.UserBody? && k'.ran == k.ran)
    && (NeverRuns(k) ==> NeverRuns(k'))
    && (k.ran ==> k'.ran)
    && (k.won ==> k'.won)
    && (k'.ran ==> k'.won)
  }

  ghost predicate Moves(k: Task, a: TaskStep, k': Task) {
    && PhaseMoves(k, a, k')
    && LivenessMoves(k, a, k')
    && ListingMoves(k, a, k')
    && SubmitterMoves(k, a, k')
    && HookMoves(k, a, k')
    && DebtMoves(k, a, k')
    && RunMoves(k, k')
  }

  lemma ReservingMoves(k: Task, a: SubmitterAct)
    requires TaskInv(k) && CanSubmit(k, a) && (a.LeaveAccept? || a.Allocate? || a.Spawn?)
    ensures Moves(k, BySubmitter(a), Submit(k, a))
  {
  }

  lemma RegisterMoves(k: Task)
    requires TaskInv(k) && CanSubmit(k, Register)
    ensures Moves(k, BySubmitter(Register), Submit(k, Register))
  {
    if k.job.Gone? {}
  }

  lemma SendMoves(k: Task)
    requires TaskInv(k) && CanSubmit(k, Send)
    ensures Moves(k, BySubmitter(Send), Submit(k, Send))
  {
    if k.job.Gone? {}
  }

  lemma UnlockMoves(k: Task)
    requires TaskInv(k) && CanSubmit(k, Unlock)
    ensures Moves(k, BySubmitter(Unlock), Submit(k, Unlock))
  {
  }

  lemma ReturnMoves(k: Task)
    requires TaskInv(k) && CanSubmit(k, Return)
    ensures Moves(k, BySubmitter(Return), Submit(k, Return))
  {
  }

  lemma SubmitMoves(k: Task, a: SubmitterAct)
    requires TaskInv(k) && CanSubmit(k, a)
    ensures Moves(k, BySubmitter(a), Submit(k, a))
  {
    hide TaskInv, Submit, CanSubmit, Moves;
    match a
    case LeaveAccept => ReservingMoves(k, a);
    case Allocate(_) => ReservingMoves(k, a);
    case Spawn(_) => ReservingMoves(k, a);
    case Register => RegisterMoves(k);
    case Unlock => UnlockMoves(k);
    case Send => SendMoves(k);
    case Return => ReturnMoves(k);
  }

  lemma StartingMoves(k: Task, a: JobAct)
    requires TaskInv(k) && CanWork(k, a) && IsStarting(a)
    ensures Moves(k, ByJob(a), Work(k, a))
  {
    if a.MarkCas? {
      if MayRun(k.cas) {}
    }
  }

  lemma RunningMoves(k: Task, a: JobAct)
    requires TaskInv(k) && CanWork(k, a) && (a.TakeSlot? || a.Launch?)
    ensures Moves(k, ByJob(a), Work(k, a))
  {
    if a.TakeSlot? {
      if k.kind.Runnable? {}
    } else {
      if k.endpoint.EndpointPending? {}
    }
  }

  lemma EndingMoves(k: Task, a: JobAct)
    requires TaskInv(k) && CanWork(k, a) && (a.EndBody? || a.EndJob?)
    ensures Moves(k, ByJob(a), Work(k, a))
  {
    if a.EndBody? {
      if k.kind.Runnable? {}
    }
  }

  lemma DropJobMoves(k: Task)
    requires TaskInv(k) && CanWork(k, DropJob)
    ensures Moves(k, ByJob(DropJob), Work(k, DropJob))
  {
    if k.guard.InChannel? {}
  }

  lemma WorkMoves(k: Task, a: JobAct)
    requires TaskInv(k) && CanWork(k, a)
    ensures Moves(k, ByJob(a), Work(k, a))
  {
    hide TaskInv, Work, CanWork, Moves;
    if IsStarting(a) {
      StartingMoves(k, a);
    } else if a.TakeSlot? || a.Launch? {
      RunningMoves(k, a);
    } else if a.DropJob? {
      DropJobMoves(k);
    } else {
      EndingMoves(k, a);
    }
  }

  lemma UnlistMoves(k: Task)
    requires TaskInv(k) && CanDrop(k, GuardRemove)
    ensures Moves(k, OnGuard(GuardRemove), DropGuard(k, GuardRemove))
  {
    if k.entry.InMap? {}
  }

  lemma SwapMoves(k: Task)
    requires TaskInv(k) && CanDrop(k, GuardSwap)
    ensures Moves(k, OnGuard(GuardSwap), DropGuard(k, GuardSwap))
  {
    if k.cas.CasFinished? {} else if k.cas.CasQueued? {}
  }

  lemma MarkMoves(k: Task, a: GuardAct)
    requires TaskInv(k) && CanDrop(k, a) && (a.GuardMark? || a.GuardDone?)
    ensures Moves(k, OnGuard(a), DropGuard(k, a))
  {
  }

  lemma DropMoves(k: Task, a: GuardAct)
    requires TaskInv(k) && CanDrop(k, a)
    ensures Moves(k, OnGuard(a), DropGuard(k, a))
  {
    hide TaskInv, DropGuard, CanDrop, Moves;
    match a
    case GuardMark => MarkMoves(k, a);
    case GuardRemove => UnlistMoves(k);
    case GuardSwap => SwapMoves(k);
    case GuardDone => MarkMoves(k, a);
  }

  lemma ReleaseMoves(k: Task, a: ReleaseAct)
    requires TaskInv(k) && CanRelease(k, a)
    ensures Moves(k, OnRelease(a), ReleaseStep(k, a))
  {
    match a
    case WriteCounts => if k.won {}
    case _ =>
  }

  lemma WinningMoves(k: Task, a: CancelAct)
    requires TaskInv(k) && CanCancel(k, a) && (a.CancelWin? || a.CancelMarkFinished? || a.CancelRemoveEntry?)
    ensures Moves(k, ByCancel(a), CancelTask(k, a))
  {
    if a.CancelRemoveEntry? {
      if k.entry.InMap? {}
    }
  }

  lemma CompareMoves(k: Task)
    requires TaskInv(k) && CanCancel(k, CancelCompare)
    ensures Moves(k, ByCancel(CancelCompare), CancelTask(k, CancelCompare))
  {
    if k.cas.CasQueued? {}
  }

  lemma CancelledMoves(k: Task, a: CancelAct)
    requires TaskInv(k) && CanCancel(k, a) && (a.CancelReleased? || a.CancelAbortJob? || a.DropHandle?)
    ensures Moves(k, ByCancel(a), CancelTask(k, a))
  {
  }

  lemma CancelMoves(k: Task, a: CancelAct)
    requires TaskInv(k) && CanCancel(k, a)
    ensures Moves(k, ByCancel(a), CancelTask(k, a))
  {
    hide TaskInv, CancelTask, CanCancel, Moves;
    if a.CancelCompare? {
      CompareMoves(k);
    } else if a.CancelReleased? || a.CancelAbortJob? || a.DropHandle? {
      CancelledMoves(k, a);
    } else {
      WinningMoves(k, a);
    }
  }

  lemma AbortMoves(k: Task, a: HookAct)
    requires TaskInv(k) && CanHook(k, a) && (a.HookCheck? || a.HookAbortJob?)
    ensures Moves(k, ByStop(a), RunHook(k, a))
  {
    if a.HookCheck? {
      if k.job.Gone? {}
    }
  }

  lemma HookCompareMoves(k: Task)
    requires TaskInv(k) && CanHook(k, HookCompare)
    ensures Moves(k, ByStop(HookCompare), RunHook(k, HookCompare))
  {
    if k.cas.CasQueued? {}
  }

  lemma HookEndMoves(k: Task, a: HookAct)
    requires TaskInv(k) && CanHook(k, a) && (a.HookReleased? || a.HookCancelSlot?)
    ensures Moves(k, ByStop(a), RunHook(k, a))
  {
    if a.HookCancelSlot? {
      if k.kind.Runnable? {} else if k.endpoint.EndpointPending? {}
    }
  }

  lemma RunHookMoves(k: Task, a: HookAct)
    requires TaskInv(k) && CanHook(k, a)
    ensures Moves(k, ByStop(a), RunHook(k, a))
  {
    hide TaskInv, RunHook, CanHook, Moves;
    if a.HookCompare? {
      HookCompareMoves(k);
    } else if a.HookCheck? || a.HookAbortJob? {
      AbortMoves(k, a);
    } else {
      HookEndMoves(k, a);
    }
  }

  /** All that the shared state needs to know about a step of a task. */
  lemma StepMoves(k: Task, a: TaskStep)
    requires TaskInv(k) && CanStep(k, a)
    ensures TaskInv(Step(k, a)) && Moves(k, a, Step(k, a))
  {
    hide TaskInv, Moves, Submit, Work, DropGuard, ReleaseStep, CancelTask, RunHook;
    match a
    case BySubmitter(x) => SubmitKeepsTaskInv(k, x); SubmitMoves(k, x);
    case ByJob(x) => WorkKeepsTaskInv(k, x); WorkMoves(k, x);
    case OnGuard(x) => DropGuardKeepsTaskInv(k, x); DropMoves(k, x);
    case OnRelease(x) => ReleaseStepKeepsTaskInv(k, x); ReleaseMoves(k, x);
    case ByCancel(x) => CancelTaskKeepsTaskInv(k, x); CancelMoves(k, x);
    case ByStop(x) => RunHookKeepsTaskInv(k, x); RunHookMoves(k, x);
  }

  // ----- the monitor

  /** A step enters a section, leaves it, or stays on its side of the monitor. */
  predicate SectionMoves(t: nat, k: Task, a: TaskStep, k': Task)
    requires CanStep(k, a)
  {
    if TakesMonitor(a) then
      TaskSection(t, k).Vacant? && TaskSection(t, k') == HeldBy(TaskActor(t, k, a), OfTask(t))
    else if LeavesMonitor(a) then
      TaskSection(t, k) == HeldBy(TaskActor(t, k, a), OfTask(t)) && TaskSection(t, k').Vacant?
    else TaskSection(t, k') == TaskSection(t, k)
  }

  lemma SubmitSection(t: nat, k: Task, a: SubmitterAct)
    requires TaskInv(k) && CanSubmit(k, a)
    ensures SectionMoves(t, k, BySubmitter(a), Submit(k, a))
  {
  }

  lemma WorkSection(t: nat, k: Task, a: JobAct)
    requires TaskInv(k) && CanWork(k, a)
    ensures SectionMoves(t, k, ByJob(a), Work(k, a))
  {
  }

  lemma DropSection(t: nat, k: Task, a: GuardAct)
    requires TaskInv(k) && CanDrop(k, a)
    ensures SectionMoves(t, k, OnGuard(a), DropGuard(k, a))
  {
    match a
    case GuardMark =>
    case GuardRemove =>
    case GuardSwap => if k.cas.CasFinished? {}
    case GuardDone =>
  }

  lemma ReleaseSection(t: nat, k: Task, a: ReleaseAct)
    requires TaskInv(k) && CanRelease(k, a)
    ensures SectionMoves(t, k, OnRelease(a), ReleaseStep(k, a))
  {
  }

  lemma CancelSection(t: nat, k: Task, a: CancelAct)
    requires TaskInv(k) && CanCancel(k, a)
    ensures SectionMoves(t, k, ByCancel(a), CancelTask(k, a))
  {
  }

  lemma HookSection(t: nat, k: Task, a: HookAct)
    requires TaskInv(k) && CanHook(k, a)
    ensures SectionMoves(t, k, ByStop(a), RunHook(k, a))
  {
  }

  /** The program counters of one task are never in two sections, and the thread that leaves is the one that entered. */
  lemma StepSection(t: nat, k: Task, a: TaskStep)
    requires TaskInv(k) && CanStep(k, a)
    ensures SectionMoves(t, k, a, Step(k, a))
  {
    hide TaskInv, SectionMoves, Submit, Work, DropGuard, ReleaseStep, CancelTask, RunHook;
    match a
    case BySubmitter(x) => SubmitSection(t, k, x);
    case ByJob(x) => WorkSection(t, k, x);
    case OnGuard(x) => DropSection(t, k, x);
    case OnRelease(x) => ReleaseSection(t, k, x);
    case ByCancel(x) => CancelSection(t, k, x);
    case ByStop(x) => HookSection(t, k, x);
  }

  /** Taking a listed entry changes nothing else about the task. */
  lemma TakenKeepsTaskInv(k: Task, c: nat)
    requires TaskInv(k) && k.entry.InMap?
    ensures TaskInv(k.(entry := Taken(c))) && Live(k)
  {
  }
}
