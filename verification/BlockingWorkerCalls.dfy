/** The pool's side of a delivered closure and a cancellation through a handle, run without interruption, are runs of
    the transition system that do what the methods of the service do. */
module BlockingWorkerCalls {
  import opened TaskCounts
  import opened BlockingTask
  import opened BlockingModel
  import opened BlockingCalls
  import BlockingState

  function Working(t: nat, a: JobAct): Action {
    OnTask(t, ByJob(a))
  }

  lemma WorkStep(s: State, t: nat, a: JobAct)
    requires t in s.tasks && CanWork(s.tasks[t], a) && !a.MarkCount? && !a.LeaveCount?
    ensures Enabled(s, Working(t, a))
    ensures Apply(s, Working(t, a)) == s.(tasks := s.tasks[t := Work(s.tasks[t], a)])
  {
    hide Work, CanWork;
  }

  lemma WorkAndWork(s: State, actions: seq<Action>, m: State, t: nat, a: JobAct, k: Task)
    requires Solo(s, actions, m) && t in s.tasks && t in m.tasks && m == s.(tasks := s.tasks[t := m.tasks[t]])
    requires CanWork(m.tasks[t], a) && !a.MarkCount? && !a.LeaveCount? && k == Work(m.tasks[t], a)
    ensures Solo(s, actions + [Working(t, a)], s.(tasks := s.tasks[t := k]))
  {
    hide Solo, Apply, Enabled, Work, CanWork, Working;
    WorkStep(m, t, a);
    SoloAndOne(s, actions, m, Working(t, a));
    Overwrite(s.tasks, t, m.tasks[t], k);
  }

  // ----- the closure receives its payload

  function ReceiveSteps(t: nat): seq<Action> {
    [Working(t, StartJob)] + [Working(t, Receive)]
  }

  function Received(k: Task): Task {
    k.(job := Starting, guard := WithWorker)
  }

  lemma ReceivedFacts(k: Task)
    requires k.job.Pending? && k.guard.InChannel?
    ensures CanWork(k, StartJob) && CanWork(Work(k, StartJob), Receive) && Work(Work(k, StartJob), Receive) == Received(k)
  {
  }

  lemma ReceiveIsARun(s: State, t: nat)
    requires t in s.tasks && s.tasks[t].job.Pending? && s.tasks[t].guard.InChannel?
    ensures Solo(s, ReceiveSteps(t), s.(tasks := s.tasks[t := Received(s.tasks[t])]))
  {
    hide Solo, Apply, Enabled, Work, CanWork, Working;
    ReceivedFacts(s.tasks[t]);
    WorkStep(s, t, StartJob);
    SoloOne(s, Working(t, StartJob));
    WorkAndWork(s, [Working(t, StartJob)], Apply(s, Working(t, StartJob)), t, Receive, Received(s.tasks[t]));
  }

  // ----- the body

  /** The body of a runnable always runs; a callable runs only if its slot is there and its result still pending. */
  predicate Runs(k: Task) {
    k.kind.Runnable? || (k.slotFull && k.endpoint.EndpointPending?)
  }

  /** The task when the body is over or was skipped, and the guard is about to be dropped. */
  function Bodied(k: Task): Task {
    if k.kind.Runnable? then k.(ran := true, job := Unwinding, guard := ToMark)
    else if Runs(k) then k.(slotFull := false, endpoint := EndpointDone, ran := true, job := Unwinding, guard := ToMark)
    else k.(slotFull := false, job := Unwinding, guard := ToMark)
  }

  function BodySteps(t: nat, k: Task): seq<Action> {
    if k.kind.Runnable? then [Working(t, TakeSlot)] + [Working(t, EndBody)]
    else if !k.slotFull then [Working(t, TakeSlot)]
    else if k.endpoint.EndpointPending? then [Working(t, TakeSlot)] + [Working(t, Launch)] + [Working(t, EndBody)]
    else [Working(t, TakeSlot)] + [Working(t, Launch)]
  }

  lemma BodiedFacts(k: Task)
    requires k.job.Taking?
    ensures CanWork(k, TakeSlot)
    ensures var k1 := Work(k, TakeSlot);
            if k.kind.Runnable? then CanWork(k1, EndBody) && Work(k1, EndBody) == Bodied(k)
            else if !k.slotFull then k1 == Bodied(k)
            else
              && CanWork(k1, Launch)
              && var k2 := Work(k1, Launch);
                 if k.endpoint.EndpointPending? then CanWork(k2, EndBody) && Work(k2, EndBody) == Bodied(k)
                 else k2 == Bodied(k)
  {
  }

  lemma BodyIsARun(s: State, t: nat)
    requires t in s.tasks && s.tasks[t].job.Taking?
    ensures Solo(s, BodySteps(t, s.tasks[t]), s.(tasks := s.tasks[t := Bodied(s.tasks[t])]))
  {
    hide Solo, Apply, Enabled, Work, CanWork, Working, Bodied;
    var k := s.tasks[t];
    BodiedFacts(k);
    var k1 := Work(k, TakeSlot);
    var s1 := s.(tasks := s.tasks[t := k1]);
    WorkStep(s, t, TakeSlot);
    SoloOne(s, Working(t, TakeSlot));
    if k.kind.Runnable? {
      WorkAndWork(s, [Working(t, TakeSlot)], s1, t, EndBody, Bodied(k));
    } else if k.slotFull {
      var k2 := Work(k1, Launch);
      WorkAndWork(s, [Working(t, TakeSlot)], s1, t, Launch, k2);
      if k.endpoint.EndpointPending? {
        WorkAndWork(s, [Working(t, TakeSlot)] + [Working(t, Launch)], s.(tasks := s.tasks[t := k2]), t, EndBody, Bodied(k));
      }
    }
  }

  // ----- the whole closure

  /** The task before its guard is dropped. */
  function Worked(k: Task): Task {
    var k1 := StartedTask(Received(k));
    if k.cas.CasFinished? then k1 else Bodied(k1)
  }

  lemma StartedFields(k: Task)
    requires k.job.Pending? && k.guard.InChannel?
    ensures var k1 := StartedTask(Received(k));
            && (k1.job.Taking? <==> !k.cas.CasFinished?)
            && (k.cas.CasFinished? ==> k1.job.Unwinding? && k1.guard.ToMark?)
            && k1.addr == k.addr && k1.kind == k.kind && k1.slotFull == k.slotFull && k1.endpoint == k.endpoint
            && k1.ran == k.ran && k1.cas == if k.cas.CasQueued? then CasRunning else k.cas
  {
    if k.cas.CasQueued? {} else if k.cas.CasFinished? {}
  }

  lemma BodiedFields(k: Task)
    ensures var k1 := Bodied(k);
            && k1.guard.ToMark? && k1.job.Unwinding? && k1.addr == k.addr && k1.kind == k.kind && k1.cas == k.cas
            && k1.slotFull == (k.slotFull && k.kind.Runnable?)
            && k1.ran == (k.ran || k.kind.Runnable? || (k.slotFull && k.endpoint.EndpointPending?))
            && k1.endpoint ==
               if !k.kind.Runnable? && k.slotFull && k.endpoint.EndpointPending? then EndpointDone else k.endpoint
  {
  }

  lemma WorkedFacts(k: Task)
    requires k.job.Pending? && k.guard.InChannel?
    ensures StartedTask(Received(k)).job.Taking? <==> !k.cas.CasFinished?
    ensures var k1 := Worked(k);
            && k1.guard.ToMark? && k1.job.Unwinding? && k1.addr == k.addr && k1.kind == k.kind
            && k1.cas == (if k.cas.CasQueued? then CasRunning else k.cas)
            && k1.slotFull == (k.slotFull && (k.cas.CasFinished? || k.kind.Runnable?))
    ensures var ran := !k.cas.CasFinished? && (k.kind.Runnable? || (k.slotFull && k.endpoint.EndpointPending?));
            && Worked(k).ran == (k.ran || ran)
            && Worked(k).endpoint == if ran && !k.kind.Runnable? then EndpointDone else k.endpoint
  {
    hide StartedTask, Received, Bodied;
    StartedFields(k);
    BodiedFields(StartedTask(Received(k)));
  }

  function StartSteps(t: nat, k: Task): seq<Action> {
    ReceiveSteps(t) + MarkSteps(t, k.cas) + if k.cas.CasFinished? then [] else BodySteps(t, StartedTask(Received(k)))
  }

  function AfterWork(s: State, t: nat): State
    requires t in s.tasks
  {
    s.(tasks := s.tasks[t := Worked(s.tasks[t])],
       counts := if s.tasks[t].cas.CasQueued? then s.counts.Start() else s.counts)
  }

  lemma WorkIsARun(s: State, t: nat)
    requires t in s.tasks && s.tasks[t].job.Pending? && s.tasks[t].guard.InChannel? && s.monitor.Vacant?
    ensures Solo(s, StartSteps(t, s.tasks[t]), AfterWork(s, t))
  {
    var k := s.tasks[t];
    assert Received(k).job.Starting? && Received(k).cas == k.cas;
    hide Solo, ReceiveSteps, MarkSteps, BodySteps, Received, StartedTask, Bodied, Counts.Start;
    WorkedFacts(k);
    ReceiveIsARun(s, t);
    var s1 := s.(tasks := s.tasks[t := Received(k)]);
    MarkStartedIsARun(s1, t);
    var s2 := AfterMark(s1, t);
    Overwrite(s.tasks, t, Received(k), StartedTask(Received(k)));
    SoloThen(s, ReceiveSteps(t), s1, MarkSteps(t, k.cas), s2);
    if k.cas.CasFinished? {
      assert StartSteps(t, k) == ReceiveSteps(t) + MarkSteps(t, k.cas);
    } else {
      BodyIsARun(s2, t);
      Overwrite(s.tasks, t, StartedTask(Received(k)), Worked(k));
      SoloThen(s, ReceiveSteps(t) + MarkSteps(t, k.cas), s2, BodySteps(t, StartedTask(Received(k))), AfterWork(s, t));
    }
  }

  /** The state after an uninterrupted closure, guard drop included. */
  function AfterClosure(s: State, t: nat): State
    requires t in s.tasks && s.tasks[t].job.Pending? && s.tasks[t].guard.InChannel?
  {
    WorkedFacts(s.tasks[t]);
    var s1 := AfterDrop(AfterWork(s, t), t);
    s1.(tasks := s1.tasks[t := Work(s1.tasks[t], EndJob)])
  }

  function ClosureSteps(t: nat, k: Task, verdict: bool): seq<Action> {
    StartSteps(t, k) + DropSteps(t, if k.cas.CasQueued? then CasRunning else k.cas, verdict) + [Working(t, EndJob)]
  }

  lemma DropIsOver(s: State, t: nat)
    requires t in s.tasks && s.tasks[t].guard.ToMark?
    ensures AfterDrop(s, t).tasks.Keys == s.tasks.Keys
    ensures var k, k' := s.tasks[t], AfterDrop(s, t).tasks[t];
            && k'.guard.Dropped? && k'.job == k.job && k'.ran == k.ran
            && k'.slotFull == k.slotFull && k'.endpoint == k.endpoint
            && k'.finished && k'.cas.CasFinished?
  {
    hide FinishVerdict, Counts.Finish, WokenSyncs, WokenAsyncs;
    SwappedKeepsTheRest(s.tasks[t]);
    hide Swapped;
    SwappedFacts(s.tasks[t]);
  }

  lemma SwappedKeepsTheRest(k: Task)
    ensures Swapped(k).ran == k.ran && Swapped(k).slotFull == k.slotFull && Swapped(k).endpoint == k.endpoint
  {
  }

  lemma WorkAndDropIsARun(s: State, t: nat) returns (verdict: bool)
    requires t in s.tasks && s.tasks[t].job.Pending? && s.tasks[t].guard.InChannel? && s.monitor.Vacant?
    ensures Worked(s.tasks[t]).guard.ToMark?
    ensures Solo(s, StartSteps(t, s.tasks[t]) + DropSteps(t, Worked(s.tasks[t]).cas, verdict), AfterDrop(AfterWork(s, t), t))
  {
    var k, s1 := s.tasks[t], AfterWork(s, t);
    hide Solo, StartSteps, DropSteps, Worked, AfterDrop, DropVerdict, Counts.Start;
    WorkedFacts(k);
    WorkIsARun(s, t);
    GuardDropIsARun(s1, t);
    verdict := DropVerdict(s1, t);
    SoloThen(s, StartSteps(t, k), s1, DropSteps(t, Worked(k).cas, verdict), AfterDrop(s1, t));
  }

  /** The pool's side of a delivered closure is a run: receive, mark_started, the body if it may run, the guard's
      drop ... */
  lemma ClosureIsARun(s: State, t: nat)
    requires t in s.tasks && s.tasks[t].job.Pending? && s.tasks[t].guard.InChannel? && s.monitor.Vacant?
    ensures exists verdict :: Solo(s, ClosureSteps(t, s.tasks[t], verdict), AfterClosure(s, t))
  {
    hide Solo, StartSteps, DropSteps, Worked, AfterDrop, AfterWork, Work, Working, Apply, Enabled;
    WorkedFacts(s.tasks[t]);
    var verdict := WorkAndDropIsARun(s, t);
    WorkIsUnwinding(s, t);
    var s2 := AfterDrop(AfterWork(s, t), t);
    WorkStep(s2, t, EndJob);
    SoloAndOne(s, StartSteps(t, s.tasks[t]) + DropSteps(t, Worked(s.tasks[t]).cas, verdict), s2, Working(t, EndJob));
    assert Solo(s, ClosureSteps(t, s.tasks[t], verdict), AfterClosure(s, t));
  }

  lemma WorkIsUnwinding(s: State, t: nat)
    requires t in s.tasks && s.tasks[t].job.Pending? && s.tasks[t].guard.InChannel?
    ensures t in AfterWork(s, t).tasks && AfterWork(s, t).tasks[t].guard.ToMark?
    ensures t in AfterDrop(AfterWork(s, t), t).tasks && CanWork(AfterDrop(AfterWork(s, t), t).tasks[t], EndJob)
  {
    hide Worked, AfterDrop, Counts.Start;
    WorkedFacts(s.tasks[t]);
    DropIsOver(AfterWork(s, t), t);
  }

  lemma ClosureView(s: State, t: nat, v: View)
    requires t in s.tasks && s.tasks[t].job.Pending? && s.tasks[t].guard.InChannel? && Shows(s, v)
    ensures var s', k := AfterClosure(s, t), s.tasks[t];
            var started := BlockingState.AfterMark(v, k.cas);
            var v' := BlockingState.AfterRelease(started, if k.cas.CasQueued? then CasRunning else k.cas);
            && Shows(s', v') && Woke(s, s', v, v') && s'.handles == s.handles - {k.addr}
            && forall u :: u in s.tasks && u != t ==> u in s'.tasks && s'.tasks[u] == s.tasks[u]
  {
    hide Worked, Work, AfterDrop, Counts.Start, WokenSyncs, WokenAsyncs, BlockingState.AfterRelease;
    WorkedFacts(s.tasks[t]);
    GuardDropAgrees(AfterWork(s, t), t, BlockingState.AfterMark(v, s.tasks[t].cas));
    DropIsOver(AfterWork(s, t), t);
    ReleaseKeepsWakes(v, s.tasks[t].cas);
  }

  lemma ClosureTask(s: State, t: nat)
    requires t in s.tasks && s.tasks[t].job.Pending? && s.tasks[t].guard.InChannel?
    ensures t in AfterClosure(s, t).tasks
    ensures var k, k' := s.tasks[t], AfterClosure(s, t).tasks[t];
            var ran := !k.cas.CasFinished? && (k.kind.Runnable? || (k.slotFull && k.endpoint.EndpointPending?));
            && k'.ran == (k.ran || ran) && k'.job.Gone? && k'.finished && k'.cas.CasFinished? && k'.guard.Dropped?
            && k'.endpoint == (if ran && !k.kind.Runnable? then EndpointDone else k.endpoint)
            && k'.slotFull == (k.slotFull && (k.cas.CasFinished? || k.kind.Runnable?))
  {
    hide Worked, AfterDrop, Counts.Start;
    WorkedFacts(s.tasks[t]);
    DropIsOver(AfterWork(s, t), t);
  }

  /** ... and does what the method does: the body runs exactly if the task was not finished before and, for a callable,
      its slot and its pending result are still there. */
  lemma ClosureAgrees(s: State, t: nat, v: View)
    requires t in s.tasks && s.tasks[t].job.Pending? && s.tasks[t].guard.InChannel? && Shows(s, v)
    ensures var s', k := AfterClosure(s, t), s.tasks[t];
            var started := BlockingState.AfterMark(v, k.cas);
            var v' := BlockingState.AfterRelease(started, if k.cas.CasQueued? then CasRunning else k.cas);
            Shows(s', v') && Woke(s, s', v, v') && s'.handles == s.handles - {k.addr}
    ensures t in AfterClosure(s, t).tasks
    ensures var k, k' := s.tasks[t], AfterClosure(s, t).tasks[t];
            var ran := !k.cas.CasFinished? && (k.kind.Runnable? || (k.slotFull && k.endpoint.EndpointPending?));
            && k'.ran == (k.ran || ran) && k'.job.Gone? && k'.finished && k'.cas.CasFinished? && k'.guard.Dropped?
            && k'.endpoint == (if ran && !k.kind.Runnable? then EndpointDone else k.endpoint)
            && k'.slotFull == (k.slotFull && (k.cas.CasFinished? || k.kind.Runnable?))
    ensures forall u :: u in s.tasks && u != t ==>
              u in AfterClosure(s, t).tasks && AfterClosure(s, t).tasks[u] == s.tasks[u]
  {
    hide AfterClosure, Shows, Woke, BlockingState.AfterRelease, BlockingState.AfterMark;
    ClosureView(s, t, v);
    ClosureTask(s, t);
  }

  lemma ReleaseKeepsWakes(v: View, cas: Cas)
    ensures BlockingState.AfterMark(v, cas).syncWakes == v.syncWakes
    ensures BlockingState.AfterMark(v, cas).asyncWakes == v.asyncWakes
  {
  }

  // ----- a cancellation through the handle

  /** The handle of a tracked task has won the pending result. */
  function Won(k: Task): Task {
    k.(endpoint := EndpointCancelled, cancel := CancelMark)
  }

  lemma WinStep(s: State, t: nat)
    requires t in s.tasks && CanCancel(s.tasks[t], CancelWin)
    ensures Enabled(s, Cancelling(t, CancelWin))
    ensures Apply(s, Cancelling(t, CancelWin)) == s.(tasks := s.tasks[t := Won(s.tasks[t])])
  {
  }

  function HandleSteps(t: nat, cas: Cas, verdict: bool): seq<Action> {
    [Cancelling(t, CancelWin)] + CancelSteps(t, cas, verdict) + [Cancelling(t, CancelAbortJob)]
  }

  function AfterHandle(s: State, t: nat): State
    requires t in s.tasks
  {
    var s1 := AfterCancel(s.(tasks := s.tasks[t := Won(s.tasks[t])]), t);
    s1.(tasks := s1.tasks[t := s1.tasks[t].(cancel := CancelDone, aborted := true)])
  }

  lemma AbortJobStep(s: State, t: nat)
    requires t in s.tasks && s.tasks[t].cancel.CancelAbort?
    ensures Enabled(s, Cancelling(t, CancelAbortJob))
    ensures Apply(s, Cancelling(t, CancelAbortJob)) ==
            s.(tasks := s.tasks[t := s.tasks[t].(cancel := CancelDone, aborted := true)])
  {
  }

  lemma CancelIsOver(s: State, t: nat)
    requires t in s.tasks && s.tasks[t].cancel.CancelMark?
    ensures var k, k' := s.tasks[t], AfterCancel(s, t).tasks[t];
            && k'.cancel.CancelAbort? && k'.job == k.job && k'.ran == k.ran
            && k'.endpoint == k.endpoint && k'.slotFull == k.slotFull
  {
    hide FinishVerdict, Counts.Finish, WokenSyncs, WokenAsyncs;
    CancelledKeepsTheRest(s.tasks[t]);
    hide Cancelled;
    CancelledFacts(s.tasks[t]);
  }

  lemma CancelledKeepsTheRest(k: Task)
    ensures var k' := Cancelled(k);
            k'.endpoint == k.endpoint && k'.slotFull == k.slotFull && k'.ran == k.ran && k'.job == k.job
  {
  }

  /** A cancellation that wins is a run: the pending result, cancel_queued, the request to Tokio ... */
  lemma HandleCancelIsARun(s: State, t: nat)
    requires t in s.tasks && CanCancel(s.tasks[t], CancelWin) && s.monitor.Vacant?
    ensures exists verdict :: Solo(s, HandleSteps(t, s.tasks[t].cas, verdict), AfterHandle(s, t))
  {
    var k := s.tasks[t];
    var s1 := s.(tasks := s.tasks[t := Won(k)]);
    assert s1.tasks[t].cancel.CancelMark? && s1.tasks[t].cas == k.cas;
    hide Solo, Apply, Enabled, AfterCancel, CancelSteps, CancelVerdict, Cancelling, Won, CanCancel;
    WinStep(s, t);
    SoloOne(s, Cancelling(t, CancelWin));
    CancelQueuedIsARun(s1, t);
    CancelIsOver(s1, t);
    var verdict, s2 := CancelVerdict(s1, t), AfterCancel(s1, t);
    SoloThen(s, [Cancelling(t, CancelWin)], s1, CancelSteps(t, k.cas, verdict), s2);
    AbortJobStep(s2, t);
    SoloAndOne(s, [Cancelling(t, CancelWin)] + CancelSteps(t, k.cas, verdict), s2, Cancelling(t, CancelAbortJob));
    assert Solo(s, HandleSteps(t, k.cas, verdict), AfterHandle(s, t));
  }

  /** ... and does what the method does.  A result that is no longer pending cannot be won, and then nothing moves. */
  lemma HandleCancelAgrees(s: State, t: nat, v: View)
    requires t in s.tasks && CanCancel(s.tasks[t], CancelWin) && Shows(s, v)
    ensures s.tasks[t].endpoint.EndpointPending?
    ensures var s', k := AfterHandle(s, t), s.tasks[t];
            var v' := if k.cas.CasQueued? then BlockingState.AfterFinish(v, false) else v;
            && Shows(s', v') && Woke(s, s', v, v') && s'.handles == s.handles - {k.addr}
            && forall u :: u in s.tasks && u != t ==> s'.tasks[u] == s.tasks[u]
    ensures var k, k' := s.tasks[t], AfterHandle(s, t).tasks[t];
            && k'.endpoint.EndpointCancelled? && k'.aborted && k'.finished && k'.slotFull == k.slotFull && k'.ran == k.ran
            && k'.cas == if k.cas.CasQueued? then CasFinished else k.cas
  {
    var s1 := s.(tasks := s.tasks[t := Won(s.tasks[t])]);
    hide AfterCancel, WokenSyncs, WokenAsyncs, BlockingState.AfterFinish;
    CancelQueuedAgrees(s1, t, v);
    CancelIsOver(s1, t);
  }
}
