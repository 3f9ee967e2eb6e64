/** Submission, shutdown and stop of the blocking service, run without interruption, are runs of the transition system
    that do what the methods of the service do. */
module BlockingServiceCalls {
  import opened Lifecycles
  import opened TaskCounts
  import opened BlockingTask
  import opened BlockingModel
  import opened BlockingCalls
  import BlockingState

  // ----- from acceptance to the hand-off

  function Submitting(t: nat, a: SubmitterAct): Action {
    OnTask(t, BySubmitter(a))
  }

  lemma SubmitStep(s: State, t: nat, a: SubmitterAct)
    requires t in s.tasks && CanSubmit(s.tasks[t], a) && (a.Allocate? ==> AddressIsFree(s, a.addr))
    ensures Enabled(s, Submitting(t, a))
    ensures Apply(s, Submitting(t, a)) ==
            s.(tasks := s.tasks[t := Submit(s.tasks[t], a)],
               monitor := if a.LeaveAccept? then Vacant else s.monitor,
               handles := if a.Register? && !s.tasks[t].finished && !s.tasks[t].job.Gone? then s.handles[s.tasks[t].addr := t]
                          else s.handles,
               admission := if a.Unlock? then Free else s.admission,
               submitters := if a.Return? then s.submitters[s.tasks[t].owner := Idle] else s.submitters)
  {
    hide Submit, CanSubmit, AddressIsFree;
  }

  /** The task when its closure is with Tokio and its hook, unless the closure is already gone, is registered. */
  function Prepared(k: Task, addr: nat, closed: bool): Task {
    Submit(Submit(Submit(Submit(k, LeaveAccept), Allocate(addr)), Spawn(closed)), Register)
  }

  lemma PreparedFacts(k: Task, addr: nat, closed: bool)
    requires k.stage.Accepted? && !k.finished
    ensures var k1 := Submit(k, LeaveAccept);
            var k2 := Submit(k1, Allocate(addr));
            var k3 := Submit(k2, Spawn(closed));
            && CanSubmit(k1, Allocate(addr)) && CanSubmit(k2, Spawn(closed)) && CanSubmit(k3, Register)
            && k3.addr == addr && !k3.finished && k3.job.Gone? == closed
    ensures Prepared(k, addr, closed) ==
            k.(stage := Registered, addr := addr, job := if closed then Gone else Pending,
               entry := if closed then NoEntry else InMap)
  {
  }

  lemma LiveIsOther(s: State, t: nat, k: Task, addr: nat)
    requires AddressIsFree(s, addr) && !Live(k)
    ensures AddressIsFree(s.(tasks := s.tasks[t := k], monitor := Vacant), addr)
  {
    hide Live;
  }

  function PrepareSteps(t: nat, addr: nat, closed: bool): seq<Action> {
    [Submitting(t, LeaveAccept)] + [Submitting(t, Allocate(addr))] + [Submitting(t, Spawn(closed))] + [Submitting(t, Register)]
  }

  function AfterPrepare(s: State, t: nat, addr: nat, closed: bool): State
    requires t in s.tasks
  {
    s.(tasks := s.tasks[t := Prepared(s.tasks[t], addr, closed)], monitor := Vacant,
       handles := if closed then s.handles else s.handles[addr := t])
  }

  lemma PrepareIsARun(s: State, t: nat, addr: nat, closed: bool)
    requires t in s.tasks && s.tasks[t].stage.Accepted? && !s.tasks[t].finished && AddressIsFree(s, addr)
    ensures Solo(s, PrepareSteps(t, addr, closed), AfterPrepare(s, t, addr, closed))
  {
    var k := s.tasks[t];
    assert CanSubmit(k, LeaveAccept) && !Live(Submit(k, LeaveAccept));
    hide Apply, Enabled, Solo, Submit, CanSubmit, Submitting, AddressIsFree, Live;
    PreparedFacts(k, addr, closed);
    var k1 := Submit(k, LeaveAccept);
    var k2 := Submit(k1, Allocate(addr));
    var k3 := Submit(k2, Spawn(closed));
    SubmitStep(s, t, LeaveAccept);
    SoloOne(s, Submitting(t, LeaveAccept));
    var s1 := s.(tasks := s.tasks[t := k1], monitor := Vacant);
    LiveIsOther(s, t, k1, addr);
    SubmitStep(s1, t, Allocate(addr));
    SoloAndOne(s, [Submitting(t, LeaveAccept)], s1, Submitting(t, Allocate(addr)));
    Overwrite(s.tasks, t, k1, k2);
    var s2 := s.(tasks := s.tasks[t := k2], monitor := Vacant);
    SubmitStep(s2, t, Spawn(closed));
    SoloAndOne(s, [Submitting(t, LeaveAccept)] + [Submitting(t, Allocate(addr))], s2, Submitting(t, Spawn(closed)));
    Overwrite(s.tasks, t, k2, k3);
    var s3 := s.(tasks := s.tasks[t := k3], monitor := Vacant);
    SubmitStep(s3, t, Register);
    SoloAndOne(s, [Submitting(t, LeaveAccept)] + [Submitting(t, Allocate(addr))] + [Submitting(t, Spawn(closed))], s3,
               Submitting(t, Register));
    Overwrite(s.tasks, t, k3, Prepared(k, addr, closed));
  }

  /** The task after the hand-off; a send to a closed runtime leaves the guard to the submitting thread. */
  function Handed(k: Task): Task {
    Submit(Submit(k, Unlock), Send)
  }

  lemma HandedFacts(k: Task)
    requires k.stage.Registered?
    ensures CanSubmit(k, Unlock) && CanSubmit(Submit(k, Unlock), Send)
    ensures Handed(k) ==
            if k.job.Gone? then k.(stage := Stage.Dropping, guard := ToMark) else k.(stage := Sent, guard := InChannel)
  {
  }

  function HandSteps(t: nat): seq<Action> {
    [Submitting(t, Unlock)] + [Submitting(t, Send)]
  }

  lemma HandIsARun(s: State, t: nat)
    requires t in s.tasks && s.tasks[t].stage.Registered?
    ensures Solo(s, HandSteps(t), s.(tasks := s.tasks[t := Handed(s.tasks[t])], admission := Free))
  {
    hide Apply, Enabled, Solo, Submit, CanSubmit, Submitting, AddressIsFree;
    HandedFacts(s.tasks[t]);
    var k1 := Submit(s.tasks[t], Unlock);
    SubmitStep(s, t, Unlock);
    SoloOne(s, Submitting(t, Unlock));
    var s1 := s.(tasks := s.tasks[t := k1], admission := Free);
    SubmitStep(s1, t, Send);
    SoloAndOne(s, [Submitting(t, Unlock)], s1, Submitting(t, Send));
    Overwrite(s.tasks, t, k1, Handed(s.tasks[t]));
  }

  lemma ReturnIsARun(s: State, t: nat)
    requires t in s.tasks && CanSubmit(s.tasks[t], Return)
    ensures Solo(s, [Submitting(t, Return)],
                 s.(tasks := s.tasks[t := Submit(s.tasks[t], Return)],
                    submitters := s.submitters[s.tasks[t].owner := Idle]))
  {
    hide Apply, Enabled, Solo, CanSubmit, Submit, Submitting;
    SubmitStep(s, t, Return);
    SoloOne(s, Submitting(t, Return));
  }

  // ----- a whole submission

  function EnterSteps(th: nat): seq<Action> {
    [Lock(th)] + [CheckRunning(th)]
  }

  lemma EnterIsARun(s: State, th: nat)
    requires th in s.submitters && s.submitters[th].Ready? && s.admission.Free?
    ensures Solo(s, EnterSteps(th),
                 s.(admission := Admitted(SubmitterThread(th)),
                    submitters := s.submitters[th := if s.life.Running? then Checked(s.submitters[th].seen) else Refused]))
  {
    hide Solo;
    SoloOne(s, Lock(th));
    var s1 := Apply(s, Lock(th));
    SoloAndOne(s, [Lock(th)], s1, CheckRunning(th));
    assert Apply(s1, CheckRunning(th)).submitters ==
           s.submitters[th := if s.life.Running? then Checked(s.submitters[th].seen) else Refused];
  }

  /** A submission to a service that is not running is rejected before its capacity is looked at. */
  lemma RefusalIsARun(s: State, th: nat)
    requires th in s.submitters && s.submitters[th].Ready? && s.admission.Free? && !s.life.Running?
    ensures Solo(s, EnterSteps(th) + [Reject(th)], s.(submitters := s.submitters[th := Idle]))
  {
    hide Solo, EnterSteps;
    EnterIsARun(s, th);
    var s1 := s.(admission := Admitted(SubmitterThread(th)), submitters := s.submitters[th := Refused]);
    SoloAndOne(s, EnterSteps(th), s1, Reject(th));
    assert Apply(s1, Reject(th)).submitters == s.submitters[th := Idle];
  }

  lemma FullIsARun(s: State, th: nat, t: nat, kind: Kind)
    requires th in s.submitters && s.submitters[th].Checked? && t !in s.tasks && s.monitor.Vacant? && !HasCapacity(s)
    requires s.admission.Admitted?
    ensures Solo(s, [TryAccept(th, t, kind)] + [LeaveFull(th)] + [Reject(th)],
                 s.(admission := Free, submitters := s.submitters[th := Waiting(s.submitters[th].seen)]))
  {
    hide Solo, HasCapacity;
    var seen := s.submitters[th].seen;
    SoloOne(s, TryAccept(th, t, kind));
    var s1 := Apply(s, TryAccept(th, t, kind));
    SoloAndOne(s, [TryAccept(th, t, kind)], s1, LeaveFull(th));
    var s2 := Apply(s1, LeaveFull(th));
    assert s2.submitters == s.submitters[th := Full(seen)];
    SoloAndOne(s, [TryAccept(th, t, kind)] + [LeaveFull(th)], s2, Reject(th));
    assert Apply(s2, Reject(th)).submitters == s.submitters[th := Waiting(seen)];
  }

  function SaturationSteps(th: nat, t: nat, kind: Kind): seq<Action> {
    EnterSteps(th) + ([TryAccept(th, t, kind)] + [LeaveFull(th)] + [Reject(th)])
  }

  /** A submission to a full service releases the monitor, then admission, and leaves the thread with a hint to
      wait for. */
  lemma SaturationIsARun(s: State, th: nat, t: nat, kind: Kind)
    requires th in s.submitters && s.submitters[th].Ready? && s.admission.Free? && s.monitor.Vacant? && t !in s.tasks
    requires s.life.Running? && !HasCapacity(s)
    ensures Solo(s, SaturationSteps(th, t, kind), s.(submitters := s.submitters[th := Waiting(s.submitters[th].seen)]))
  {
    hide Solo, EnterSteps;
    EnterIsARun(s, th);
    var seen := s.submitters[th].seen;
    var s1 := s.(admission := Admitted(SubmitterThread(th)), submitters := s.submitters[th := Checked(seen)]);
    FullIsARun(s1, th, t, kind);
    assert s1.submitters[th := Waiting(seen)] == s.submitters[th := Waiting(seen)];
    SoloThen(s, EnterSteps(th), s1, [TryAccept(th, t, kind)] + [LeaveFull(th)] + [Reject(th)],
             s.(submitters := s.submitters[th := Waiting(seen)]));
  }

  /** The slot is reserved and the thread is still inside the monitor section that reserved it. */
  function AfterReserve(s: State, th: nat, t: nat, kind: Kind): State {
    s.(counts := s.counts.Accept(), admission := Admitted(SubmitterThread(th)),
       monitor := HeldBy(SubmitterThread(th), OfTask(t)),
       tasks := s.tasks[t := NewTask(kind, th)], submitters := s.submitters[th := Busy(t)])
  }

  lemma ReserveIsARun(s: State, th: nat, t: nat, kind: Kind)
    requires th in s.submitters && s.submitters[th].Ready? && s.admission.Free? && s.monitor.Vacant? && t !in s.tasks
    requires s.life.Running? && HasCapacity(s)
    ensures Solo(s, EnterSteps(th) + [TryAccept(th, t, kind)], AfterReserve(s, th, t, kind))
  {
    hide Solo, EnterSteps, NewTask, Counts.Accept, Counts.Total;
    EnterIsARun(s, th);
    var s1 := s.(admission := Admitted(SubmitterThread(th)),
                 submitters := s.submitters[th := Checked(s.submitters[th].seen)]);
    SoloAndOne(s, EnterSteps(th), s1, TryAccept(th, t, kind));
    assert s1.submitters[th := Busy(t)] == s.submitters[th := Busy(t)];
  }

  /** The task as the hand-off leaves it. */
  function HandedTask(kind: Kind, th: nat, addr: nat, closed: bool): Task {
    Handed(Prepared(NewTask(kind, th), addr, closed))
  }

  lemma HandedTaskFacts(kind: Kind, th: nat, addr: nat, closed: bool)
    ensures Prepared(NewTask(kind, th), addr, closed).stage.Registered?
    ensures HandedTask(kind, th, addr, closed) ==
            if closed then
              NewTask(kind, th).(stage := Stage.Dropping, addr := addr, job := Gone, entry := NoEntry, guard := ToMark)
            else NewTask(kind, th).(stage := Sent, addr := addr, job := Pending, entry := InMap, guard := InChannel)
  {
    hide Prepared, Handed;
    PreparedFacts(NewTask(kind, th), addr, closed);
    HandedFacts(Prepared(NewTask(kind, th), addr, closed));
  }

  /** Both locks are free again, the hook of an open submission is listed, and the closure may start. */
  function HandedOver(s: State, th: nat, t: nat, kind: Kind, addr: nat, closed: bool): State {
    s.(counts := s.counts.Accept(), tasks := s.tasks[t := HandedTask(kind, th, addr, closed)],
       handles := if closed then s.handles else s.handles[addr := t], submitters := s.submitters[th := Busy(t)])
  }

  function HandOverSteps(th: nat, t: nat, kind: Kind, addr: nat, closed: bool): seq<Action> {
    EnterSteps(th) + [TryAccept(th, t, kind)] + PrepareSteps(t, addr, closed) + HandSteps(t)
  }

  lemma NewTaskKeepsAddresses(s: State, th: nat, t: nat, kind: Kind, addr: nat)
    requires AddressIsFree(s, addr) && t !in s.tasks
    ensures AddressIsFree(AfterReserve(s, th, t, kind), addr)
  {
    assert !Live(NewTask(kind, th));
    hide Live;
  }

  /** The hook of an open submission is registered; admission is still held. */
  function Listed(s: State, th: nat, t: nat, kind: Kind, addr: nat, closed: bool): State {
    s.(counts := s.counts.Accept(), admission := Admitted(SubmitterThread(th)), monitor := Vacant,
       tasks := s.tasks[t := Prepared(NewTask(kind, th), addr, closed)],
       handles := if closed then s.handles else s.handles[addr := t], submitters := s.submitters[th := Busy(t)])
  }

  lemma ListingIsARun(s: State, th: nat, t: nat, kind: Kind, addr: nat, closed: bool)
    requires th in s.submitters && s.submitters[th].Ready? && s.admission.Free? && s.monitor.Vacant? && t !in s.tasks
    requires s.life.Running? && HasCapacity(s) && AddressIsFree(s, addr)
    ensures Solo(s, EnterSteps(th) + [TryAccept(th, t, kind)] + PrepareSteps(t, addr, closed),
                 Listed(s, th, t, kind, addr, closed))
  {
    assert NewTask(kind, th).stage.Accepted? && !NewTask(kind, th).finished;
    hide Solo, EnterSteps, PrepareSteps, AddressIsFree, Prepared, NewTask, HasCapacity, Counts.Accept;
    var s1 := AfterReserve(s, th, t, kind);
    ReserveIsARun(s, th, t, kind);
    NewTaskKeepsAddresses(s, th, t, kind, addr);
    PrepareIsARun(s1, t, addr, closed);
    Overwrite(s.tasks, t, NewTask(kind, th), Prepared(NewTask(kind, th), addr, closed));
    SoloThen(s, EnterSteps(th) + [TryAccept(th, t, kind)], s1, PrepareSteps(t, addr, closed),
             Listed(s, th, t, kind, addr, closed));
  }

  lemma HandOverIsARun(s: State, th: nat, t: nat, kind: Kind, addr: nat, closed: bool)
    requires th in s.submitters && s.submitters[th].Ready? && s.admission.Free? && s.monitor.Vacant? && t !in s.tasks
    requires s.life.Running? && HasCapacity(s) && AddressIsFree(s, addr)
    ensures Solo(s, HandOverSteps(th, t, kind, addr, closed), HandedOver(s, th, t, kind, addr, closed))
  {
    hide Solo, EnterSteps, PrepareSteps, HandSteps, AddressIsFree, Prepared, Handed, NewTask, HasCapacity,
         Counts.Accept;
    var k, s1 := Prepared(NewTask(kind, th), addr, closed), Listed(s, th, t, kind, addr, closed);
    HandedTaskFacts(kind, th, addr, closed);
    ListingIsARun(s, th, t, kind, addr, closed);
    HandIsARun(s1, t);
    Overwrite(s.tasks, t, k, Handed(k));
    SoloThen(s, EnterSteps(th) + [TryAccept(th, t, kind)] + PrepareSteps(t, addr, closed), s1, HandSteps(t),
             HandedOver(s, th, t, kind, addr, closed));
  }

  /** The failed send of a closed runtime drops the guard on the submitting thread. */
  function DropAfter(t: nat, closed: bool): seq<Action> {
    if closed then DropSteps(t, CasQueued, false) else []
  }

  function SubmissionSteps(th: nat, t: nat, kind: Kind, addr: nat, closed: bool): seq<Action> {
    HandOverSteps(th, t, kind, addr, closed) + DropAfter(t, closed) + [Submitting(t, Return)]
  }

  /** Before the submitting thread returns. */
  function BeforeReturn(s: State, t: nat): State
    requires t in s.tasks
  {
    if s.tasks[t].guard.ToMark? then AfterDrop(s, t) else s
  }

  /** The state after an uninterrupted submission that was accepted. */
  function AfterSubmission(s: State, th: nat, t: nat, kind: Kind, addr: nat, closed: bool): State {
    var s1 := BeforeReturn(HandedOver(s, th, t, kind, addr, closed), t);
    s1.(tasks := s1.tasks[t := Submit(s1.tasks[t], Return)], submitters := s1.submitters[th := Idle])
  }

  lemma DropFacts(s: State, t: nat)
    requires t in s.tasks && s.tasks[t].guard.ToMark?
    ensures var k := AfterDrop(s, t).tasks[t];
            && k.guard.Dropped? && k.stage == s.tasks[t].stage && k.owner == s.tasks[t].owner && k.addr == s.tasks[t].addr
            && AfterDrop(s, t).submitters == s.submitters && AfterDrop(s, t).tasks.Keys == s.tasks.Keys
  {
    hide Swapped, FinishVerdict, Counts.Finish, WokenSyncs, WokenAsyncs;
    SwappedFacts(s.tasks[t]);
  }

  lemma RunningIsNotOver(s: State, t: nat)
    requires t in s.tasks && s.tasks[t].guard.ToMark? && s.life.Running?
    ensures !DropVerdict(s, t)
  {
    hide Swapped, Counts.Finish;
    SwappedFacts(s.tasks[t]);
  }

  lemma DropAfterIsARun(s: State, t: nat, closed: bool)
    requires t in s.tasks && s.monitor.Vacant? && s.life.Running? && s.tasks[t].cas.CasQueued?
    requires if closed then s.tasks[t].stage.Dropping? && s.tasks[t].guard.ToMark?
             else s.tasks[t].stage.Sent? && s.tasks[t].guard.InChannel?
    ensures Solo(s, DropAfter(t, closed), BeforeReturn(s, t))
    ensures var s1 := BeforeReturn(s, t);
            && t in s1.tasks && CanSubmit(s1.tasks[t], Return)
            && s1.tasks[t].owner == s.tasks[t].owner && s1.submitters == s.submitters
  {
    if closed {
      RunningIsNotOver(s, t);
      hide AfterDrop, DropSteps, Solo, DropVerdict;
      GuardDropIsARun(s, t);
      DropFacts(s, t);
    } else {
      hide AfterDrop, DropSteps, DropVerdict;
    }
  }

  /** An accepted submission is a run: the service lock, acceptance inside the monitor, the registration of the hook
      under admission, the hand-off after it and, on a closed runtime, the drop of the payload by the submitter. */
  lemma SubmissionIsARun(s: State, th: nat, t: nat, kind: Kind, addr: nat, closed: bool)
    requires th in s.submitters && s.submitters[th].Ready? && s.admission.Free? && s.monitor.Vacant? && t !in s.tasks
    requires s.life.Running? && HasCapacity(s) && AddressIsFree(s, addr)
    ensures Solo(s, SubmissionSteps(th, t, kind, addr, closed), AfterSubmission(s, th, t, kind, addr, closed))
  {
    var s1 := HandedOver(s, th, t, kind, addr, closed);
    assert s1.tasks[t].cas.CasQueued? && s1.tasks[t].owner == th by {
      HandedTaskFacts(kind, th, addr, closed);
    }
    hide Solo, HandOverSteps, AddressIsFree, HandedTask, HasCapacity, Counts.Accept, BeforeReturn, DropAfter, Submit,
         CanSubmit;
    HandedTaskFacts(kind, th, addr, closed);
    HandOverIsARun(s, th, t, kind, addr, closed);
    DropAfterIsARun(s1, t, closed);
    var s2 := BeforeReturn(s1, t);
    SoloThen(s, HandOverSteps(th, t, kind, addr, closed), s1, DropAfter(t, closed), s2);
    ReturnIsARun(s2, t);
    SoloThen(s, HandOverSteps(th, t, kind, addr, closed) + DropAfter(t, closed), s2, [Submitting(t, Return)],
             AfterSubmission(s, th, t, kind, addr, closed));
  }

  lemma AcceptThenFinish(c: Counts)
    ensures c.Accept().Finish(false) == c
  {
  }

  lemma ReturnFacts(k: Task)
    ensures Submit(k, Return) == k.(stage := Returned)
  {
  }

  lemma ReturnIsUnseen(s: State, s': State, v: View)
    requires s'.life == s.life && s'.counts == s.counts && s'.generation == s.generation
    ensures Shows(s, v) ==> Shows(s', v)
  {
  }

  lemma FailedSendAgrees(s: State, t: nat, v: View)
    requires t in s.tasks && s.tasks[t].guard.ToMark? && s.tasks[t].cas.CasQueued? && s.life.Running?
    requires Shows(s, v.(counts := v.counts.Accept()))
    ensures var s', v' := AfterDrop(s, t), BlockingState.AfterBump(v);
            && Shows(s', v') && Woke(s, s', v, v')
            && s'.handles == s.handles - {s.tasks[t].addr} && s'.submitters == s.submitters
            && t in s'.tasks && s'.tasks[t].finished && s'.tasks[t].cas.CasFinished? && s'.tasks[t].addr == s.tasks[t].addr
            && forall u :: u in s.tasks && u != t ==> u in s'.tasks && s'.tasks[u] == s.tasks[u]
  {
    hide AfterDrop, Counts.Accept, Counts.Finish;
    AcceptThenFinish(v.counts);
    GuardDropAgrees(s, t, v.(counts := v.counts.Accept()));
    DropFacts(s, t);
  }

  lemma HandOverAgrees(s: State, th: nat, t: nat, kind: Kind, addr: nat, closed: bool, v: View)
    requires Shows(s, v) && s.life.Running? && addr !in s.handles && t !in s.tasks
    ensures var s' := BeforeReturn(HandedOver(s, th, t, kind, addr, closed), t);
            var v' := if closed then BlockingState.AfterBump(v) else v.(counts := v.counts.Accept());
            && Shows(s', v') && Woke(s, s', v, v')
            && s'.handles == (if closed then s.handles else s.handles[addr := t])
            && s'.submitters == s.submitters[th := Busy(t)]
            && t in s'.tasks && s'.tasks[t].addr == addr
            && (if closed then s'.tasks[t].finished && s'.tasks[t].cas.CasFinished?
                else s'.tasks[t].entry.InMap? && s'.tasks[t].cas.CasQueued? && s'.tasks[t].guard.InChannel?)
            && forall u :: u in s.tasks ==> u in s'.tasks && s'.tasks[u] == s.tasks[u]
  {
    hide WokenSyncs, WokenAsyncs, AfterDrop, HandedTask, Counts.Accept, Counts.Finish;
    HandedTaskFacts(kind, th, addr, closed);
    var s1 := HandedOver(s, th, t, kind, addr, closed);
    if closed {
      FailedSendAgrees(s1, t, v);
    }
  }

  /** It does what the method does: counts, generation and abort map end up the same, and no waiter is woken. */
  lemma SubmissionAgrees(s: State, th: nat, t: nat, kind: Kind, addr: nat, closed: bool, v: View)
    requires Shows(s, v) && s.life.Running? && addr !in s.handles && t !in s.tasks
    ensures var s' := AfterSubmission(s, th, t, kind, addr, closed);
            var v' := if closed then BlockingState.AfterBump(v) else v.(counts := v.counts.Accept());
            && Shows(s', v') && Woke(s, s', v, v')
            && s'.handles == (if closed then s.handles else s.handles[addr := t])
            && s'.submitters == s.submitters[th := Idle]
            && s'.tasks[t].addr == addr
            && (if closed then s'.tasks[t].finished && s'.tasks[t].cas.CasFinished?
                else s'.tasks[t].entry.InMap? && s'.tasks[t].cas.CasQueued? && s'.tasks[t].guard.InChannel?)
            && forall u :: u in s.tasks ==> s'.tasks[u] == s.tasks[u]
  {
    hide Submit, BeforeReturn, Shows, Counts.Accept;
    HandOverAgrees(s, th, t, kind, addr, closed, v);
    var s1 := BeforeReturn(HandedOver(s, th, t, kind, addr, closed), t);
    ReturnFacts(s1.tasks[t]);
    ReturnIsUnseen(s1, AfterSubmission(s, th, t, kind, addr, closed),
                   if closed then BlockingState.AfterBump(v) else v.(counts := v.counts.Accept()));
  }

  // ----- closing the service

  /** The last part of shutdown and stop: the bump, the monitor section and the notifications it asks for. */
  function TailSteps(c: nat, terminated: bool): seq<Action> {
    [BumpCapacity(c)] + [CheckLifecycle(c)] + [CheckTerminated(c)]
    + if terminated then [NotifySync(c)] + [NotifyAsync(c)] else []
  }

  function AfterTail(s: State, c: nat): State
    requires c in s.closers
  {
    SetClose(s, c, Reported).(
      generation := s.generation + 1,
      syncs := if IsTerminated(s) then WokenSyncs(s.syncs) else s.syncs,
      asyncs := if IsTerminated(s) then WokenAsyncs(s.asyncs) else s.asyncs)
  }

  lemma SetAgain(s: State, c: nat, x: ClosePc, y: ClosePc)
    requires c in s.closers
    ensures SetClose(SetClose(s, c, x), c, y).closers == SetClose(s, c, y).closers
  {
  }

  function AfterCheck(s: State, c: nat): State
    requires c in s.closers
  {
    SetClose(s, c, if IsTerminated(s) then NotifyingSync else Reported).(generation := s.generation + 1)
  }

  lemma BumpCapacityStep(s: State, c: nat)
    requires AtClose(s, c, Bumping)
    ensures Enabled(s, BumpCapacity(c))
    ensures Apply(s, BumpCapacity(c)) == SetClose(s, c, Checking).(generation := s.generation + 1)
    ensures AtClose(Apply(s, BumpCapacity(c)), c, Checking)
  {
  }

  lemma CheckLifecycleStep(s: State, c: nat)
    requires AtClose(s, c, Checking) && s.monitor.Vacant?
    ensures Enabled(s, CheckLifecycle(c))
    ensures Apply(s, CheckLifecycle(c)) ==
            SetClose(s, c, Examining(!s.life.Running?)).(monitor := HeldBy(CloserThread(c), OfCloser(c)))
    ensures AtClose(Apply(s, CheckLifecycle(c)), c, Examining(!s.life.Running?))
  {
  }

  lemma CheckTerminatedStep(s: State, s1: State, s2: State, c: nat)
    requires c in s.closers && s.monitor.Vacant?
    requires s1 == SetClose(s, c, Checking).(generation := s.generation + 1)
    requires s2 == SetClose(s1, c, Examining(!s1.life.Running?)).(monitor := HeldBy(CloserThread(c), OfCloser(c)))
    ensures Enabled(s2, CheckTerminated(c)) && Apply(s2, CheckTerminated(c)) == AfterCheck(s, c)
  {
    hide Counts.IsEmpty;
    var verdict: ClosePc := if IsTerminated(s) then NotifyingSync else Reported;
    assert Apply(s2, CheckTerminated(c)) == SetClose(s2, c, verdict).(monitor := Vacant);
    hide Apply, Enabled, IsTerminated;
    assert SetClose(s2, c, verdict).closers == AfterCheck(s, c).closers;
  }

  lemma CheckIsARun(s: State, c: nat)
    requires AtClose(s, c, Bumping) && s.monitor.Vacant?
    ensures Solo(s, [BumpCapacity(c)] + [CheckLifecycle(c)] + [CheckTerminated(c)], AfterCheck(s, c))
  {
    hide Solo, Apply, Enabled, IsTerminated;
    BumpCapacityStep(s, c);
    SoloOne(s, BumpCapacity(c));
    var s1 := Apply(s, BumpCapacity(c));
    CheckLifecycleStep(s1, c);
    SoloAndOne(s, [BumpCapacity(c)], s1, CheckLifecycle(c));
    var s2 := Apply(s1, CheckLifecycle(c));
    CheckTerminatedStep(s, s1, s2, c);
    SoloAndOne(s, [BumpCapacity(c)] + [CheckLifecycle(c)], s2, CheckTerminated(c));
  }

  lemma NotifySyncStep(s: State, c: nat)
    requires AtClose(s, c, NotifyingSync)
    ensures Enabled(s, NotifySync(c))
    ensures Apply(s, NotifySync(c)) == SetClose(s, c, NotifyingAsync).(syncs := WokenSyncs(s.syncs))
  {
    hide WokenSyncs;
  }

  lemma NotifyAsyncStep(s: State, c: nat)
    requires AtClose(s, c, NotifyingAsync)
    ensures Enabled(s, NotifyAsync(c))
    ensures Apply(s, NotifyAsync(c)) == SetClose(s, c, Reported).(asyncs := WokenAsyncs(s.asyncs))
  {
    hide WokenAsyncs;
  }

  lemma NotifyingIsARun(s: State, c: nat)
    requires AtClose(s, c, NotifyingSync)
    ensures Solo(s, [NotifySync(c)] + [NotifyAsync(c)],
                 SetClose(s, c, Reported).(syncs := WokenSyncs(s.syncs), asyncs := WokenAsyncs(s.asyncs)))
  {
    hide Solo, WokenSyncs, WokenAsyncs, Apply, Enabled;
    NotifySyncStep(s, c);
    SoloOne(s, NotifySync(c));
    var s1 := Apply(s, NotifySync(c));
    NotifyAsyncStep(s1, c);
    SoloAndOne(s, [NotifySync(c)], s1, NotifyAsync(c));
    SetAgain(s, c, NotifyingAsync, Reported);
  }

  lemma TailIsARun(s: State, c: nat)
    requires AtClose(s, c, Bumping) && s.monitor.Vacant?
    ensures Solo(s, TailSteps(c, IsTerminated(s)), AfterTail(s, c))
  {
    hide Solo, WokenSyncs, WokenAsyncs, IsTerminated;
    CheckIsARun(s, c);
    var check := [BumpCapacity(c)] + [CheckLifecycle(c)] + [CheckTerminated(c)];
    if IsTerminated(s) {
      NotifyingIsARun(AfterCheck(s, c), c);
      SetAgain(s, c, NotifyingSync, Reported);
      SoloThen(s, check, AfterCheck(s, c), [NotifySync(c)] + [NotifyAsync(c)], AfterTail(s, c));
    } else {
      assert check + [] == check;
    }
  }

  lemma TailAgrees(s: State, c: nat, v: View)
    requires c in s.closers && Shows(s, v)
    ensures var v' := BlockingState.AfterNotify(BlockingState.AfterBump(v));
            Shows(AfterTail(s, c), v') && Woke(s, AfterTail(s, c), v, v')
  {
    hide WokenSyncs, WokenAsyncs;
    BumpWraps(s.generation);
  }

  // ----- shutdown

  function Closing(c: nat, stop: bool): seq<Action> {
    [Close(c, stop)] + [StoreLifecycle(c)]
  }

  function Published(s: State, c: nat, stop: bool): State {
    s.(admission := Admitted(CloserThread(c)), life := if stop then Stopping else ShutdownOf(s.life),
       closers := s.closers[c := Closer(stop, Stored, 0, 0, 0, {}, {})])
  }

  lemma CloseStep(s: State, c: nat, stop: bool)
    requires c !in s.closers && s.admission.Free?
    ensures Enabled(s, Close(c, stop))
    ensures Apply(s, Close(c, stop)) ==
            s.(admission := Admitted(CloserThread(c)),
               closers := s.closers[c := Closer(stop, Holding, 0, 0, 0, {}, {})])
  {
  }

  lemma StoreStep(s: State, c: nat)
    requires AtClose(s, c, Holding)
    ensures Enabled(s, StoreLifecycle(c))
    ensures Apply(s, StoreLifecycle(c)) ==
            SetClose(s, c, Stored).(life := if s.closers[c].stop then Stopping else ShutdownOf(s.life))
  {
    hide ShutdownOf;
  }

  lemma ClosingIsARun(s: State, c: nat, stop: bool)
    requires c !in s.closers && s.admission.Free?
    ensures Solo(s, Closing(c, stop), Published(s, c, stop))
  {
    hide Solo, Apply, Enabled, ShutdownOf;
    CloseStep(s, c, stop);
    SoloOne(s, Close(c, stop));
    var s1 := Apply(s, Close(c, stop));
    StoreStep(s1, c);
    SoloAndOne(s, [Close(c, stop)], s1, StoreLifecycle(c));
    assert SetClose(s1, c, Stored).closers == Published(s, c, stop).closers;
  }

  function ShutdownSteps(c: nat, terminated: bool): seq<Action> {
    Closing(c, false) + [ReleaseAdmission(c)] + TailSteps(c, terminated)
  }

  /** Before the tail of shutdown. */
  function ShutdownStored(s: State, c: nat): State {
    s.(life := ShutdownOf(s.life), closers := s.closers[c := Closer(false, Bumping, 0, 0, 0, {}, {})])
  }

  lemma ShutdownReleaseStep(s: State, c: nat)
    requires s.admission.Free?
    ensures Enabled(Published(s, c, false), ReleaseAdmission(c))
    ensures Apply(Published(s, c, false), ReleaseAdmission(c)) == ShutdownStored(s, c)
  {
    hide ShutdownOf;
    assert Apply(Published(s, c, false), ReleaseAdmission(c)).closers == ShutdownStored(s, c).closers;
  }

  /** An uninterrupted shutdown is a run: the store under admission, the bump and the notifications after it ... */
  lemma ShutdownIsARun(s: State, c: nat)
    requires c !in s.closers && s.admission.Free? && s.monitor.Vacant?
    ensures Solo(s, ShutdownSteps(c, IsTerminated(ShutdownStored(s, c))), AfterTail(ShutdownStored(s, c), c))
  {
    var s1 := Published(s, c, false);
    assert AtClose(ShutdownStored(s, c), c, Bumping);
    hide Solo, Published, ShutdownStored, AfterTail, IsTerminated, TailSteps, Closing, Apply, Enabled;
    ClosingIsARun(s, c, false);
    ShutdownReleaseStep(s, c);
    SoloAndOne(s, Closing(c, false), s1, ReleaseAdmission(c));
    ShutdownKeepsMonitor(s, c);
    TailIsARun(ShutdownStored(s, c), c);
    SoloThen(s, Closing(c, false) + [ReleaseAdmission(c)], ShutdownStored(s, c),
             TailSteps(c, IsTerminated(ShutdownStored(s, c))),
             AfterTail(ShutdownStored(s, c), c));
  }

  lemma ShutdownKeepsMonitor(s: State, c: nat)
    ensures ShutdownStored(s, c).monitor == s.monitor
  {
  }

  /** ... and does what the method does. */
  lemma ShutdownAgrees(s: State, c: nat, v: View)
    requires Shows(s, v)
    ensures var s', closed := AfterTail(ShutdownStored(s, c), c), v.(life := ShutdownOf(v.life));
            var v' := BlockingState.AfterNotify(BlockingState.AfterBump(closed));
            && Shows(s', v') && Woke(s, s', v, v')
            && s'.admission == s.admission && s'.tasks == s.tasks && s'.handles == s.handles && s'.closers[c].pc.Reported?
  {
    hide WokenSyncs, WokenAsyncs, ShutdownOf;
    TailAgrees(ShutdownStored(s, c), c, v.(life := ShutdownOf(v.life)));
  }
}
