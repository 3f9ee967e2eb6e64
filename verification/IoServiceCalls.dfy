/** Submission and shutdown of the IO service, run without interruption, are runs of the transition system that do
    what the methods of the service do. */
module IoServiceCalls {
  import opened Lifecycles
  import opened IoTask
  import opened IoModel
  import opened IoCalls
  import IoState

  // ----- up to acceptance

  function EnterSteps(th: nat): seq<Action> {
    [Lock(th)] + [CheckRunning(th)]
  }

  lemma EnterIsARun(s: State, th: nat)
    requires th in s.submitters && s.submitters[th].Ready? && s.admission.Free?
    ensures Solo(s, EnterSteps(th),
                 s.(admission := Admitted(SubmitterThread(th)),
                    submitters := s.submitters[th := if s.life.Running? then Checked(s.submitters[th].seen) else Refused]))
  {
    hide Solo;
    SoloOne(s, Lock(th));
    var s1 := Apply(s, Lock(th));
    SoloAndOne(s, [Lock(th)], s1, CheckRunning(th));
    assert Apply(s1, CheckRunning(th)).submitters ==
           s.submitters[th := if s.life.Running? then Checked(s.submitters[th].seen) else Refused];
  }

  lemma RejectStep(s: State, th: nat)
    requires th in s.submitters && (s.submitters[th].Full? || s.submitters[th].Refused?)
    ensures Enabled(s, Reject(th))
    ensures Apply(s, Reject(th)) ==
            s.(admission := Free,
               submitters := s.submitters[th := if s.submitters[th].Full? then Parking(s.submitters[th].seen) else Idle])
  {
  }

  /** A submission to a service that is not running is rejected before its capacity is looked at. */
  lemma RefusalIsARun(s: State, th: nat)
    requires th in s.submitters && s.submitters[th].Ready? && s.admission.Free? && !s.life.Running?
    ensures Solo(s, EnterSteps(th) + [Reject(th)], s.(submitters := s.submitters[th := Idle]))
  {
    hide Solo, EnterSteps, Apply, Enabled;
    EnterIsARun(s, th);
    var s1 := s.(admission := Admitted(SubmitterThread(th)), submitters := s.submitters[th := Refused]);
    RejectStep(s1, th);
    SoloAndOne(s, EnterSteps(th), s1, Reject(th));
    assert s1.submitters[th := Idle] == s.submitters[th := Idle];
  }

  /** A submission to a full service gives admission back and leaves the thread with a hint to wait for. */
  lemma SaturationIsARun(s: State, th: nat, t: nat)
    requires th in s.submitters && s.submitters[th].Ready? && s.admission.Free? && t !in s.tasks
    requires s.life.Running? && s.active >= s.capacity
    ensures Solo(s, EnterSteps(th) + AcceptSteps(th, t, false) + [Reject(th)],
                 s.(submitters := s.submitters[th := Parking(s.submitters[th].seen)]))
  {
    hide Solo, EnterSteps, AcceptSteps, Apply, Enabled;
    EnterIsARun(s, th);
    var seen := s.submitters[th].seen;
    var s1 := s.(admission := Admitted(SubmitterThread(th)), submitters := s.submitters[th := Checked(seen)]);
    TryAcceptIsARun(s1, th, t);
    var s2 := AfterAccept(s1, th, t);
    SoloThen(s, EnterSteps(th), s1, AcceptSteps(th, t, false), s2);
    RejectStep(s2, th);
    SoloAndOne(s, EnterSteps(th) + AcceptSteps(th, t, false), s2, Reject(th));
    assert s2.submitters[th := Parking(seen)] == s.submitters[th := Parking(seen)];
  }

  /** The slot is occupied; admission is still held. */
  function Occupied(s: State, th: nat, t: nat): State {
    s.(active := s.active + 1, admission := Admitted(SubmitterThread(th)), tasks := s.tasks[t := NewTask(th)],
       submitters := s.submitters[th := Busy(t)])
  }

  lemma OccupyIsARun(s: State, th: nat, t: nat)
    requires th in s.submitters && s.submitters[th].Ready? && s.admission.Free? && t !in s.tasks
    requires s.life.Running? && s.active < s.capacity
    ensures Solo(s, EnterSteps(th) + AcceptSteps(th, t, true), Occupied(s, th, t))
  {
    hide Solo, EnterSteps, AcceptSteps, NewTask;
    EnterIsARun(s, th);
    var s1 := s.(admission := Admitted(SubmitterThread(th)),
                 submitters := s.submitters[th := Checked(s.submitters[th].seen)]);
    TryAcceptIsARun(s1, th, t);
    assert s1.submitters[th := Busy(t)] == s.submitters[th := Busy(t)];
    SoloThen(s, EnterSteps(th), s1, AcceptSteps(th, t, true), Occupied(s, th, t));
  }

  // ----- from acceptance to the hand-off

  function Submitting(t: nat, a: SubmitterAct): Action {
    OnTask(t, BySubmitter(a))
  }

  lemma SubmitStep(s: State, t: nat, a: SubmitterAct)
    requires t in s.tasks && CanSubmit(s.tasks[t], a) && (a.Allocate? ==> AddressIsFree(s, a.addr))
    ensures Enabled(s, Submitting(t, a))
    ensures Apply(s, Submitting(t, a)) ==
            s.(tasks := s.tasks[t := Submit(s.tasks[t], a)],
               handles := if a.Register? && !s.tasks[t].finished && !s.tasks[t].job.Gone? then s.handles[s.tasks[t].addr := t]
                          else s.handles,
               admission := if a.Unlock? then Free else s.admission,
               submitters := if a.Return? then s.submitters[s.tasks[t].owner := Idle] else s.submitters)
  {
    hide Submit, CanSubmit, AddressIsFree;
  }

  /** The task when Tokio knows it and, unless the runtime is closed, its abort handle is registered. */
  function Prepared(k: Task, addr: nat, closed: bool): Task {
    Submit(Submit(Submit(k, Allocate(addr)), Spawn(closed)), Register)
  }

  lemma PreparedFacts(k: Task, addr: nat, closed: bool)
    requires k.stage.Reserved? && !k.finished
    ensures CanSubmit(k, Allocate(addr)) && CanSubmit(Submit(k, Allocate(addr)), Spawn(closed))
    ensures var k2 := Submit(Submit(k, Allocate(addr)), Spawn(closed));
            CanSubmit(k2, Register) && k2.addr == addr && !k2.finished && k2.job.Gone? == closed
    ensures Prepared(k, addr, closed) ==
            k.(stage := Registered, addr := addr, job := if closed then Gone else Waiting,
               entry := if closed then NoEntry else InMap)
  {
  }

  function PrepareSteps(t: nat, addr: nat, closed: bool): seq<Action> {
    [Submitting(t, Allocate(addr))] + [Submitting(t, Spawn(closed))] + [Submitting(t, Register)]
  }

  lemma PrepareIsARun(s: State, t: nat, addr: nat, closed: bool)
    requires t in s.tasks && s.tasks[t].stage.Reserved? && !s.tasks[t].finished && AddressIsFree(s, addr)
    ensures Solo(s, PrepareSteps(t, addr, closed),
                 s.(tasks := s.tasks[t := Prepared(s.tasks[t], addr, closed)],
                    handles := if closed then s.handles else s.handles[addr := t]))
  {
    var k := s.tasks[t];
    hide Apply, Enabled, Solo, Submit, CanSubmit, Submitting, AddressIsFree;
    PreparedFacts(k, addr, closed);
    var k1 := Submit(k, Allocate(addr));
    var k2 := Submit(k1, Spawn(closed));
    SubmitStep(s, t, Allocate(addr));
    SoloOne(s, Submitting(t, Allocate(addr)));
    var s1 := s.(tasks := s.tasks[t := k1]);
    SubmitStep(s1, t, Spawn(closed));
    SoloAndOne(s, [Submitting(t, Allocate(addr))], s1, Submitting(t, Spawn(closed)));
    Overwrite(s.tasks, t, k1, k2);
    var s2 := s.(tasks := s.tasks[t := k2]);
    SubmitStep(s2, t, Register);
    SoloAndOne(s, [Submitting(t, Allocate(addr))] + [Submitting(t, Spawn(closed))], s2, Submitting(t, Register));
    Overwrite(s.tasks, t, k2, Prepared(k, addr, closed));
  }

  /** The task after the hand-off; a send to a closed runtime leaves the payload to the submitting thread. */
  function Handed(k: Task): Task {
    Submit(Submit(k, Unlock), Send)
  }

  lemma HandedFacts(k: Task)
    requires k.stage.Registered?
    ensures CanSubmit(k, Unlock) && CanSubmit(Submit(k, Unlock), Send)
    ensures Handed(k) ==
            if k.job.Gone? then k.(stage := Stage.Dropping, future := BeingDropped)
            else k.(stage := Sent, future := InChannel)
  {
  }

  function HandSteps(t: nat): seq<Action> {
    [Submitting(t, Unlock)] + [Submitting(t, Send)]
  }

  lemma HandIsARun(s: State, t: nat)
    requires t in s.tasks && s.tasks[t].stage.Registered?
    ensures Solo(s, HandSteps(t), s.(tasks := s.tasks[t := Handed(s.tasks[t])], admission := Free))
  {
    hide Apply, Enabled, Solo, Submit, CanSubmit, Submitting, AddressIsFree;
    HandedFacts(s.tasks[t]);
    var k1 := Submit(s.tasks[t], Unlock);
    SubmitStep(s, t, Unlock);
    SoloOne(s, Submitting(t, Unlock));
    var s1 := s.(tasks := s.tasks[t := k1], admission := Free);
    SubmitStep(s1, t, Send);
    SoloAndOne(s, [Submitting(t, Unlock)], s1, Submitting(t, Send));
    Overwrite(s.tasks, t, k1, Handed(s.tasks[t]));
  }

  lemma ReturnIsARun(s: State, t: nat)
    requires t in s.tasks && CanSubmit(s.tasks[t], Return)
    ensures Solo(s, [Submitting(t, Return)],
                 s.(tasks := s.tasks[t := Submit(s.tasks[t], Return)],
                    submitters := s.submitters[s.tasks[t].owner := Idle]))
  {
    hide Apply, Enabled, Solo, CanSubmit, Submit, Submitting;
    SubmitStep(s, t, Return);
    SoloOne(s, Submitting(t, Return));
  }

  // ----- a whole submission

  /** The task as the hand-off leaves it. */
  function HandedTask(th: nat, addr: nat, closed: bool): Task {
    Handed(Prepared(NewTask(th), addr, closed))
  }

  lemma HandedTaskFacts(th: nat, addr: nat, closed: bool)
    ensures Prepared(NewTask(th), addr, closed).stage.Registered?
    ensures HandedTask(th, addr, closed) ==
            if closed then
              NewTask(th).(stage := Stage.Dropping, addr := addr, job := Gone, entry := NoEntry, future := BeingDropped)
            else NewTask(th).(stage := Sent, addr := addr, job := Waiting, entry := InMap, future := InChannel)
  {
    hide Prepared, Handed;
    PreparedFacts(NewTask(th), addr, closed);
    HandedFacts(Prepared(NewTask(th), addr, closed));
  }

  /** Admission is free again, an open submission is listed, and its future may be polled. */
  function HandedOver(s: State, th: nat, t: nat, addr: nat, closed: bool): State {
    s.(active := s.active + 1, tasks := s.tasks[t := HandedTask(th, addr, closed)],
       handles := if closed then s.handles else s.handles[addr := t], submitters := s.submitters[th := Busy(t)])
  }

  function HandOverSteps(th: nat, t: nat, addr: nat, closed: bool): seq<Action> {
    EnterSteps(th) + AcceptSteps(th, t, true) + PrepareSteps(t, addr, closed) + HandSteps(t)
  }

  lemma NewTaskKeepsAddresses(s: State, th: nat, t: nat, addr: nat)
    requires AddressIsFree(s, addr) && t !in s.tasks
    ensures AddressIsFree(Occupied(s, th, t), addr)
  {
    assert !Live(NewTask(th));
    hide Live;
  }

  /** An open submission is registered; admission is still held. */
  function Listed(s: State, th: nat, t: nat, addr: nat, closed: bool): State {
    s.(active := s.active + 1, admission := Admitted(SubmitterThread(th)),
       tasks := s.tasks[t := Prepared(NewTask(th), addr, closed)],
       handles := if closed then s.handles else s.handles[addr := t], submitters := s.submitters[th := Busy(t)])
  }

  lemma ListingIsARun(s: State, th: nat, t: nat, addr: nat, closed: bool)
    requires th in s.submitters && s.submitters[th].Ready? && s.admission.Free? && t !in s.tasks
    requires s.life.Running? && s.active < s.capacity && AddressIsFree(s, addr)
    ensures Solo(s, EnterSteps(th) + AcceptSteps(th, t, true) + PrepareSteps(t, addr, closed),
                 Listed(s, th, t, addr, closed))
  {
    assert NewTask(th).stage.Reserved? && !NewTask(th).finished;
    hide Solo, EnterSteps, AcceptSteps, PrepareSteps, AddressIsFree, Prepared, NewTask;
    OccupyIsARun(s, th, t);
    NewTaskKeepsAddresses(s, th, t, addr);
    PrepareIsARun(Occupied(s, th, t), t, addr, closed);
    Overwrite(s.tasks, t, NewTask(th), Prepared(NewTask(th), addr, closed));
    SoloThen(s, EnterSteps(th) + AcceptSteps(th, t, true), Occupied(s, th, t), PrepareSteps(t, addr, closed),
             Listed(s, th, t, addr, closed));
  }

  lemma HandOverIsARun(s: State, th: nat, t: nat, addr: nat, closed: bool)
    requires th in s.submitters && s.submitters[th].Ready? && s.admission.Free? && t !in s.tasks
    requires s.life.Running? && s.active < s.capacity && AddressIsFree(s, addr)
    ensures Solo(s, HandOverSteps(th, t, addr, closed), HandedOver(s, th, t, addr, closed))
  {
    hide Solo, EnterSteps, AcceptSteps, PrepareSteps, HandSteps, AddressIsFree, Prepared, Handed, NewTask;
    var k, s1 := Prepared(NewTask(th), addr, closed), Listed(s, th, t, addr, closed);
    HandedTaskFacts(th, addr, closed);
    ListingIsARun(s, th, t, addr, closed);
    HandIsARun(s1, t);
    Overwrite(s.tasks, t, k, Handed(k));
    SoloThen(s, EnterSteps(th) + AcceptSteps(th, t, true) + PrepareSteps(t, addr, closed), s1, HandSteps(t),
             HandedOver(s, th, t, addr, closed));
  }

  /** The failed send of a closed runtime drops the payload on the submitting thread. */
  function DropAfter(t: nat, closed: bool): seq<Action> {
    if closed then PayloadSteps(t) else []
  }

  function SubmissionSteps(th: nat, t: nat, addr: nat, closed: bool): seq<Action> {
    HandOverSteps(th, t, addr, closed) + DropAfter(t, closed) + [Submitting(t, Return)]
  }

  /** Before the submitting thread returns. */
  function BeforeReturn(s: State, t: nat): State
    requires t in s.tasks
  {
    if s.tasks[t].future.BeingDropped? then AfterPayload(s, t) else s
  }

  /** The state after an uninterrupted submission that was accepted. */
  function AfterSubmission(s: State, th: nat, t: nat, addr: nat, closed: bool): State {
    var s1 := BeforeReturn(HandedOver(s, th, t, addr, closed), t);
    s1.(tasks := s1.tasks[t := Submit(s1.tasks[t], Return)], submitters := s1.submitters[th := Idle])
  }

  lemma DropFacts(s: State, t: nat)
    requires t in s.tasks
    ensures AfterPayload(s, t).tasks ==
            s.tasks[t := s.tasks[t].(future := Destroyed, finished := true, entry := Unlisted(s.tasks[t].entry),
                                     guard := Released)]
    ensures AfterPayload(s, t).submitters == s.submitters
  {
    hide WokenWaiters, Dropped, Pred;
    DroppedFacts(Emptied(s.tasks[t]));
  }

  lemma DropAfterIsARun(s: State, t: nat, closed: bool)
    requires t in s.tasks
    requires if closed then s.tasks[t].stage.Dropping? && s.tasks[t].future.BeingDropped?
             else s.tasks[t].stage.Sent? && s.tasks[t].future.InChannel?
    ensures Solo(s, DropAfter(t, closed), BeforeReturn(s, t))
    ensures var s1 := BeforeReturn(s, t);
            && t in s1.tasks && CanSubmit(s1.tasks[t], Return)
            && s1.tasks[t].owner == s.tasks[t].owner && s1.submitters == s.submitters
  {
    hide AfterPayload, PayloadSteps;
    if closed {
      hide Solo;
      PayloadDropIsARun(s, t);
      DropFacts(s, t);
    }
  }

  /** An accepted submission is a run: the service lock, acceptance and registration under admission, the hand-off
      after it and, on a closed runtime, the drop of the payload by the submitter, future first. */
  lemma SubmissionIsARun(s: State, th: nat, t: nat, addr: nat, closed: bool)
    requires th in s.submitters && s.submitters[th].Ready? && s.admission.Free? && t !in s.tasks
    requires s.life.Running? && s.active < s.capacity && AddressIsFree(s, addr)
    ensures Solo(s, SubmissionSteps(th, t, addr, closed), AfterSubmission(s, th, t, addr, closed))
  {
    var s1 := HandedOver(s, th, t, addr, closed);
    assert s1.tasks[t].owner == th by {
      HandedTaskFacts(th, addr, closed);
    }
    hide Solo, HandOverSteps, AddressIsFree, HandedTask, BeforeReturn, DropAfter, Submit, CanSubmit;
    HandedTaskFacts(th, addr, closed);
    HandOverIsARun(s, th, t, addr, closed);
    DropAfterIsARun(s1, t, closed);
    var s2 := BeforeReturn(s1, t);
    SoloThen(s, HandOverSteps(th, t, addr, closed), s1, DropAfter(t, closed), s2);
    ReturnIsARun(s2, t);
    SoloThen(s, HandOverSteps(th, t, addr, closed) + DropAfter(t, closed), s2, [Submitting(t, Return)],
             AfterSubmission(s, th, t, addr, closed));
  }

  lemma HandOverAgrees(s: State, th: nat, t: nat, addr: nat, closed: bool, v: View)
    requires Shows(s, v) && addr !in s.handles && t !in s.tasks
    ensures var s' := BeforeReturn(HandedOver(s, th, t, addr, closed), t);
            var v' := if closed then IoState.AfterNotify(IoState.AfterBump(v)) else v.(active := v.active + 1);
            && Shows(s', v') && Woke(s, s', v, v')
            && s'.handles == (if closed then s.handles else s.handles[addr := t])
            && s'.submitters == s.submitters[th := Busy(t)]
            && t in s'.tasks && s'.tasks[t].addr == addr
            && (if closed then s'.tasks[t].finished && s'.tasks[t].future.Destroyed? && s'.tasks[t].guard.Released?
                else s'.tasks[t].entry.InMap? && s'.tasks[t].future.InChannel? && s'.tasks[t].guard.Held?)
            && forall u :: u in s.tasks ==> u in s'.tasks && s'.tasks[u] == s.tasks[u]
  {
    hide WokenWaiters, AfterPayload, HandedTask;
    HandedTaskFacts(th, addr, closed);
    if closed {
      PayloadDropAgrees(HandedOver(s, th, t, addr, closed), t, v.(active := v.active + 1));
    }
  }

  lemma ReturnFacts(k: Task)
    ensures Submit(k, Return) == k.(stage := Returned)
  {
  }

  lemma ReturnIsUnseen(s: State, s': State, v: View)
    requires s'.life == s.life && s'.active == s.active && s'.generation == s.generation
    ensures Shows(s, v) ==> Shows(s', v)
  {
  }

  /** It does what the method does: an open submission occupies one slot and is listed, a failed one destroys its
      future, gives the slot back and notifies. */
  lemma SubmissionAgrees(s: State, th: nat, t: nat, addr: nat, closed: bool, v: View)
    requires Shows(s, v) && addr !in s.handles && t !in s.tasks
    ensures var s' := AfterSubmission(s, th, t, addr, closed);
            var v' := if closed then IoState.AfterNotify(IoState.AfterBump(v)) else v.(active := v.active + 1);
            && Shows(s', v') && Woke(s, s', v, v')
            && s'.handles == (if closed then s.handles else s.handles[addr := t])
            && s'.submitters == s.submitters[th := Idle]
            && s'.tasks[t].addr == addr
            && (if closed then s'.tasks[t].finished && s'.tasks[t].future.Destroyed? && s'.tasks[t].guard.Released?
                else s'.tasks[t].entry.InMap? && s'.tasks[t].future.InChannel? && s'.tasks[t].guard.Held?)
            && forall u :: u in s.tasks ==> s'.tasks[u] == s.tasks[u]
  {
    hide Submit, BeforeReturn, Shows, IoState.AfterNotify, IoState.AfterBump;
    HandOverAgrees(s, th, t, addr, closed, v);
    var s1 := BeforeReturn(HandedOver(s, th, t, addr, closed), t);
    ReturnFacts(s1.tasks[t]);
    ReturnIsUnseen(s1, AfterSubmission(s, th, t, addr, closed),
                   if closed then IoState.AfterNotify(IoState.AfterBump(v)) else v.(active := v.active + 1));
  }

  // ----- closing the service

  /** The last part of shutdown and stop: the bump and the unconditional notification. */
  function TailSteps(c: nat): seq<Action> {
    [BumpCapacity(c)] + [NotifyWaiters(c)]
  }

  function AfterTail(s: State, c: nat): State
    requires c in s.closers
  {
    SetClose(s, c, Reported).(generation := s.generation + 1, waiters := WokenWaiters(s.waiters))
  }

  lemma SetAgain(s: State, c: nat, x: ClosePc, y: ClosePc)
    requires c in s.closers
    ensures SetClose(SetClose(s, c, x), c, y).closers == SetClose(s, c, y).closers
  {
  }

  lemma TailIsARun(s: State, c: nat)
    requires AtClose(s, c, Bumping)
    ensures Solo(s, TailSteps(c), AfterTail(s, c))
  {
    hide Solo, WokenWaiters;
    SoloOne(s, BumpCapacity(c));
    var s1 := Apply(s, BumpCapacity(c));
    SoloAndOne(s, [BumpCapacity(c)], s1, NotifyWaiters(c));
    SetAgain(s, c, Notifying, Reported);
  }

  lemma TailAgrees(s: State, c: nat, v: View)
    requires c in s.closers && Shows(s, v)
    ensures var v' := IoState.AfterNotify(IoState.AfterBump(v));
            Shows(AfterTail(s, c), v') && Woke(s, AfterTail(s, c), v, v')
  {
    hide WokenWaiters;
    BumpWraps(s.generation);
  }

  function Closing(c: nat, stop: bool): seq<Action> {
    [Close(c, stop)] + [StoreLifecycle(c)]
  }

  function Published(s: State, c: nat, stop: bool): State {
    s.(admission := Admitted(CloserThread(c)), life := if stop then Stopping else ShutdownOf(s.life),
       closers := s.closers[c := Closer(stop, Stored, 0, 0, {}, {})])
  }

  lemma ClosingIsARun(s: State, c: nat, stop: bool)
    requires c !in s.closers && s.admission.Free?
    ensures Solo(s, Closing(c, stop), Published(s, c, stop))
  {
    hide Solo;
    SoloOne(s, Close(c, stop));
    var s1 := Apply(s, Close(c, stop));
    SoloAndOne(s, [Close(c, stop)], s1, StoreLifecycle(c));
    assert Apply(s1, StoreLifecycle(c)).closers == Published(s, c, stop).closers;
  }

  // ----- shutdown

  function ShutdownSteps(c: nat): seq<Action> {
    Closing(c, false) + [ReleaseAdmission(c)] + TailSteps(c)
  }

  /** Before the tail of shutdown. */
  function ShutdownStored(s: State, c: nat): State {
    s.(life := ShutdownOf(s.life), closers := s.closers[c := Closer(false, Bumping, 0, 0, {}, {})])
  }

  lemma ReleaseStep(s: State, c: nat)
    requires s.admission.Free?
    ensures Enabled(Published(s, c, false), ReleaseAdmission(c))
    ensures Apply(Published(s, c, false), ReleaseAdmission(c)) == ShutdownStored(s, c)
  {
    assert Apply(Published(s, c, false), ReleaseAdmission(c)).closers == ShutdownStored(s, c).closers;
  }

  /** An uninterrupted shutdown is a run: the store under admission, the bump and the notification after it ... */
  lemma ShutdownIsARun(s: State, c: nat)
    requires c !in s.closers && s.admission.Free?
    ensures Solo(s, ShutdownSteps(c), AfterTail(ShutdownStored(s, c), c))
  {
    assert AtClose(ShutdownStored(s, c), c, Bumping);
    hide Solo, Published, ShutdownStored, AfterTail, TailSteps, Closing, Apply, Enabled;
    ClosingIsARun(s, c, false);
    ReleaseStep(s, c);
    SoloAndOne(s, Closing(c, false), Published(s, c, false), ReleaseAdmission(c));
    TailIsARun(ShutdownStored(s, c), c);
    SoloThen(s, Closing(c, false) + [ReleaseAdmission(c)], ShutdownStored(s, c), TailSteps(c),
             AfterTail(ShutdownStored(s, c), c));
  }

  /** ... and does what the method does. */
  lemma ShutdownAgrees(s: State, c: nat, v: View)
    requires Shows(s, v)
    ensures var s', closed := AfterTail(ShutdownStored(s, c), c), v.(life := ShutdownOf(v.life));
            var v' := IoState.AfterNotify(IoState.AfterBump(closed));
            && Shows(s', v') && Woke(s, s', v, v')
            && s'.admission == s.admission && s'.tasks == s.tasks && s'.handles == s.handles && s'.closers[c].pc.Reported?
  {
    hide WokenWaiters, ShutdownOf;
    TailAgrees(ShutdownStored(s, c), c, v.(life := ShutdownOf(v.life)));
  }
}
