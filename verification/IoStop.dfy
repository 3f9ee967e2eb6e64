/** What a `stop` call of the IO service guarantees, and the abort map it works on, over whole runs. */
module IoStop {
  import opened Lifecycles
  import opened Selections
  import opened IoTask
  import opened IoModel
  import opened IoInvariant
  import opened IoRuns
  import opened IoTermination
  import Steps = IoTaskSteps
  import Closers = IoCloserSteps

  // ----- the abort map

  /** The map as it would be if it were keyed by task identity. */
  function Listed(s: State): set<nat> {
    set t | t in s.tasks && s.tasks[t].entry.InMap?
  }

  lemma MapFacts(s: State)
    requires Inv(s)
    ensures s.handles.Values == Listed(s) <= Occupying(s.tasks)
    ensures forall a :: a in s.handles ==> s.handles[a] in s.tasks && s.tasks[s.handles[a]].addr == a
    ensures s.active == 0 ==> s.handles == map[]
  {
    hide Inv, TaskInv, Occupies, Counted;
    InvParts(s);
    forall t | t in Listed(s)
      ensures t in s.handles.Values && t in Occupying(s.tasks)
    {
      assert s.handles[s.tasks[t].addr] == t;
      AliveOccupies(s.tasks[t]);
    }
    if s.active == 0 {
      NothingIsAliveAtZero(s);
      assert forall a :: a !in s.handles;
    }
  }

  /** A map that never stores a value twice has as many entries as values. */
  lemma {:induction false} InjectiveMapSize(m: map<nat, nat>)
    requires forall a, b :: a in m && b in m && m[a] == m[b] ==> a == b
    ensures |m| == |m.Values|
  {
    if m.Keys == {} {
      assert m == map[] && m.Values == {};
    } else {
      var a :| a in m.Keys;
      var rest := m - {a};
      InjectiveMapSize(rest);
      forall v | v in m.Values
        ensures v in rest.Values + {m[a]}
      {
        var b :| b in m && m[b] == v;
        assert b != a ==> rest[b] == v;
      }
      assert m.Values == rest.Values + {m[a]};
      assert m.Keys == rest.Keys + {a};
    }
  }

  /** Under every reuse of freed marker addresses the address-keyed map behaves like the identity-keyed one: its
      entries are the listed tasks, each under its own address, and it never holds more entries than the count. */
  lemma MapIsKeyedByIdentity(states: seq<State>, actions: seq<Action>, n: nat)
    requires IsExecution(states, actions) && n < |states|
    ensures states[n].handles.Values == Listed(states[n])
    ensures forall a :: a in states[n].handles ==>
              states[n].handles[a] in states[n].tasks && states[n].tasks[states[n].handles[a]].addr == a
    ensures |states[n].handles| <= states[n].active
    ensures states[n].active == 0 ==> states[n].handles == map[]
  {
    hide Inv, Apply, Enabled, Listed, Occupying, AliveFutures;
    ExecutionsKeepInv(states, actions, n);
    MapFacts(states[n]);
    InjectiveMapSize(states[n].handles);
    SubsetIsNoLarger(Listed(states[n]), Occupying(states[n].tasks));
    LiveFuturesFitInCapacity(states, actions, n);
  }

  /** Beside an occupied slot there are fewer entries of other tasks than active futures. */
  lemma OtherEntriesAreFewer(states: seq<State>, actions: seq<Action>, n: nat, t: nat)
    requires IsExecution(states, actions) && n < |states|
    requires t in states[n].tasks && !states[n].tasks[t].stage.Reserved? && Occupies(states[n].tasks[t])
    ensures |states[n].handles - {states[n].tasks[t].addr}| < states[n].active
  {
    hide Inv, Apply, Enabled, Occupies, Occupying, AliveFutures;
    ExecutionsKeepInv(states, actions, n);
    var s := states[n];
    var rest := s.handles - {s.tasks[t].addr};
    MapFacts(s);
    InjectiveMapSize(rest);
    LiveFuturesFitInCapacity(states, actions, n);
    RestOccupies(s, rest, t);
    SubsetIsNoLarger(rest.Values, Occupying(s.tasks) - {t});
  }

  lemma RestOccupies(s: State, rest: map<nat, nat>, t: nat)
    requires t in s.tasks && Occupies(s.tasks[t]) && rest == s.handles - {s.tasks[t].addr}
    requires s.handles.Values <= Occupying(s.tasks)
    requires forall a :: a in s.handles ==> s.handles[a] in s.tasks && s.tasks[s.handles[a]].addr == a
    ensures rest.Values <= Occupying(s.tasks) - {t} && t in Occupying(s.tasks)
    ensures |Occupying(s.tasks) - {t}| == |Occupying(s.tasks)| - 1
  {
    hide Occupies;
    forall u | u in rest.Values
      ensures u in Occupying(s.tasks) && u != t
    {
      var a :| a in rest && rest[a] == u;
      assert a in s.handles && s.handles[a] == u && a != s.tasks[t].addr;
      assert u in s.handles.Values;
    }
  }

  /** The map theorems are about real reuse: as soon as no guard and no entry refers to a marker any more, the next
      marker may get its address. */
  lemma FreedAddressesAreReused(s: State, t: nat, addr: nat)
    requires t in s.tasks && s.tasks[t].stage.Reserved?
    requires forall u :: u in s.tasks && s.tasks[u].addr == addr && !s.tasks[u].stage.Reserved? ==>
               s.tasks[u].guard.Released? && s.tasks[u].entry.NoEntry?
    ensures Enabled(s, OnTask(t, BySubmitter(Allocate(addr))))
    ensures Apply(s, OnTask(t, BySubmitter(Allocate(addr)))).tasks[t].addr == addr
  {
  }

  /** Insertion never overwrites an entry and a removal finds the task's own entry or none. */
  lemma MapUpdatesAreOwn(states: seq<State>, actions: seq<Action>, i: nat)
    requires IsExecution(states, actions) && i < |actions| && actions[i].OnTask?
    ensures var k := states[i].tasks[actions[i].task];
            && (actions[i].step == BySubmitter(Register) ==> k.addr !in states[i].handles && !k.finished)
            && (actions[i].step == OnGuard(GuardRemove) && k.addr in states[i].handles ==>
                  states[i].handles[k.addr] == actions[i].task)
  {
    hide Inv, StepTask, Step, AllTasks, Counted, ExactMap, DistinctAddresses;
    ExecutionsKeepInv(states, actions, i);
    UpdateIsOwn(states[i], actions[i].task, actions[i].step);
  }

  lemma UpdateIsOwn(s: State, t: nat, x: TaskStep)
    requires Inv(s) && CanStepTask(s, t, x)
    ensures x == BySubmitter(Register) ==> s.tasks[t].addr !in s.handles && !s.tasks[t].finished
    ensures x == OnGuard(GuardRemove) && s.tasks[t].addr in s.handles ==> s.handles[s.tasks[t].addr] == t
  {
    hide Inv, TaskInv, Step, Counted, ExactMap, DistinctAddresses;
    InvParts(s);
    if x == BySubmitter(Register) {
      Steps.RegistrationNeverOverwrites(s, t);
      StepMoves(s.tasks[t], x);
    } else if x == OnGuard(GuardRemove) {
      Steps.RemovalTouchesOnlyItsOwn(s, t);
    }
  }

  // ----- the report

  lemma ReportOfInv(s: State, c: nat)
    requires ReportsOk(s) && c in s.closers
    ensures HonestReport(s.tasks, c, s.closers[c])
  {
    hide HonestReport;
  }

  /** A stop report never claims more cancellations than futures were active at its snapshot. */
  lemma CancelledIsAtMostRunning(states: seq<State>, actions: seq<Action>, n: nat, c: nat)
    requires IsExecution(states, actions) && n < |states| && c in states[n].closers
    ensures states[n].closers[c].cancelled <= states[n].closers[c].running
  {
    hide Inv, Apply, Enabled, HonestReports;
    ExecutionsKeepInv(states, actions, n);
    InvParts(states[n]);
    ReportOfInv(states[n], c);
    SubsetIsNoLarger(states[n].closers[c].counted, states[n].closers[c].snap);
  }

  lemma TaskCounterIsStable(s: State, u: nat, x: TaskStep, t: nat)
    requires Inv(s) && Enabled(s, OnTask(u, x)) && t in s.tasks && s.tasks[t].counter.CountedBy?
    ensures t in Apply(s, OnTask(u, x)).tasks && Apply(s, OnTask(u, x)).tasks[t].counter == s.tasks[t].counter
  {
    hide Inv, TaskInv, Step, StepTask, HasEntry;
    TaskOfRun(s, u);
    Steps.StepFrame(s, u, x);
    StepMoves(s.tasks[u], x);
  }

  lemma IncrementIsNew(s: State, a: Action)
    requires Enabled(s, a) && a.Increment?
    ensures a.task !in s.tasks
  {
  }

  lemma CounterIsStable(s: State, a: Action, t: nat)
    requires Inv(s) && Enabled(s, a) && t in s.tasks && s.tasks[t].counter.CountedBy?
    ensures t in Apply(s, a).tasks && Apply(s, a).tasks[t].counter == s.tasks[t].counter
  {
    hide Inv, Enabled, TaskInv, Step, StepTask, TakeEntries, AllTasks, ExactMap, CanStepTask;
    if a.OnTask? {
      TaskCounterIsStable(s, a.task, a.step, t);
    } else if a.Increment? {
      IncrementIsNew(s, a);
    } else {
      TasksFrame(s, a);
      if a.TakeHandles? {
        InvParts(s);
        Closers.TakenTasks(s, a.closer);
      }
    }
  }

  lemma {:induction false} CountedForever(states: seq<State>, actions: seq<Action>, i: nat, j: nat, t: nat)
    requires IsExecution(states, actions) && i <= j < |states| && t in states[i].tasks
    requires states[i].tasks[t].counter.CountedBy?
    ensures t in states[j].tasks && states[j].tasks[t].counter == states[i].tasks[t].counter
    decreases j
  {
    hide Inv, Apply, Enabled;
    if i < j {
      CountedForever(states, actions, i, j - 1, t);
      ExecutionsKeepInv(states, actions, j - 1);
      CounterIsStable(states[j - 1], actions[j - 1], t);
    }
  }

  /** No future is counted by two stop calls, not even at different times of a run. */
  lemma NoFutureIsCountedTwice(states: seq<State>, actions: seq<Action>, i: nat, j: nat, c: nat, d: nat, t: nat)
    requires IsExecution(states, actions) && i <= j < |states|
    requires c in states[i].closers && d in states[j].closers
    requires t in states[i].closers[c].counted && t in states[j].closers[d].counted
    ensures c == d
  {
    hide Inv, Apply, Enabled, HonestReports;
    ExecutionsKeepInv(states, actions, i);
    ExecutionsKeepInv(states, actions, j);
    InvParts(states[i]);
    InvParts(states[j]);
    ReportOfInv(states[i], c);
    ReportOfInv(states[j], d);
    CountedForever(states, actions, i, j, t);
  }

  // ----- a stop reaches every accepted future

  /** Out of the reach of every stop: already aborted, its Tokio task is gone, or its guard is past the removal. */
  ghost predicate Reached(k: Task) {
    k.entry.NoEntry? ==>
      k.aborted || k.job.Gone? || k.guard.ToDecrement? || k.guard.ToBump? || k.guard.ToNotify? || k.guard.Released?
  }

  predicate BeforeTake(c: Closer) {
    c.stop && (c.pc.Stored? || c.pc.Snapped? || c.pc.Unlocked?)
  }

  /** A stopping service has an empty map, or a stop that still has to take it. */
  ghost predicate Swept(s: State) {
    s.life.Stopping? ==> s.handles == map[] || exists c :: c in s.closers && BeforeTake(s.closers[c])
  }

  lemma ReachedIsStable(k: Task, x: TaskStep)
    requires TaskInv(k) && CanStep(k, x) && Reached(k)
    ensures Reached(Step(k, x))
  {
    match x
    case BySubmitter(y) => if k.job.Gone? {}
    case ByJob(y) => if k.future.WithSubmitter? {}
    case OnGuard(y) => if k.entry.InMap? {}
    case ByAbort(y) => if k.job.Gone? {}
  }

  lemma TaskStepKeepsReached(s: State, t: nat, x: TaskStep)
    requires Inv(s) && CanStepTask(s, t, x) && forall u :: u in s.tasks ==> Reached(s.tasks[u])
    ensures forall u :: u in StepTask(s, t, x).tasks ==> Reached(StepTask(s, t, x).tasks[u])
  {
    hide Inv, TaskInv, Step, StepTask, Reached;
    TaskOfRun(s, t);
    Steps.StepFrame(s, t, x);
    ReachedIsStable(s.tasks[t], x);
  }

  lemma TakenIsReached(k: Task, c: nat)
    ensures Reached(k.(entry := Taken(c)))
  {
  }

  lemma StepKeepsReached(s: State, a: Action)
    requires Inv(s) && Enabled(s, a) && forall u :: u in s.tasks ==> Reached(s.tasks[u])
    ensures forall u :: u in Apply(s, a).tasks ==> Reached(Apply(s, a).tasks[u])
  {
    hide Inv, Enabled, TaskInv, StepTask, TakeEntries, CanStepTask, Reached;
    if a.OnTask? {
      OnTaskKeepsReached(s, a);
    } else if a.Increment? {
      NewIsReached(a.thread);
    } else {
      TasksFrame(s, a);
      if a.TakeHandles? {
        TakeKeepsReached(s, a.closer);
      }
    }
  }

  lemma NewIsReached(owner: nat)
    ensures Reached(NewTask(owner))
  {
  }

  lemma OnTaskKeepsReached(s: State, a: Action)
    requires Inv(s) && Enabled(s, a) && a.OnTask? && forall u :: u in s.tasks ==> Reached(s.tasks[u])
    ensures forall u :: u in Apply(s, a).tasks ==> Reached(Apply(s, a).tasks[u])
  {
    hide Inv, StepTask, Reached;
    TaskStepKeepsReached(s, a.task, a.step);
  }

  lemma TakeKeepsReached(s: State, c: nat)
    requires Inv(s) && forall u :: u in s.tasks ==> Reached(s.tasks[u])
    ensures forall u :: u in TakeEntries(s, c).tasks ==> Reached(TakeEntries(s, c).tasks[u])
  {
    hide Inv, TakeEntries, ExactMap, Reached;
    InvParts(s);
    Closers.TakenTasks(s, c);
    forall u | u in s.tasks
      ensures Reached(TakeEntries(s, c).tasks[u])
    {
      TakenIsReached(s.tasks[u], c);
    }
  }

  lemma TaskStepKeepsSwept(s: State, t: nat, x: TaskStep)
    requires Inv(s) && CanStepTask(s, t, x) && Swept(s)
    ensures Swept(StepTask(s, t, x))
  {
    hide Inv, StepTask;
    RegisteringMeansRunning(s, t, x);
    Steps.StepFrame(s, t, x);
    var s' := StepTask(s, t, x);
    if c :| c in s.closers && BeforeTake(s.closers[c]) {
      assert c in s'.closers && BeforeTake(s'.closers[c]);
    }
  }

  lemma RegisteringMeansRunning(s: State, t: nat, x: TaskStep)
    requires Inv(s) && CanStepTask(s, t, x)
    ensures x == BySubmitter(Register) ==> s.life.Running?
  {
    hide Inv, AllTasks, Counted, DistinctAddresses, ExactMap, Exclusive, Owned, HonestReports, WaitersServed,
         HintsServed;
    InvParts(s);
  }

  /** The closers that a step leaves alone. */
  lemma ClosersFrame(s: State, a: Action, c: nat)
    requires Enabled(s, a) && !a.OnTask? && c in s.closers
    ensures c in Apply(s, a).closers
    ensures BeforeTake(s.closers[c]) && a != TakeHandles(c) ==> BeforeTake(Apply(s, a).closers[c])
    ensures a == StoreLifecycle(c) && s.closers[c].stop ==> BeforeTake(Apply(s, a).closers[c])
  {
    if IsCloserStep(a) {
      CloserMoves(s, a, c);
    } else if a.Increment? {
      hide HasEntry, NewTask;
    } else {
      hide Apply, Enabled;
      OthersMoveNoCloser(s, a);
    }
  }

  lemma CloserMoves(s: State, a: Action, c: nat)
    requires Enabled(s, a) && IsCloserStep(a) && c in s.closers
    ensures c in Apply(s, a).closers
    ensures BeforeTake(s.closers[c]) && a != TakeHandles(c) ==> BeforeTake(Apply(s, a).closers[c])
    ensures a == StoreLifecycle(c) && s.closers[c].stop ==> BeforeTake(Apply(s, a).closers[c])
  {
    hide HasEntry, WokenWaiters, Occupying, ShutdownOf;
  }

  lemma HandlesFrame(s: State, a: Action)
    requires Enabled(s, a) && !a.OnTask?
    ensures Apply(s, a).handles == if a.TakeHandles? then map[] else s.handles
  {
    hide HasEntry, WokenWaiters, Occupying, Derived;
  }

  lemma StepKeepsSwept(s: State, a: Action)
    requires Inv(s) && Enabled(s, a) && Swept(s)
    ensures Swept(Apply(s, a))
  {
    hide Inv, Apply, Enabled, StepTask, CanStepTask, BeforeTake;
    if a.OnTask? {
      OnTaskKeepsSwept(s, a);
    } else {
      LifecycleFrame(s, a);
      HandlesFrame(s, a);
      if a.StoreLifecycle? {
        StoringIsEnabled(s, a);
        ClosersFrame(s, a, a.closer);
      }
      if c :| c in s.closers && BeforeTake(s.closers[c]) {
        ClosersFrame(s, a, c);
      }
    }
  }

  lemma StoringIsEnabled(s: State, a: Action)
    requires Enabled(s, a) && a.StoreLifecycle?
    ensures a.closer in s.closers
  {
  }

  lemma OnTaskKeepsSwept(s: State, a: Action)
    requires Inv(s) && Enabled(s, a) && a.OnTask? && Swept(s)
    ensures Swept(Apply(s, a))
  {
    hide Inv, StepTask, Swept;
    TaskStepKeepsSwept(s, a.task, a.step);
  }

  lemma {:induction false} SweptAlongRuns(states: seq<State>, actions: seq<Action>, n: nat)
    requires IsExecution(states, actions) && n < |states|
    ensures Swept(states[n]) && forall u :: u in states[n].tasks ==> Reached(states[n].tasks[u])
  {
    hide Inv, Apply, Enabled, Reached;
    if n > 0 {
      SweptAlongRuns(states, actions, n - 1);
      ExecutionsKeepInv(states, actions, n - 1);
      StepKeepsReached(states[n - 1], actions[n - 1]);
      StepKeepsSwept(states[n - 1], actions[n - 1]);
    }
  }

  /** A stop between storing its lifecycle and leaving its abort loop. */
  predicate IsSweeping(c: Closer) {
    c.stop && (c.pc.Stored? || c.pc.Snapped? || c.pc.Unlocked? || c.pc.Looping?)
  }

  lemma EntryCases(k: Task)
    requires TaskInv(k)
    ensures k.entry.Unregistered? ==> InAdmission(k)
    ensures Alive(k) ==> k.guard.Held?
    ensures k.entry.Unregistered? || k.entry.InMap? || k.entry.NoEntry? || exists c :: HasEntry(k, c)
  {
    if !(k.entry.Unregistered? || k.entry.InMap? || k.entry.NoEntry?) {
      assert HasEntry(k, k.entry.closer);
    }
  }

  lemma ReachedAt(s: State, t: nat)
    requires Inv(s) && Swept(s) && t in s.tasks && Reached(s.tasks[t]) && s.life.Stopping?
    requires forall c :: c in s.closers ==> !IsSweeping(s.closers[c])
    ensures Alive(s.tasks[t]) ==> s.tasks[t].aborted || s.tasks[t].job.Gone?
  {
    hide Inv, TaskInv, HasEntry, InAdmission;
    InvParts(s);
    TaskOfRun(s, t);
    EntryCases(s.tasks[t]);
    if c :| HasEntry(s.tasks[t], c) {
      assert IsLooping(s.closers, c);
    }
    assert s.handles == map[];
  }

  /** Once a stop has returned and no other stop is sweeping, every accepted future that is still alive belongs to
      a Tokio task that has been aborted or is already gone. */
  lemma StopReachesEveryFuture(states: seq<State>, actions: seq<Action>, n: nat, c: nat, t: nat)
    requires IsExecution(states, actions) && n < |states|
    requires c in states[n].closers && states[n].closers[c].stop && states[n].closers[c].pc.Reported?
    requires forall d :: d in states[n].closers ==> !IsSweeping(states[n].closers[d])
    requires t in states[n].tasks && Alive(states[n].tasks[t])
    ensures states[n].tasks[t].aborted || states[n].tasks[t].job.Gone?
  {
    hide Inv, Apply, Enabled, Reached, Swept, Exclusive, Owned, HonestReports, WaitersServed, HintsServed,
         GenerationsSeen, Counted, IsSweeping;
    ExecutionsKeepInv(states, actions, n);
    InvParts(states[n]);
    SweptAlongRuns(states, actions, n);
    ReachedAt(states[n], t);
  }
}
