/** `wait_termination_timeout`: a bounded wait that runs beside an arbitrary run of the blocking service. */
module TimedWait {
  import opened Lifecycles
  import opened BlockingModel
  import opened BlockingInvariant
  import opened BlockingTermination

  /** Nanoseconds in the longest single monitor wait. */
  const MAX_CHUNK: nat := 3600 * 1_000_000_000

  datatype Outcome = Satisfied | TimedOut | Failed

  /** How the world moves during one call of this thread: service steps, nanoseconds, a monitor error. */
  datatype Tick = Tick(steps: nat, nanos: nat, fails: bool)

  /** Nanoseconds that the ticks from i up to j take. */
  function Nanos(script: seq<Tick>, i: nat, j: nat): nat
    requires i <= j <= |script|
    decreases j
  {
    if i == j then 0 else Nanos(script, i, j - 1) + script[j - 1].nanos
  }

  lemma {:induction false} NanosAdd(script: seq<Tick>, i: nat, j: nat, k: nat)
    requires i <= j <= k <= |script|
    ensures Nanos(script, i, k) == Nanos(script, i, j) + Nanos(script, j, k)
    decreases k
  {
    if j < k {
      NanosAdd(script, i, j, k - 1);
    }
  }

  /** One timed wait: how long the caller asked for, and its clock reading before that. */
  datatype Ask = Ask(reading: nat, chunk: nat)

  /** The rest of the world: a run of the service, a clock, and a script that says how far both move at each
      call.  Every interleaving is some script.  The clock readings, the timed waits and where the last of them ended are
      kept as histories. */
  class World {
    const states: seq<State>
    const actions: seq<Action>
    const script: seq<Tick>
    var at: nat
    var played: nat
    var now: nat
    var failed: bool
    ghost var readings: seq<nat>
    ghost var asks: seq<Ask>
    ghost var waited: nat

    constructor (states: seq<State>, actions: seq<Action>, script: seq<Tick>)
      requires IsExecution(states, actions)
      ensures Valid() && this.states == states && this.script == script && at == 0 && now == 0 && !failed
      ensures readings == [] && asks == [] && waited == 0
    {
      this.states, this.actions, this.script := states, actions, script;
      at, played, now, failed := 0, 0, 0, false;
      readings, asks, waited := [], [], 0;
    }

    ghost predicate Valid()
      reads this
    {
      IsExecution(states, actions) && waited <= at < |states| && played <= |script|
    }

    /** The service as it is now. */
    function Current(): State
      requires at < |states|
      reads this
    {
      states[at]
    }

    twostate predicate Later()
      reads this
    {
      && old(at) <= at && old(now) <= now && (old(failed) ==> failed)
      && old(played) <= played && (old(at) < at ==> old(played) < played)
      && old(readings) <= readings && old(asks) <= asks
    }

    /** The clock has moved by what the world's own ticks take, and nothing was asked of it. */
    twostate predicate OnlyTicked()
      requires old(played) <= played <= |script|
      reads this
    {
      && now == old(now) + Nanos(script, old(played), played)
      && asks == old(asks) && waited == old(waited) && failed == old(failed)
    }

    /** The world moves on by one tick; an exhausted script lets it stand still. */
    method Advance() returns (tick: Tick)
      requires Valid()
      modifies this`at, this`played
      ensures Valid() && Later()
      ensures old(played) < |script| ==> old(played) < played
      ensures tick.nanos == Nanos(script, old(played), played)
    {
      tick := Tick(0, 0, false);
      if played < |script| {
        tick := script[played];
        assert Nanos(script, played, played + 1) == tick.nanos;
        played := played + 1;
      }
      at := if at + tick.steps < |states| then at + tick.steps else |states| - 1;
    }

    method IsNotRunning() returns (notRunning: bool)
      requires Valid()
      modifies this
      ensures Valid() && Later() && OnlyTicked() && readings == old(readings)
      ensures notRunning <==> !Current().life.Running?
    {
      var tick := Advance();
      now := now + tick.nanos;
      notRunning := !states[at].life.Running?;
    }

    method LoadLifecycle() returns (life: Lifecycle)
      requires Valid()
      modifies this
      ensures Valid() && Later() && OnlyTicked() && readings == old(readings)
      ensures life == Current().life
    {
      var tick := Advance();
      now := now + tick.nanos;
      life := states[at].life;
    }

    method HasNoTasks() returns (empty: bool)
      requires Valid()
      modifies this
      ensures Valid() && Later() && OnlyTicked() && readings == old(readings)
      ensures empty <==> Current().counts.IsEmpty()
    {
      var tick := Advance();
      now := now + tick.nanos;
      empty := states[at].counts.IsEmpty();
    }

    method Now() returns (time: nat)
      requires Valid()
      modifies this
      ensures Valid() && Later() && OnlyTicked() && readings == old(readings) + [time] && time == now
    {
      var tick := Advance();
      now := now + tick.nanos;
      time := now;
      readings := readings + [time];
    }

    /** The monitor's timed wait: it is ready only if its predicate held inside the monitor, and it times out only
        after the whole chunk.  It never lasts longer than the chunk and the tick of the world together. */
    method WaitUntilReady(chunk: nat) returns (outcome: Outcome)
      requires Valid() && readings != []
      modifies this
      ensures Valid() && Later() && readings == old(readings)
      ensures asks == old(asks) + [Ask(old(readings)[|old(readings)| - 1], chunk)] && waited == at
      ensures outcome == Satisfied ==> IsTerminated(Current())
      ensures outcome == TimedOut ==> old(now) + chunk <= now
      ensures now <= old(now) + chunk + Nanos(script, old(played), played)
      ensures failed <==> old(failed) || outcome == Failed
    {
      asks := asks + [Ask(readings[|readings| - 1], chunk)];
      var tick := Advance();
      waited := at;
      if tick.fails {
        now := now + tick.nanos;
        failed := true;
        outcome := Failed;
      } else if !states[at].life.Running? && states[at].counts.IsEmpty() {
        now := now + tick.nanos;
        outcome := Satisfied;
      } else {
        now := now + if tick.nanos < chunk then chunk else tick.nanos;
        outcome := TimedOut;
      }
    }
  }

  function Min(a: nat, b: nat): nat {
    if a < b then a else b
  }

  function SaturatingSub(a: nat, b: nat): nat {
    if a < b then 0 else a - b
  }

  /** Two reads at two moments of the run: the second one settles termination. */
  lemma TwoReadsSettle(w: World, i: nat)
    requires w.Valid() && i <= w.at && !w.states[i].life.Running?
    ensures IsTerminated(w.Current()) <==> w.Current().counts.IsEmpty()
  {
    hide Inv, Apply, Enabled;
    LifecycleNeverGoesBack(w.states, w.actions, i, w.at);
  }

  lemma StaysTerminated(w: World, i: nat)
    requires w.Valid() && i <= w.at && IsTerminated(w.states[i])
    ensures IsTerminated(w.Current())
  {
    hide Inv, Apply, Enabled;
    TerminationIsFinal(w.states, w.actions, i, w.at);
  }

  /** Reads the lifecycle and then, only if it is closed, the counts. */
  method CheckTerminated(w: World) returns (terminated: bool)
    requires w.Valid()
    modifies w
    ensures w.Valid() && w.Later() && w.OnlyTicked() && w.readings == old(w.readings)
    ensures terminated ==> IsTerminated(w.Current())
    ensures old(IsTerminated(w.Current())) ==> terminated
  {
    ghost var start, played := w.at, w.played;
    var notRunning := w.IsNotRunning();
    ghost var middle, between := w.at, w.played;
    if IsTerminated(w.states[start]) {
      StaysTerminated(w, start);
    }
    if notRunning {
      terminated := w.HasNoTasks();
      NanosAdd(w.script, played, between, w.played);
      TwoReadsSettle(w, middle);
      if IsTerminated(w.states[start]) {
        StaysTerminated(w, start);
      }
    } else {
      terminated := false;
    }
  }

  /** A wait asks for exactly what is left of the timeout at the clock reading before it, but for an hour at most. */
  predicate FitsIn(ask: Ask, started: nat, timeout: nat) {
    && started <= ask.reading < started + timeout
    && ask.chunk <= 3_600_000_000_000
    && (ask.reading + ask.chunk == started + timeout
        || (ask.chunk == 3_600_000_000_000 && ask.reading + ask.chunk < started + timeout))
  }

  lemma ChunkFits(time: nat, started: nat, timeout: nat)
    requires started <= time
    ensures var remaining := SaturatingSub(timeout, time - started);
            remaining > 0 ==> FitsIn(Ask(time, Min(remaining, MAX_CHUNK)), started, timeout)
  {
  }

  /** Reads the clock and waits for what is left of the timeout, if anything is. */
  method WaitForTheRest(w: World, started: nat, timeout: nat) returns (expired: bool, outcome: Outcome)
    requires w.Valid() && !w.failed && started <= w.now
    modifies w
    ensures w.Valid() && w.Later() && old(w.readings) < w.readings
    ensures w.now <=
            (if expired then old(w.now) else Most(old(w.now), started + timeout)) + Nanos(w.script, old(w.played), w.played)
    ensures expired ==> w.OnlyTicked() && started + timeout <= w.now
    ensures !expired ==> && |w.asks| == |old(w.asks)| + 1 && FitsIn(w.asks[|old(w.asks)|], started, timeout)
                         && w.waited == w.at && w.failed == (outcome == Failed)
    ensures !expired && outcome == Satisfied ==> IsTerminated(w.Current())
    ensures !expired && outcome == TimedOut ==> old(w.now) < w.now && old(w.now) < started + timeout
  {
    hide IsExecution, IsTerminated, Nanos, FitsIn;
    ghost var start := w.played;
    var time := w.Now();
    var remaining := SaturatingSub(timeout, time - started);
    expired, outcome := remaining == 0, TimedOut;
    if !expired {
      ghost var played := w.played;
      ChunkFits(time, started, timeout);
      outcome := w.WaitUntilReady(Min(remaining, MAX_CHUNK));
      NanosAdd(w.script, start, played, w.played);
    }
  }

  function Most(a: nat, b: nat): nat {
    if a < b then b else a
  }

  /** Terminates for every timeout.  True means terminated from then on; false means that the whole timeout has
      passed or that the monitor failed, and that the service was not yet terminated when the last wait ended; a
      service that is terminated at the call is always seen.  Every single wait asks for what is left of the timeout
      since the first clock reading, an hour at most, so the call lasts no longer than the timeout and the world's
      own ticks together. */
  method WaitTerminationTimeout(w: World, timeout: nat) returns (terminated: bool)
    requires w.Valid() && !w.failed
    modifies w
    ensures w.Valid() && w.Later()
    ensures terminated ==> forall j :: w.at <= j < |w.states| ==> IsTerminated(w.states[j])
    ensures !terminated ==> old(w.now) + timeout <= w.now || w.failed
    ensures old(IsTerminated(w.Current())) ==> terminated
    ensures !terminated && |old(w.asks)| < |w.asks| ==> !IsTerminated(w.states[w.waited])
    ensures |old(w.readings)| < |w.readings|
    ensures forall k :: |old(w.asks)| <= k < |w.asks| ==>
              FitsIn(w.asks[k], w.readings[|old(w.readings)|], timeout)
    ensures w.now <= old(w.now) + timeout + Nanos(w.script, old(w.played), w.played)
  {
    hide IsExecution, IsTerminated, Nanos, FitsIn;
    ghost var begin, start, past := w.at, w.played, w.now;
    var started := w.Now();
    if IsTerminated(w.states[begin]) {
      StaysTerminated(w, begin);
    }
    ghost var first := true;
    while true
      invariant w.Valid() && w.Later() && !w.failed && started <= w.now && old(w.now) <= started
      invariant first ==> (IsTerminated(w.states[begin]) ==> IsTerminated(w.Current())) && w.asks == old(w.asks)
      invariant !first ==> w.waited == w.at && !IsTerminated(w.states[begin])
      invariant |old(w.readings)| < |w.readings| && w.readings[|old(w.readings)|] == started
      invariant forall k :: |old(w.asks)| <= k < |w.asks| ==> FitsIn(w.asks[k], started, timeout)
      invariant started <= past + Nanos(w.script, start, w.played)
      invariant w.now <= past + timeout + Nanos(w.script, start, w.played)
      decreases SaturatingSub(timeout, w.now - started)
    {
      ghost var played := w.played;
      terminated := CheckTerminated(w);
      NanosAdd(w.script, start, played, w.played);
      if terminated {
        StaysTerminatedForever(w);
        return;
      }
      played := w.played;
      var expired, outcome := WaitForTheRest(w, started, timeout);
      NanosAdd(w.script, start, played, w.played);
      if expired {
        return;
      }
      match outcome {
        case Satisfied =>
          terminated := true;
          StaysTerminatedForever(w);
          return;
        case TimedOut =>
        case Failed =>
          played := w.played;
          terminated := CheckTerminated(w);
          NanosAdd(w.script, start, played, w.played);
          if terminated {
            StaysTerminatedForever(w);
          }
          return;
      }
      first := false;
    }
  }

  lemma StaysTerminatedForever(w: World)
    requires w.Valid() && IsTerminated(w.Current())
    ensures forall j :: w.at <= j < |w.states| ==> IsTerminated(w.states[j])
  {
    hide Inv, Apply, Enabled, IsTerminated;
    forall j: nat | w.at <= j < |w.states|
      ensures IsTerminated(w.states[j])
    {
      TerminationIsFinal(w.states, w.actions, w.at, j);
    }
  }
}
