/** The top-level simulator object of server/Simulator.cc: the clocks it keeps
    (simulation time, pause time, start time), the per-tick gate that decides
    whether physics advances (run, pause, single step), and the quit flag that
    ends the main loop.

    The run/pause/step flags and the iteration counter belong to a process-wide
    singleton in the source; here they are the fields of a `Global` object that
    the simulator is handed. Times are exact `real`s, not IEEE doubles. */
module SimulatorCore {

  /** The shared user-intent flags and iteration counter. */
  class Global {
    var userPause: bool
    var userStep: bool
    var userStepInc: bool
    var iterations: nat

    constructor (userPause: bool, userStep: bool, userStepInc: bool, iterations: nat)
      ensures this.userPause == userPause && this.userStep == userStep
      ensures this.userStepInc == userStepInc && this.iterations == iterations
    {
      this.userPause := userPause;
      this.userStep := userStep;
      this.userStepInc := userStepInc;
      this.iterations := iterations;
    }

    method IncIterations()
      modifies this`iterations
      ensures iterations == old(iterations) + 1
    {
      iterations := iterations + 1;
    }

    method SetUserStepInc(b: bool)
      modifies this`userStepInc
      ensures userStepInc == b
    {
      userStepInc := b;
    }
  }

  /** Everything one call of `Update` reads or writes, as a value. */
  datatype State = State(
    pause: bool,
    simTime: real,
    pauseTime: real,
    userPause: bool,
    userStep: bool,
    userStepInc: bool,
    iterations: nat)

  /** The gate of `Simulator::Update`: `&&` binds tighter than `||`, as in C++.
      Read by mode: in step mode a tick advances exactly when a step is
      pending; otherwise it advances exactly when the user has not paused. */
  predicate Gate(userPause: bool, userStep: bool, userStepInc: bool): (r: bool)
    ensures r <==> (if userStep then userStepInc else !userPause)
  {
    (!userPause && !userStep) || (userStep && userStepInc)
  }

  predicate Advances(s: State)
  {
    Gate(s.userPause, s.userStep, s.userStepInc)
  }

  /** One call of `Update` with physics step `step`. */
  function Tick(s: State, step: real): State
  {
    if Advances(s) then
      s.(simTime := s.simTime + step, iterations := s.iterations + 1,
         pause := false, userStepInc := !s.userStepInc)
    else
      s.(simTime := s.simTime + step, pauseTime := s.pauseTime + step, pause := true)
  }

  /** `n` consecutive calls of `Update` with no change of the user flags in between. */
  function Run(s: State, step: real, n: nat): State
  {
    if n == 0 then s else Tick(Run(s, step, n - 1), step)
  }

  /** How many of those `n` calls passed the gate. */
  function AdvancingTicks(s: State, step: real, n: nat): nat
  {
    if n == 0 then 0
    else AdvancingTicks(s, step, n - 1) + (if Advances(Run(s, step, n - 1)) then 1 else 0)
  }

  /** The bookkeeping identity of a simulator that started with both clocks
      and the iteration counter at zero: every tick adds `step` to `simTime`,
      and a tick that does not advance adds it to `pauseTime` as well. */
  ghost predicate Accounted(s: State, step: real)
  {
    s.simTime == s.pauseTime + step * (s.iterations as real)
  }

  /** Every tick adds the step to the simulation time, paused or not. */
  lemma TickAddsStep(s: State, step: real)
    ensures Tick(s, step).simTime == s.simTime + step
    ensures Tick(s, step).userPause == s.userPause && Tick(s, step).userStep == s.userStep
  {
  }

  /** An advancing tick: one more iteration, not paused, the step flag
      negated, pause time unchanged. */
  lemma AdvancingTick(s: State, step: real)
    requires Advances(s)
    ensures Tick(s, step).iterations == s.iterations + 1
    ensures !Tick(s, step).pause
    ensures Tick(s, step).userStepInc == !s.userStepInc
    ensures Tick(s, step).pauseTime == s.pauseTime
  {
  }

  /** A held tick: the step goes to the pause time, the simulator reports
      paused, iterations and the step flag are untouched. */
  lemma HeldTick(s: State, step: real)
    requires !Advances(s)
    ensures Tick(s, step).pauseTime == s.pauseTime + step
    ensures Tick(s, step).pause
    ensures Tick(s, step).iterations == s.iterations
    ensures Tick(s, step).userStepInc == s.userStepInc
  {
  }

  /** A requested single step is taken once; the very next tick holds. */
  lemma SingleStep(s: State, step: real)
    requires s.userStep && s.userStepInc
    ensures Advances(s)
    ensures !Advances(Tick(s, step))
    ensures Tick(Tick(s, step), step).iterations == s.iterations + 1
  {
  }

  /** Any tick keeps the accounting identity, whatever the user flags are, so
      the identity survives flag changes made between ticks. */
  lemma TickKeepsAccounts(s: State, step: real)
    requires Accounted(s, step)
    ensures Accounted(Tick(s, step), step)
  {
  }

  /** Over `n` ticks the simulation time grows by exactly `n` steps. */
  lemma {:induction false} RunAddsSteps(s: State, step: real, n: nat)
    ensures Run(s, step, n).simTime == s.simTime + (n as real) * step
  {
    if n > 0 {
      RunAddsSteps(s, step, n - 1);
      NextMultiple((n - 1) as real, step);
    }
  }

  /** The iteration counter grows by one per advancing tick. */
  lemma {:induction false} RunCountsIterations(s: State, step: real, n: nat)
    ensures Run(s, step, n).iterations == s.iterations + AdvancingTicks(s, step, n)
    ensures AdvancingTicks(s, step, n) <= n
  {
    if n > 0 {
      RunCountsIterations(s, step, n - 1);
    }
  }

  /** The part of the simulation time not spent paused grows by one step per
      advancing tick. */
  lemma {:induction false} RunAccounting(s: State, step: real, n: nat)
    ensures Run(s, step, n).simTime - Run(s, step, n).pauseTime
         == s.simTime - s.pauseTime + step * (AdvancingTicks(s, step, n) as real)
  {
    if n > 0 {
      RunAccounting(s, step, n - 1);
      var prev := Run(s, step, n - 1);
      var k := AdvancingTicks(s, step, n - 1);
      if Advances(prev) {
        NextMultiple(k as real, step);
        assert AdvancingTicks(s, step, n) as real == k as real + 1.0;
      }
    }
  }

  /** Distributivity over a successor, kept apart from the lemmas above. */
  lemma NextMultiple(a: real, step: real)
    ensures (a + 1.0) * step == a * step + step
    ensures step * (a + 1.0) == step * a + step
  {
  }

  /** With a non-negative step neither clock ever goes back. */
  lemma {:induction false} RunMonotone(s: State, step: real, n: nat)
    requires step >= 0.0
    ensures Run(s, step, n).simTime >= s.simTime
    ensures Run(s, step, n).pauseTime >= s.pauseTime
  {
    if n > 0 {
      RunMonotone(s, step, n - 1);
    }
  }

  /** Running (neither paused nor stepping): every tick advances, the pause
      time stays put, and the step flag flips on every tick. */
  lemma {:induction false} RunningAdvancesEveryTick(s: State, step: real, n: nat)
    requires !s.userPause && !s.userStep
    ensures AdvancingTicks(s, step, n) == n
    ensures Run(s, step, n).pauseTime == s.pauseTime
    ensures Run(s, step, n).userStepInc == (s.userStepInc != (n % 2 == 1))
    ensures n > 0 ==> !Run(s, step, n).pause
  {
    if n > 0 {
      RunningAdvancesEveryTick(s, step, n - 1);
    }
  }

  /** Paused (and not stepping): no tick advances and every step goes to the
      pause time. */
  lemma {:induction false} PausedNeverAdvances(s: State, step: real, n: nat)
    requires s.userPause && !s.userStep
    ensures AdvancingTicks(s, step, n) == 0
    ensures Run(s, step, n).iterations == s.iterations
    ensures Run(s, step, n).pauseTime == s.pauseTime + (n as real) * step
    ensures Run(s, step, n).userStepInc == s.userStepInc
    ensures n > 0 ==> Run(s, step, n).pause
  {
    if n > 0 {
      PausedNeverAdvances(s, step, n - 1);
      NextMultiple((n - 1) as real, step);
      assert (n as real) == ((n - 1) as real) + 1.0;
    }
  }

  /** Step mode held for `n >= 1` ticks: exactly one tick advances if a step
      was pending, none otherwise. */
  lemma {:induction false} SteppingAdvancesAtMostOnce(s: State, step: real, n: nat)
    requires s.userStep && n >= 1
    ensures AdvancingTicks(s, step, n) == (if s.userStepInc then 1 else 0)
    ensures !Run(s, step, n).userStepInc
  {
    if n > 1 {
      SteppingAdvancesAtMostOnce(s, step, n - 1);
    }
  }

  /** The state of a freshly constructed simulator, assuming the global
      iteration counter is still 0 (the constructor does not touch it; the
      `Global` flags are whatever the caller set). */
  function Initial(userPause: bool, userStep: bool, userStepInc: bool): State
  {
    State(false, 0.0, 0.0, userPause, userStep, userStepInc, 0)
  }

  /** Paused from start with a 1 ms step: a thousand ticks put exactly one
      second on the pause clock, and, unlike a frozen clock, one second on
      the simulation clock too. */
  lemma PausedThousandMilliseconds(s: State, step: real, n: nat)
    requires s == Initial(true, false, s.userStepInc) && step == 0.001 && n == 1000
    ensures Run(s, step, n).pauseTime == 1.0
    ensures Run(s, step, n).simTime == 1.0
    ensures Run(s, step, n).iterations == 0
  {
    PausedNeverAdvances(s, step, n);
    RunAddsSteps(s, step, n);
  }

  /** Starting from the initial clocks, the simulation time is the pause
      time plus one step per advancing tick. */
  lemma {:induction false} FromStartAccounted(userPause: bool, userStep: bool, userStepInc: bool, step: real, n: nat)
    ensures Accounted(Run(Initial(userPause, userStep, userStepInc), step, n), step)
  {
    RunAccounting(Initial(userPause, userStep, userStepInc), step, n);
    RunCountsIterations(Initial(userPause, userStep, userStepInc), step, n);
  }

  /** Index of the first `true` in `q`, or `|q|` when there is none. */
  function FirstQuit(q: seq<bool>): (k: nat)
    ensures k <= |q|
    ensures k < |q| <==> true in q
    ensures k < |q| ==> q[k] && true !in q[..k]
  {
    if q == [] then 0
    else if q[0] then 0
    else
      assert q[1..][..FirstQuit(q[1..])] == q[1..FirstQuit(q[1..]) + 1];
      1 + FirstQuit(q[1..])
  }

  class Simulator {
    var pause: bool
    var pauseTime: real
    var startTime: real
    var simTime: real
    var userQuit: bool

    /** The clocks and flags together with the shared flags of `g`. */
    function Snapshot(g: Global): State
      reads this, g
    {
      State(pause, simTime, pauseTime, g.userPause, g.userStep, g.userStepInc, g.iterations)
    }

    constructor ()
      ensures !pause && !userQuit
      ensures pauseTime == 0.0 && startTime == 0.0 && simTime == 0.0
    {
      pause := false;
      pauseTime := 0.0;
      startTime := 0.0;
      simTime := 0.0;
      userQuit := false;
    }

    /** A freshly constructed simulator, paired with a global counter that is
        still 0, is in the state `Initial`. */
    static method NewIsInitial(g: Global) returns (sim: Simulator)
      requires g.iterations == 0
      ensures sim.Snapshot(g) == Initial(g.userPause, g.userStep, g.userStepInc)
      ensures !sim.userQuit && sim.startTime == 0.0
    {
      sim := new Simulator();
    }

    /** One tick of time accounting; `step` is the physics engine's step time. */
    method Update(g: Global, step: real)
      modifies this, g
      ensures Snapshot(g) == Tick(old(Snapshot(g)), step)
      ensures simTime == old(simTime) + step
      ensures old(Gate(g.userPause, g.userStep, g.userStepInc)) ==>
                g.iterations == old(g.iterations) + 1 && !pause &&
                g.userStepInc == !old(g.userStepInc) && pauseTime == old(pauseTime)
      ensures !old(Gate(g.userPause, g.userStep, g.userStepInc)) ==>
                g.iterations == old(g.iterations) && pause &&
                g.userStepInc == old(g.userStepInc) && pauseTime == old(pauseTime) + step
      ensures userQuit == old(userQuit) && startTime == old(startTime)
    {
      simTime := simTime + step;

      if (!g.userPause && !g.userStep) || (g.userStep && g.userStepInc) {
        g.IncIterations();
        pause := false;
        g.SetUserStepInc(!g.userStepInc);
      } else {
        pauseTime := pauseTime + step;
        pause := true;
      }
    }

    /** The main loop, `while (!userQuit)`. Each iteration runs `Update`, then
        the world, renderer and GUI. `quitRequests[i]` says whether
        `SetUserQuit` is called, by anyone, while iteration `i` runs the world,
        renderer and GUI. The user's pause and step flags are not changed
        during the loop. The script is finite, so the loop also stops when it
        runs out. */
    method MainLoop(g: Global, step: real, quitRequests: seq<bool>) returns (ticks: nat)
      modifies this, g
      ensures old(userQuit) ==> ticks == 0
      ensures !old(userQuit) ==>
                ticks == if true in quitRequests then FirstQuit(quitRequests) + 1 else |quitRequests|
      ensures userQuit <==> old(userQuit) || true in quitRequests
      ensures Snapshot(g) == Run(old(Snapshot(g)), step, ticks)
      ensures startTime == old(startTime)
    {
      ticks := 0;
      while !userQuit && ticks < |quitRequests|
        invariant ticks <= |quitRequests|
        invariant old(userQuit) ==> userQuit && ticks == 0
        invariant !old(userQuit) ==> ticks <= FirstQuit(quitRequests) + 1
        invariant !old(userQuit) ==> (userQuit <==> true in quitRequests[..ticks])
        invariant Snapshot(g) == Run(old(Snapshot(g)), step, ticks)
        invariant startTime == old(startTime)
        decreases |quitRequests| - ticks
      {
        Update(g, step);
        if quitRequests[ticks] {
          SetUserQuit();
        }
        assert quitRequests[..ticks + 1] == quitRequests[..ticks] + [quitRequests[ticks]];
        ticks := ticks + 1;
      }
      if !old(userQuit) && true in quitRequests {
        assert quitRequests[..FirstQuit(quitRequests) + 1]
            == quitRequests[..FirstQuit(quitRequests)] + [true];
      }
      if !old(userQuit) && !userQuit {
        assert quitRequests[..ticks] == quitRequests;
      }
    }

    method IsPaused() returns (r: bool)
      ensures r == pause
    {
      r := pause;
    }

    method GetSimTime() returns (t: real)
      ensures t == simTime
    {
      t := simTime;
    }

    method GetPauseTime() returns (t: real)
      ensures t == pauseTime
    {
      t := pauseTime;
    }

    method GetStartTime() returns (t: real)
      ensures t == startTime
    {
      t := startTime;
    }

    /** Asks the main loop to stop before its next iteration. */
    method SetUserQuit()
      modifies this`userQuit
      ensures userQuit
    {
      userQuit := true;
    }
  }
}
