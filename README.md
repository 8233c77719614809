# Gazebo simulator step gate and wheel-slip plugin, in Dafny

This project models two small sequential parts of the Gazebo robot simulator.

**The simulator's per-tick time accounting** (`server/Simulator.cc`, module
`SimulatorCore` in `simulator.dfy`). `Simulator::Update` adds the physics step to
the simulation time on every call. It then evaluates the gate
`(!userPause && !userStep) || (userStep && userStepInc)`. When the gate is
true, the global iteration counter goes up by one, `pause` becomes false and
`userStepInc` is negated. Otherwise the step is also added to the pause time
and `pause` becomes true. `MainLoop` repeats this `while (!userQuit)`.

The three user flags and the iteration counter live in a process-wide
singleton in the source. Here they are the fields of a `Global` object that
`Update` reads and writes. The class `SimulatorCore.Simulator` has the fields the
source updates in place. Its methods are proved against the pure functions
`Tick` (one call of `Update`) and `Run` (n calls with no flag change in
between), and the lemmas state what the source promises about those.

The model follows the code, not a cleaner run/pause/single-step design:
- `simTime` grows on paused ticks too, so after 1000 paused ticks of 1 ms both
  the pause time and the simulation time read 1 s (`PausedThousandMilliseconds`).
- `userStepInc` flips on every advancing tick, including ordinary running.
  So whether a later switch to step mode advances at once depends on the
  parity of the ticks run before it (`RunningAdvancesEveryTick`).
- With step mode held, exactly one tick advances if a step was pending, and
  none if not (`SteppingAdvancesAtMostOnce`).

**The wheel-slip plugin** (`plugins/WheelSlipPlugin.hh`, module `WheelSlip` in
`wheel_slip.dfy`). The plugin keeps an ordered list of configured wheels. Each
wheel has a link name, a lateral slip compliance and a longitudinal slip
compliance. The two setters overwrite one compliance on every wheel in place.
Each iteration, the update computes for every wheel the spin velocity (radius ×
spin rate) and the slip pair. The lateral slip (ODE's slip1) is the lateral
compliance × spin velocity. The longitudinal slip (slip2) is the longitudinal
compliance × spin velocity. These are the force-dependent slip parameters of
section 7.3.7 of the ODE user guide. The header declares only this contract; the
plugin's implementation file is not part of this model. Radius and spin rate
are inputs of `Update`, and the slip pairs are its result.

All times, compliances and velocities are exact `real`s.

## Model

| member | source | states |
|---|---|---|
| `SimulatorCore.Gate` | server/Simulator.cc:150-151 | the gate is true exactly when, in step mode, a step is pending, and otherwise exactly when the user has not paused |
| `SimulatorCore.TickAddsStep` | server/Simulator.cc:145-147 | every tick adds exactly the step to `simTime`, advancing or not, and leaves the user's pause and step flags alone |
| `SimulatorCore.AdvancingTick` | server/Simulator.cc:150-156 | on an advancing tick the iteration counter goes up by 1, `pause` becomes false, `userStepInc` is negated and `pauseTime` is unchanged |
| `SimulatorCore.HeldTick` | server/Simulator.cc:157-161 | on a held tick `pauseTime` goes up by the step, `pause` becomes true, and the iteration counter and `userStepInc` are unchanged |
| `SimulatorCore.SingleStep` | server/Simulator.cc:150-155 | with `userStep` and `userStepInc` set, one tick advances and the next one, with no flag change, does not |
| `SimulatorCore.TickKeepsAccounts` | server/Simulator.cc:143-163 | any tick, under any flags, keeps `simTime == pauseTime + step × iterations`, so the identity survives flag changes between ticks |
| `SimulatorCore.RunAddsSteps` | server/Simulator.cc:145-147 | after n ticks `simTime` has grown by exactly n × step |
| `SimulatorCore.RunCountsIterations` | server/Simulator.cc:152-153 | after n ticks the iteration counter has grown by the number of advancing ticks, which is at most n |
| `SimulatorCore.RunAccounting` | server/Simulator.cc:143-163 | after n ticks `simTime − pauseTime` has grown by step × (number of advancing ticks) |
| `SimulatorCore.RunMonotone` | server/Simulator.cc:145-161 | with a step ≥ 0, neither `simTime` nor `pauseTime` ever decreases |
| `SimulatorCore.RunningAdvancesEveryTick` | server/Simulator.cc:150-156 | neither paused nor stepping: every tick advances, `pauseTime` stays put, and `userStepInc` flips once per tick |
| `SimulatorCore.PausedNeverAdvances` | server/Simulator.cc:157-161 | paused and not stepping: no tick advances, iterations and `userStepInc` stay put, and `pauseTime` grows by n × step |
| `SimulatorCore.SteppingAdvancesAtMostOnce` | server/Simulator.cc:150-161 | in step mode held for n ≥ 1 ticks, exactly one tick advances if a step was pending and none otherwise, and no step is pending afterwards |
| `SimulatorCore.PausedThousandMilliseconds` | server/Simulator.cc:145-161 | paused from a fresh start with a 1 ms step, 1000 ticks give `pauseTime == 1` and `simTime == 1` and no iterations |
| `SimulatorCore.FromStartAccounted` | server/Simulator.cc:47-60 | from the constructor's zero clocks and a zero counter, `simTime == pauseTime + step × iterations` after any number of ticks |
| `SimulatorCore.Global.constructor` | server/Simulator.cc:150-151 | the shared pause, step and step-pending flags and the iteration counter start with the values given, since they are set outside the files modelled |
| `SimulatorCore.Global.IncIterations` | server/Simulator.cc:153 | the iteration counter goes up by exactly 1, and `iterations` is the only field it may change |
| `SimulatorCore.Global.SetUserStepInc` | server/Simulator.cc:155 | the step-pending flag becomes `b`, and `userStepInc` is the only field it may change |
| `SimulatorCore.Simulator.constructor` | server/Simulator.cc:47-60 | a new simulator is not paused, has not been asked to quit, and has pause, start and simulation time 0 |
| `SimulatorCore.Simulator.NewIsInitial` | server/Simulator.cc:47-60 | a freshly constructed simulator, with a global iteration counter still at 0, is in the state `Initial`: not paused, all clocks 0, not quitting |
| `SimulatorCore.Simulator.Update` | server/Simulator.cc:143-163 | the new clocks, `pause`, iteration counter and `userStepInc` are those of one `Tick`, field by field for each side of the gate; the quit flag and start time are unchanged |
| `SimulatorCore.Simulator.MainLoop` | server/Simulator.cc:165-174 | the loop stops exactly after the first iteration during which `SetUserQuit` is called, by anyone (at once if quit was already set), and the state is that many `Tick`s on from the start |
| `SimulatorCore.Simulator.IsPaused` | server/Simulator.cc:181-184 | returns the stored `pause` flag and changes nothing |
| `SimulatorCore.Simulator.GetSimTime` | server/Simulator.cc:188-191 | returns the stored simulation time and changes nothing |
| `SimulatorCore.Simulator.GetPauseTime` | server/Simulator.cc:195-198 | returns the stored pause time and changes nothing |
| `SimulatorCore.Simulator.GetStartTime` | server/Simulator.cc:202-205 | returns the stored start time and changes nothing |
| `SimulatorCore.Simulator.SetUserQuit` | server/Simulator.cc:224-228 | sets `userQuit`, which makes the main loop's condition false |
| `WheelSlip.WithLateral` | plugins/WheelSlipPlugin.hh:81-83 | every wheel's lateral compliance becomes c; the longitudinal compliances, link names and the number and order of wheels are unchanged |
| `WheelSlip.WithLongitudinal` | plugins/WheelSlipPlugin.hh:85-87 | every wheel's longitudinal compliance becomes c; the lateral compliances, link names and the number and order of wheels are unchanged |
| `WheelSlip.SlipsAt` | plugins/WheelSlipPlugin.hh:30-44 | wheel i's lateral and longitudinal slips are its lateral and longitudinal compliances × (radius × spin rate) |
| `WheelSlip.SlipsDependOnlyOnInputs` | plugins/WheelSlipPlugin.hh:40-44 | the slips depend only on the current compliances, radii and spin rates, so two updates with the same inputs write the same slips |
| `WheelSlip.ZeroLateralComplianceNoLateralSlip` | plugins/WheelSlipPlugin.hh:40-49 | a wheel with lateral compliance 0 gets lateral slip 0 at any spin |
| `WheelSlip.SettersIdempotentAndCommute` | plugins/WheelSlipPlugin.hh:81-87 | setting a compliance twice equals setting it once, and the lateral and longitudinal setters commute |
| `WheelSlip.ExampleConfigSlip` | plugins/WheelSlipPlugin.hh:46-65 | with the documented four-wheel configuration, a wheel of radius 0.3 spinning at 2 rad/s gets slip (0, 0.06) |
| `WheelSlip.WheelSlipPlugin.constructor` | plugins/WheelSlipPlugin.hh:46-65 | the plugin holds exactly the configured wheels, in order |
| `WheelSlip.WheelSlipPlugin.SetSlipComplianceLateral` | plugins/WheelSlipPlugin.hh:81-83 | after the in-place loop, the wheel list is `WithLateral` of the old list |
| `WheelSlip.WheelSlipPlugin.SetSlipComplianceLongitudinal` | plugins/WheelSlipPlugin.hh:85-87 | after the in-place loop, the wheel list is `WithLongitudinal` of the old list |
| `WheelSlip.WheelSlipPlugin.Update` | plugins/WheelSlipPlugin.hh:89-91 | returns one slip pair per configured wheel, in configuration order, equal to `Slips` of the current wheels and spins |

## Left out

- `Simulator::Load`, `Save`, `LoadGui`, `SaveGui`: XML configuration parsing and writing, rendering and GUI set-up.
- `Simulator::Init`, `GetWallTime`, `GetRealTime`: they read the system clock, so `startTime` stays at its constructor value 0 in this model.
- `Fini`, the destructor and `GetUI`: resource teardown and a pointer accessor.
- The body of `MainLoop` beyond its quit condition: the world update, rendering and GUI update are external. Calls of `SetUserQuit` during the loop are a finite script.
- SimulatorCore.Simulator.MainLoop: the source loop runs until quit is requested; the model also stops when the finite script of quit requests runs out.
- SimulatorCore.Simulator.MainLoop: the user's pause and step flags stay fixed for the whole loop, whereas in the program the user can toggle them between ticks; the accounting identity across such toggles is `TickKeepsAccounts`.
- The physics step time comes from the physics engine; it is a parameter of `Update`.
- The initial values of the global user flags and the iteration counter are set outside the files modelled; `Global`'s constructor takes them as arguments.
- `WheelSlipPlugin::Load` and `GetParentModel`: SDF parsing and model-pointer handling. The constructor takes the already parsed wheel list.
- The write of the slips into ODE contact surfaces, and the fdir1 and link-origin assumptions: a foreign library. `Update` returns the slips instead.
- Resolving each wheel's link and joint in the solver: `Update` takes one radius and spin rate per configured wheel, in configuration order.
- IEEE double rounding: all arithmetic is exact `real` arithmetic.
