# Solar tracker controller (rl.cpp) in Dafny

This project models the decision logic of a two-axis solar tracker that
searches for the brightest orientation online. The tracker uses a tilt servo
commanded to an absolute angle and a base motor that is moved only by
fixed-length timed pulses. Its only objective signal is the raw reading of a
light sensor. The controller keeps two globals:
- `prevAngle`: the believed tilt angle;
- `previousV`: the best reading at the current search position.

One control cycle (`executeRL`) works as follows:
1. Take a fresh reading.
2. Run the greedy hill-climb `exploitRL`. It alternates the tilt exploiter and
   the base exploiter while the base exploiter improves. Each exploiter climbs
   clockwise while the reward is positive, otherwise counter-clockwise, and
   backs out the one rejected step.
3. When nothing improved, explore (`exploreRL`). This makes a composite
   probe: one base pulse plus one tilt step.
   - If the probe is better, it is kept and the hill-climb runs from there.
   - Otherwise the probe is backed out and a brute-force tilt sweep settles on
     the first strict maximum within 30 degrees.

The model has two layers.

- **Specification layer: modules `Tracker`, `HillClimb` and `Exploration`.**
  - A position is the pair (tilt angle, net number of clockwise base pulses).
  - The sensor is a deterministic function from positions to readings in
    0..1023.
  - Each procedure of the source is a function of the sensor, the start
    position and the best reading on entry. It returns:
    - where the panel ends;
    - the best reading then;
    - every position sampled, in order;
    - the return value, for the exploiters.
  - Its properties are proved as postconditions and lemmas.
- **Imperative layer: module `RlController`.**
  - The class `Controller` holds the fields `prevAngle`, `previousV` and
    `basePos`, plus a ghost trace of sampled positions.
  - Every procedure of the source becomes a method with the source's loops:
    - the `do … while (reward > 0)` climbs;
    - the `do … while (baseReturnValue)` of `exploitRL`;
    - the two `for` loops of the sweep.
  - Each method is proved to leave exactly the state that the matching
    specification function computes from the old state.
  - Loops terminate on `MaxSample - previousV`, because every repeat follows a
    strict rise of the best reading.

## Model

| member | source | states |
|---|---|---|
| RlController.Controller.constructor | rl.cpp:26-31 | initial globals: tilt 100 degrees (facing east), best reading 0; base at pulse count 0 |
| RlController.Controller.TiltCwAction | rl.cpp:111-114 | `prevAngle` rises by exactly `tiltIncrAngle` (3); the base does not move |
| RlController.Controller.TiltCcwAction | rl.cpp:117-120 | `prevAngle` falls by exactly `tiltIncrAngle`; the base does not move |
| RlController.Controller.BaseCwAction | rl.cpp:123-127 | one clockwise pulse: base count +1, `prevAngle` untouched |
| RlController.Controller.BaseCcwAction | rl.cpp:130-134 | one counter-clockwise pulse: base count -1, `prevAngle` untouched |
| RlController.Controller.BackoutTiltCwAction | rl.cpp:137-139 | the position before the call is one clockwise tilt step from the position after it |
| RlController.Controller.BackoutTiltCcwAction | rl.cpp:142-144 | exactly undoes one counter-clockwise tilt step |
| RlController.Controller.BackoutBaseCwAction | rl.cpp:147-149 | exactly undoes one clockwise base pulse |
| RlController.Controller.BackoutBaseCcwAction | rl.cpp:152-154 | exactly undoes one counter-clockwise base pulse |
| Tracker.Pos.Move | rl.cpp:111-134 | what the four step actions do to the position: a tilt step never moves the base, a base pulse never moves the tilt angle |
| Tracker.MoveCompose | rl.cpp:137-154 | steps along one axis add up; a step followed by its reverse returns to the start position |
| Tracker.CompositeProbe | rl.cpp:157-162 | the composite probe is one tilt step higher and one base pulse further clockwise |
| RlController.Controller.CompositeAction | rl.cpp:157-162 | moves the panel to the composite probe of its position |
| RlController.Controller.BackoutCompositeAction | rl.cpp:165-168 | the position before the call is the composite probe of the position after it |
| Tracker.CompositeBackout | rl.cpp:165-168 | tilt back then base back undoes the composite probe on both axes |
| RlController.Controller.ReadSensor | rl.cpp:213-214 | a reading is the sensor's value at the current base position and the commanded angle, and that position is recorded as sampled |
| RlController.Controller.CalculateReward | rl.cpp:210-222 | reward = reading - `previousV`; `previousV` becomes the reading exactly when the reward is positive, otherwise it stays; it never falls |
| RlController.Controller.Step | rl.cpp:111-134 | the four actions as one step in a given direction |
| HillClimb.ClimbFrom | rl.cpp:235-239 | a greedy climb never lowers the best reading and raises it exactly when it accepted at least one step |
| HillClimb.ClimbFromShape | rl.cpp:246-252 | the i-th probe is i+1 steps away; accepted probes read strictly higher, one after the other, than the entry best; the last probe is rejected; the climb ends on the last accepted position, whose reading is the new best |
| RlController.Controller.ClimbLoop | rl.cpp:246-250 | the do-while loop makes exactly the probes of the climb, counts them in `count`, and leaves the panel on the rejected probe with `previousV` the climb's best reading |
| HillClimb.ExploitOutcome | rl.cpp:227-259 | an exploiter call never lowers the best reading and returns true exactly when it raised it |
| HillClimb.ExploitCwBranch | rl.cpp:233-240 | a positive first clockwise reward gives the clockwise climb's result and returns true |
| HillClimb.ExploitCcwBranch | rl.cpp:241-258 | otherwise the rejected clockwise probe is followed by the counter-clockwise climb, and the result is true exactly when that loop's `count` is not 1 |
| HillClimb.ExploitOutcomeShape | rl.cpp:230-258 | the net displacement: k >= 1 steps clockwise with k+1 probes via the first branch, or count-1 steps counter-clockwise with count probes after the rejected one; false exactly when both first probes were rejected, and then position, best reading and probes are the entry ones plus those two probes; the neighbour in the last climbing direction is no better |
| HillClimb.ExploitKeepsReading | rl.cpp:235-252 | if `previousV` is the reading at the entry position, it is the reading at the final position after either exploiter, since only rejected steps are backed out |
| RlController.Controller.ExploitTiltAngle | rl.cpp:227-259 | the return value, final position, `previousV` and sampled positions are those of the tilt exploiter outcome |
| RlController.Controller.ExploitBaseAngle | rl.cpp:264-297 | the same, for the base axis |
| HillClimb.AnyImproved | rl.cpp:332-342 | `exploitRL`'s `newAngle`: some exploiter call returned true; it starts out false, before any round |
| HillClimb.AnyImprovedAppend | rl.cpp:336-342 | `newAngle` after one more round is true exactly when it was true or either call of that round returned true |
| HillClimb.ExploitCycle | rl.cpp:330-348 | `exploitRL` never lowers the best reading |
| HillClimb.ExploitCycleRounds | rl.cpp:335-343 | the loop body runs at least once and repeats exactly while the base exploiter returns true; the tilt result never gates it |
| HillClimb.ExploitCycleImproved | rl.cpp:330-348 | returns true exactly when the best reading rose, and then the best reading is the reading at the final position |
| HillClimb.ExploitCycleStalled | rl.cpp:335-347 | a false result means one round whose four first probes (tilt clockwise and counter-clockwise, base clockwise and counter-clockwise) all read no more than the best reading, and nothing moved |
| HillClimb.ExploitCycleBaseSettled | rl.cpp:339-343 | on return neither base neighbour of the final position reads higher than the best reading |
| RlController.Controller.ExploitRL | rl.cpp:330-348 | the return value, final position, `previousV` and sampled positions are those of the exploitation cycle |
| Exploration.SweepFrom | rl.cpp:180-181 | the angles one sweep `for` loop samples from offset `da` on (`curAngle + da`, or `curAngle - da` for the loop at rl.cpp:191-192): it samples at least once exactly while `da <= 30`, first at that offset, on the unchanged base |
| Exploration.SweepProbes | rl.cpp:180-199 | the sweep samples the clockwise loop, then the counter-clockwise loop, both starting at the start angle |
| Exploration.SweepFromInRange | rl.cpp:180-181 | a sweep loop never moves the base and stays within 30 degrees of the start angle |
| Exploration.SweepProbesInRange | rl.cpp:180-199 | both loops start at the start position; every sweep probe keeps the base and lies within 30 degrees |
| Exploration.Keep | rl.cpp:184-187 | the running maximum only rises, and changes only to a strictly higher reading and its angle |
| Exploration.SweepMax | rl.cpp:184-198 | the running maximum over a list of probes is never below its start value |
| Exploration.SweepMaxAppend | rl.cpp:191-199 | the counter-clockwise loop carries on from the maximum the clockwise loop left: sampling two lists in a row is sampling their concatenation |
| Exploration.SweepRunIsMax | rl.cpp:180-188 | one sweep loop computes the running maximum over exactly the probes it samples |
| Exploration.SweepMaxIsFirstMax | rl.cpp:184-187 | with a strict `>` comparison the maximum is the highest reading, taken at the first probe that reads it |
| Exploration.SweepRunsAreMax | rl.cpp:173-199 | both loops together, starting from -1, compute the running maximum over all sweep probes |
| Exploration.SweepRun | rl.cpp:180-199 | one loop's `maxV`/`maxAngle` accumulation from offset `da` on: the maximum only rises, and if it ends at its start value it was never replaced |
| RlController.Controller.SweepLoop | rl.cpp:180-188 | one `for` loop (either direction) leaves the running maximum of its probes and samples exactly those probes |
| Exploration.SweepOutcome | rl.cpp:172-207 | the sweep samples its probes in order and settles where the reading is the new best reading |
| Exploration.SweepOutcomeSettles | rl.cpp:172-207 | the sweep settles on the start base position within 30 degrees, on the highest reading of all probes (never below the start reading) and at the first probe with that reading |
| RlController.Controller.SweepAction | rl.cpp:172-207 | final position, `previousV` and sampled positions are those of the sweep outcome; the old `previousV` is overwritten |
| Exploration.ExploreOutcome | rl.cpp:305-326 | the composite probe is sampled first; a kept probe only raises the best reading; a rejected one is backed out and the sweep settles within 30 degrees on the start base; the best reading falls only when it was above the start reading |
| Exploration.ExploreMayLowerBest | rl.cpp:313-320 | `exploreRL` called with a best reading above the reading at the current position can lower it, because the sweep overwrites it; inside a cycle that needs sensor noise or drift |
| Exploration.ExploreFromReading | rl.cpp:360-362 | called as `executeRL` calls it, with the best reading equal to the reading at the current position, exploration never lowers it under a deterministic sensor |
| RlController.Controller.ExploreRL | rl.cpp:305-326 | final position, `previousV` and sampled positions are those of the exploration outcome |
| Exploration.ExecuteOutcome | rl.cpp:351-366 | a cycle first samples the start position, ends with the best reading equal to the reading at the final position, never below the start reading |
| RlController.Controller.ExecuteRL | rl.cpp:351-366 | final state is the cycle outcome; `previousV` is the reading at the final position |

## Left out

- Servo writes, `delay` and all `Serial` output (`debugMsg`, `debugV`, `debugReward`, `debugExploitV`, `debugExploreV`) are left out. They are hardware and logging I/O. The local `exploitV` in `exploreRL` feeds only logging.
- `analogRead` is modelled as a deterministic sensor from positions to 0..1023, a 10-bit converter. Sensor noise and drift are not modelled. With a noisy sensor the climbs need not terminate.
- The base position is not a variable of the source. The model adds a pulse counter `basePos` that stands for the physical base position, which the sensor depends on. The ~5 degree effect of a `baseIncrDelay` pulse is reduced to ±1 on that counter.
- `setup`, `loop` and `collectData` are left out: they are Arduino entry points, scheduling and data logging.
- `convertTrackerV` and `convertBaselineV` are left out: they are floating-point interpolation used only for logging.
- RlController.Controller.SweepAction: the source leaves `maxAngle` uninitialised. The model starts it at the current angle. Every reading is at least 0 and so above the initial `maxV` of -1, which means the first probe always overwrites it.
- RlController.Controller.ClimbLoop and RlController.Controller.SweepLoop: the source writes each loop out separately:
  - four `do … while` loops, two per exploiter;
  - two `for` loops in the sweep.

  The model writes one method for each kind of loop, parameterised by direction. The `count` that only the counter-clockwise loops keep is returned by every call and ignored in the clockwise branch.
- Tilt angles are unbounded integers. The servo's physical 0..180 range is not enforced, because the source does not clamp either. On a 16-bit `int` target, `prevAngle` would wrap past 32767 after enough net clockwise steps across cycles; the model does not capture that wrap-around.
