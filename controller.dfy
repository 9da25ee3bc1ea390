/** The controller of `rl.cpp` as an object: its two globals `prevAngle` and
    `previousV` become fields that the methods update in place, and each
    procedure of the source becomes a method whose postcondition ties the new
    state to the specification functions of HillClimb and Exploration.
 */
module RlController {
  import opened Tracker
  import opened HillClimb
  import opened Exploration

  class Controller {
    /** The light sensor: what `analogRead(trackerInputPort)` returns once the panel has settled. */
    const sample: Sensor

    /** The believed tilt angle (`prevAngle`); the tilt servo is always commanded to it
        outside a sweep. */
    var prevAngle: int

    /** The best reading at the current search position (`previousV`). */
    var previousV: Reading

    /** Net number of clockwise base pulses: the physical base position, which the
        controller itself never stores but which the sensor sees. */
    var basePos: int

    /** Every position sampled so far, in order. */
    ghost var trace: seq<Pos>

    /** The physical position of the panel. */
    function Position(): Pos
      reads this
    {
      Pos(prevAngle, basePos)
    }

    /** The initial values of the globals: facing east at 100 degrees, best reading 0. */
    constructor (sensor: Sensor)
      ensures sample == sensor
      ensures prevAngle == InitialAngle && previousV == 0 && basePos == 0 && trace == []
    {
      sample := sensor;
      prevAngle := InitialAngle;
      previousV := 0;
      basePos := 0;
      trace := [];
    }

    /** `tiltCwAction`: one tilt step clockwise. */
    method TiltCwAction()
      modifies this`prevAngle
      ensures prevAngle == old(prevAngle) + TiltIncrAngle
      ensures Position() == old(Position()).Move(TiltCw, 1)
    {
      prevAngle := prevAngle + TiltIncrAngle;
    }

    /** `tiltCcwAction`: one tilt step counter-clockwise. */
    method TiltCcwAction()
      modifies this`prevAngle
      ensures prevAngle == old(prevAngle) - TiltIncrAngle
      ensures Position() == old(Position()).Move(TiltCw, -1)
    {
      prevAngle := prevAngle - TiltIncrAngle;
    }

    /** `baseCwAction`: one timed clockwise base pulse; the tilt angle is untouched. */
    method BaseCwAction()
      modifies this`basePos
      ensures basePos == old(basePos) + 1
      ensures Position() == old(Position()).Move(BaseCw, 1)
    {
      basePos := basePos + 1;
    }

    /** `baseCcwAction`: one timed counter-clockwise base pulse; the tilt angle is untouched. */
    method BaseCcwAction()
      modifies this`basePos
      ensures basePos == old(basePos) - 1
      ensures Position() == old(Position()).Move(BaseCw, -1)
    {
      basePos := basePos - 1;
    }

    /** `backoutTiltCwAction`: exactly undoes one `TiltCwAction`. */
    method BackoutTiltCwAction()
      modifies this`prevAngle
      ensures old(Position()) == Position().Move(TiltCw, 1)
    {
      TiltCcwAction();
    }

    /** `backoutTiltCcwAction`: exactly undoes one `TiltCcwAction`. */
    method BackoutTiltCcwAction()
      modifies this`prevAngle
      ensures old(Position()) == Position().Move(TiltCw, -1)
    {
      TiltCwAction();
    }

    /** `backoutBaseCwAction`: exactly undoes one `BaseCwAction`. */
    method BackoutBaseCwAction()
      modifies this`basePos
      ensures old(Position()) == Position().Move(BaseCw, 1)
    {
      BaseCcwAction();
    }

    /** `backoutBaseCcwAction`: exactly undoes one `BaseCcwAction`. */
    method BackoutBaseCcwAction()
      modifies this`basePos
      ensures old(Position()) == Position().Move(BaseCw, -1)
    {
      BaseCwAction();
    }

    /** `compositeAction`: one clockwise base pulse, then one clockwise tilt step. */
    method CompositeAction()
      modifies this`prevAngle, this`basePos
      ensures Position() == CompositeProbe(old(Position()))
    {
      BaseCwAction();
      TiltCwAction();
    }

    /** `backoutCompositeAction`: tilt back, then base back; exactly undoes `CompositeAction`. */
    method BackoutCompositeAction()
      modifies this`prevAngle, this`basePos
      ensures old(Position()) == CompositeProbe(Position())
    {
      TiltCcwAction();
      BaseCcwAction();
    }

    /** Command the tilt servo to `tilt`, let the panel settle and read the sensor. */
    method ReadSensor(tilt: int) returns (v: Reading)
      modifies this`trace
      ensures v == sample(Pos(tilt, basePos))
      ensures trace == old(trace) + [Pos(tilt, basePos)]
    {
      v := sample(Pos(tilt, basePos));
      trace := trace + [Pos(tilt, basePos)];
    }

    /** `calculateReward`: the reward is the new reading minus the best reading,
        and the best reading moves up to the new reading exactly when the reward
        is positive. */
    method CalculateReward() returns (reward: int)
      modifies this`previousV, this`trace
      ensures reward == sample(Position()) - old(previousV)
      ensures previousV == if 0 < reward then sample(Position()) else old(previousV)
      ensures old(previousV) <= previousV
      ensures trace == old(trace) + [Position()]
    {
      var currentV := ReadSensor(prevAngle);
      reward := currentV - previousV;
      if reward > 0 {
        previousV := currentV;
      }
    }

    /** One step in direction `d`: the action among `tiltCwAction`,
        `tiltCcwAction`, `baseCwAction` and `baseCcwAction` that moves that way. */
    method Step(d: Dir)
      modifies this`prevAngle, this`basePos
      ensures Position() == old(Position()).Move(d, 1)
    {
      match d.axis
      case Tilt => if d.cw { TiltCwAction(); } else { TiltCcwAction(); }
      case Base => if d.cw { BaseCwAction(); } else { BaseCcwAction(); }
    }

    /** The invariant of the `do … while (reward > 0)` loop: together with the
        steps taken so far (`k` accepted steps, the last accepted position
        `last`, the positions `ps` probed since the trace was `t0`), the climb
        still to come from here makes up the climb `c` in direction `d`.  After
        a rejected step the climb is complete and the panel is one step past
        `last`. */
    ghost predicate Climbing(c: Climb, d: Dir, reward: int, last: Pos, k: nat, ps: seq<Pos>, t0: seq<Pos>)
      reads this
    {
      trace == t0 + ps &&
      if 0 < reward then
        Position() == last &&
        var rest := ClimbFrom(sample, last, d, previousV);
        c == Climb(k + rest.steps, rest.at, rest.best, ps + rest.probes)
      else
        Position() == last.Move(d, 1) && c == Climb(k, last, previousV, ps)
    }

    /** The `do { step; reward = calculateReward(); count++; } while (reward > 0)`
        loop of both exploiters, in either direction: it makes the probes of the
        climb from the current position and leaves the panel on the rejected
        probe, one step past where the climb ends; `count` is the number of passes. */
    method ClimbLoop(d: Dir) returns (count: nat)
      modifies this`prevAngle, this`basePos, this`previousV, this`trace
      ensures var c := ClimbFrom(sample, old(Position()), d, old(previousV));
        Position() == c.at.Move(d, 1) && previousV == c.best && count == |c.probes| &&
        trace == old(trace) + c.probes
    {
      ghost var p0, t0 := Position(), trace;
      ghost var c := ClimbFrom(sample, p0, d, previousV);
      // first pass
      Step(d);
      var reward := CalculateReward();
      count := 1;
      ghost var last, k, ps := p0, 0, [Position()];
      if reward > 0 {
        last, k := Position(), 1;
      }
      while reward > 0
        invariant Climbing(c, d, reward, last, k, ps, t0)
        invariant count == |ps|
        decreases MaxSample - previousV, if reward > 0 then 1 else 0
      {
        Step(d);
        reward := CalculateReward();
        ConcatAssoc(t0, ps, [Position()]);
        if reward > 0 {
          ConcatAssoc(ps, [Position()], ClimbFrom(sample, Position(), d, previousV).probes);
        }
        count := count + 1;
        ps := ps + [Position()];
        if reward > 0 {
          last, k := Position(), k + 1;
        }
      }
    }

    /** `exploitTiltAngle`. */
    method ExploitTiltAngle() returns (improved: bool)
      modifies this`prevAngle, this`basePos, this`previousV, this`trace
      ensures var o := ExploitOutcome(sample, old(Position()), TiltCw, old(previousV));
        improved == o.improved && Position() == o.at && previousV == o.best &&
        trace == old(trace) + o.probes
    {
      ghost var p0, b0, t0 := Position(), previousV, trace;
      var reward := 0;

      TiltCwAction();
      reward := CalculateReward();

      if reward > 0 {
        ghost var q := Position();
        var passes := ClimbLoop(TiltCw);
        BackoutTiltCwAction();
        ConcatAssoc(t0, [q], ClimbFrom(sample, q, TiltCw, sample(q)).probes);
        ExploitCwBranch(sample, p0, TiltCw, b0);
        return true;
      } else {
        BackoutTiltCwAction();
        ghost var t1 := trace;
        var count := ClimbLoop(TiltCw.Reverse());
        BackoutTiltCcwAction();
        ExploitCcwBranch(sample, p0, TiltCw, b0);
        ConcatAssoc(t0, [p0.Move(TiltCw, 1)], ClimbFrom(sample, p0, TiltCw.Reverse(), b0).probes);
        if count == 1 {
          return false;
        } else {
          return true;
        }
      }
    }

    /** `exploitBaseAngle`: the same policy on the base axis. */
    method ExploitBaseAngle() returns (improved: bool)
      modifies this`prevAngle, this`basePos, this`previousV, this`trace
      ensures var o := ExploitOutcome(sample, old(Position()), BaseCw, old(previousV));
        improved == o.improved && Position() == o.at && previousV == o.best &&
        trace == old(trace) + o.probes
    {
      ghost var p0, b0, t0 := Position(), previousV, trace;
      var reward := 0;

      BaseCwAction();
      reward := CalculateReward();

      if reward > 0 {
        ghost var q := Position();
        var passes := ClimbLoop(BaseCw);
        BackoutBaseCwAction();
        ConcatAssoc(t0, [q], ClimbFrom(sample, q, BaseCw, sample(q)).probes);
        ExploitCwBranch(sample, p0, BaseCw, b0);
        return true;
      } else {
        // the counter-clockwise loop counts its passes
        BackoutBaseCwAction();
        var count := ClimbLoop(BaseCw.Reverse());
        BackoutBaseCcwAction();
        ExploitCcwBranch(sample, p0, BaseCw, b0);
        ConcatAssoc(t0, [p0.Move(BaseCw, 1)], ClimbFrom(sample, p0, BaseCw.Reverse(), b0).probes);
        if count == 1 {
          return false;
        } else {
          return true;
        }
      }
    }

    /** `exploitRL`: alternate the two exploiters while the base one improves. */
    method ExploitRL() returns (newAngle: bool)
      modifies this`prevAngle, this`basePos, this`previousV, this`trace
      ensures var c := ExploitCycle(sample, old(Position()), old(previousV));
        newAngle == AnyImproved(c.rounds) && Position() == c.at && previousV == c.best &&
        trace == old(trace) + c.probes
    {
      ghost var whole := ExploitCycle(sample, Position(), previousV);
      ghost var rounds: seq<Round> := [];
      ghost var ps: seq<Pos> := [];
      newAngle := false;
      // the do-while body runs at least once
      var baseReturnValue := true;
      while baseReturnValue
        invariant trace == old(trace) + ps
        invariant newAngle == AnyImproved(rounds)
        invariant baseReturnValue ==>
          var rest := ExploitCycle(sample, Position(), previousV);
          whole == Cycle(rounds + rest.rounds, rest.at, rest.best, ps + rest.probes)
        invariant !baseReturnValue ==> whole == Cycle(rounds, Position(), previousV, ps)
        decreases MaxSample - previousV, if baseReturnValue then 1 else 0
      {
        ghost var here := ExploitCycle(sample, Position(), previousV);
        ghost var t := ExploitOutcome(sample, Position(), TiltCw, previousV);
        var tiltReturnValue := ExploitTiltAngle();
        if tiltReturnValue {
          newAngle := true;
        }
        ghost var u := ExploitOutcome(sample, Position(), BaseCw, previousV);
        baseReturnValue := ExploitBaseAngle();
        if baseReturnValue {
          newAngle := true;
        }
        var round := Round(tiltReturnValue, baseReturnValue);
        AnyImprovedAppend(rounds, round);
        ConcatAssoc(ps, t.probes, u.probes);
        ConcatAssoc(old(trace), ps, t.probes);
        ConcatAssoc(old(trace), ps + t.probes, u.probes);
        if baseReturnValue {
          ghost var rest := ExploitCycle(sample, Position(), previousV);
          assert here == Cycle([round] + rest.rounds, rest.at, rest.best, t.probes + u.probes + rest.probes);
          ConcatAssoc(rounds, [round], rest.rounds);
          ConcatAssoc(ps, t.probes + u.probes, rest.probes);
          assert whole == Cycle(rounds + [round] + rest.rounds, rest.at, rest.best, ps + t.probes + u.probes + rest.probes);
        } else {
          assert here == Cycle([round], Position(), previousV, t.probes + u.probes);
          assert whole == Cycle(rounds + [round], Position(), previousV, ps + t.probes + u.probes);
        }
        rounds := rounds + [round];
        ps := ps + t.probes + u.probes;
      }
    }

    /** One of the two `for (da = 0; da <= sweepTiltAngleRange; da += sweepTiltIncrAngle)`
        loops of `sweepAction`: it samples the angles `curAngle + da` (`cw`) or
        `curAngle - da` and carries the running maximum along. */
    method SweepLoop(curAngle: int, cw: bool, maxV0: int, maxAngle0: int) returns (maxV: int, maxAngle: int)
      modifies this`trace
      ensures Peak(maxV, maxAngle) == SweepRun(sample, Pos(curAngle, basePos), cw, 0, Peak(maxV0, maxAngle0))
      ensures trace == old(trace) + SweepFrom(Pos(curAngle, basePos), cw, 0)
    {
      ghost var p := Pos(curAngle, basePos);
      maxV, maxAngle := maxV0, maxAngle0;
      var da := 0;
      while da <= SweepTiltAngleRange
        invariant trace + SweepFrom(p, cw, da) == old(trace) + SweepFrom(p, cw, 0)
        invariant SweepRun(sample, p, cw, da, Peak(maxV, maxAngle)) == SweepRun(sample, p, cw, 0, Peak(maxV0, maxAngle0))
        decreases SweepTiltAngleRange - da
      {
        var angle := if cw then curAngle + da else curAngle - da;
        ghost var t := trace;
        var curV := ReadSensor(angle);
        assert SweepFrom(p, cw, da) == [Pos(angle, basePos)] + SweepFrom(p, cw, da + SweepTiltIncrAngle);
        ConcatAssoc(t, [Pos(angle, basePos)], SweepFrom(p, cw, da + SweepTiltIncrAngle));
        assert SweepRun(sample, p, cw, da, Peak(maxV, maxAngle)) ==
          SweepRun(sample, p, cw, da + SweepTiltIncrAngle, Keep(sample, Peak(maxV, maxAngle), Pos(angle, basePos)));
        if curV > maxV {
          maxV := curV;
          maxAngle := angle;
        }
        da := da + SweepTiltIncrAngle;
      }
      assert trace + [] == trace;
    }

    /** `sweepAction`: sample tilt angles up to 30 degrees either side and settle
        on the first with the highest reading, whatever the best reading was. */
    method SweepAction()
      modifies this`prevAngle, this`previousV, this`trace
      ensures var w := SweepOutcome(sample, old(Position()));
        Position() == w.at && previousV == w.best && trace == old(trace) + w.probes
    {
      ghost var p := Position();
      var curAngle := prevAngle;
      // the first probe always replaces it, since every reading is above -1
      var maxV: int := -1;
      var maxAngle := curAngle;

      // First explore clockwise, then counter-clockwise, again from the start angle.
      maxV, maxAngle := SweepLoop(curAngle, true, maxV, maxAngle);
      maxV, maxAngle := SweepLoop(curAngle, false, maxV, maxAngle);
      ConcatAssoc(old(trace), SweepFrom(p, true, 0), SweepFrom(p, false, 0));
      assert trace == old(trace) + SweepProbes(p);

      // Last, settle on the angle of the maximum.
      ghost var w := SweepOutcome(sample, p);
      assert Peak(maxV, maxAngle) == SweepRun(sample, p, false, 0, SweepRun(sample, p, true, 0, Peak(-1, p.tilt)));
      assert w.at == Pos(maxAngle, p.base) && w.best == maxV;
      prevAngle := maxAngle;
      previousV := maxV;
    }

    /** `exploreRL`. */
    method ExploreRL()
      modifies this`prevAngle, this`basePos, this`previousV, this`trace
      ensures var e := ExploreOutcome(sample, old(Position()), old(previousV));
        Position() == e.at && previousV == e.best && trace == old(trace) + e.probes
    {
      ghost var p, t0 := Position(), trace;
      CompositeAction();
      var reward := CalculateReward();
      if reward > 0 {
        ghost var c := ExploitCycle(sample, Position(), previousV);
        var ignored := ExploitRL();
        ConcatAssoc(t0, [CompositeProbe(p)], c.probes);
      } else {
        BackoutCompositeAction();
        ghost var w := SweepOutcome(sample, p);
        SweepAction();
        ConcatAssoc(t0, [CompositeProbe(p)], w.probes);
      }
    }

    /** `executeRL`: one control cycle. */
    method ExecuteRL()
      modifies this`prevAngle, this`basePos, this`previousV, this`trace
      ensures var e := ExecuteOutcome(sample, old(Position()));
        Position() == e.at && previousV == e.best && trace == old(trace) + e.probes
      ensures previousV == sample(Position())
    {
      ghost var p := Position();
      previousV := ReadSensor(prevAngle);
      ghost var c := ExploitCycle(sample, p, previousV);
      var improved := ExploitRL();
      ConcatAssoc(old(trace), [p], c.probes);
      if !improved {
        ghost var x := ExploreOutcome(sample, Position(), previousV);
        ExploreRL();
        ConcatAssoc(old(trace), [p] + c.probes, x.probes);
      }
    }
  }
}
