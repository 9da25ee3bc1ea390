/** The greedy part of the controller: a climb along one direction, one axis
    exploiter (`exploitTiltAngle` / `exploitBaseAngle`) and the dual-axis
    coordinator (`exploitRL`), each as a function of the sensor, the start
    position and the best reading known on entry.

    A climb accepts a step exactly when the reading there is strictly above
    the best reading so far (a positive reward), and it backs out only the
    step whose reward was rejected.
 */
module HillClimb {
  import opened Tracker

  /** One greedy climb: the number of accepted steps, where it ends (after the
      back-out of the rejected step), the best reading then, and the positions
      sampled in order. */
  datatype Climb = Climb(steps: nat, at: Pos, best: Reading, probes: seq<Pos>)

  /** The `do { step; reward = calculateReward(); } while (reward > 0)` loop,
      started from `p` with best reading `best`, followed by the one back-out.
      The best reading rises exactly when at least one step was accepted. */
  function ClimbFrom(s: Sensor, p: Pos, d: Dir, best: Reading): (c: Climb)
    decreases MaxSample - best
    ensures best <= c.best
    ensures 0 < c.steps <==> best < c.best
  {
    var q := p.Move(d, 1);
    var v := s(q);
    if best < v then
      var rest := ClimbFrom(s, q, d, v);
      Climb(rest.steps + 1, rest.at, rest.best, [q] + rest.probes)
    else
      Climb(0, p, best, [q])
  }

  /** A climb, completely characterised: the i-th probe is i + 1 steps away,
      the first `steps` probes read strictly higher, one after the other, than
      the best reading on entry, and the last probe does not; the climb ends on
      the last accepted position, whose reading is the new best. */
  lemma {:induction false} ClimbFromShape(s: Sensor, p: Pos, d: Dir, best: Reading)
    decreases MaxSample - best
    ensures var c := ClimbFrom(s, p, d, best);
      |c.probes| == c.steps + 1 &&
      (forall i :: 0 <= i < |c.probes| ==> c.probes[i] == p.Move(d, i + 1)) &&
      (0 < c.steps ==> best < s(c.probes[0])) &&
      (forall i, j :: 0 <= i < j < c.steps ==> s(c.probes[i]) < s(c.probes[j])) &&
      s(c.probes[c.steps]) <= c.best &&
      c.at == p.Move(d, c.steps) &&
      (c.steps == 0 ==> c.at == p && c.best == best) &&
      (0 < c.steps ==> c.best == s(c.at))
  {
    var q := p.Move(d, 1);
    var v := s(q);
    if best < v {
      ClimbFromShape(s, q, d, v);
    }
  }

  /** What one call of an axis exploiter does, with `d` the clockwise step of
      the axis: `improved` is its return value, `net` the signed number of
      steps it leaves adopted. */
  datatype Outcome = Outcome(improved: bool, net: int, at: Pos, best: Reading, probes: seq<Pos>)

  /** `exploitTiltAngle` (d = TiltCw) and `exploitBaseAngle` (d = BaseCw).
      Climb clockwise; if the first clockwise reward is not positive, that
      step is backed out and the axis climbs counter-clockwise instead, and
      the result is false exactly when that climb made one probe (count == 1).
      The best reading never falls, and it rises exactly when the result is true. */
  function ExploitOutcome(s: Sensor, p: Pos, d: Dir, best: Reading): (o: Outcome)
    ensures best <= o.best
    ensures o.improved <==> best < o.best
  {
    var cw := ClimbFrom(s, p, d, best);
    if cw.steps > 0 then
      Outcome(true, cw.steps, cw.at, cw.best, cw.probes)
    else
      var ccw := ClimbFrom(s, p, d.Reverse(), best);
      var count := |ccw.probes|;
      ClimbFromShape(s, p, d.Reverse(), best);
      Outcome(count != 1, -(ccw.steps as int), ccw.at, ccw.best, cw.probes + ccw.probes)
  }

  /** The two branches of an exploiter call, one lemma each, so that a caller
      following the branches does not have to unfold both climbs. */
  lemma ExploitCwBranch(s: Sensor, p: Pos, d: Dir, best: Reading)
    requires best < s(p.Move(d, 1))
    ensures var cw := ClimbFrom(s, p, d, best);
      ExploitOutcome(s, p, d, best) == Outcome(true, cw.steps, cw.at, cw.best, cw.probes)
  {
  }

  lemma ExploitCcwBranch(s: Sensor, p: Pos, d: Dir, best: Reading)
    requires s(p.Move(d, 1)) <= best
    ensures var ccw := ClimbFrom(s, p, d.Reverse(), best);
      ExploitOutcome(s, p, d, best) ==
      Outcome(|ccw.probes| != 1, -(ccw.steps as int), ccw.at, ccw.best, [p.Move(d, 1)] + ccw.probes)
  {
  }

  /** The shape of one exploiter call: where the axis ends, how many probes it
      made, and when it returns false. */
  lemma ExploitOutcomeShape(s: Sensor, p: Pos, d: Dir, best: Reading)
    ensures var o := ExploitOutcome(s, p, d, best);
      // where the axis ends: `net` steps of `d` from the start
      o.at == p.Move(d, o.net) &&
      (o.improved <==> o.net != 0) &&
      // the clockwise branch is taken exactly when the first clockwise reward is positive
      (0 < o.net <==> best < s(p.Move(d, 1))) &&
      (0 < o.net ==> |o.probes| == o.net + 1) &&
      // otherwise one rejected clockwise probe, then count = 1 - net counter-clockwise probes
      (o.net <= 0 ==> |o.probes| == 2 - o.net) &&
      // false exactly when both first probes were rejected; then nothing moved
      (!o.improved <==> s(p.Move(d, 1)) <= best && s(p.Move(d, -1)) <= best) &&
      (!o.improved ==> o.probes == [p.Move(d, 1), p.Move(d, -1)] && o.at == p && o.best == best) &&
      // after a true result the best reading is the reading at the new position
      (o.improved ==> o.best == s(o.at)) &&
      // the neighbour in the direction of the last climb is no better
      (0 <= o.net ==> s(o.at.Move(d, 1)) <= o.best) &&
      (o.net <= 0 ==> s(o.at.Move(d, -1)) <= o.best)
  {
    ClimbFromShape(s, p, d, best);
    if best < s(p.Move(d, 1)) {
      ExploitCwBranch(s, p, d, best);
    } else {
      ClimbFromShape(s, p, d.Reverse(), best);
      ExploitCcwBranch(s, p, d, best);
    }
  }

  /** If the best reading is the reading at the start position, an exploiter
      call leaves it the reading at the position where the axis ends: only
      rejected steps are backed out. */
  lemma ExploitKeepsReading(s: Sensor, p: Pos, d: Dir, best: Reading)
    requires best == s(p)
    ensures var o := ExploitOutcome(s, p, d, best);
      o.best == s(o.at)
  {
    ExploitOutcomeShape(s, p, d, best);
  }

  /** The results of the two exploiter calls in one pass of `exploitRL`'s loop. */
  datatype Round = Round(tilt: bool, base: bool)

  /** One run of `exploitRL`: the rounds, the final position and best reading,
      and every position sampled. */
  datatype Cycle = Cycle(rounds: seq<Round>, at: Pos, best: Reading, probes: seq<Pos>)

  /** `exploitRL`'s return value: some exploiter call returned true. */
  predicate AnyImproved(rounds: seq<Round>): (b: bool)
    // `newAngle` starts out false
    ensures rounds == [] ==> !b
  {
    exists i :: 0 <= i < |rounds| && (rounds[i].tilt || rounds[i].base)
  }

  /** One more round makes the result true exactly when one of its two calls returned true. */
  lemma AnyImprovedAppend(rounds: seq<Round>, r: Round)
    ensures AnyImproved(rounds + [r]) <==> AnyImproved(rounds) || r.tilt || r.base
  {
    var rs := rounds + [r];
    assert rs[|rounds|] == r;
    assert forall i :: 0 <= i < |rounds| ==> rs[i] == rounds[i];
  }

  /** `exploitRL`: exploit tilt, then base, and repeat while the base exploiter
      returned true; the tilt result never decides whether to repeat. */
  function ExploitCycle(s: Sensor, p: Pos, best: Reading): (c: Cycle)
    decreases MaxSample - best
    // the best reading never falls
    ensures best <= c.best
  {
    var t := ExploitOutcome(s, p, TiltCw, best);
    var b := ExploitOutcome(s, t.at, BaseCw, t.best);
    var r := Round(t.improved, b.improved);
    if b.improved then
      var rest := ExploitCycle(s, b.at, b.best);
      Cycle([r] + rest.rounds, rest.at, rest.best, t.probes + b.probes + rest.probes)
    else
      Cycle([r], b.at, b.best, t.probes + b.probes)
  }

  /** The body of `exploitRL`'s loop runs at least once, and the loop stops
      exactly at the first false result of the base exploiter. */
  lemma {:induction false} ExploitCycleRounds(s: Sensor, p: Pos, best: Reading)
    decreases MaxSample - best
    ensures var c := ExploitCycle(s, p, best);
      |c.rounds| >= 1 &&
      (forall i :: 0 <= i < |c.rounds| - 1 ==> c.rounds[i].base) &&
      !c.rounds[|c.rounds| - 1].base
  {
    var t := ExploitOutcome(s, p, TiltCw, best);
    var b := ExploitOutcome(s, t.at, BaseCw, t.best);
    if b.improved {
      ExploitCycleRounds(s, b.at, b.best);
    }
  }

  /** `exploitRL` returns true exactly when the best reading rose, and then
      the best reading is the one at the final position. */
  lemma {:induction false} ExploitCycleImproved(s: Sensor, p: Pos, best: Reading)
    decreases MaxSample - best
    ensures var c := ExploitCycle(s, p, best);
      (AnyImproved(c.rounds) <==> best < c.best) &&
      (AnyImproved(c.rounds) ==> c.best == s(c.at))
  {
    var t := ExploitOutcome(s, p, TiltCw, best);
    var b := ExploitOutcome(s, t.at, BaseCw, t.best);
    var r := Round(t.improved, b.improved);
    var c := ExploitCycle(s, p, best);
    ExploitOutcomeShape(s, p, TiltCw, best);
    ExploitOutcomeShape(s, t.at, BaseCw, t.best);
    if b.improved {
      ExploitCycleImproved(s, b.at, b.best);
      assert c.rounds[0] == r;
    } else {
      assert c.rounds == [r];
      assert AnyImproved(c.rounds) <==> r.tilt || r.base by {
        assert c.rounds[0] == r;
      }
    }
  }

  /** A false result from `exploitRL` means one round in which the four first
      probes (tilt clockwise and counter-clockwise, then base clockwise and
      counter-clockwise) were all rejected, and nothing moved. */
  lemma ExploitCycleStalled(s: Sensor, p: Pos, best: Reading)
    ensures var c := ExploitCycle(s, p, best);
      !AnyImproved(c.rounds) ==>
        c.rounds == [Round(false, false)] && c.at == p && c.best == best &&
        c.probes == [p.Move(TiltCw, 1), p.Move(TiltCw, -1), p.Move(BaseCw, 1), p.Move(BaseCw, -1)] &&
        forall q :: q in c.probes ==> s(q) <= best
  {
    var t := ExploitOutcome(s, p, TiltCw, best);
    var b := ExploitOutcome(s, t.at, BaseCw, t.best);
    var c := ExploitCycle(s, p, best);
    ExploitOutcomeShape(s, p, TiltCw, best);
    ExploitOutcomeShape(s, t.at, BaseCw, t.best);
    if !AnyImproved(c.rounds) {
      assert c.rounds[0] == Round(t.improved, b.improved);
    }
  }

  /** When `exploitRL` returns, neither base neighbour of the final position
      reads higher than the best reading. */
  lemma {:induction false} ExploitCycleBaseSettled(s: Sensor, p: Pos, best: Reading)
    decreases MaxSample - best
    ensures var c := ExploitCycle(s, p, best);
      s(c.at.Move(BaseCw, 1)) <= c.best && s(c.at.Move(BaseCw, -1)) <= c.best
  {
    var t := ExploitOutcome(s, p, TiltCw, best);
    var b := ExploitOutcome(s, t.at, BaseCw, t.best);
    ExploitOutcomeShape(s, t.at, BaseCw, t.best);
    if b.improved {
      ExploitCycleBaseSettled(s, b.at, b.best);
    }
  }
}
