/** The fallback of the controller and the cycle driver: the brute-force tilt
    sweep (`sweepAction`), the exploration step (`exploreRL`) and one control
    cycle (`executeRL`), each as a function of the sensor and the start state.
 */
module Exploration {
  import opened Tracker
  import opened HillClimb

  /** Where a procedure leaves the panel, the best reading it leaves behind,
      and every position it sampled, in order. */
  datatype Settled = Settled(at: Pos, best: Reading, probes: seq<Pos>)

  /** The probes one loop of `sweepAction` samples from offset `da` on: the
      angles `p.tilt + da` (clockwise) or `p.tilt - da` (counter-clockwise)
      while `da <= sweepTiltAngleRange`, `da` growing by `sweepTiltIncrAngle`;
      the base never moves. */
  function SweepFrom(p: Pos, cw: bool, da: int): (ps: seq<Pos>)
    decreases SweepTiltAngleRange - da
    // a loop samples at least once exactly when its offset is still in range, starting at that offset
    ensures 0 < |ps| <==> da <= SweepTiltAngleRange
    ensures 0 < |ps| ==> ps[0] == Pos(if cw then p.tilt + da else p.tilt - da, p.base)
  {
    if da > SweepTiltAngleRange then []
    else [Pos(if cw then p.tilt + da else p.tilt - da, p.base)] + SweepFrom(p, cw, da + SweepTiltIncrAngle)
  }

  /** The positions `sweepAction` samples, in order: the clockwise loop, then
      the counter-clockwise loop, both from the start angle. */
  function SweepProbes(p: Pos): (ps: seq<Pos>)
    ensures |ps| > 0 && ps[0] == p
  {
    SweepFrom(p, true, 0) + SweepFrom(p, false, 0)
  }

  /** From a non-negative offset on, a loop keeps the base where it is and
      stays within 30 degrees of the start angle. */
  lemma {:induction false} SweepFromInRange(p: Pos, cw: bool, da: int)
    requires 0 <= da
    decreases SweepTiltAngleRange - da
    ensures forall q :: q in SweepFrom(p, cw, da) ==>
      q.base == p.base && p.tilt - SweepTiltAngleRange <= q.tilt <= p.tilt + SweepTiltAngleRange
  {
    if da <= SweepTiltAngleRange {
      SweepFromInRange(p, cw, da + SweepTiltIncrAngle);
    }
  }

  /** Both loops start at the start position, the base never moves, and every
      probe lies within 30 degrees of the start angle. */
  lemma SweepProbesInRange(p: Pos)
    ensures var cw := SweepFrom(p, true, 0);
      var ps := SweepProbes(p);
      |cw| < |ps| && ps[|cw|] == p &&
      forall i :: 0 <= i < |ps| ==>
        ps[i].base == p.base &&
        p.tilt - SweepTiltAngleRange <= ps[i].tilt <= p.tilt + SweepTiltAngleRange
  {
    var cw, ccw := SweepFrom(p, true, 0), SweepFrom(p, false, 0);
    SweepFromInRange(p, true, 0);
    SweepFromInRange(p, false, 0);
    var ps := SweepProbes(p);
    assert ps[|cw|] == ccw[0];
    forall i | 0 <= i < |ps|
      ensures ps[i] in cw || ps[i] in ccw
    {
      if i < |cw| {
        assert ps[i] == cw[i];
      } else {
        assert ps[i] == ccw[i - |cw|];
      }
    }
  }

  /** The running maximum of `sweepAction`: the highest reading and the tilt
      angle where it was read. */
  datatype Peak = Peak(v: int, tilt: int)

  /** The comparison in the body of both loops: the probe replaces the maximum
      only when it reads strictly higher. */
  function Keep(s: Sensor, m: Peak, q: Pos): (r: Peak)
    ensures m.v <= r.v
    ensures r == m || (m.v < r.v && r == Peak(s(q), q.tilt))
  {
    if s(q) > m.v then Peak(s(q), q.tilt) else m
  }

  /** One loop of `sweepAction` from offset `da` on, with running maximum `m`. */
  function SweepRun(s: Sensor, p: Pos, cw: bool, da: int, m: Peak): (r: Peak)
    decreases SweepTiltAngleRange - da
    // the maximum only rises, and it is replaced only by a strictly higher reading
    ensures m.v <= r.v
    ensures r.v == m.v ==> r == m
  {
    if da > SweepTiltAngleRange then m
    else
      var q := Pos(if cw then p.tilt + da else p.tilt - da, p.base);
      SweepRun(s, p, cw, da + SweepTiltIncrAngle, Keep(s, m, q))
  }

  /** The running maximum after sampling `ps` in order, starting from `m`. */
  function SweepMax(s: Sensor, ps: seq<Pos>, m: Peak): (r: Peak)
    ensures m.v <= r.v
  {
    if |ps| == 0 then m
    else Keep(s, SweepMax(s, ps[..|ps| - 1], m), ps[|ps| - 1])
  }

  /** Sampling one more probe. */
  lemma SweepMaxSnoc(s: Sensor, ps: seq<Pos>, q: Pos, m: Peak)
    ensures SweepMax(s, ps + [q], m) == Keep(s, SweepMax(s, ps, m), q)
  {
    assert (ps + [q])[..|ps|] == ps;
  }

  /** Sampling two lists in a row is sampling their concatenation: the second
      sweep loop carries on with the maximum the first one left. */
  lemma {:induction false} SweepMaxAppend(s: Sensor, a: seq<Pos>, b: seq<Pos>, m: Peak)
    ensures SweepMax(s, a + b, m) == SweepMax(s, b, SweepMax(s, a, m))
  {
    if |b| > 0 {
      var b' := b[..|b| - 1];
      var q := b[|b| - 1];
      assert b == b' + [q];
      SweepMaxAppend(s, a, b', m);
      ConcatAssoc(a, b', [q]);
      SweepMaxSnoc(s, a + b', q, m);
      SweepMaxSnoc(s, b', q, SweepMax(s, a, m));
    } else {
      assert a + b == a;
    }
  }

  /** A loop computes the running maximum over exactly the probes it samples. */
  lemma {:induction false} SweepRunIsMax(s: Sensor, p: Pos, cw: bool, da: int, m: Peak)
    decreases SweepTiltAngleRange - da
    ensures SweepRun(s, p, cw, da, m) == SweepMax(s, SweepFrom(p, cw, da), m)
  {
    if da <= SweepTiltAngleRange {
      var q := Pos(if cw then p.tilt + da else p.tilt - da, p.base);
      var rest := SweepFrom(p, cw, da + SweepTiltIncrAngle);
      assert SweepFrom(p, cw, da) == [q] + rest;
      SweepRunIsMax(s, p, cw, da + SweepTiltIncrAngle, Keep(s, m, q));
      SweepMaxAppend(s, [q], rest, m);
      SweepMaxSnoc(s, [], q, m);
      assert [] + [q] == [q];
    }
  }

  /** The running maximum is the highest reading among `ps` and the start
      value; unless it is still the start value, it is the reading and the
      angle of the first probe with that reading. */
  lemma {:induction false} SweepMaxIsFirstMax(s: Sensor, ps: seq<Pos>, m: Peak)
    ensures var r := SweepMax(s, ps, m);
      (forall j :: 0 <= j < |ps| ==> s(ps[j]) <= r.v) &&
      ((r == m && forall j :: 0 <= j < |ps| ==> s(ps[j]) <= m.v) ||
       (m.v < r.v &&
        exists i :: 0 <= i < |ps| && s(ps[i]) == r.v && ps[i].tilt == r.tilt &&
          forall j :: 0 <= j < i ==> s(ps[j]) < r.v))
  {
    if |ps| > 0 {
      var front := ps[..|ps| - 1];
      SweepMaxIsFirstMax(s, front, m);
      assert forall j :: 0 <= j < |front| ==> ps[j] == front[j];
    }
  }

  /** Both loops of `sweepAction`, starting from a maximum of -1, below every
      reading: the running maximum over all sweep probes. */
  lemma SweepRunsAreMax(s: Sensor, p: Pos)
    ensures SweepRun(s, p, false, 0, SweepRun(s, p, true, 0, Peak(-1, p.tilt))) ==
      SweepMax(s, SweepProbes(p), Peak(-1, p.tilt))
  {
    var m := Peak(-1, p.tilt);
    SweepRunIsMax(s, p, true, 0, m);
    SweepRunIsMax(s, p, false, 0, SweepRun(s, p, true, 0, m));
    SweepMaxAppend(s, SweepFrom(p, true, 0), SweepFrom(p, false, 0), m);
  }

  /** `sweepAction`: run both loops, starting from a maximum of -1 (below
      every reading), and settle on the angle of the running maximum.  The
      best reading known before is not consulted: it is overwritten whatever
      it was. */
  function SweepOutcome(s: Sensor, p: Pos): (w: Settled)
    ensures w.probes == SweepProbes(p)
    ensures w.best == s(w.at)
  {
    var ps := SweepProbes(p);
    var r := SweepRun(s, p, false, 0, SweepRun(s, p, true, 0, Peak(-1, p.tilt)));
    SweepRunsAreMax(s, p);
    SweepMaxIsFirstMax(s, ps, Peak(-1, p.tilt));
    SweepProbesInRange(p);
    assert s(ps[0]) <= r.v;
    Settled(Pos(r.tilt, p.base), r.v, ps)
  }

  /** Where the sweep settles: on the start base position, within 30 degrees
      of the start angle, on the highest reading of all probes (so never
      below the reading at the start position), and on the first probe
      with that reading. */
  lemma SweepOutcomeSettles(s: Sensor, p: Pos)
    ensures var w := SweepOutcome(s, p);
      w.at.base == p.base &&
      p.tilt - SweepTiltAngleRange <= w.at.tilt <= p.tilt + SweepTiltAngleRange &&
      (forall j :: 0 <= j < |w.probes| ==> s(w.probes[j]) <= w.best) &&
      s(p) <= w.best &&
      exists i :: 0 <= i < |w.probes| && w.probes[i] == w.at &&
        forall j :: 0 <= j < i ==> s(w.probes[j]) < w.best
  {
    var ps := SweepProbes(p);
    SweepRunsAreMax(s, p);
    SweepMaxIsFirstMax(s, ps, Peak(-1, p.tilt));
    SweepProbesInRange(p);
  }

  /** `exploreRL`: probe one clockwise base pulse plus one clockwise tilt step.
      A positive reward keeps the probe and runs `exploitRL` from there;
      otherwise the probe is backed out and the tilt sweep runs from the
      start position. */
  function ExploreOutcome(s: Sensor, p: Pos, best: Reading): (e: Settled)
    ensures |e.probes| > 0 && e.probes[0] == CompositeProbe(p)
    // on every path the best reading is the reading at the final position
    ensures e.best == s(e.at)
    // a kept probe: the best reading only rose
    ensures best < s(CompositeProbe(p)) ==> s(CompositeProbe(p)) <= e.best
    // a rejected probe: the sweep settles within 30 degrees of the start on the start base position
    ensures s(CompositeProbe(p)) <= best ==>
              e.at.base == p.base &&
              p.tilt - SweepTiltAngleRange <= e.at.tilt <= p.tilt + SweepTiltAngleRange &&
              s(p) <= e.best
    // the best reading can fall only when it was above the reading at the start position
    ensures e.best < best ==> s(p) < best
  {
    var q := CompositeProbe(p);
    var v := s(q);
    if best < v then
      var c := ExploitCycle(s, q, v);
      ExploitCycleImproved(s, q, v);
      ExploitCycleStalled(s, q, v);
      Settled(c.at, c.best, [q] + c.probes)
    else
      var w := SweepOutcome(s, p);
      SweepOutcomeSettles(s, p);
      Settled(w.at, w.best, [q] + w.probes)
  }

  /** The sweep overwrites the best reading even when it finds nothing as
      good: with a sensor that reads 0 everywhere, a best reading of 5 and a
      rejected composite probe, exploration ends with a best reading of 0.
      The best reading is then above the reading at the current position,
      which within a cycle takes a sensor whose readings drift or are noisy
      (see `ExploreFromReading`). */
  lemma ExploreMayLowerBest(p: Pos)
    ensures ExploreOutcome((q: Pos) => 0, p, 5).best == 0
  {
  }

  /** Within a cycle `exploreRL` starts with the best reading equal to the
      reading at the current position, and then, with a deterministic sensor,
      it never lowers it. */
  lemma ExploreFromReading(s: Sensor, p: Pos)
    ensures s(p) <= ExploreOutcome(s, p, s(p)).best
  {
  }

  /** `executeRL`: take a fresh reading as the best reading, run `exploitRL`,
      and explore only when it returned false. */
  function ExecuteOutcome(s: Sensor, p: Pos): (e: Settled)
    ensures |e.probes| > 0 && e.probes[0] == p
    // the cycle ends with the best reading equal to the reading at the final position
    ensures e.best == s(e.at)
    // and never below the reading where it started
    ensures s(p) <= e.best
  {
    var b := s(p);
    var c := ExploitCycle(s, p, b);
    ExploitCycleImproved(s, p, b);
    ExploitCycleStalled(s, p, b);
    if AnyImproved(c.rounds) then
      Settled(c.at, c.best, [p] + c.probes)
    else
      var x := ExploreOutcome(s, c.at, c.best);
      Settled(x.at, x.best, [p] + c.probes + x.probes)
  }
}
