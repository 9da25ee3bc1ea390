/** Constants, positions and the sensor of the two-axis solar tracker.

    The tracker has a tilt axis, commanded to an absolute angle in degrees, and
    a base axis that is only ever moved by fixed-length timed pulses.  A
    position is the pair (tilt angle, net number of clockwise base pulses).
    The light sensor is modelled as a deterministic oracle from positions to
    raw readings of a 10-bit analog-to-digital converter.
 */
module Tracker {

  /** Degrees moved by one tilt step (`tiltIncrAngle`). */
  const TiltIncrAngle: int := 3

  /** Initial tilt angle: the panel faces east (`prevAngle`). */
  const InitialAngle: int := 100

  /** Half-width of the brute-force tilt sweep, in degrees (`sweepTiltAngleRange`). */
  const SweepTiltAngleRange: int := 30

  /** Distance between two sweep probes, in degrees (`sweepTiltIncrAngle`). */
  const SweepTiltIncrAngle: int := 6

  /** Largest raw value `analogRead` can return (10-bit converter). */
  const MaxSample: int := 1023

  /** A raw sensor sample. */
  type Reading = v: int | 0 <= v <= MaxSample

  /** The two actuator axes. */
  datatype Axis = Tilt | Base

  /** A direction of motion: an axis, clockwise or counter-clockwise. */
  datatype Dir = Dir(axis: Axis, cw: bool) {

    /** The opposite direction on the same axis: what backs out a step. */
    function Reverse(): Dir {
      Dir(axis, !cw)
    }
  }

  /** Clockwise tilt (`tiltCwAction`, one step of `TiltIncrAngle` degrees). */
  const TiltCw: Dir := Dir(Tilt, true)

  /** Clockwise base (`baseCwAction`, one timed pulse). */
  const BaseCw: Dir := Dir(Base, true)

  /** A physical position: the tilt angle and the base position counted in pulses. */
  datatype Pos = Pos(tilt: int, base: int) {

    /** The position reached by `k` steps in direction `d` (`k` may be negative). */
    function Move(d: Dir, k: int): (q: Pos)
      // a tilt step leaves the base where it is, a base step leaves the tilt angle
      ensures d.axis == Tilt ==> q.base == base
      ensures d.axis == Base ==> q.tilt == tilt
    {
      var n := if d.cw then k else -k;
      match d.axis
      case Tilt => Pos(tilt + n * TiltIncrAngle, base)
      case Base => Pos(tilt, base + n)
    }
  }

  /** The probe of the composite action: one clockwise base pulse, then one clockwise tilt step. */
  function CompositeProbe(p: Pos): (q: Pos)
    ensures q.tilt == p.tilt + TiltIncrAngle && q.base == p.base + 1
  {
    p.Move(BaseCw, 1).Move(TiltCw, 1)
  }

  /** Steps along one direction add up, so a step followed by its back-out
      (the same step reversed) returns to the start. */
  lemma MoveCompose(p: Pos, d: Dir, a: int, b: int)
    ensures p.Move(d, a).Move(d, b) == p.Move(d, a + b)
    ensures p.Move(d, a).Move(d.Reverse(), a) == p
  {
  }

  /** `backoutCompositeAction` (tilt back, then base back) undoes the composite probe. */
  lemma CompositeBackout(p: Pos)
    ensures CompositeProbe(p).Move(TiltCw, -1).Move(BaseCw, -1) == p
  {
  }

  /** The sensor: what `analogRead` returns once the panel has settled at a position. */
  type Sensor = Pos -> Reading

  /** Concatenation regroups freely; stated once so that traces of probes can be compared cheaply. */
  lemma ConcatAssoc<T>(a: seq<T>, b: seq<T>, c: seq<T>)
    ensures a + (b + c) == a + b + c
  {
  }
}
