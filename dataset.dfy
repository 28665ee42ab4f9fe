/**
 * One row of the replayed magnetic-field recording, and the conversion
 * of a field value into a bounded output voltage shared by both
 * controllers.
 */
module Dataset {

  /** A row: its time stamp text and the three field components in nanotesla. */
  datatype Sample = Sample(time: string, fieldX: real, fieldY: real, fieldZ: real)

  function Min(a: real, b: real): real { if a <= b then a else b }

  function Max(a: real, b: real): real { if a >= b then a else b }

  /**
   * `max(min(v, limit), -limit)`: saturates at the symmetric limit rather
   * than wrapping. With a negative limit the expression always yields
   * `-limit`.
   */
  function Clamp(v: real, limit: real): (r: real)
    ensures limit >= 0.0 ==> -limit <= r <= limit
    ensures -limit <= v <= limit ==> r == v
    ensures limit >= 0.0 && v > limit ==> r == limit
    ensures v < -limit ==> r == -limit
    ensures limit < 0.0 ==> r == -limit
  {
    Max(Min(v, limit), -limit)
  }

  /** The voltage commanded for one axis: the field scaled to volts, then clamped. */
  function AxisVoltage(field: real, ntToVolt: real, limit: real): (v: real)
    ensures limit >= 0.0 ==> -limit <= v <= limit
    ensures -limit <= field * ntToVolt <= limit ==> v == field * ntToVolt
  {
    Clamp(field * ntToVolt, limit)
  }

  /** Clamping keeps the order of its inputs. */
  lemma ClampMonotone(a: real, b: real, limit: real)
    requires a <= b
    ensures Clamp(a, limit) <= Clamp(b, limit)
  {
  }

  /** Clamping a clamped value changes nothing. */
  lemma ClampIdempotent(v: real, limit: real)
    requires limit >= 0.0
    ensures Clamp(Clamp(v, limit), limit) == Clamp(v, limit)
  {
  }

  /** 100000, 200000 and 500000 nT at 1 V per 10000 nT would be 10, 20 and 50 V; with a 10 V limit all three are 10 V. */
  lemma SaturationScenario()
    ensures AxisVoltage(100000.0, 1.0 / 10000.0, 10.0) == 10.0
    ensures AxisVoltage(200000.0, 1.0 / 10000.0, 10.0) == 10.0
    ensures AxisVoltage(500000.0, 1.0 / 10000.0, 10.0) == 10.0
  {
  }
}
