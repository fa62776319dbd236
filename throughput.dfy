/**
 The unit arithmetic of `Client.status`: the byte rate over one sampling
 interval, the choice of a unit prefix by magnitude, and the bit figure.

 Values are exact reals; the source works on Python floats and rounds the
 scaled figure to two decimals, which this module leaves out (see README).
 */
module Throughput {

  /** Seconds in one sampling interval: the argument of `wait` and the divisor of the delta. */
  const Interval: nat := 5

  /** Threshold and divisor of the `Kb` unit. */
  const KiB: nat := 1024

  /** Threshold and divisor of the `Mb` unit. */
  const MiB: nat := 1048576

  /** The unit prefix `status` selects: the strings `'b'`, `'Kb'` and `'Mb'` of the source. */
  datatype Unit = Plain | Kilo | Mega

  /** The unit string as the source spells it. */
  function UnitText(u: Unit): string
  {
    match u
    case Plain => "b"
    case Kilo => "Kb"
    case Mega => "Mb"
  }

  /** The label printed after the byte figure: the unit string followed by `yte/s`. */
  function ByteLabel(u: Unit): string
  {
    UnitText(u) + "yte/s"
  }

  /** The label printed after the bit figure: the unit string followed by `it/s`. */
  function BitLabel(u: Unit): string
  {
    UnitText(u) + "it/s"
  }

  /** Position of a unit in the order of magnitudes. */
  function Rank(u: Unit): nat
  {
    match u
    case Plain => 0
    case Kilo => 1
    case Mega => 2
  }

  /** What the chosen unit divides the byte rate by. */
  function Divisor(u: Unit): (d: nat)
    ensures d >= 1
  {
    match u
    case Plain => 1
    case Kilo => KiB
    case Mega => MiB
  }

  /** One printed sample before rounding: the scaled byte figure, the unit and the bit figure. */
  datatype Reading = Reading(bytes: real, unit: Unit, bits: real)

  /** A scaled figure lies in the range its unit is meant for. */
  predicate Normalized(x: real, u: Unit)
  {
    match u
    case Plain => x < KiB as real
    case Kilo => 1.0 <= x < KiB as real
    case Mega => 1.0 <= x
  }

  /** A reading is in normal form and its bit figure is eight times its byte figure. */
  predicate WellFormed(r: Reading)
  {
    Normalized(r.bytes, r.unit) && r.bits == 8.0 * r.bytes
  }

  /** Bytes per second over one interval in which the counter grew by `delta`. */
  function Rate(delta: int): (r: real)
    ensures r * Interval as real == delta as real
    ensures delta >= 0 <==> r >= 0.0
  {
    delta as real / Interval as real
  }

  /** The unit `status` selects for a byte rate: a rate at a threshold takes the higher unit. */
  function UnitOf(rate: real): Unit
  {
    if rate >= MiB as real then Mega
    else if rate >= KiB as real then Kilo
    else Plain
  }

  /** The scaled byte figure, its unit and the bit figure for a byte rate. */
  function Format(rate: real): (r: Reading)
    ensures WellFormed(r)
    ensures r.bytes * Divisor(r.unit) as real == rate
    ensures r.bits * Divisor(r.unit) as real == 8.0 * rate
  {
    var u := UnitOf(rate);
    var x := rate / Divisor(u) as real;
    Reading(x, u, 8.0 * x)
  }

  /** The sample `status` computes when the counter went from `prev` to `now` over one interval. */
  function Sample(prev: int, now: int): (r: Reading)
    ensures WellFormed(r)
    ensures r.bytes * (Divisor(r.unit) * Interval) as real == (now - prev) as real
    ensures prev <= now ==> r.bytes >= 0.0 && r.bits >= 0.0
  {
    Format(Rate(now - prev))
  }

  /**
   The same unit choice made on the integer delta: `delta / 5 >= t` holds
   exactly when `delta >= 5 * t`.  An independent reference for `UnitOf`.
   */
  function UnitOfDelta(delta: int): Unit
  {
    if delta >= Interval * MiB then Mega
    else if delta >= Interval * KiB then Kilo
    else Plain
  }

  /** Choosing the unit on the rate or on the integer delta gives the same unit. */
  lemma UnitOfRate(delta: int)
    ensures UnitOf(Rate(delta)) == UnitOfDelta(delta)
    ensures Sample(0, delta).unit == UnitOfDelta(delta)
  {
  }

  /**
   `Format` gives the only normal form of a rate: a figure and unit are what
   `Format` returns if and only if the figure is normalized for the unit and
   scales back to the rate.
   */
  lemma FormatUnique(rate: real, x: real, u: Unit)
    ensures (Format(rate).bytes == x && Format(rate).unit == u)
        <==> (Normalized(x, u) && x * Divisor(u) as real == rate)
  {
  }

  /** A larger rate never selects a smaller unit. */
  lemma UnitMonotone(r1: real, r2: real)
    requires r1 <= r2
    ensures Rank(UnitOf(r1)) <= Rank(UnitOf(r2))
  {
  }

  /** The figures at and next to the two thresholds, as bytes per second. */
  lemma Boundaries()
    ensures Format(1023.0) == Reading(1023.0, Plain, 8184.0)
    ensures Format(1024.0) == Reading(1.0, Kilo, 8.0)
    ensures Format(1048575.0).unit == Kilo
    ensures Format(1048576.0) == Reading(1.0, Mega, 8.0)
  {
  }

  /** The thresholds met by the counter delta over one interval: 5120 and 5242880 bytes. */
  lemma DeltaBoundaries()
    ensures Sample(0, 5119).unit == Plain
    ensures Sample(0, 5120) == Reading(1.0, Kilo, 8.0)
    ensures Sample(0, 5242879).unit == Kilo
    ensures Sample(0, 5242880) == Reading(1.0, Mega, 8.0)
  {
  }

  /** The two labels of a sample share the unit string, and different units print differently. */
  lemma LabelsDistinguishUnits(u1: Unit, u2: Unit)
    ensures ByteLabel(u1) == ByteLabel(u2) <==> u1 == u2
    ensures BitLabel(u1) == BitLabel(u2) <==> u1 == u2
    ensures ByteLabel(u1)[..|UnitText(u1)|] == BitLabel(u1)[..|UnitText(u1)|] == UnitText(u1)
  {
    if ByteLabel(u1) == ByteLabel(u2) {
      assert ByteLabel(u1)[0] == ByteLabel(u2)[0];
      assert ByteLabel(u1)[1] == ByteLabel(u2)[1];
    }
    if BitLabel(u1) == BitLabel(u2) {
      assert BitLabel(u1)[0] == BitLabel(u2)[0];
      assert BitLabel(u1)[1] == BitLabel(u2)[1];
    }
  }
}
