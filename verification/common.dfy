/**
 Constants, the speed command and the percentage conversions shared by every
 H-bridge driver (micropython/drivers/motion/h-bridge/HBridge_common.py).

 Python's `//` floors. Every division below has a positive divisor, where
 Dafny's Euclidean `/` agrees with flooring, so `/` is used as written.
 */
module Common {

  /** Largest argument of `PWM.duty_u16()` the drivers write: 2**16. */
  const U16: int := 65536

  /** A speed command as passed to `go`: `Stop` is Python's `None` (the STOP
      mode), `Speed(0)` is the BRAKE value. */
  datatype Command = Stop | Speed(value: int)

  const STOP: Command := Stop
  const BRAKE: Command := Speed(0)

  /** Python truthiness of a command, as in `1 if speed else 0`. */
  predicate Truthy(cmd: Command) {
    cmd.Speed? && cmd.value != 0
  }

  /** The values a caller hands to the `reverse` setter. */
  datatype PyValue = PyNone | PyBool(b: bool) | PyInt(i: int)

  /** Python's `bool(x)` on those values. */
  predicate Bool(x: PyValue) {
    match x
    case PyNone => false
    case PyBool(b) => b
    case PyInt(i) => i != 0
  }

  function Min(a: int, b: int): int { if a <= b then a else b }

  function Max(a: int, b: int): int { if a >= b then a else b }

  function Abs(x: int): (r: nat)
    ensures r == x || r == -x
  {
    if x < 0 then -x else x
  }

  /** `percentages_to_i16`: round-half-up scaling of a percentage onto the
      duty range, saturated at plus or minus U16. */
  function PercentagesToI16(percentages: int): (r: int)
    ensures -U16 <= r <= U16
  {
    Min(Max((percentages * U16 + 50) / 100, -U16), U16)
  }

  /** `i16_to_percentages` as written: the saturation bound is plus or minus
      U16, not plus or minus 100. */
  function I16ToPercentages(u16: int): (r: int)
    ensures -U16 <= r <= U16
  {
    Min(Max((u16 * 100 + U16 / 2) / U16, -U16), U16)
  }

  /** `i16_to_percentages` with the saturation it evidently intends: the
      result is always a percentage. */
  function I16ToPercentagesClamped(u16: int): (r: int)
    ensures -100 <= r <= 100
  {
    Min(Max((u16 * 100 + U16 / 2) / U16, -100), 100)
  }

  /** Full forward, full backward and zero map to the ends and middle of the
      duty range. */
  lemma PercentagesToI16Anchors()
    ensures PercentagesToI16(100) == U16
    ensures PercentagesToI16(-100) == -U16
    ensures PercentagesToI16(0) == 0
  {
  }

  /** A larger percentage never gives a smaller duty. */
  lemma PercentagesToI16Monotone(p: int, q: int)
    requires p <= q
    ensures PercentagesToI16(p) <= PercentagesToI16(q)
  {
    var a, b := p * U16 + 50, q * U16 + 50;
    assert a <= b;
    assert a / 100 <= b / 100;
  }

  /** A duty within plus or minus U16 converts to a percentage in [-100, 100]. */
  lemma I16ToPercentagesRange(u16: int)
    requires -U16 <= u16 <= U16
    ensures -100 <= (u16 * 100 + U16 / 2) / U16 <= 100
    ensures -100 <= I16ToPercentages(u16) <= 100
  {
    var n := u16 * 100 + U16 / 2;
    assert -100 * U16 <= n < 101 * U16;
    assert -100 <= n / U16 <= 100;
  }

  /** On the duty range the corrected conversion agrees with the one as
      written, so only out-of-range duties tell them apart. */
  lemma I16ToPercentagesClampedAgrees(u16: int)
    requires -U16 <= u16 <= U16
    ensures I16ToPercentagesClamped(u16) == I16ToPercentages(u16)
  {
    I16ToPercentagesRange(u16);
  }

  /** "convert percentages to i16 duty and back": every percentage survives
      the round trip exactly. */
  lemma PercentagesRoundTrip(p: int)
    requires -100 <= p <= 100
    ensures I16ToPercentages(PercentagesToI16(p)) == p
    ensures I16ToPercentagesClamped(PercentagesToI16(p)) == p
  {
    var n := p * U16 + 50;
    var u := n / 100;
    assert u * 100 <= n < u * 100 + 100;
    assert -U16 <= u <= U16;
    assert PercentagesToI16(p) == u;
    var m := u * 100 + U16 / 2;
    assert p * U16 <= m < p * U16 + U16;
    assert m / U16 == p;
  }

  /** The as-written conversion leaves the percentage range for a duty
      beyond U16: twice the maximum duty reads as 200 percent. */
  lemma I16ToPercentagesEscapesRange()
    ensures I16ToPercentages(2 * U16) == 200
    ensures I16ToPercentagesClamped(2 * U16) == 100
  {
  }
}
