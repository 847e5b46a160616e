/**
 * Conversion of a euro amount to the integer number of cents sent to and
 * compared with the provider: `intval(round($amount * 100))`. Amounts are
 * exact decimals here; the binary floating-point error of the source is not
 * modelled.
 */
module Money {

  /**
   * PHP's `round()` at precision 0: the nearest integer, with halves rounded
   * away from zero. The three postconditions determine the result uniquely.
   */
  function Round(x: real): (r: int)
    ensures r as real - 0.5 <= x <= r as real + 0.5
    ensures x - r as real == 0.5 ==> x < 0.0
    ensures r as real - x == 0.5 ==> x > 0.0
  {
    if x >= 0.0 then (x + 0.5).Floor else -((-x + 0.5).Floor)
  }

  /** An amount in euros as whole cents. */
  function Cents(amount: real): int {
    Round(amount * 100.0)
  }

  /** An amount that is an exact number of cents converts to that number. */
  lemma CentsOfWholeCents(c: int)
    ensures Cents(c as real / 100.0) == c
  {
    assert c as real / 100.0 * 100.0 == c as real;
  }

  /**
   * A positive amount below half a cent converts to 0 cents: the source's
   * `$amount <= 0` guard lets such an amount through to the provider.
   */
  lemma SubHalfCentIsZero(amount: real)
    requires 0.0 < amount < 0.005
    ensures Cents(amount) == 0
  {
    var r := Cents(amount);
    assert r as real - 0.5 <= amount * 100.0 <= r as real + 0.5;
    assert 0.0 < amount * 100.0 < 0.5;
  }

  /** The conversion never decreases when the amount grows. */
  lemma CentsMonotone(a: real, b: real)
    requires a <= b
    ensures Cents(a) <= Cents(b)
  {
  }
}
