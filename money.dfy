/**
  Amounts of money are modelled as exact reals (IEEE-754 rounding artefacts are not
  modelled). This module gives `round2` of src/swiftFeeCalculator.ts and what "a whole
  number of cents" means.
 */
module Money {

  /** `x` is a whole number of cents: a hundred times it is an integer. */
  predicate IsCents(x: real) {
    (x * 100.0).Floor as real == x * 100.0
  }

  /**
    `round2(n) = Math.round(n * 100) / 100`. `Math.round` rounds half-way cases
    toward +infinity, i.e. it is `floor(x + 0.5)`.
   */
  function Round2(n: real): (r: real)
    ensures IsCents(r)
    ensures n - 0.005 < r <= n + 0.005
  {
    var k := (n * 100.0 + 0.5).Floor;
    assert (k as real / 100.0) * 100.0 == k as real;
    k as real / 100.0
  }

  /** Adding an integer does not move the fractional part. */
  lemma FloorShift(x: real, k: int)
    ensures (x + k as real).Floor == x.Floor + k
  {
  }

  /** Rounding a whole number of cents changes nothing. */
  lemma Round2OfCents(x: real)
    requires IsCents(x)
    ensures Round2(x) == x
  {
    var c := (x * 100.0).Floor;
    FloorShift(0.5, c);
    assert x * 100.0 + 0.5 == 0.5 + c as real;
  }

  /** Whole cents are closed under addition. */
  lemma CentsAdd(x: real, y: real)
    requires IsCents(x) && IsCents(y)
    ensures IsCents(x + y)
  {
    var a, b := (x * 100.0).Floor, (y * 100.0).Floor;
    FloorShift(0.0, a + b);
    assert (x + y) * 100.0 == 0.0 + (a + b) as real;
  }

  /** Adding a whole number of cents before rounding is the same as adding it after. */
  lemma Round2AddCents(x: real, s: real)
    requires IsCents(s)
    ensures Round2(x + s) == Round2(x) + s
  {
    var c := (s * 100.0).Floor;
    FloorShift(x * 100.0 + 0.5, c);
    assert (x + s) * 100.0 + 0.5 == (x * 100.0 + 0.5) + c as real;
  }
}
