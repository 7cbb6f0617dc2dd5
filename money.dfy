/** Money arithmetic of the billing model. Amounts are exact reals; the one
    rounding primitive is `Math.round(x * 100) / 100`, and `Math.round` rounds
    a half toward positive infinity, so the rounding below is
    `Floor(x * 100 + 1/2) / 100`. */
module Money {

  /** `x` is a whole number of paise (cents). */
  predicate IsCents(x: real)
  {
    (x * 100.0).Floor as real == x * 100.0
  }

  /** `Math.round(x * 100) / 100`. */
  function Round2(x: real): (r: real)
    ensures IsCents(r)
    ensures x - 0.005 < r <= x + 0.005
  {
    (x * 100.0 + 0.5).Floor as real / 100.0
  }

  /** Rounding leaves an amount that is already whole paise unchanged. */
  lemma Round2OfCents(x: real)
    requires IsCents(x)
    ensures Round2(x) == x
  {
    var k := (x * 100.0).Floor;
    assert (x * 100.0 + 0.5).Floor == k;
  }

  lemma Round2Idempotent(x: real)
    ensures Round2(Round2(x)) == Round2(x)
  {
    Round2OfCents(Round2(x));
  }

  lemma CentsAdd(a: real, b: real)
    requires IsCents(a) && IsCents(b)
    ensures IsCents(a + b) && IsCents(a - b)
  {
    var ka, kb := (a * 100.0).Floor, (b * 100.0).Floor;
    assert a * 100.0 == ka as real && b * 100.0 == kb as real;
    assert (a + b) * 100.0 == a * 100.0 + b * 100.0;
    assert (a - b) * 100.0 == a * 100.0 - b * 100.0;
    assert ((ka + kb) as real).Floor == ka + kb;
    assert ((ka - kb) as real).Floor == ka - kb;
  }

  lemma Round2Monotone(x: real, y: real)
    requires x <= y
    ensures Round2(x) <= Round2(y)
  {
    assert (x * 100.0 + 0.5).Floor <= (y * 100.0 + 0.5).Floor;
  }

  lemma Round2NonNegative(x: real)
    requires x >= 0.0
    ensures Round2(x) >= 0.0
  {
    Round2Monotone(0.0, x);
    Round2OfCents(0.0);
  }

  /** Halves round toward positive infinity, not away from zero. */
  lemma Round2HalfTowardPositive()
    ensures Round2(0.125) == 0.13
    ensures Round2(-0.125) == -0.12
    ensures Round2(-0.025) == -0.02
  {
    assert (0.125 * 100.0 + 0.5).Floor == 13;
    assert (-0.125 * 100.0 + 0.5).Floor == -12;
    assert (-0.025 * 100.0 + 0.5).Floor == -2;
  }
}
