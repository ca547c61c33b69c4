/**
 * JavaScript number operations on money amounts, over exact reals.
 *   Round2(x)      is `+x.toFixed(2)`: the nearest multiple of 0.01, ties away from zero
 *   RoundHalfUp(x) is `Math.round(x)`: the nearest integer, ties toward +infinity
 */
module Money {

  function RoundHalfUp(x: real): (n: int)
    ensures x - 0.5 < n as real <= x + 0.5
  {
    (x + 0.5).Floor
  }

  function Round2(x: real): (r: real)
    ensures x >= 0.0 ==> r >= 0.0
    ensures x <= 0.0 ==> r <= 0.0
    ensures -0.005 <= r - x <= 0.005
  {
    if x >= 0.0 then ((100.0 * x + 0.5).Floor as real) / 100.0
    else -(((-100.0 * x + 0.5).Floor as real) / 100.0)
  }

  /** An amount that is already a whole number of cents. */
  predicate IsCents(x: real)
  {
    ((100.0 * x).Floor as real) == 100.0 * x
  }

  lemma {:induction false} Round2IsCents(x: real)
    ensures IsCents(Round2(x))
  {
    if x >= 0.0 {
      var k := (100.0 * x + 0.5).Floor;
      assert Round2(x) == (k as real) / 100.0;
    } else {
      var k := (-100.0 * x + 0.5).Floor;
      assert Round2(x) == ((-k) as real) / 100.0;
    }
  }

  /** Rounding an amount that is already in cents leaves it unchanged. */
  lemma {:induction false} Round2OfCents(k: int)
    ensures Round2((k as real) / 100.0) == (k as real) / 100.0
  {
    var x := (k as real) / 100.0;
    if k >= 0 {
      assert 100.0 * x + 0.5 == k as real + 0.5;
      FloorOfHalf(k);
    } else {
      assert -100.0 * x + 0.5 == (-k) as real + 0.5;
      FloorOfHalf(-k);
    }
  }

  lemma FloorOfHalf(n: int)
    ensures (n as real + 0.5).Floor == n
  {
  }

  /** toFixed(2) applied twice is toFixed(2) applied once. */
  lemma {:induction false} Round2Idempotent(x: real)
    ensures Round2(Round2(x)) == Round2(x)
  {
    Round2IsCents(x);
    var k := (100.0 * Round2(x)).Floor;
    Round2OfCents(k);
  }
}
