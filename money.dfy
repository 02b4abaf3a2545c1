/** Money amounts as exact decimals, and the two-decimal rounding that `toFixed(2)` applies. */
module Money {

  /** `x` is a whole number of cents. */
  predicate IsCents(x: real) {
    (x * 100.0).Floor as real == x * 100.0
  }

  /** Rounding to two decimals as Number.prototype.toFixed(2) does on an exact value:
      the nearest multiple of 0.01, ties going to the larger magnitude (for a
      non-negative value the larger candidate is chosen; a negative value is rounded
      as its absolute value and negated). */
  function Round2(x: real): (r: real)
    ensures IsCents(r)
    ensures -0.005 <= r - x <= 0.005
    ensures x >= 0.0 ==> r > x - 0.005
    ensures x <= 0.0 ==> r < x + 0.005
  {
    if x >= 0.0 then NearestCents(x) as real / 100.0
    else
      var n := NearestCents(-x);
      var c := n as real / 100.0;
      assert -x - 0.005 < c <= -x + 0.005;
      assert (-c) * 100.0 == (-n) as real;
      -c
  }

  /** The number of cents nearest to a non-negative `x`, ties upwards. */
  function NearestCents(x: real): (n: int)
    requires x >= 0.0
    ensures n >= 0
    ensures x * 100.0 - 0.5 < n as real <= x * 100.0 + 0.5
    ensures x - 0.005 < n as real / 100.0 <= x + 0.005
    ensures IsCents(n as real / 100.0)
  {
    var y := x * 100.0 + 0.5;
    var n := y.Floor;
    assert n as real / 100.0 * 100.0 == n as real;
    n
  }

  /** Rounding is symmetric around zero, so losses round like gains. */
  lemma Round2Negate(x: real)
    ensures Round2(-x) == -Round2(x)
  {
  }

  /** A whole number of cents is left as it is, which makes Round2 idempotent. */
  lemma Round2OfCents(x: real)
    requires IsCents(x)
    ensures Round2(x) == x
  {
    var k := (x * 100.0).Floor;
    if x >= 0.0 {
      assert (x * 100.0 + 0.5).Floor == k;
    } else {
      assert (-x * 100.0 + 0.5).Floor == -k;
    }
  }

  lemma Round2Idempotent(x: real)
    ensures Round2(Round2(x)) == Round2(x)
  {
    Round2OfCents(Round2(x));
  }

  /** Sums of whole cents are whole cents. */
  lemma CentsAdd(a: real, b: real)
    requires IsCents(a) && IsCents(b)
    ensures IsCents(a + b)
  {
    var m, n := (a * 100.0).Floor, (b * 100.0).Floor;
    assert (a + b) * 100.0 == (m + n) as real;
  }
}
