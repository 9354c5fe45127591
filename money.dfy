/** Rounding of money amounts to two decimal places, as Python's built-in
    `round(x, 2)` does on exact decimal values: to the nearest hundredth,
    ties to the even hundredth. */
module Money {

  function Max(a: real, b: real): (r: real)
    ensures r >= a && r >= b && (r == a || r == b)
  {
    if a >= b then a else b
  }

  /** `x` is a whole number of hundredths (cents). */
  predicate InCents(x: real) {
    (x * 100.0).Floor as real == x * 100.0
  }

  /** The number of hundredths `x` rounds to. */
  function Hundredths(x: real): (k: int)
    ensures x >= 0.0 ==> k >= 0
  {
    var scaled := x * 100.0;
    var n := scaled.Floor;
    var frac := scaled - n as real;
    if frac < 0.5 then n
    else if frac > 0.5 then n + 1
    else if n % 2 == 0 then n
    else n + 1
  }

  /** `round(x, 2)` on a real number: a whole number of cents, never more
      than half a cent away from `x`, and not negative when `x` is not. */
  function Round2(x: real): (r: real)
    ensures InCents(r)
    ensures x - 0.005 <= r <= x + 0.005
    ensures x >= 0.0 ==> r >= 0.0
  {
    var k := Hundredths(x);
    assert (k as real / 100.0) * 100.0 == k as real;
    assert (x * 100.0).Floor as real <= x * 100.0 < (x * 100.0).Floor as real + 1.0;
    k as real / 100.0
  }

  lemma Round2Zero()
    ensures Round2(0.0) == 0.0
  {
  }

  /** Rounding never makes a larger amount smaller than a smaller one. */
  lemma Round2Monotonic(x: real, y: real)
    requires x <= y
    ensures Round2(x) <= Round2(y)
  {
    var sx, sy := x * 100.0, y * 100.0;
    var nx, ny := sx.Floor, sy.Floor;
    assert sx <= sy;
    assert nx <= ny;
    assert Hundredths(x) <= Hundredths(y) by {
      if nx == ny {
        assert sx - nx as real <= sy - ny as real;
      } else {
        assert Hundredths(x) <= nx + 1 <= ny <= Hundredths(y);
      }
    }
  }

  /** An amount in whole cents is left as it is. */
  lemma Round2Exact(x: real)
    requires InCents(x)
    ensures Round2(x) == x
  {
    assert Hundredths(x) == (x * 100.0).Floor;
  }

  /** Rounding a rounded amount again changes nothing. */
  lemma Round2Idempotent(x: real)
    ensures Round2(Round2(x)) == Round2(x)
  {
    Round2Exact(Round2(x));
  }

  /** A sum of whole-cent amounts is a whole-cent amount. */
  lemma CentsSum(a: real, b: real)
    requires InCents(a) && InCents(b)
    ensures InCents(a + b)
  {
    var ka, kb := (a * 100.0).Floor, (b * 100.0).Floor;
    assert (a + b) * 100.0 == (ka + kb) as real;
  }
}
