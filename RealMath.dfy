/** Exact counterparts of the JavaScript `Math.min`, `Math.max`, `Math.abs`
    and `Math.sign` on real numbers, and the `Math.max(lo, Math.min(v, hi))`
    clamp that every paddle update uses. */
module RealMath {

  function Min(a: real, b: real): (r: real)
    ensures r <= a && r <= b
    ensures r == a || r == b
  {
    if a <= b then a else b
  }

  function Max(a: real, b: real): (r: real)
    ensures r >= a && r >= b
    ensures r == a || r == b
  {
    if a >= b then a else b
  }

  function Abs(a: real): (r: real)
    ensures r >= 0.0
    ensures r == a || r == -a
  {
    if a < 0.0 then -a else a
  }

  /** `Math.sign`: -1, 0 or 1. */
  function Sign(a: real): (r: real)
    ensures a > 0.0 ==> r == 1.0
    ensures a < 0.0 ==> r == -1.0
    ensures a == 0.0 ==> r == 0.0
  {
    if a > 0.0 then 1.0 else if a < 0.0 then -1.0 else 0.0
  }

  /** `Math.max(lo, Math.min(v, hi))`. When the range is empty the lower
      bound wins, as it does in JavaScript. */
  function Clamp(v: real, lo: real, hi: real): (r: real)
    ensures lo <= hi ==> lo <= r <= hi
    ensures lo <= v <= hi ==> r == v
    ensures hi < lo ==> r == lo
    ensures v < lo ==> r == lo
    ensures lo <= hi < v ==> r == hi
  {
    Max(lo, Min(v, hi))
  }

  /** Scaling by a factor in [-1, 1] does not increase a magnitude. */
  lemma {:induction false} ScaleByUnit(k: real, c: real)
    requires k >= 0.0 && -1.0 <= c <= 1.0
    ensures Abs(k * c) <= k
  {
    assert k * (1.0 - c) >= 0.0;
    assert k * (1.0 + c) >= 0.0;
  }

  /** The speed times the cosine of the bounce angle, pointed back when the
      ball was moving forward along the axis. */
  function Turned(speed: real, cosine: real, back: bool): (r: real)
    requires speed >= 0.0 && -1.0 <= cosine <= 1.0
    ensures Abs(r) <= speed
  {
    ScaleByUnit(speed, cosine);
    speed * cosine * (if back then -1.0 else 1.0)
  }

  /** A velocity made of the turned component and the scaled sine plus a
      spin has, the spin taken off, squared length k². */
  lemma {:induction false} TurnedKeepsSpeed(k: real, c: real, s: real, back: bool, spin: real, u: real, v: real)
    requires k >= 0.0 && -1.0 <= c <= 1.0 && c * c + s * s == 1.0
    requires u == Turned(k, c, back) && v == k * s + spin
    ensures u * u + (v - spin) * (v - spin) == k * k
  {
    UnitScaled(k, c, s, if back then -1.0 else 1.0);
  }

  /** A sum of two squares whose first term is non-zero is positive. */
  lemma {:induction false} SumSquaresPositive(x: real, y: real)
    requires x != 0.0
    ensures x * x + y * y > 0.0
  {
    if x < 0.0 { assert x * x > 0.0; } else { assert x * x > 0.0; }
    if y < 0.0 { assert y * y > 0.0; } else if y > 0.0 { assert y * y > 0.0; }
  }

  lemma {:induction false} SumSquaresNonNegative(x: real, y: real)
    ensures x * x + y * y >= 0.0
  {
    if x != 0.0 { SumSquaresPositive(x, y); } else if y != 0.0 { SumSquaresPositive(y, x); }
  }

  /** A vector of length k along a unit direction (c, s), possibly mirrored
      horizontally (g = -1), still has squared length k². */
  lemma {:induction false} UnitScaled(k: real, c: real, s: real, g: real)
    requires c * c + s * s == 1.0 && (g == 1.0 || g == -1.0)
    ensures (k * c * g) * (k * c * g) + (k * s) * (k * s) == k * k
  {
    if g == 1.0 {
      assert (k * c) * (k * c) + (k * s) * (k * s) == (k * k) * (c * c + s * s);
    } else {
      assert (k * c * g) * (k * c * g) == (k * c) * (k * c);
      assert (k * c) * (k * c) + (k * s) * (k * s) == (k * k) * (c * c + s * s);
    }
  }

  /** A unit direction (c, s) scaled by k has squared length k². */
  lemma {:induction false} UnitVector(c: real, s: real, k: real)
    requires c * c + s * s == 1.0
    ensures (c * k) * (c * k) + (s * k) * (s * k) == k * k
  {
    assert (c * k) * (c * k) + (s * k) * (s * k) == (k * k) * (c * c + s * s);
  }

  /** A positive quotient of a smaller by a larger positive number lies
      strictly between 0 and 1. */
  lemma {:induction false} RatioInUnit(n: real, d: real)
    requires 0.0 < n < d
    ensures 0.0 < n / d < 1.0
  {
    assert (n / d) * d == n;
    if n / d >= 1.0 {
      assert false;
    }
    if n / d <= 0.0 {
      assert false;
    }
  }

  /** Centring a fraction of (0, 1) and scaling it by k > 0 lands strictly
      inside (-k/2, k/2). */
  lemma {:induction false} CenteredScale(rel: real, k: real)
    requires 0.0 < rel < 1.0 && k > 0.0
    ensures -k / 2.0 < (rel - 0.5) * k < k / 2.0
  {
    assert (rel - 0.5) * k == rel * k - 0.5 * k;
    assert rel * k > 0.0;
    assert (1.0 - rel) * k > 0.0;
  }

  /** A draw of [0, 1) scaled by k > 0 lies in [0, k). */
  lemma ScaleDraw(u: real, k: real, p: real)
    requires 0.0 <= u < 1.0 && k > 0.0 && p == u * k
    ensures 0.0 <= p < k
  {
    assert (1.0 - u) * k > 0.0;
  }

  /** A draw of [0, 1), centred and then scaled by k > 0, lies in [-k/2, k/2). */
  lemma CentreDraw(u: real, k: real, p: real)
    requires 0.0 <= u < 1.0 && k > 0.0 && p == (u - 0.5) * k
    ensures -k / 2.0 <= p < k / 2.0
  {
    assert p == u * k - 0.5 * k;
    assert u * k >= 0.0;
    assert (1.0 - u) * k > 0.0;
  }

  /** A negative number scaled by -k, k > 0, is positive, and conversely. */
  lemma {:induction false} FlipSign(a: real, k: real)
    requires k > 0.0
    ensures a < 0.0 ==> a * -k > 0.0
    ensures a > 0.0 ==> a * -k < 0.0
    ensures Abs(a * -k) == Abs(a) * k
  {
    if a < 0.0 {
      assert (-a) * k > 0.0;
    } else if a > 0.0 {
      assert a * k > 0.0;
    }
  }
}
