/**
  The few JavaScript number operators whose meaning differs from Dafny's
  operators of the same spelling. JavaScript numbers are modelled as `real`
  (no rounding) or as `int` where the program only ever forms integers.
 */
module JsMath {

  /** `Math.trunc`: round toward zero. */
  function Trunc(t: real): (q: int)
    ensures 0.0 <= t ==> 0 <= q && q as real <= t < q as real + 1.0
    ensures t < 0.0 ==> q <= 0 && q as real - 1.0 < t <= q as real
  {
    if t >= 0.0 then t.Floor else -((-t).Floor)
  }

  /**
    The `%` operator of JavaScript: the remainder of a division truncated
    toward zero, so that the result takes the sign of the dividend (Dafny's
    own `%` is Euclidean and never negative).
   */
  function JsRem(x: real, d: real): (r: real)
    requires d > 0.0
    ensures -d < r < d
    ensures 0.0 <= x ==> 0.0 <= r
    ensures x <= 0.0 ==> r <= 0.0
    ensures -d < x < d ==> r == x
    ensures IsIntegral((x - r) / d)
  {
    var q := Trunc(x / d);
    QuotientBounds(x, d, q);
    x - q as real * d
  }

  /** True when `t` has no fractional part. */
  predicate IsIntegral(t: real)
  {
    t.Floor as real == t
  }

  /** Multiplies the truncation bounds of `x / d` through by `d`. */
  lemma QuotientBounds(x: real, d: real, q: int)
    requires d > 0.0 && q == Trunc(x / d)
    ensures 0.0 <= x ==> q as real * d <= x < q as real * d + d
    ensures x < 0.0 ==> q as real * d - d < x <= q as real * d
    ensures -d < x < d ==> q == 0
    ensures (q as real * d) / d == q as real
  {
    var t := x / d;
    DivTimes(x, d);
    if 0.0 <= x {
      NonNegativeQuotient(x, t, d, q as real);
    } else {
      NegativeQuotient(x, t, d, q as real);
    }
    if -d < x < d {
      SmallQuotient(x, t, d);
    }
  }

  lemma DivTimes(x: real, d: real)
    requires d > 0.0
    ensures (x / d) * d == x
  {
  }

  lemma NonNegativeQuotient(x: real, t: real, d: real, qr: real)
    requires d > 0.0 && t * d == x && qr <= t < qr + 1.0
    ensures qr * d <= x < qr * d + d
  {
    ScaleLe(qr, t, d);
    ScaleLt(t, qr + 1.0, d);
    calc {
      qr * d;
    <=
      t * d;
    ==
      x;
    }
    calc {
      x;
    ==
      t * d;
    <
      (qr + 1.0) * d;
    ==
      qr * d + d;
    }
  }

  lemma NegativeQuotient(x: real, t: real, d: real, qr: real)
    requires d > 0.0 && t * d == x && qr - 1.0 < t <= qr
    ensures qr * d - d < x <= qr * d
  {
    ScaleLt(qr - 1.0, t, d);
    ScaleLe(t, qr, d);
    calc {
      qr * d - d;
    ==
      (qr - 1.0) * d;
    <
      t * d;
    ==
      x;
    }
    calc {
      x;
    ==
      t * d;
    <=
      qr * d;
    }
  }

  lemma SmallQuotient(x: real, t: real, d: real)
    requires d > 0.0 && t * d == x && -d < x < d
    ensures -1.0 < t < 1.0
  {
    if t >= 1.0 { ScaleLe(1.0, t, d); }
    if t <= -1.0 { ScaleLe(t, -1.0, d); }
  }

  lemma ScaleLe(a: real, b: real, d: real)
    requires a <= b && d > 0.0
    ensures a * d <= b * d
  {
  }

  lemma ScaleLt(a: real, b: real, d: real)
    requires a < b && d > 0.0
    ensures a * d < b * d
  {
  }

  /** `Math.min(Math.max(v, lo), hi)`. */
  function Clamp(v: real, lo: real, hi: real): (r: real)
    requires lo <= hi
    ensures lo <= r <= hi
    ensures lo <= v <= hi ==> r == v
    ensures v < lo ==> r == lo
    ensures hi < v ==> r == hi
  {
    var low := if v > lo then v else lo;
    if low < hi then low else hi
  }
}
