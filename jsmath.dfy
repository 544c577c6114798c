/**
 * The handful of JavaScript number operations the demos rely on, stated over
 * exact reals: Math.floor, Math.round, Math.max/Math.min, the remainder
 * operator `%` (which truncates toward zero) and the `| 0` conversion.
 */
module JsMath {

  /** Math.PI, written out as the decimal value of the double. */
  const PI: real := 3.141592653589793

  /** Math.floor: the greatest integer not above x. */
  function Floor(x: real): (r: int)
    ensures r as real <= x < r as real + 1.0
  {
    x.Floor
  }

  /**
   * Math.round: the integer nearest to x, with halves going toward +infinity
   * (Math.round(-2.5) == -2, Math.round(2.5) == 3).
   */
  function Round(x: real): (r: int)
    ensures r as real - 0.5 <= x < r as real + 0.5
  {
    (x + 0.5).Floor
  }

  /** Rounding an integer gives it back. */
  lemma RoundOfInteger(n: int)
    ensures Round(n as real) == n
  {
    var r := Round(n as real);
    assert r as real - 0.5 <= n as real < r as real + 0.5;
  }

  /** Rounding is determined by the half-open window around its result. */
  lemma RoundUnique(x: real, n: int)
    requires n as real - 0.5 <= x < n as real + 0.5
    ensures Round(x) == n
  {
    var r := Round(x);
    assert r as real - 0.5 <= x < r as real + 0.5;
    assert (r - n) as real < 1.0 && (n - r) as real < 1.0;
  }

  /** Truncation toward zero, as done by `%` and by conversions to int32. */
  function Trunc(x: real): (r: int)
    ensures 0.0 <= x ==> 0 <= r && r as real <= x < r as real + 1.0
    ensures x < 0.0 ==> r <= 0 && r as real - 1.0 < x <= r as real
  {
    if x >= 0.0 then x.Floor else -((-x).Floor)
  }

  /**
   * JavaScript's `x % m` for m > 0: the remainder keeps the sign of the
   * dividend, unlike Dafny's Euclidean `%`.
   */
  function JsRem(x: real, m: real): (r: real)
    requires m > 0.0
    ensures -m < r < m
    ensures 0.0 <= x ==> 0.0 <= r
    ensures x <= 0.0 ==> r <= 0.0
    ensures ((x - r) / m).Floor as real == (x - r) / m
  {
    var q := Trunc(x / m);
    ScaleBounds(x, m, q);
    x - q as real * m
  }

  /** Multiplying by a positive factor keeps a strict order. */
  lemma MulStrict(a: real, b: real, m: real)
    requires m > 0.0 && a < b
    ensures a * m < b * m
  {
    var d := b - a;
    assert d > 0.0;
    assert d * m > 0.0;
    assert b * m == a * m + d * m;
  }

  lemma MulMono(a: real, b: real, m: real)
    requires m > 0.0 && a <= b
    ensures a * m <= b * m
  {
    if a < b { MulStrict(a, b, m); }
  }

  lemma MulAtLeastOne(q: real, m: real)
    requires m > 0.0 && q >= 1.0
    ensures q * m >= m
  {
    MulMono(1.0, q, m);
  }

  lemma MulAtMostMinusOne(q: real, m: real)
    requires m > 0.0 && q <= -1.0
    ensures q * m <= -m
  {
    MulMono(q, -1.0, m);
    assert -1.0 * m == -m;
  }

  /** Scaling by m > 0 carries the truncation bounds of x / m over to x. */
  lemma ScaleBounds(x: real, m: real, q: int)
    requires m > 0.0 && q == Trunc(x / m)
    ensures 0.0 <= x ==> q as real * m <= x < q as real * m + m
    ensures x < 0.0 ==> q as real * m - m < x <= q as real * m
    ensures (x - (x - q as real * m)) / m == q as real
  {
    var y := x / m;
    assert y * m == x;
    if 0.0 <= x {
      ScaleBoundsNonNegative(x, m, y, q as real);
    } else {
      ScaleBoundsNegative(x, m, y, q as real);
    }
  }

  lemma ScaleBoundsNonNegative(x: real, m: real, y: real, qr: real)
    requires m > 0.0 && 0.0 <= x && y * m == x
    requires 0.0 <= y ==> qr <= y < qr + 1.0
    ensures qr * m <= x < qr * m + m
  {
    if y < 0.0 { MulStrict(y, 0.0, m); }
    if qr < y { MulStrict(qr, y, m); }
    MulStrict(y, qr + 1.0, m);
    assert (qr + 1.0) * m == qr * m + m;
  }

  lemma ScaleBoundsNegative(x: real, m: real, y: real, qr: real)
    requires m > 0.0 && x < 0.0 && y * m == x
    requires y < 0.0 ==> qr - 1.0 < y <= qr
    ensures qr * m - m < x <= qr * m
  {
    if 0.0 < y { MulStrict(0.0, y, m); }
    if y < qr { MulStrict(y, qr, m); }
    MulStrict(qr - 1.0, y, m);
    assert (qr - 1.0) * m == qr * m - m;
  }

  /** A dividend already strictly inside (-m, m) is left as it is. */
  lemma JsRemSmall(x: real, m: real)
    requires m > 0.0 && -m < x < m
    ensures JsRem(x, m) == x
  {
    var q := x / m;
    assert q * m == x;
    if q >= 1.0 {
      MulAtLeastOne(q, m);
      assert false;
    }
    if q <= -1.0 {
      MulAtMostMinusOne(q, m);
      assert false;
    }
    assert Trunc(q) == 0;
  }

  /** Math.max of two numbers (NaN is not modelled). */
  function Max(a: real, b: real): (r: real)
    ensures r >= a && r >= b && (r == a || r == b)
  {
    if a >= b then a else b
  }

  /** Math.min of two numbers (NaN is not modelled). */
  function Min(a: real, b: real): (r: real)
    ensures r <= a && r <= b && (r == a || r == b)
  {
    if a <= b then a else b
  }

  /** JavaScript ToInt32, as applied by `x | 0`: truncate, then wrap to 32 bits. */
  function ToInt32(x: real): (r: int)
    ensures -0x8000_0000 <= r < 0x8000_0000
    ensures -0x8000_0000 <= Trunc(x) < 0x8000_0000 ==> r == Trunc(x)
  {
    var w := Trunc(x) % 0x1_0000_0000;
    if w >= 0x8000_0000 then w - 0x1_0000_0000 else w
  }
}
