/**
 * The engine arithmetic the game code relies on, on real numbers:
 * Mathf.Clamp, Mathf.Max, Mathf.Min, Mathf.FloorToInt, the clamping
 * done by Image.fillAmount, and C#'s remainder operator on floats,
 * which truncates toward zero (unlike Dafny's Euclidean %).
 */
module UnityMath {

  /** Mathf.Clamp: the lower bound is tested first. */
  function Clamp(x: real, lo: real, hi: real): (r: real)
    requires lo <= hi
    ensures lo <= r <= hi
    ensures lo <= x <= hi ==> r == x
  {
    if x < lo then lo else if x > hi then hi else x
  }

  /** The value an Image keeps when its fillAmount is assigned x. */
  function Clamp01(x: real): (r: real)
    ensures 0.0 <= r <= 1.0
  {
    Clamp(x, 0.0, 1.0)
  }

  /** Mathf.Max(a, b). */
  function MaxReal(a: real, b: real): (r: real)
    ensures r >= a && r >= b && (r == a || r == b)
  {
    if a > b then a else b
  }

  /** Mathf.Min(a, b). */
  function MinReal(a: real, b: real): (r: real)
    ensures r <= a && r <= b && (r == a || r == b)
  {
    if a < b then a else b
  }

  /** Truncation toward zero, as a float-to-int cast in C# does. */
  function Trunc(x: real): (n: int)
    ensures x >= 0.0 ==> n as real <= x < n as real + 1.0
    ensures x < 0.0 ==> n as real - 1.0 < x <= n as real
  {
    if x >= 0.0 then x.Floor else -((-x).Floor)
  }

  /** C#'s x % y on floats: the remainder has the sign of x. */
  function FloatRem(x: real, y: real): real
    requires y != 0.0
  {
    x - y * (Trunc(x / y) as real)
  }

  /** For a non-negative x and positive y the C# remainder lies in [0, y) and differs from x by a multiple of y. */
  lemma FloatRemNonNegative(x: real, y: real)
    requires x >= 0.0 && y > 0.0
    ensures 0.0 <= FloatRem(x, y) < y
    ensures FloatRem(x, y) == x - y * ((x / y).Floor as real)
  {
    var d := x / y;
    var q := d.Floor;
    assert Trunc(d) == q;
    assert x == y * d;
    assert q as real <= d < q as real + 1.0;
    ScaleStrict(y, d, q as real + 1.0);
    assert y * (q as real + 1.0) == y * (q as real) + y;
    assert y * d < y * (q as real) + y;
    assert x - y * (q as real) < y;
    ScaleLe(y, q as real, d);
  }

  /** Multiplying by a positive factor keeps an inequality. */
  lemma ScaleLe(c: real, a: real, b: real)
    requires c > 0.0 && a <= b
    ensures c * a <= c * b
  {
    assert c * b - c * a == c * (b - a);
  }

  /** Multiplying by a positive factor keeps a strict inequality. */
  lemma ScaleStrict(c: real, a: real, b: real)
    requires c > 0.0 && a < b
    ensures c * a < c * b
  {
    assert c * b - c * a == c * (b - a);
  }

  /** For a negative x above -y the C# remainder is x itself. */
  lemma FloatRemSmallNegative(x: real, y: real)
    requires y > 0.0 && -y < x < 0.0
    ensures FloatRem(x, y) == x
  {
    DivStrict(-y, x, y);
    DivStrict(x, 0.0, y);
    assert -y / y == -1.0;
    assert Trunc(x / y) == 0;
  }

  /** Dividing by a positive divisor keeps a strict inequality. */
  lemma DivStrict(a: real, b: real, c: real)
    requires c > 0.0 && a < b
    ensures a / c < b / c
  {
    assert b / c - a / c == (b - a) / c;
  }
}
