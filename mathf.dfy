/** Unity's Mathf rounding helpers on exact reals. */
module Mathf {

  /** Mathf.FloorToInt: the greatest integer not above `r`. */
  function FloorToInt(r: real): (n: int)
    ensures n as real <= r < n as real + 1.0
  {
    r.Floor
  }

  /** Mathf.CeilToInt: the least integer not below `r`. */
  function CeilToInt(r: real): (n: int)
    ensures r <= n as real < r + 1.0
  {
    -((-r).Floor)
  }

  /** Mathf.RoundToInt rounds half-way cases to the even neighbour (Math.Round). */
  function RoundToInt(r: real): (n: int)
    ensures -0.5 <= r - n as real <= 0.5
    ensures (r - n as real == 0.5 || r - n as real == -0.5) ==> n % 2 == 0
  {
    var f := r.Floor;
    var d := r - f as real;
    if d < 0.5 then f
    else if d > 0.5 then f + 1
    else if f % 2 == 0 then f
    else f + 1
  }

  /** Mathf.Clamp on floats. */
  function Clamp(v: real, lo: real, hi: real): (c: real)
    requires lo <= hi
    ensures lo <= c <= hi
    ensures lo <= v <= hi ==> c == v
  {
    if v < lo then lo else if v > hi then hi else v
  }

  /** The integer ceiling of `a / b` for a positive divisor, as `Mathf.CeilToInt(a / (float) b)` computes it. */
  function CeilDiv(a: int, b: int): (q: int)
    requires b > 0
    ensures q * b >= a && (q - 1) * b < a
  {
    CeilDivBounds(a, b);
    CeilToInt(a as real / b as real)
  }

  lemma CeilDivBounds(a: int, b: int)
    requires b > 0
    ensures var q := CeilToInt(a as real / b as real); q * b >= a && (q - 1) * b < a
  {
    var r := a as real / b as real;
    var q := CeilToInt(r);
    DivMul(a as real, b as real);
    ScaledAtMost(a as real, b as real, r, q as real);
    ScaledBelow(a as real, b as real, r, (q - 1) as real);
    CastMul(q, b);
    CastMul(q - 1, b);
  }

  /** Any `q` at or above the quotient `r = x / y` scales back to at least `x`. */
  lemma ScaledAtMost(x: real, y: real, r: real, q: real)
    requires y > 0.0 && r * y == x && r <= q
    ensures x <= q * y
  {}

  /** Any `p` strictly below the quotient `r = x / y` scales back to less than `x`. */
  lemma ScaledBelow(x: real, y: real, r: real, p: real)
    requires y > 0.0 && r * y == x && p < r
    ensures p * y < x
  {}

  lemma DivMul(x: real, y: real)
    requires y > 0.0
    ensures (x / y) * y == x
  {}

  lemma CastMul(x: int, y: int)
    ensures (x * y) as real == x as real * y as real
  {}

  lemma MulMonotone(x: real, y: real, c: real)
    requires x <= y && c >= 0.0
    ensures x * c <= y * c
  {}

  lemma MulStrictMonotone(x: real, y: real, c: real)
    requires x < y && c > 0.0
    ensures x * c < y * c
  {}
}
