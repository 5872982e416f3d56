/** The few `Math` functions and operators of JavaScript the toy computes with,
    on exact reals. */
module JsMath {
  /** `Math.min`. */
  function Min(x: real, y: real): real
  {
    if x <= y then x else y
  }

  /** `Math.max`. */
  function Max(x: real, y: real): real
  {
    if x >= y then x else y
  }

  /** `Math.abs`. */
  function Abs(x: real): real
  {
    if x < 0.0 then -x else x
  }

  /** `Math.ceil`. */
  function Ceil(x: real): (n: int)
    ensures x <= n as real < x + 1.0
  {
    -((-x).Floor)
  }

  /** `Math.round`: the nearest integer, halves rounded up. */
  function Round(x: real): (n: int)
    ensures x - 0.5 < n as real <= x + 0.5
  {
    (x + 0.5).Floor
  }

  /** Truncation toward zero, as JavaScript's `%` divides. */
  function Trunc(x: real): (n: int)
    ensures 0.0 <= x ==> n == x.Floor
    ensures x < 0.0 ==> n == Ceil(x)
  {
    if x >= 0.0 then x.Floor else -((-x).Floor)
  }

  /** `a % b` on numbers: the remainder carries the sign of `a`, unlike
      Dafny's Euclidean `%` and Python's floored one. */
  function Rem(a: real, b: real): real
    requires b != 0.0
  {
    a - b * Trunc(a / b) as real
  }

  /** For a non-negative dividend and a positive divisor the remainder lies
      in [0, b), differs from `a` by a whole multiple of `b`, and is `a`
      itself when `a < b`. */
  lemma RemBounds(a: real, b: real)
    requires 0.0 <= a && 0.0 < b
    ensures 0.0 <= Rem(a, b) < b
    ensures a - Rem(a, b) == b * (a / b).Floor as real
    ensures a < b ==> Rem(a, b) == a
  {
    var q := (a / b).Floor as real;
    FloorBracket(a, b);
    assert Rem(a, b) == a - b * q;
    if a < b {
      BelowOneMultiple(a, b);
    }
  }

  /** `a` lies between the multiples of `b` around it. */
  lemma FloorBracket(a: real, b: real)
    requires 0.0 < b
    ensures var q := (a / b).Floor as real;
            b * q <= a < b * q + b
  {
    var x := a / b;
    var q := x.Floor as real;
    var next := q + 1.0;
    assert q <= x < next;
    assert b * x == a;
    MultiplyBelow(q, x, b);
    MultiplyBelow(x, next, b);
    assert b * next == b * q + b;
    assert b * q <= a;
    assert a < b * q + b;

  }

  lemma BelowOneMultiple(a: real, b: real)
    requires 0.0 <= a < b
    ensures (a / b).Floor == 0
  {
    MultiplyBelow(a, b, 1.0 / b);
  }

  lemma MultiplyBelow(x: real, y: real, b: real)
    requires x <= y && 0.0 < b
    ensures b * x <= b * y
    ensures x < y ==> b * x < b * y
    ensures b * (x + 1.0) == b * x + b
  {
  }
}
