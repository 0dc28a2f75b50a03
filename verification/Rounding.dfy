/**
 Rounding as Python's `round` does it on exact values: to the nearest grid point, ties to the
 even one. Every dollar figure and price of the desk is rounded to cents this way.
 */
module Rounding {

  function Abs(x: real): (r: real)
    ensures r >= 0.0 && (r == x || r == -x)
  {
    if x < 0.0 then -x else x
  }

  function Max(x: real, y: real): real {
    if x >= y then x else y
  }

  function Min(x: real, y: real): real {
    if x <= y then x else y
  }

  /** `round(x)`: the nearest integer, ties to even. */
  function RoundInt(x: real): (n: int)
    ensures x - 0.5 <= n as real <= x + 0.5
  {
    var f := x.Floor;
    var d := x - f as real;
    if d < 0.5 || (d == 0.5 && f % 2 == 0) then f else f + 1
  }

  /** `int(x)`: truncation toward zero. */
  function Trunc(x: real): (n: int)
    ensures x >= 0.0 ==> x - 1.0 < n as real <= x
    ensures x <= 0.0 ==> x <= n as real < x + 1.0
  {
    if x >= 0.0 then x.Floor else -((-x).Floor)
  }

  /** `math.ceil(x)`. */
  function Ceil(x: real): (n: int)
    ensures x <= n as real < x + 1.0
  {
    -((-x).Floor)
  }

  /** `round(x, 2)`. */
  function Round2(x: real): (r: real)
    ensures x - 0.005 <= r <= x + 0.005
    ensures OnCents(r)
  {
    Cents(RoundInt(x * 100.0))
  }

  /** `n` cents in dollars. */
  function Cents(n: int): (r: real)
    ensures r * 100.0 == n as real && OnCents(r)
  {
    var r := n as real / 100.0;
    assert r * 100.0 == n as real;
    r
  }

  /** Whether `x` is a whole number of cents. */
  predicate OnCents(x: real) {
    (x * 100.0).Floor as real == x * 100.0
  }

  lemma RoundIntMonotone(x: real, y: real)
    requires x <= y
    ensures RoundInt(x) <= RoundInt(y)
  {
    assert x.Floor <= y.Floor;
  }

  lemma TruncMonotone(x: real, y: real)
    requires x <= y
    ensures Trunc(x) <= Trunc(y)
  {
  }

  /** Rounding to cents never reverses an order. */
  lemma Round2Monotone(x: real, y: real)
    requires x <= y
    ensures Round2(x) <= Round2(y)
  {
    RoundIntMonotone(x * 100.0, y * 100.0);
  }

  /** Rounding to cents leaves a whole number of cents alone. */
  lemma Round2OnCents(x: real)
    requires OnCents(x)
    ensures Round2(x) == x
  {
    var n := (x * 100.0).Floor;
    assert RoundInt(x * 100.0) == n;
  }

  /** A value not below a whole number of cents does not round below it. */
  lemma Round2AtLeast(x: real, floor: real)
    requires OnCents(floor) && floor <= x
    ensures floor <= Round2(x)
  {
    Round2OnCents(floor);
    Round2Monotone(floor, x);
  }

  /** A value not above a whole number of cents does not round above it. */
  lemma Round2AtMost(x: real, ceiling: real)
    requires OnCents(ceiling) && x <= ceiling
    ensures Round2(x) <= ceiling
  {
    Round2OnCents(ceiling);
    Round2Monotone(x, ceiling);
  }

  /** A value that is `n` cents lies on the grid. */
  lemma WholeCents(x: real, n: int)
    requires x * 100.0 == n as real
    ensures OnCents(x)
  {
  }

  lemma CentsClosed(x: real, y: real)
    requires OnCents(x) && OnCents(y)
    ensures OnCents(x + y) && OnCents(x - y)
  {
    var a, b := (x * 100.0).Floor, (y * 100.0).Floor;
    WholeCents(x + y, a + b);
    WholeCents(x - y, a - b);
  }
}
