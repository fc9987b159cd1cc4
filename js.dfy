/** JavaScript semantics the rest of the model relies on: Math.round, Math.floor,
    Math.ceil on exact reals, "undefined" as an Option, and a number that may
    have become NaN. */
module Js {

  datatype Option<+T> = None | Some(value: T)

  /** A JavaScript number restricted to what the model needs: an integer or NaN. */
  datatype Number = Finite(n: int) | NaN

  /** `a + n` where `a` may already be NaN. */
  function Plus(a: Number, n: int): (r: Number)
    ensures r.Finite? <==> a.Finite?
    ensures a.Finite? ==> r.n - a.n == n
  {
    match a
    case Finite(x) => Finite(x + n)
    case NaN => NaN
  }

  /** A nullable integer column is truthy only when present and non-zero. */
  predicate Truthy(x: Option<int>)
  {
    x.Some? && x.value != 0
  }

  function Floor(x: real): (r: int)
    ensures r as real <= x < r as real + 1.0
  {
    x.Floor
  }

  function Ceil(x: real): (r: int)
    ensures x <= r as real < x + 1.0
  {
    -((-x).Floor)
  }

  /** `Math.round`: halves go towards positive infinity. */
  function Round(x: real): (r: int)
    ensures x - 0.5 < r as real <= x + 0.5
  {
    (x + 0.5).Floor
  }

  function Max(a: int, b: int): (r: int)
    ensures r >= a && r >= b
    ensures r == a || r == b
  {
    if a >= b then a else b
  }

  function Min(a: int, b: int): (r: int)
    ensures r <= a && r <= b
    ensures r == a || r == b
  {
    if a <= b then a else b
  }

  lemma RoundOfInt(n: int)
    ensures Round(n as real) == n
  {
  }

  lemma RoundMonotone(x: real, y: real)
    requires x <= y
    ensures Round(x) <= Round(y)
  {
  }

  /** A value strictly above an integer never rounds below it. */
  lemma RoundAbove(x: real, n: int)
    requires n as real < x
    ensures n <= Round(x)
  {
  }

  /** A value between two integers rounds to a value between them. */
  lemma RoundBetween(x: real, lo: int, hi: int)
    requires lo as real <= x <= hi as real
    ensures lo <= Round(x) <= hi
  {
    RoundOfInt(lo);
    RoundOfInt(hi);
    RoundMonotone(lo as real, x);
    RoundMonotone(x, hi as real);
  }
}
