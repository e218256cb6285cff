/**
 * The three numeric primitives the calculator relies on, over exact reals:
 * kotlin.math.floor and kotlin.math.ceil, each returning an integral-valued
 * Double, and
 * Double.toInt(), which saturates at the bounds of a 32-bit Int instead of
 * wrapping around.
 */
module KotlinMath {

  const IntMin: int := -0x8000_0000
  const IntMax: int := 0x7fff_ffff

  predicate InIntRange(n: int) {
    IntMin <= n <= IntMax
  }

  /** floor(x): the greatest integer that is not above x. */
  function Floor(x: real): (n: int)
    ensures n as real <= x < n as real + 1.0
  {
    x.Floor
  }

  /** ceil(x): the least integer that is not below x. */
  function Ceil(x: real): (n: int)
    ensures n as real - 1.0 < x <= n as real
  {
    -((-x).Floor)
  }

  /** Double.toInt() of an integral value: exact inside the Int range, clamped outside it. */
  function ToInt(n: int): (r: int)
    ensures InIntRange(r)
    ensures InIntRange(n) ==> r == n
    ensures n > IntMax ==> r == IntMax
    ensures n < IntMin ==> r == IntMin
  {
    if n > IntMax then IntMax else if n < IntMin then IntMin else n
  }

  /** A real quotient whose ceiling (and floor) Double.toInt() keeps exactly. */
  predicate CeilFits(q: real) {
    (IntMin - 1) as real < q <= IntMax as real
  }

  predicate FloorFits(q: real) {
    IntMin as real <= q < (IntMax + 1) as real
  }

  lemma CeilMonotone(x: real, y: real)
    requires x <= y
    ensures Ceil(x) <= Ceil(y)
  {
  }

  lemma ToIntMonotone(m: int, n: int)
    requires m <= n
    ensures ToInt(m) <= ToInt(n)
  {
  }
}
