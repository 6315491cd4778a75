/** Arithmetic shared by the generators and the pages: JavaScript's
    Math.round, the Math.max/Math.min clamp, and the injected random source. */
module Numeric {

  /** A draw of Math.random() (or Python's random.random()): a real in [0, 1). */
  predicate IsUnit(r: real) {
    0.0 <= r < 1.0
  }

  /** Math.round: the nearest integer, halves rounded up (floor(x + 0.5)). */
  function Round(x: real): (n: int)
    ensures x - 0.5 < n as real <= x + 0.5
  {
    (x + 0.5).Floor
  }

  /** Rounding a value that lies between two integers stays between them. */
  lemma RoundWithin(x: real, lo: int, hi: int)
    requires lo as real <= x <= hi as real
    ensures lo <= Round(x) <= hi
  {
  }

  function Min(a: real, b: real): (r: real)
    ensures r <= a && r <= b && (r == a || r == b)
  {
    if a <= b then a else b
  }

  function Max(a: real, b: real): (r: real)
    ensures r >= a && r >= b && (r == a || r == b)
  {
    if a >= b then a else b
  }

  /** Math.max(lo, Math.min(hi, x)). */
  function Clamp(lo: real, hi: real, x: real): (r: real)
    requires lo <= hi
    ensures lo <= r <= hi
    ensures lo <= x <= hi ==> r == x
    ensures x < lo ==> r == lo
    ensures hi < x ==> r == hi
  {
    Max(lo, Min(hi, x))
  }

  /** Clamping is monotone: it never reorders two values. */
  lemma ClampMonotone(lo: real, hi: real, x: real, y: real)
    requires lo <= hi && x <= y
    ensures Clamp(lo, hi, x) <= Clamp(lo, hi, y)
  {
  }

  /** A draw in [0, 1) scales a non-negative width down. */
  lemma ScaleBelow(r: real, w: real)
    requires IsUnit(r) && 0.0 <= w
    ensures 0.0 <= w * r <= w
  {
    assert w - w * r == w * (1.0 - r);
    assert 0.0 <= w * (1.0 - r);
  }

  /** The sum of a list of numbers. */
  function Sum(xs: seq<real>): real {
    if |xs| == 0 then 0.0 else xs[0] + Sum(xs[1..])
  }

  /** Python's random.randint(a, b) fed by a uniform draw r in [0, 1):
      the integer a + floor(r * (b - a + 1)). */
  function RandInt(a: int, b: int, r: real): (n: int)
    requires a <= b && IsUnit(r)
    ensures a <= n <= b
  {
    var k := (r * (b - a + 1) as real).Floor;
    assert 0.0 <= r * (b - a + 1) as real < (b - a + 1) as real by {
      assert r * (b - a + 1) as real < 1.0 * (b - a + 1) as real;
    }
    a + k
  }
}
