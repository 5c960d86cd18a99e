/** Facts about exact reals that the solver needs in small portions. */
module Reals {

  /** `sqrt` returns the non-negative root of every non-negative number. */
  ghost predicate IsSqrt(sqrt: real -> real) {
    forall x: real :: x >= 0.0 ==> sqrt(x) >= 0.0 && sqrt(x) * sqrt(x) == x
  }

  function Square(x: real): (r: real)
    ensures r >= 0.0
  {
    x * x
  }

  function Times(a: real, b: real): real {
    a * b
  }

  lemma Positive(a: real, b: real)
    requires a > 0.0 && b > 0.0
    ensures Times(a, b) > 0.0
  {
  }

  lemma Distribute(c: real, a: real, b: real)
    ensures c * (a + b) == c * a + c * b
  {
  }

  lemma SquareMono(a: real, b: real)
    requires 0.0 <= a <= b
    ensures a * a <= Square(b)
  {
    assert a * a <= a * b <= b * b;
  }

  /** Squares decide the order of magnitudes. */
  lemma RootOrder(c: real, b: real)
    requires b >= 0.0 && Square(c) <= Square(b)
    ensures -b <= c <= b
  {
    if c > b {
      StrictMono(b, c);
    } else if -c > b {
      assert Square(-c) == Square(c);
      StrictMono(b, -c);
    }
  }

  lemma StrictMono(a: real, b: real)
    requires 0.0 <= a < b
    ensures Square(a) < Square(b)
  {
    Positive(b - a, b + a);
    assert Times(b - a, b + a) == Square(b) - Square(a);
  }
}
