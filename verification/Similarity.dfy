/**
 * The top-K cosine query of the embedding index. Components are exact reals; `sqrt` is any function that
 * returns the non-negative root.
 */
module Similarity {
  import opened Reals
  import opened Sorting

  type Vector = seq<real>

  datatype Row = Row(relPath: string, sha: string, embedding: Vector)

  datatype Hit = Hit(relPath: string, score: real)

  /** `Mismatch` is the error for an embedding of another dimension. */
  datatype Result<T> = Ok(value: T) | Mismatch

  // ---- Products and norms -------------------------------------------------------------------

  function Dot(a: Vector, b: Vector): real
    requires |a| == |b|
  {
    if a == [] then 0.0 else Dot(a[..|a| - 1], b[..|b| - 1]) + a[|a| - 1] * b[|b| - 1]
  }

  function Norm(a: Vector, sqrt: real -> real): real {
    sqrt(Dot(a, a))
  }

  method ComputeDot(a: Vector, b: Vector) returns (s: real)
    requires |a| == |b|
    ensures s == Dot(a, b)
  {
    s := 0.0;
    for i := 0 to |a|
      invariant s == Dot(a[..i], b[..i])
    {
      assert a[..i + 1][..i] == a[..i] && b[..i + 1][..i] == b[..i];
      s := s + a[i] * b[i];
    }
    assert a[..|a|] == a && b[..|b|] == b;
  }

  method ComputeNorm(v: Vector, sqrt: real -> real) returns (n: real)
    ensures n == Norm(v, sqrt)
  {
    var s := 0.0;
    for i := 0 to |v|
      invariant s == Dot(v[..i], v[..i])
    {
      assert v[..i + 1][..i] == v[..i];
      s := s + v[i] * v[i];
    }
    assert v[..|v|] == v;
    n := sqrt(s);
  }

  /** The product, from the front: with the empty product it is the sum of the products of all components. */
  lemma {:induction false} DotFromFront(x: real, a: Vector, y: real, b: Vector)
    requires |a| == |b|
    ensures Dot([], []) == 0.0 && Dot([x] + a, [y] + b) == x * y + Dot(a, b)
  {
    var xa, yb := [x] + a, [y] + b;
    if a == [] {
      assert xa == [x] && yb == [y] && [x][..0] == [] && [y][..0] == [];
    } else {
      assert xa[..|xa| - 1] == [x] + a[..|a| - 1] && yb[..|yb| - 1] == [y] + b[..|b| - 1];
      DotFromFront(x, a[..|a| - 1], y, b[..|b| - 1]);
    }
  }

  predicate AllZero(a: Vector) {
    forall i | 0 <= i < |a| :: a[i] == 0.0
  }

  lemma {:induction false} DotZeroIff(a: Vector)
    ensures Dot(a, a) == 0.0 <==> AllZero(a)
  {
    if a != [] {
      var n := |a| - 1;
      DotSelf(a[..n]);
      DotZeroIff(a[..n]);
      assert Square(a[n]) >= 0.0;
      if a[n] != 0.0 {
        Positive(if a[n] > 0.0 then a[n] else -a[n], if a[n] > 0.0 then a[n] else -a[n]);
        assert Dot(a, a) > 0.0;
      } else {
        assert AllZero(a) <==> AllZero(a[..n]);
      }
    }
  }

  /** The norm is zero exactly for the all-zero vector. */
  lemma NormZeroIff(a: Vector, sqrt: real -> real)
    requires IsSqrt(sqrt)
    ensures Norm(a, sqrt) == 0.0 <==> AllZero(a)
  {
    DotSelf(a);
    DotZeroIff(a);
    if Norm(a, sqrt) == 0.0 {
      assert Norm(a, sqrt) * Norm(a, sqrt) == 0.0;
    } else {
      assert Norm(a, sqrt) > 0.0;
      Positive(Norm(a, sqrt), Norm(a, sqrt));
    }
  }

  /** The unit vector along axis `i`. */
  function Axis(n: nat, i: nat): (v: Vector)
    ensures |v| == n
  {
    seq(n, k => if k == i then 1.0 else 0.0)
  }

  lemma {:induction false} DotAxis(e: Vector, i: nat)
    ensures Dot(Axis(|e|, i), e) == if i < |e| then e[i] else 0.0
  {
    if e != [] {
      var n := |e| - 1;
      assert Axis(|e|, i)[..n] == Axis(n, i);
      DotAxis(e[..n], i);
    }
  }

  lemma {:induction false} DotSelf(a: Vector)
    ensures Dot(a, a) >= 0.0
  {
    if a != [] {
      DotSelf(a[..|a| - 1]);
      assert Square(a[|a| - 1]) >= 0.0;
    }
  }

  lemma {:induction false} DotCommutes(a: Vector, b: Vector)
    requires |a| == |b|
    ensures Dot(a, b) == Dot(b, a)
  {
    if a != [] {
      DotCommutes(a[..|a| - 1], b[..|b| - 1]);
    }
  }

  function Scale(c: real, a: Vector): (r: Vector)
    ensures |r| == |a|
  {
    if a == [] then [] else Scale(c, a[..|a| - 1]) + [c * a[|a| - 1]]
  }

  lemma {:induction false} ScaleEach(c: real, a: Vector)
    ensures forall i | 0 <= i < |a| :: Scale(c, a)[i] == c * a[i]
  {
    if a != [] {
      ScaleEach(c, a[..|a| - 1]);
    }
  }

  lemma {:induction false} DotScale(c: real, a: Vector, b: Vector)
    requires |a| == |b|
    ensures Dot(Scale(c, a), b) == c * Dot(a, b)
  {
    if a != [] {
      var n := |a| - 1;
      DotScale(c, a[..n], b[..n]);
      assert Scale(c, a)[..n] == Scale(c, a[..n]);
      Distribute(c, Dot(a[..n], b[..n]), a[n] * b[n]);
    }
  }

  /** The squares of p * b - r * a add up, with p2 = p * p, pr = p * r and r2 = r * r. */
  lemma {:induction false} SquaresSum(a: Vector, b: Vector, p: real, r: real, p2: real, pr: real, r2: real)
    requires |a| == |b| && p2 == p * p && pr == p * r && r2 == r * r
    ensures p2 * Dot(b, b) - 2.0 * (pr * Dot(a, b)) + r2 * Dot(a, a) >= 0.0
  {
    if a != [] {
      var n := |a| - 1;
      SquaresSum(a[..n], b[..n], p, r, p2, pr, r2);
      var x, y := a[n], b[n];
      Distribute(p2, Dot(b[..n], b[..n]), y * y);
      Distribute(pr, Dot(a[..n], b[..n]), x * y);
      Distribute(r2, Dot(a[..n], a[..n]), x * x);
      OneSquare(x, y, p, r, p2, pr, r2);
    }
  }

  lemma OneSquare(x: real, y: real, p: real, r: real, p2: real, pr: real, r2: real)
    requires p2 == p * p && pr == p * r && r2 == r * r
    ensures p2 * (y * y) - 2.0 * (pr * (x * y)) + r2 * (x * x) >= 0.0
  {
    assert Square(p * y - r * x) >= 0.0;
    assert Square(p * y - r * x) == (p * p) * (y * y) - 2.0 * ((p * r) * (x * y)) + (r * r) * (x * x);
  }

  lemma Cancel(a: real, d: real)
    requires a > 0.0 && Times(a, d) >= 0.0
    ensures d >= 0.0
  {
    if d < 0.0 {
      assert Times(a, -d) == -Times(a, d);
      Positive(a, -d);
    }
  }

  lemma HalfBound(a: Vector, b: Vector)
    requires |a| == |b| && Dot(a, a) > 0.0
    ensures Square(Dot(a, b)) <= Times(Dot(a, a), Dot(b, b))
  {
    hide Dot;
    var aa, bb, ab := Dot(a, a), Dot(b, b), Dot(a, b);
    SquaresSum(a, b, aa, ab, aa * aa, aa * ab, ab * ab);
    Factor(aa, bb, ab);
    Cancel(aa, aa * bb - ab * ab);
  }

  lemma Factor(aa: real, bb: real, ab: real)
    ensures (aa * aa) * bb - 2.0 * ((aa * ab) * ab) + (ab * ab) * aa == Times(aa, aa * bb - ab * ab)
  {
  }

  /** The Cauchy-Schwarz inequality, in every dimension. */
  lemma CauchySchwarz(a: Vector, b: Vector)
    requires |a| == |b|
    ensures Square(Dot(a, b)) <= Times(Dot(a, a), Dot(b, b))
  {
    DotSelf(a);
    DotSelf(b);
    if Dot(a, a) > 0.0 {
      HalfBound(a, b);
    } else if Dot(b, b) > 0.0 {
      HalfBound(b, a);
      DotCommutes(a, b);
    } else {
      SquaresSum(a, b, 1.0, 1.0, 1.0, 1.0, 1.0);
      SquaresSum(a, b, 1.0, -1.0, 1.0, -1.0, 1.0);
    }
  }

  // ---- The score ----------------------------------------------------------------------------

  function Score(q: Vector, e: Vector, sqrt: real -> real): real
    requires |q| == |e| && Times(Norm(q, sqrt), Norm(e, sqrt)) != 0.0
  {
    Ratio(Dot(q, e), Times(Norm(q, sqrt), Norm(e, sqrt)))
  }

  function Ratio(c: real, b: real): real
    requires b != 0.0
  {
    c / b
  }

  lemma NormSquared(a: Vector, sqrt: real -> real)
    requires IsSqrt(sqrt)
    ensures Norm(a, sqrt) >= 0.0 && Square(Norm(a, sqrt)) == Dot(a, a)
  {
    DotSelf(a);
  }

  lemma ScoreDefined(q: Vector, e: Vector, sqrt: real -> real)
    requires IsSqrt(sqrt) && Norm(q, sqrt) != 0.0 && Norm(e, sqrt) != 0.0
    ensures Times(Norm(q, sqrt), Norm(e, sqrt)) > 0.0
  {
    NormSquared(q, sqrt);
    NormSquared(e, sqrt);
    Positive(Norm(q, sqrt), Norm(e, sqrt));
  }

  /** Every score is a cosine. */
  lemma ScoreInRange(q: Vector, e: Vector, sqrt: real -> real)
    requires IsSqrt(sqrt) && |q| == |e| && Norm(q, sqrt) != 0.0 && Norm(e, sqrt) != 0.0
    ensures Times(Norm(q, sqrt), Norm(e, sqrt)) != 0.0 && -1.0 <= Score(q, e, sqrt) <= 1.0
  {
    hide Dot, Norm, IsSqrt, Square, Times, Ratio;
    ScoreDefined(q, e, sqrt);
    NormSquared(q, sqrt);
    NormSquared(e, sqrt);
    CauchySchwarz(q, e);
    var n, m := Norm(q, sqrt), Norm(e, sqrt);
    SquareOfProduct(n, m, Dot(q, q), Dot(e, e));
    RootOrder(Dot(q, e), Times(n, m));
    Quotient(Dot(q, e), Times(n, m));
  }

  lemma SquareOfProduct(n: real, m: real, nn: real, mm: real)
    requires Square(n) == nn && Square(m) == mm
    ensures Square(Times(n, m)) == Times(nn, mm)
  {
    assert (n * m) * (n * m) == (n * n) * (m * m);
  }

  lemma Quotient(c: real, b: real)
    requires b > 0.0 && -b <= c <= b
    ensures -1.0 <= Ratio(c, b) <= 1.0
  {
    var x := Ratio(c, b);
    assert x * b == c;
    assert Times(x - 1.0, b) == c - b && Times(-1.0 - x, b) == -b - c;
    hide Ratio, Times;
    if x > 1.0 {
      Positive(x - 1.0, b);
    } else if x < -1.0 {
      Positive(-1.0 - x, b);
    }
  }

  lemma NormScale(c: real, q: Vector, sqrt: real -> real)
    requires IsSqrt(sqrt) && c > 0.0
    ensures Norm(Scale(c, q), sqrt) == c * Norm(q, sqrt)
  {
    hide Dot, Norm, IsSqrt, Scale;
    var cq := Scale(c, q);
    DotScale(c, q, cq);
    DotCommutes(q, cq);
    DotScale(c, q, q);
    NormSquared(q, sqrt);
    NormSquared(cq, sqrt);
    var n, x := Norm(q, sqrt), Norm(cq, sqrt);
    SquareOfProduct(c, n, c * c, Dot(q, q));
    assert Square(x) == Times(c * c, Dot(q, q)) == Square(c * n);
    assert c * n >= 0.0;
    RootOrder(x, c * n);
    RootOrder(c * n, x);
  }

  /** Scaling the query by a positive constant changes no score. */
  lemma ScoreScale(c: real, q: Vector, e: Vector, sqrt: real -> real)
    requires IsSqrt(sqrt) && c > 0.0 && |q| == |e| && Norm(q, sqrt) != 0.0 && Norm(e, sqrt) != 0.0
    ensures Norm(Scale(c, q), sqrt) != 0.0
    ensures Times(Norm(q, sqrt), Norm(e, sqrt)) != 0.0 && Times(Norm(Scale(c, q), sqrt), Norm(e, sqrt)) != 0.0
    ensures Score(Scale(c, q), e, sqrt) == Score(q, e, sqrt)
  {
    hide Dot, Norm, IsSqrt, Scale;
    ScoreDefined(q, e, sqrt);
    NormScale(c, q, sqrt);
    DotScale(c, q, e);
    NormSquared(q, sqrt);
    var n, m, d := Norm(q, sqrt), Norm(e, sqrt), Dot(q, e);
    Positive(c, n);
    Positive(c, Times(n, m));
    assert Times(c * n, m) == c * Times(n, m);
    CancelFactor(c, d, Times(n, m));
  }

  lemma CancelFactor(c: real, d: real, b: real)
    requires c > 0.0 && b > 0.0 && c * b > 0.0
    ensures Ratio(c * d, c * b) == Ratio(d, b)
  {
    var x := d / b;
    assert x * b == d;
    assert x * (c * b) == c * d;
  }

  /** A vector's score against itself is 1. */
  lemma SelfScore(q: Vector, sqrt: real -> real)
    requires IsSqrt(sqrt) && Norm(q, sqrt) != 0.0
    ensures Times(Norm(q, sqrt), Norm(q, sqrt)) != 0.0 && Score(q, q, sqrt) == 1.0
  {
    hide Dot, Norm, IsSqrt;
    ScoreDefined(q, q, sqrt);
    NormSquared(q, sqrt);
    OverItself(Dot(q, q));
  }

  lemma OverItself(d: real)
    requires d != 0.0
    ensures Ratio(d, d) == 1.0
  {
  }

  // ---- The query ----------------------------------------------------------------------------

  lemma NonZero(a: real, b: real)
    requires a != 0.0 && b != 0.0
    ensures Times(a, b) != 0.0
  {
    Positive(if a > 0.0 then a else -a, if b > 0.0 then b else -b);
  }

  predicate Comparable(q: Vector, e: Vector, sqrt: real -> real) {
    |q| == |e| && Norm(q, sqrt) != 0.0 && Norm(e, sqrt) != 0.0
  }

  function HitFor(q: Vector, row: Row, sqrt: real -> real): Hit
    requires Comparable(q, row.embedding, sqrt)
  {
    NonZero(Norm(q, sqrt), Norm(row.embedding, sqrt));
    Hit(row.relPath, Score(q, row.embedding, sqrt))
  }

  /** Every row with a non-zero norm, in table order; an error if one has another dimension. */
  function Scored(rows: seq<Row>, q: Vector, sqrt: real -> real): Result<seq<Hit>>
    requires Norm(q, sqrt) != 0.0
  {
    if rows == [] then Ok([])
    else
      var before, row := Scored(rows[..|rows| - 1], q, sqrt), rows[|rows| - 1];
      if before.Mismatch? || Norm(row.embedding, sqrt) == 0.0 then before
      else if |row.embedding| != |q| then Mismatch
      else Ok(before.value + [HitFor(q, row, sqrt)])
  }

  predicate Higher(a: Hit, b: Hit) {
    a.score > b.score
  }

  /** How many of `n` hits are wanted; a negative `k` drops the last ones. */
  function Wanted(k: int, n: nat): nat {
    if k >= n then n else if k >= 0 then k else if n + k <= 0 then 0 else n + k
  }

  /** A slice up to `k`; a negative `k` counts from the end. */
  function UpTo<T>(xs: seq<T>, k: int): (r: seq<T>)
    ensures r <= xs && |r| == Wanted(k, |xs|)
  {
    if k >= |xs| then xs else if k >= 0 then xs[..k] else if |xs| + k <= 0 then [] else xs[..|xs| + k]
  }

  method Query(rows: seq<Row>, q: Vector, k: int, sqrt: real -> real) returns (hits: Result<seq<Hit>>)
    ensures Norm(q, sqrt) == 0.0 ==> hits == Ok([])
    ensures Norm(q, sqrt) != 0.0 ==>
              hits == match Scored(rows, q, sqrt)
                      case Ok(scored) => Ok(UpTo(SortDown(scored, Higher), k))
                      case Mismatch => Mismatch
  {
    hide Score, Norm;
    var normQ := ComputeNorm(q, sqrt);
    if normQ == 0.0 {
      return Ok([]);
    }
    var scored: seq<Hit> := [];
    for i := 0 to |rows|
      invariant Scored(rows[..i], q, sqrt) == Ok(scored)
    {
      assert rows[..i + 1][..i] == rows[..i];
      var row := rows[i];
      var n := ComputeNorm(row.embedding, sqrt);
      if n == 0.0 {
        continue;
      }
      if |row.embedding| != |q| {
        MismatchLasts(rows, i, q, sqrt);
        return Mismatch;
      }
      var d := ComputeDot(q, row.embedding);
      NonZero(normQ, n);
      scored := scored + [Hit(row.relPath, Ratio(d, Times(normQ, n)))];
      assert Score(q, row.embedding, sqrt) == Ratio(d, Times(normQ, n)) by {
        ScoreIs(q, row.embedding, sqrt);
      }
    }
    assert rows[..|rows|] == rows;
    hits := Ok(UpTo(SortDown(scored, Higher), k));
  }

  lemma ScoreIs(q: Vector, e: Vector, sqrt: real -> real)
    requires |q| == |e| && Times(Norm(q, sqrt), Norm(e, sqrt)) != 0.0
    ensures Score(q, e, sqrt) == Ratio(Dot(q, e), Times(Norm(q, sqrt), Norm(e, sqrt)))
  {
  }

  /** One row of another dimension is an error, wherever it stands. */
  lemma {:induction false} MismatchLasts(rows: seq<Row>, i: nat, q: Vector, sqrt: real -> real)
    requires Norm(q, sqrt) != 0.0 && i < |rows|
    requires Scored(rows[..i], q, sqrt).Mismatch? || (Norm(rows[i].embedding, sqrt) != 0.0 && |rows[i].embedding| != |q|)
    ensures Scored(rows, q, sqrt).Mismatch?
    decreases |rows| - i
  {
    hide Norm, HitFor;
    assert rows[..i + 1][..i] == rows[..i];
    assert Scored(rows[..i + 1], q, sqrt).Mismatch?;
    if i + 1 < |rows| {
      MismatchLasts(rows, i + 1, q, sqrt);
    } else {
      assert rows[..i + 1] == rows;
    }
  }

  function NonZeroRows(rows: seq<Row>, sqrt: real -> real): nat {
    if rows == [] then 0
    else NonZeroRows(rows[..|rows| - 1], sqrt) + (if Norm(rows[|rows| - 1].embedding, sqrt) == 0.0 then 0 else 1)
  }

  lemma {:induction false} ScoredRows(rows: seq<Row>, q: Vector, sqrt: real -> real)
    requires Norm(q, sqrt) != 0.0
    ensures Scored(rows, q, sqrt).Mismatch? <==>
            exists r :: r in rows && Norm(r.embedding, sqrt) != 0.0 && |r.embedding| != |q|
    ensures Scored(rows, q, sqrt).Ok? ==>
              var hits := Scored(rows, q, sqrt).value;
              && |hits| == NonZeroRows(rows, sqrt)
              && (forall h :: h in hits ==> exists r :: r in rows && Comparable(q, r.embedding, sqrt) && h == HitFor(q, r, sqrt))
              && (forall r :: r in rows && Norm(r.embedding, sqrt) != 0.0 ==> Comparable(q, r.embedding, sqrt) && HitFor(q, r, sqrt) in hits)
  {
    hide Norm, HitFor;
    if rows != [] {
      var init, last := rows[..|rows| - 1], rows[|rows| - 1];
      ScoredRows(init, q, sqrt);
      assert rows == init + [last];
      if Scored(rows, q, sqrt).Mismatch? && Scored(init, q, sqrt).Ok? {
        assert last in rows;
      }
    }
  }

  /** A hit has the path of its row, and its score is the cosine. */
  lemma HitMeans(q: Vector, row: Row, sqrt: real -> real)
    requires Comparable(q, row.embedding, sqrt)
    ensures var h := HitFor(q, row, sqrt);
            h.relPath == row.relPath && h.score * Times(Norm(q, sqrt), Norm(row.embedding, sqrt)) == Dot(q, row.embedding)
  {
    hide Dot, Norm;
    NonZero(Norm(q, sqrt), Norm(row.embedding, sqrt));
    var d, b := Dot(q, row.embedding), Times(Norm(q, sqrt), Norm(row.embedding, sqrt));
    assert (d / b) * b == d;
  }

  /** A query along an axis scores a row by its component there, as a part of its norm. */
  lemma AxisQuery(i: nat, row: Row, sqrt: real -> real)
    requires IsSqrt(sqrt) && i < |row.embedding| && !AllZero(row.embedding)
    ensures var q := Axis(|row.embedding|, i);
            && Norm(q, sqrt) == 1.0 && Comparable(q, row.embedding, sqrt)
            && HitFor(q, row, sqrt).score * Norm(row.embedding, sqrt) == row.embedding[i]
  {
    var e := row.embedding;
    var q := Axis(|e|, i);
    NormZeroIff(e, sqrt);
    DotAxis(q, i);
    RootOfOne(sqrt);
    DotAxis(e, i);
    hide IsSqrt, Dot, Axis;
    HitMeans(q, row, sqrt);
  }

  lemma RootOfOne(sqrt: real -> real)
    requires IsSqrt(sqrt)
    ensures sqrt(1.0) == 1.0
  {
    var x := sqrt(1.0);
    assert Square(x) == Square(1.0);
    RootOrder(x, 1.0);
    RootOrder(1.0, x);
  }

  lemma ByScore()
    ensures KeyOrder(Higher)
  {
  }

  /**
   * Main result: a query answers min(k, number of non-zero rows) hits - for a negative k all but the last -k - each
   * the cosine of a row and in [-1, 1], highest first, and no omitted row scores above a returned one; it fails
   * exactly when a non-zero row has another dimension.
   */
  lemma TopK(rows: seq<Row>, q: Vector, k: int, sqrt: real -> real)
    requires IsSqrt(sqrt) && Norm(q, sqrt) != 0.0
    ensures Scored(rows, q, sqrt).Mismatch? <==>
            exists r :: r in rows && Norm(r.embedding, sqrt) != 0.0 && |r.embedding| != |q|
    ensures Scored(rows, q, sqrt).Ok? ==>
              var hits := UpTo(SortDown(Scored(rows, q, sqrt).value, Higher), k);
              && |hits| == Wanted(k, NonZeroRows(rows, sqrt))
              && Descending(hits, Higher)
              && (forall h :: h in hits ==>
                    && -1.0 <= h.score <= 1.0
                    && exists r :: r in rows && Comparable(q, r.embedding, sqrt) && h == HitFor(q, r, sqrt))
              && (forall r, h :: r in rows && Norm(r.embedding, sqrt) != 0.0 && h in hits ==>
                    HitFor(q, r, sqrt) in hits || HitFor(q, r, sqrt).score <= h.score)
  {
    hide IsSqrt, Norm, HitFor, Scored, SortDown, UpTo, Descending;
    ScoredRows(rows, q, sqrt);
    if Scored(rows, q, sqrt).Ok? {
      var all := Scored(rows, q, sqrt).value;
      var hits := UpTo(SortDown(all, Higher), k);
      TopOf(all, k);
      forall h | h in hits ensures -1.0 <= h.score <= 1.0 {
        var r :| r in rows && Comparable(q, r.embedding, sqrt) && h == HitFor(q, r, sqrt);
        HitInRange(q, r, sqrt);
      }
    }
  }

  lemma TopOf(all: seq<Hit>, k: int)
    ensures var hits := UpTo(SortDown(all, Higher), k);
            && |hits| == Wanted(k, |all|)
            && Descending(hits, Higher)
            && (forall h :: h in hits ==> h in all)
            && (forall x, h :: x in all && h in hits ==> x in hits || x.score <= h.score)
  {
    ByScore();
    Sorted(all, Higher);
    SortedLength(all, Higher);
    SameHits(all);
    var ranked := SortDown(all, Higher);
    hide SortDown;
    forall x, h | x in all && h in UpTo(ranked, k) ensures x in UpTo(ranked, k) || x.score <= h.score {
      Omitted(ranked, k, x, h);
    }
  }

  lemma SameHits(all: seq<Hit>)
    requires KeyOrder(Higher)
    ensures forall h :: h in SortDown(all, Higher) <==> h in all
  {
    Sorted(all, Higher);
    var ranked := SortDown(all, Higher);
    assert forall h :: h in ranked <==> h in multiset(ranked);
    assert forall h :: h in all <==> h in multiset(all);
  }

  lemma Omitted(ranked: seq<Hit>, k: int, x: Hit, h: Hit)
    requires Descending(ranked, Higher) && x in ranked && h in UpTo(ranked, k)
    ensures x in UpTo(ranked, k) || x.score <= h.score
  {
    var i :| 0 <= i < |ranked| && ranked[i] == x;
    var j :| 0 <= j < |UpTo(ranked, k)| && UpTo(ranked, k)[j] == h;
    assert ranked[j] == h;
    if i > j {
      assert !Higher(ranked[i], ranked[j]);
    } else {
      assert UpTo(ranked, k)[i] == x;
    }
  }

  lemma HitInRange(q: Vector, r: Row, sqrt: real -> real)
    requires IsSqrt(sqrt) && Comparable(q, r.embedding, sqrt)
    ensures -1.0 <= HitFor(q, r, sqrt).score <= 1.0
  {
    ScoreInRange(q, r.embedding, sqrt);
  }

  /** Scaling the query by a positive constant changes nothing, for any `k`. */
  lemma {:induction false} QueryScale(rows: seq<Row>, c: real, q: Vector, sqrt: real -> real)
    requires IsSqrt(sqrt) && c > 0.0 && Norm(q, sqrt) != 0.0
    ensures Norm(Scale(c, q), sqrt) != 0.0 && Scored(rows, Scale(c, q), sqrt) == Scored(rows, q, sqrt)
  {
    hide Norm, Score;
    ScoreScale(c, q, q, sqrt);
    if rows != [] {
      var e := rows[|rows| - 1].embedding;
      QueryScale(rows[..|rows| - 1], c, q, sqrt);
      if Norm(e, sqrt) != 0.0 && |e| == |q| {
        ScoreScale(c, q, e, sqrt);
      }
    }
  }

  /**
   * A row is found by its own embedding: there is a first hit, and it scores 1, the highest score there is, exactly
   * when k is positive or negative and does not drop every hit.
   */
  lemma SelfQuery(rows: seq<Row>, row: Row, k: int, sqrt: real -> real)
    requires IsSqrt(sqrt) && row in rows && Norm(row.embedding, sqrt) != 0.0
    requires Scored(rows, row.embedding, sqrt).Ok?
    ensures var hits := UpTo(SortDown(Scored(rows, row.embedding, sqrt).value, Higher), k);
            && (hits != [] <==> k > 0 || k < 0 < NonZeroRows(rows, sqrt) + k)
            && (hits != [] ==> hits[0].score == 1.0)
  {
    hide IsSqrt, Norm, Scored, SortDown, UpTo;
    var q := row.embedding;
    TopK(rows, q, k, sqrt);
    ScoredRows(rows, q, sqrt);
    SelfHit(row, sqrt);
    var hits := UpTo(SortDown(Scored(rows, q, sqrt).value, Higher), k);
    FoundSome(rows, row, sqrt);
    if hits == [] {
      return;
    }
    assert hits[0] in hits;
    if HitFor(q, row, sqrt) in hits {
      var j :| 0 <= j < |hits| && hits[j] == HitFor(q, row, sqrt);
      assert j > 0 ==> !Higher(hits[j], hits[0]);
    }
  }

  lemma SelfHit(row: Row, sqrt: real -> real)
    requires IsSqrt(sqrt) && Norm(row.embedding, sqrt) != 0.0
    ensures HitFor(row.embedding, row, sqrt).score == 1.0
  {
    SelfScore(row.embedding, sqrt);
  }

  lemma {:induction false} FoundSome(rows: seq<Row>, row: Row, sqrt: real -> real)
    requires row in rows && Norm(row.embedding, sqrt) != 0.0
    ensures NonZeroRows(rows, sqrt) > 0
  {
    hide Norm;
    if row in rows[..|rows| - 1] {
      FoundSome(rows[..|rows| - 1], row, sqrt);
    }
  }
}
