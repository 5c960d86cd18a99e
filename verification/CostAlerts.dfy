/**
 * Cost-regression alerts: a run is flagged when it lies `sigma` population standard deviations above
 * the mean of its org, the run itself being part of that mean. Costs are exact reals and `sqrt` is any
 * function that returns the non-negative root.
 */
module CostAlerts {
  import opened Lists
  import opened Reals
  import opened Sorting

  const MIN_BASELINE_RUNS: nat := 3

  datatype Run = Run(runId: string, orgId: int, done: bool, createdAt: Option<real>, costUsd: Option<real>)

  datatype Sigmas = Finite(value: real) | Infinite

  datatype Finding = Finding(orgId: int, runId: string, cost: real, mean: real, stddev: real, sigmaAbove: Sigmas)

  datatype Severity = Info | Warning | Critical

  // ---- Statistics ---------------------------------------------------------------------------

  function Sum(xs: seq<real>): real {
    if xs == [] then 0.0 else Sum(xs[..|xs| - 1]) + xs[|xs| - 1]
  }

  function Mean(xs: seq<real>): real
    requires xs != []
  {
    Sum(xs) / (|xs| as real)
  }

  /** Sum of the squares of x - m + c. */
  function SumSquares(xs: seq<real>, m: real, c: real): real {
    if xs == [] then 0.0
    else SumSquares(xs[..|xs| - 1], m, c) + Square(xs[|xs| - 1] - m + c)
  }

  function Stddev(xs: seq<real>, mean: real, sqrt: real -> real): real {
    if |xs| <= 1 then 0.0 else sqrt(SumSquares(xs, mean, 0.0) / (|xs| as real))
  }

  /** How many samples lie at least `d` above `m`. */
  function CountAbove(xs: seq<real>, m: real, d: real): nat {
    if xs == [] then 0 else CountAbove(xs[..|xs| - 1], m, d) + (if xs[|xs| - 1] - m >= d then 1 else 0)
  }

  /** The deviations from `m`, each times `c`. */
  function Cross(xs: seq<real>, m: real, c: real): real {
    if xs == [] then 0.0 else Cross(xs[..|xs| - 1], m, c) + c * (xs[|xs| - 1] - m)
  }

  lemma {:induction false} CrossSum(xs: seq<real>, m: real, c: real)
    ensures Cross(xs, m, c) == c * (Sum(xs) - (|xs| as real) * m)
  {
    if xs != [] {
      var n := |xs| - 1;
      CrossSum(xs[..n], m, c);
      OneMore(n as real, m);
      assert |xs| as real == (n as real) + 1.0;
      Distribute(c, Sum(xs[..n]) - (n as real) * m, xs[n] - m);
    }
  }

  function Repeated(n: nat, x: real): real {
    if n == 0 then 0.0 else Repeated(n - 1, x) + x
  }

  lemma {:induction false} RepeatedProduct(n: nat, x: real)
    ensures Repeated(n, x) == (n as real) * x
  {
    if n > 0 {
      RepeatedProduct(n - 1, x);
      assert n as real == ((n - 1) as real) + 1.0;
      OneMore((n - 1) as real, x);
    }
  }

  lemma {:induction false} Shift(xs: seq<real>, m: real, c: real)
    ensures SumSquares(xs, m, c) == SumSquares(xs, m, 0.0) + 2.0 * Cross(xs, m, c) + Repeated(|xs|, c * c)
  {
    if xs != [] {
      var n := |xs| - 1;
      Shift(xs[..n], m, c);
      Expand(xs[n] - m, c);
    }
  }

  lemma Expand(d: real, c: real)
    ensures Square(d + c) == Square(d + 0.0) + 2.0 * (c * d) + c * c
  {
  }

  lemma {:induction false} SquaresAbove(xs: seq<real>, m: real, d: real, c: real, e: real)
    requires d >= 0.0 && c >= 0.0 && e == (d + c) * (d + c)
    ensures (CountAbove(xs, m, d) as real) * e <= SumSquares(xs, m, c)
  {
    if xs != [] {
      var n := |xs| - 1;
      var k := CountAbove(xs[..n], m, d) as real;
      SquaresAbove(xs[..n], m, d, c, e);
      assert SumSquares(xs, m, c) == SumSquares(xs[..n], m, c) + Square(xs[n] - m + c);
      if xs[n] - m >= d {
        SquareMono(d + c, xs[n] - m + c);
        assert CountAbove(xs, m, d) as real == k + 1.0;
        OneMore(k, e);
      } else {
        assert CountAbove(xs, m, d) as real == k;
      }
    }
  }

  lemma OneMore(k: real, e: real)
    ensures (k + 1.0) * e == k * e + e
  {
  }

  lemma Chain(xs: seq<real>, n: real, m: real, d: real, c: real, e: real)
    requires n == |xs| as real && Sum(xs) - n * m == 0.0
    requires d >= 0.0 && c >= 0.0 && e == (d + c) * (d + c)
    ensures (CountAbove(xs, m, d) as real) * e <= SumSquares(xs, m, 0.0) + n * (c * c)
  {
    hide SumSquares, Cross, Repeated, CountAbove, Sum;
    SquaresAbove(xs, m, d, c, e);
    Shift(xs, m, c);
    CrossSum(xs, m, c);
    RepeatedProduct(|xs|, c * c);
  }

  /** With w = ss + c * c and (d + c) squared equal to w * q, the chain divides by w. */
  lemma Divide(xs: seq<real>, n: real, m: real, d: real, c: real, ss: real, w: real, q: real, k: real)
    requires k <= CountAbove(xs, m, d) as real && q >= 0.0
    requires n == |xs| as real && Sum(xs) - n * m == 0.0
    requires d >= 0.0 && c >= 0.0 && w > 0.0
    requires (d + c) * (d + c) == w * q && w == ss + c * c
    requires SumSquares(xs, m, 0.0) == n * ss
    ensures k * q <= n
  {
    Chain(xs, n, m, d, c, w * q);
    Distribute(n, ss, c * c);
    CancelFactor(CountAbove(xs, m, d) as real, n, w, q, k);
  }

  lemma CancelFactor(count: real, n: real, w: real, q: real, k: real)
    requires w > 0.0 && q >= 0.0 && k <= count && count * (w * q) <= n * w
    ensures k * q <= n
  {
    assert (count * q - n) * w == count * (w * q) - n * w;
    if count * q > n {
      Positive(count * q - n, w);
    }
    assert (count - k) * q >= 0.0;
  }

  lemma Offset(s: real, t: real, d: real, ss: real, q: real) returns (c: real, w: real)
    requires s > 0.0 && t > 0.0 && d == t * s && ss == s * s && q == 1.0 + t * t
    ensures c > 0.0 && d > 0.0 && w > 0.0 && w == ss + c * c
    ensures (d + c) * (d + c) == w * q
  {
    c := s / t;
    Positive(t, s);
    Positive(s, s);
    Positive(c, c);
    Factor(t, c);
    assert s == t * c;
    assert (c * q) * (c * q) == ((c * c) * q) * q;
    w := ss + c * c;
  }

  lemma Factor(t: real, c: real)
    ensures t * (t * c) + c == c * (1.0 + t * t)
    ensures (t * c) * (t * c) + c * c == (c * c) * (1.0 + t * t)
  {
  }

  /**
   * The one-sided bound behind the alerts: when the deviations from `m` cancel and their squares add up
   * to n * s * s, no more than n / (1 + t * t) samples lie t * s or more above `m`. (The products have names:
   * they keep the solver from multiplying out.)
   */
  lemma OneSidedBound(xs: seq<real>, n: real, m: real, s: real, t: real, d: real, ss: real, q: real, k: real)
    requires n == |xs| as real && Sum(xs) - n * m == 0.0
    requires s > 0.0 && t > 0.0 && d == t * s && ss == s * s && q == 1.0 + t * t
    requires SumSquares(xs, m, 0.0) == n * ss
    requires k <= CountAbove(xs, m, d) as real
    ensures k * q <= n
  {
    assert q == 1.0 + Square(t);
    var c, w := Offset(s, t, d, ss, q);
    Divide(xs, n, m, d, c, ss, w, q, k);
  }

  // ---- Findings -----------------------------------------------------------------------------

  function Cost(r: Run): real {
    if r.costUsd.Some? then r.costUsd.value else 0.0
  }

  function Costs(rs: seq<Run>): (xs: seq<real>)
    ensures |xs| == |rs|
  {
    if rs == [] then [] else Costs(rs[..|rs| - 1]) + [Cost(rs[|rs| - 1])]
  }

  /** How far a run is above the baseline, if it is flagged. */
  function Judge(r: Run, mean: real, stddev: real, sigma: real, recentCutoff: real): Option<Sigmas> {
    if r.createdAt.None? || r.createdAt.value < recentCutoff then None
    else if stddev == 0.0 then (if Cost(r) <= mean then None else Some(Infinite))
    else
      var above := (Cost(r) - mean) / stddev;
      if above < sigma then None else Some(Finite(above))
  }

  function Flag(rs: seq<Run>, mean: real, stddev: real, sigma: real, recentCutoff: real): seq<Finding> {
    if rs == [] then []
    else
      var r := rs[|rs| - 1];
      Flag(rs[..|rs| - 1], mean, stddev, sigma, recentCutoff) +
      match Judge(r, mean, stddev, sigma, recentCutoff)
      case Some(above) => [Finding(r.orgId, r.runId, Cost(r), mean, stddev, above)]
      case None => []
  }

  /** All findings for the runs of one org. */
  function OrgFindings(rs: seq<Run>, sigma: real, recentCutoff: real, sqrt: real -> real): seq<Finding> {
    if |rs| < MIN_BASELINE_RUNS then []
    else
      var mean := Mean(Costs(rs));
      Flag(rs, mean, Stddev(Costs(rs), mean, sqrt), sigma, recentCutoff)
  }

  /** The sums and the cost list, from the front. */
  lemma {:induction false} SumsFromFront(x: real, xs: seq<real>, m: real, c: real)
    ensures Sum([x] + xs) == x + Sum(xs)
    ensures SumSquares([x] + xs, m, c) == Square(x - m + c) + SumSquares(xs, m, c)
  {
    var all := [x] + xs;
    if xs == [] {
      assert all == [x] && [x][..0] == [];
    } else {
      assert all[..|all| - 1] == [x] + xs[..|xs| - 1];
      SumsFromFront(x, xs[..|xs| - 1], m, c);
    }
  }

  lemma {:induction false} CostsEach(rs: seq<Run>)
    ensures forall i | 0 <= i < |rs| :: Costs(rs)[i] == match rs[i].costUsd case Some(usd) => usd case None => 0.0
  {
    if rs != [] {
      CostsEach(rs[..|rs| - 1]);
    }
  }

  function SeverityOf(f: Finding): Severity {
    if f.sigmaAbove.Infinite? || f.sigmaAbove.value >= 4.0 then Critical
    else if f.sigmaAbove.value >= 3.0 then Warning
    else Info
  }

  predicate Reaches(f: Finding, t: real) {
    f.sigmaAbove.Infinite? || f.sigmaAbove.value >= t
  }

  function Reaching(fs: seq<Finding>, t: real): nat {
    if fs == [] then 0 else Reaching(fs[..|fs| - 1], t) + (if Reaches(fs[|fs| - 1], t) then 1 else 0)
  }

  /** A finding for `r` is finite, at least `sigma`, and lies `d` above the mean if it reaches `t`. */
  predicate Scaled(r: Run, mean: real, stddev: real, sigma: real, recentCutoff: real, t: real, d: real) {
    match Judge(r, mean, stddev, sigma, recentCutoff)
    case None => true
    case Some(above) => above.Finite? && above.value >= sigma && (above.value >= t ==> Cost(r) - mean >= d)
  }

  lemma IsScaled(r: Run, mean: real, stddev: real, sigma: real, recentCutoff: real, t: real, d: real)
    requires stddev > 0.0 && d == t * stddev
    ensures Scaled(r, mean, stddev, sigma, recentCutoff, t, d)
  {
    if (Cost(r) - mean) / stddev >= t {
      MultiplyOut(Cost(r) - mean, stddev, t);
    }
  }

  lemma MultiplyOut(a: real, s: real, t: real)
    requires s > 0.0 && a / s >= t
    ensures a >= t * s
  {
    var q := a / s;
    assert q * s == a;
    assert Times(q - t, s) == q * s - t * s;
    if q > t {
      Positive(q - t, s);
    }
  }

  lemma CostsStep(rs: seq<Run>)
    requires rs != []
    ensures Costs(rs) == Costs(rs[..|rs| - 1]) + [Cost(rs[|rs| - 1])]
  {
  }

  lemma CountStep(xs: seq<real>, x: real, m: real, d: real)
    ensures CountAbove(xs + [x], m, d) == CountAbove(xs, m, d) + (if x - m >= d then 1 else 0)
  {
    assert (xs + [x])[..|xs|] == xs;
  }

  lemma ReachingStep(fs: seq<Finding>, f: Finding, t: real)
    ensures Reaching(fs + [f], t) == Reaching(fs, t) + (if Reaches(f, t) then 1 else 0)
  {
    assert (fs + [f])[..|fs|] == fs;
  }

  lemma {:induction false} ReachingCount(rs: seq<Run>, mean: real, stddev: real, sigma: real, recentCutoff: real, t: real, d: real)
    requires forall r :: r in rs ==> Scaled(r, mean, stddev, sigma, recentCutoff, t, d)
    ensures var fs := Flag(rs, mean, stddev, sigma, recentCutoff);
            && Reaching(fs, t) <= CountAbove(Costs(rs), mean, d)
            && forall f :: f in fs ==> f.sigmaAbove.Finite? && f.sigmaAbove.value >= sigma && f.stddev == stddev
  {
    if rs != [] {
      hide Judge, Costs, CountAbove, Reaching;
      var init, r := rs[..|rs| - 1], rs[|rs| - 1];
      ReachingCount(init, mean, stddev, sigma, recentCutoff, t, d);
      var before := Flag(init, mean, stddev, sigma, recentCutoff);
      CostsStep(rs);
      CountStep(Costs(init), Cost(r), mean, d);
      assert Scaled(r, mean, stddev, sigma, recentCutoff, t, d);
      var above := Judge(r, mean, stddev, sigma, recentCutoff);
      if above.Some? {
        ReachingStep(before, Finding(r.orgId, r.runId, Cost(r), mean, stddev, above.value), t);
      } else {
        assert Flag(rs, mean, stddev, sigma, recentCutoff) == before;
      }
    } else {
      assert Reaching([], t) == 0;
    }
  }

  /** No spread means no deviation. */
  lemma {:induction false} NoSpread(rs: seq<Run>, m: real, sigma: real, recentCutoff: real)
    requires SumSquares(Costs(rs), m, 0.0) <= 0.0
    ensures Flag(rs, m, 0.0, sigma, recentCutoff) == []
  {
    if rs != [] {
      var n := |rs| - 1;
      assert Costs(rs)[..n] == Costs(rs[..n]) && Costs(rs)[n] == Cost(rs[n]);
      SumSquaresNonneg(Costs(rs[..n]), m);
      NoSpread(rs[..n], m, sigma, recentCutoff);
      ZeroSquare(Cost(rs[n]) - m + 0.0);
    }
  }

  lemma {:induction false} SumSquaresNonneg(xs: seq<real>, m: real)
    ensures SumSquares(xs, m, 0.0) >= 0.0
  {
    if xs != [] {
      SumSquaresNonneg(xs[..|xs| - 1], m);
    }
  }

  lemma ZeroSquare(x: real)
    requires Square(x) <= 0.0
    ensures x == 0.0
  {
    assert Times(x, x) == Square(x) == Times(-x, -x);
    if x > 0.0 {
      Positive(x, x);
    } else if x < 0.0 {
      Positive(-x, -x);
    }
  }

  lemma MeanCancels(xs: seq<real>)
    requires xs != []
    ensures Sum(xs) - (|xs| as real) * Mean(xs) == 0.0
  {
  }

  lemma SpreadSquared(xs: seq<real>, mean: real, sqrt: real -> real)
    requires IsSqrt(sqrt) && |xs| >= 2
    ensures Stddev(xs, mean, sqrt) >= 0.0
    ensures SumSquares(xs, mean, 0.0) == (|xs| as real) * (Stddev(xs, mean, sqrt) * Stddev(xs, mean, sqrt))
  {
    SumSquaresNonneg(xs, mean);
    var v := SumSquares(xs, mean, 0.0) / (|xs| as real);
    assert v >= 0.0;
    assert sqrt(v) * sqrt(v) == v;
  }

  lemma FlagCount(rs: seq<Run>, mean: real, s: real, sigma: real, recentCutoff: real, t: real, d: real)
    requires s > 0.0 && d == t * s
    ensures var fs := Flag(rs, mean, s, sigma, recentCutoff);
            && Reaching(fs, t) <= CountAbove(Costs(rs), mean, d)
            && forall f :: f in fs ==> f.sigmaAbove.Finite? && f.sigmaAbove.value >= sigma && f.stddev == s
  {
    forall r | r in rs ensures Scaled(r, mean, s, sigma, recentCutoff, t, d) {
      IsScaled(r, mean, s, sigma, recentCutoff, t, d);
    }
    ReachingCount(rs, mean, s, sigma, recentCutoff, t, d);
  }

  lemma SpreadBound(rs: seq<Run>, n: real, mean: real, s: real, sigma: real, recentCutoff: real, t: real,
                    d: real, ss: real, q: real, k: real)
    requires n == |rs| as real && Sum(Costs(rs)) - n * mean == 0.0
    requires s > 0.0 && t > 0.0 && d == t * s && ss == s * s && q == 1.0 + t * t
    requires SumSquares(Costs(rs), mean, 0.0) == n * ss
    requires k == Reaching(Flag(rs, mean, s, sigma, recentCutoff), t) as real
    ensures k * q <= n
  {
    FlagCount(rs, mean, s, sigma, recentCutoff, t, d);
    OneSidedBound(Costs(rs), n, mean, s, t, d, ss, q, k);
  }

  lemma OrgBound(rs: seq<Run>, n: real, mean: real, s: real, sigma: real, recentCutoff: real, t: real,
                 ss: real, q: real, k: real)
    requires n == |rs| as real && Sum(Costs(rs)) - n * mean == 0.0
    requires s >= 0.0 && ss == s * s && SumSquares(Costs(rs), mean, 0.0) == n * ss
    requires t > 0.0 && q == 1.0 + t * t
    requires k == Reaching(Flag(rs, mean, s, sigma, recentCutoff), t) as real
    ensures k * q <= n
  {
    hide Flag, Costs, Sum, SumSquares;
    if s == 0.0 {
      assert ss == 0.0;
      NoSpread(rs, mean, sigma, recentCutoff);
      assert k == 0.0;
    } else {
      SpreadBound(rs, n, mean, s, sigma, recentCutoff, t, t * s, ss, q, k);
    }
  }

  lemma OrgFinite(rs: seq<Run>, mean: real, s: real, sigma: real, recentCutoff: real)
    requires s >= 0.0 && (s == 0.0 ==> SumSquares(Costs(rs), mean, 0.0) <= 0.0)
    ensures forall f :: f in Flag(rs, mean, s, sigma, recentCutoff) ==>
              f.sigmaAbove.Finite? && f.sigmaAbove.value >= sigma && f.stddev > 0.0
  {
    if s == 0.0 {
      NoSpread(rs, mean, sigma, recentCutoff);
    } else {
      FlagCount(rs, mean, s, sigma, recentCutoff, 0.0, 0.0);
    }
  }

  lemma OrgFlags(rs: seq<Run>, sigma: real, recentCutoff: real, sqrt: real -> real)
    requires |rs| >= MIN_BASELINE_RUNS
    ensures var xs := Costs(rs);
            OrgFindings(rs, sigma, recentCutoff, sqrt) == Flag(rs, Mean(xs), Stddev(xs, Mean(xs), sqrt), sigma, recentCutoff)
  {
  }

  lemma NoOrgFlags(rs: seq<Run>, sigma: real, recentCutoff: real, sqrt: real -> real, t: real)
    requires |rs| < MIN_BASELINE_RUNS
    ensures Reaching(OrgFindings(rs, sigma, recentCutoff, sqrt), t) == 0
  {
  }

  /**
   * Main result: for every org history of n runs, every trigger threshold and every t > 0, the number k of
   * runs flagged at t standard deviations or more satisfies k * (1 + t * t) <= n.
   */
  lemma FlaggedRunsBound(rs: seq<Run>, sigma: real, recentCutoff: real, sqrt: real -> real, t: real, q: real, k: real)
    requires IsSqrt(sqrt) && t > 0.0 && q == 1.0 + t * t
    requires k == Reaching(OrgFindings(rs, sigma, recentCutoff, sqrt), t) as real
    ensures k * q <= |rs| as real
  {
    hide IsSqrt, OrgFindings, Reaching, Flag, Costs, Mean, Stddev, Sum, SumSquares;
    if |rs| >= MIN_BASELINE_RUNS {
      var xs := Costs(rs);
      OrgFlags(rs, sigma, recentCutoff, sqrt);
      SpreadSquared(xs, Mean(xs), sqrt);
      MeanCancels(xs);
      var s := Stddev(xs, Mean(xs), sqrt);
      OrgBound(rs, |xs| as real, Mean(xs), s, sigma, recentCutoff, t, s * s, q, k);
    } else {
      NoOrgFlags(rs, sigma, recentCutoff, sqrt, t);
    }
  }

  /** The branch for a zero standard deviation never flags anything: every finding is a finite number of
      standard deviations, at least `sigma`, above the mean. */
  lemma FindingsAreFinite(rs: seq<Run>, sigma: real, recentCutoff: real, sqrt: real -> real)
    requires IsSqrt(sqrt)
    ensures forall f :: f in OrgFindings(rs, sigma, recentCutoff, sqrt) ==>
              f.sigmaAbove.Finite? && f.sigmaAbove.value >= sigma && f.stddev > 0.0
  {
    if |rs| >= MIN_BASELINE_RUNS {
      var xs := Costs(rs);
      var s := Stddev(xs, Mean(xs), sqrt);
      SpreadSquared(xs, Mean(xs), sqrt);
      if s == 0.0 {
        assert s * s == 0.0;
      }
      OrgFinite(rs, Mean(xs), s, sigma, recentCutoff);
    }
  }

  lemma {:induction false} ReachingMember(fs: seq<Finding>, f: Finding, t: real)
    requires f in fs && Reaches(f, t)
    ensures Reaching(fs, t) >= 1
  {
    if f in fs[..|fs| - 1] {
      ReachingMember(fs[..|fs| - 1], f, t);
    }
  }

  /** What a finding takes: a trigger at 2 standard deviations needs 5 runs, a warning 10, a critical
      alert 17; in general a finding at `t` or more needs 1 + t * t runs. */
  lemma FindingNeedsRuns(rs: seq<Run>, sigma: real, recentCutoff: real, sqrt: real -> real, f: Finding)
    requires IsSqrt(sqrt) && f in OrgFindings(rs, sigma, recentCutoff, sqrt)
    ensures sigma >= 2.0 ==> |rs| >= 5
    ensures SeverityOf(f) != Info ==> |rs| >= 10
    ensures SeverityOf(f) == Critical ==> |rs| >= 17
  {
    FindingsAreFinite(rs, sigma, recentCutoff, sqrt);
    if sigma >= 2.0 {
      NeedsRuns(rs, sigma, recentCutoff, sqrt, f, 2.0, 5.0);
    }
    if SeverityOf(f) != Info {
      NeedsRuns(rs, sigma, recentCutoff, sqrt, f, 3.0, 10.0);
    }
    if SeverityOf(f) == Critical {
      NeedsRuns(rs, sigma, recentCutoff, sqrt, f, 4.0, 17.0);
    }
  }

  lemma NeedsRuns(rs: seq<Run>, sigma: real, recentCutoff: real, sqrt: real -> real, f: Finding, t: real, q: real)
    requires IsSqrt(sqrt) && t > 0.0 && q == 1.0 + t * t
    requires f in OrgFindings(rs, sigma, recentCutoff, sqrt) && Reaches(f, t)
    ensures q <= |rs| as real
  {
    hide IsSqrt, OrgFindings, Reaching, Reaches;
    var k := Reaching(OrgFindings(rs, sigma, recentCutoff, sqrt), t);
    ReachingMember(OrgFindings(rs, sigma, recentCutoff, sqrt), f, t);
    FlaggedRunsBound(rs, sigma, recentCutoff, sqrt, t, q, k as real);
    OneTimes(k as real, q, |rs| as real);
  }

  lemma OneTimes(k: real, q: real, n: real)
    requires k >= 1.0 && q >= 0.0 && k * q <= n
    ensures q <= n
  {
    assert (k - 1.0) * q >= 0.0;
  }

  // ---- The bound is sharp -------------------------------------------------------------------

  function Quiet(n: nat, at: real): seq<Run> {
    seq(n, _ => Run("quiet", 0, true, Some(at), Some(0.0)))
  }

  /** n - 1 free runs and one that costs n. */
  function Spike(n: nat, at: real): (rs: seq<Run>)
    requires n >= 1
    ensures |rs| == n
  {
    Quiet(n - 1, at) + [Run("spike", 0, true, Some(at), Some(n as real))]
  }

  lemma OneMoreFree(xs: seq<real>, ys: seq<real>)
    requires ys == xs + [0.0]
    ensures Sum(ys) == Sum(xs) && SumSquares(ys, 1.0, 0.0) == SumSquares(xs, 1.0, 0.0) + 1.0
  {
    assert ys[..|ys| - 1] == xs;
  }

  lemma {:induction false} QuietSums(n: nat, at: real)
    ensures Sum(Costs(Quiet(n, at))) == 0.0
    ensures SumSquares(Costs(Quiet(n, at)), 1.0, 0.0) == n as real
  {
    if n > 0 {
      QuietSums(n - 1, at);
      assert Quiet(n, at)[..n - 1] == Quiet(n - 1, at);
      OneMoreFree(Costs(Quiet(n - 1, at)), Costs(Quiet(n, at)));
    }
  }

  lemma SpikeMoments(n: nat, at: real, xs: seq<real>, nr: real)
    requires n >= 1 && xs == Costs(Spike(n, at)) && nr == n as real
    ensures |xs| as real == nr && Sum(xs) == nr
    ensures SumSquares(xs, 1.0, 0.0) == nr - 1.0 + Square(nr - 1.0 + 0.0)
  {
    var ys := Costs(Quiet(n - 1, at));
    SpikeCosts(n, at, xs, ys);
    hide Square, Sum, SumSquares, Costs, Quiet, Spike;
    QuietSums(n - 1, at);
    OneMoreCost(ys, nr);
    assert (n - 1) as real == nr - 1.0;
  }

  lemma SpikeCosts(n: nat, at: real, xs: seq<real>, ys: seq<real>)
    requires n >= 1 && xs == Costs(Spike(n, at)) && ys == Costs(Quiet(n - 1, at))
    ensures xs == ys + [n as real] && |xs| == n
  {
    assert Spike(n, at)[..n - 1] == Quiet(n - 1, at);
  }

  lemma OneMoreCost(ys: seq<real>, x: real)
    ensures Sum(ys + [x]) == Sum(ys) + x
    ensures SumSquares(ys + [x], 1.0, 0.0) == SumSquares(ys, 1.0, 0.0) + Square(x - 1.0 + 0.0)
  {
    hide Square;
    assert (ys + [x])[..|ys|] == ys;
  }

  lemma SpikeVariance(nr: real, squares: real)
    requires nr > 0.0 && squares == nr - 1.0 + Square(nr - 1.0 + 0.0)
    ensures squares / nr == nr - 1.0
  {
    assert Square(nr - 1.0 + 0.0) == nr * nr - 2.0 * nr + 1.0;
    Ratio(squares, nr);
  }

  lemma MeanOne(xs: seq<real>, nr: real)
    requires nr > 0.0 && |xs| as real == nr && Sum(xs) == nr
    ensures xs != [] && Mean(xs) == 1.0
  {
    hide Sum;
    assert nr / nr == 1.0;
  }

  lemma SpikeSpread(n: nat, at: real, sqrt: real -> real, xs: seq<real>, nr: real)
    requires IsSqrt(sqrt) && n >= 2 && xs == Costs(Spike(n, at)) && nr == n as real
    ensures xs != [] && Mean(xs) == 1.0
    ensures var s := Stddev(xs, 1.0, sqrt); s >= 0.0 && s * s == nr - 1.0
  {
    hide IsSqrt, Sum, SumSquares, Costs, Spike, Square, Mean;
    SpikeMoments(n, at, xs, nr);
    MeanOne(xs, nr);
    SpikeVariance(nr, SumSquares(xs, 1.0, 0.0));
    SpreadOf(sqrt, Stddev(xs, 1.0, sqrt), nr - 1.0);
  }

  lemma SpikeFires(n: nat, sigma: real, at: real, sqrt: real -> real)
    requires IsSqrt(sqrt) && n >= MIN_BASELINE_RUNS && (sigma > 0.0 ==> Square(sigma) <= n as real - 1.0)
    ensures OrgFindings(Spike(n, at), sigma, at, sqrt) != []
  {
    hide IsSqrt, Flag, Judge, Costs, Mean, Stddev, Square;
    var xs, nr := Costs(Spike(n, at)), n as real;
    SpikeSpread(n, at, sqrt, xs, nr);
    var s := Stddev(xs, 1.0, sqrt);
    RootDominates(s, sigma, nr - 1.0);
    LastFlagged(Spike(n, at), nr, s, sigma, at);
  }

  lemma SpreadOf(sqrt: real -> real, s: real, v: real)
    requires IsSqrt(sqrt) && v >= 0.0 && s == sqrt(v)
    ensures s >= 0.0 && s * s == v
  {
  }

  lemma LastFlagged(rs: seq<Run>, cost: real, s: real, sigma: real, at: real)
    requires rs != [] && rs[|rs| - 1] == Run("spike", 0, true, Some(at), Some(cost))
    requires s > 0.0 && (cost - 1.0) / s >= sigma
    ensures Flag(rs, 1.0, s, sigma, at) != []
  {
    assert Judge(rs[|rs| - 1], 1.0, s, sigma, at).Some?;
  }

  lemma Ratio(squares: real, n: real)
    requires n > 0.0 && squares == n * n - n
    ensures squares / n == n - 1.0
  {
    var y := squares / n;
    assert y * n == squares == (n - 1.0) * n;
    var z := y - (n - 1.0);
    assert Times(z, n) == 0.0 == Times(-z, n);
    if z > 0.0 {
      Positive(z, n);
    } else if z < 0.0 {
      Positive(-z, n);
    }
  }

  lemma RootDominates(s: real, sigma: real, d: real)
    requires s >= 0.0 && d > 0.0 && s * s == d && (sigma > 0.0 ==> Square(sigma) <= d)
    ensures s > 0.0 && d / s >= sigma
  {
    assert Times(sigma - s, sigma + s) == Square(sigma) - s * s;
    assert sigma <= 0.0 ==> sigma < s || s == 0.0;
    if 0.0 < sigma && s < sigma {
      Positive(sigma - s, sigma + s);
    }
    assert d / s == s;
  }

  /**
   * Main result: n runs can trigger an alert at `sigma` exactly when they are enough for a baseline and, for a
   * positive threshold, n is at least 1 + sigma * sigma.
   */
  lemma CanFireIff(n: nat, sigma: real, recentCutoff: real, sqrt: real -> real)
    requires IsSqrt(sqrt)
    ensures (exists rs: seq<Run> :: |rs| == n && OrgFindings(rs, sigma, recentCutoff, sqrt) != []) <==>
            n >= MIN_BASELINE_RUNS && (sigma > 0.0 ==> 1.0 + Square(sigma) <= n as real)
  {
    if n >= MIN_BASELINE_RUNS && (sigma > 0.0 ==> 1.0 + Square(sigma) <= n as real) {
      SpikeFires(n, sigma, recentCutoff, sqrt);
      assert |Spike(n, recentCutoff)| == n;
    }
    forall rs: seq<Run> | |rs| == n && OrgFindings(rs, sigma, recentCutoff, sqrt) != []
      ensures n >= MIN_BASELINE_RUNS && (sigma > 0.0 ==> 1.0 + Square(sigma) <= n as real)
    {
      if sigma > 0.0 {
        var f := OrgFindings(rs, sigma, recentCutoff, sqrt)[0];
        FindingsAreFinite(rs, sigma, recentCutoff, sqrt);
        NeedsRuns(rs, sigma, recentCutoff, sqrt, f, sigma, 1.0 + Square(sigma));
      }
    }
  }
}
