/**
 * The producer of cost-regression alerts over a table of runs: which runs it reports, and with what.
 */
module CostReport {
  import opened Lists
  import opened Reals
  import opened Sorting
  import opened CostAlerts

  // ---- The producer over a table of runs ----------------------------------------------------

  function Selected(table: seq<Run>, baselineCutoff: real): seq<Run> {
    if table == [] then []
    else
      var r := table[|table| - 1];
      Selected(table[..|table| - 1], baselineCutoff) +
      (if r.done && r.createdAt.Some? && r.createdAt.value >= baselineCutoff then [r] else [])
  }

  function OrgRuns(rows: seq<Run>, org: int): seq<Run> {
    if rows == [] then []
    else OrgRuns(rows[..|rows| - 1], org) + (if rows[|rows| - 1].orgId == org then [rows[|rows| - 1]] else [])
  }

  /** The orgs in the order in which they first appear. */
  function Orgs(rows: seq<Run>): seq<int> {
    if rows == [] then []
    else
      var before := Orgs(rows[..|rows| - 1]);
      if rows[|rows| - 1].orgId in before then before else before + [rows[|rows| - 1].orgId]
  }

  function Collected(orgs: seq<int>, rows: seq<Run>, sigma: real, recentCutoff: real, sqrt: real -> real): seq<Finding> {
    if orgs == [] then []
    else
      Collected(orgs[..|orgs| - 1], rows, sigma, recentCutoff, sqrt) +
      OrgFindings(OrgRuns(rows, orgs[|orgs| - 1]), sigma, recentCutoff, sqrt)
  }

  predicate Worse(f: Finding, g: Finding) {
    match (f.sigmaAbove, g.sigmaAbove)
    case (Infinite, Finite(_)) => true
    case (Finite(a), Finite(b)) => a > b
    case _ => false
  }

  method FlagRuns(orgRuns: seq<Run>, mean: real, stddev: real, sigma: real, recentCutoff: real) returns (findings: seq<Finding>)
    ensures findings == Flag(orgRuns, mean, stddev, sigma, recentCutoff)
  {
    findings := [];
    for i := 0 to |orgRuns|
      invariant findings == Flag(orgRuns[..i], mean, stddev, sigma, recentCutoff)
    {
      var r := orgRuns[i];
      assert orgRuns[..i + 1][..i] == orgRuns[..i];
      if r.createdAt.None? || r.createdAt.value < recentCutoff {
        continue;
      }
      var above: Sigmas;
      if stddev == 0.0 {
        if Cost(r) <= mean {
          continue;
        }
        above := Infinite;
      } else {
        above := Finite((Cost(r) - mean) / stddev);
        if above.value < sigma {
          continue;
        }
      }
      findings := findings + [Finding(r.orgId, r.runId, Cost(r), mean, stddev, above)];
    }
    assert orgRuns[..|orgRuns|] == orgRuns;
  }

  method GroupByOrg(rows: seq<Run>) returns (byOrg: map<int, seq<Run>>, order: seq<int>)
    ensures order == Orgs(rows)
    ensures forall org :: org in order <==> org in byOrg
    ensures forall org :: org in byOrg ==> byOrg[org] == OrgRuns(rows, org)
  {
    byOrg, order := map[], [];
    for i := 0 to |rows|
      invariant order == Orgs(rows[..i])
      invariant forall org :: org in order <==> org in byOrg
      invariant forall org :: org in byOrg ==> byOrg[org] == OrgRuns(rows[..i], org)
      invariant forall org :: org !in byOrg ==> OrgRuns(rows[..i], org) == []
    {
      assert rows[..i + 1][..i] == rows[..i];
      var org := rows[i].orgId;
      if org !in byOrg {
        byOrg, order := byOrg[org := []], order + [org];
      }
      byOrg := byOrg[org := byOrg[org] + [rows[i]]];
    }
    assert rows[..|rows|] == rows;
  }

  method FlagOrg(orgRuns: seq<Run>, sigma: real, recentCutoff: real, sqrt: real -> real) returns (findings: seq<Finding>)
    ensures findings == OrgFindings(orgRuns, sigma, recentCutoff, sqrt)
  {
    if |orgRuns| < MIN_BASELINE_RUNS {
      return [];
    }
    var mean := Mean(Costs(orgRuns));
    findings := FlagRuns(orgRuns, mean, Stddev(Costs(orgRuns), mean, sqrt), sigma, recentCutoff);
  }

  method SelectRuns(table: seq<Run>, baselineCutoff: real) returns (rows: seq<Run>)
    ensures rows == Selected(table, baselineCutoff)
  {
    rows := [];
    for i := 0 to |table|
      invariant rows == Selected(table[..i], baselineCutoff)
    {
      assert table[..i + 1][..i] == table[..i];
      var r := table[i];
      if r.done && r.createdAt.Some? && r.createdAt.value >= baselineCutoff {
        rows := rows + [r];
      }
    }
    assert table[..|table|] == table;
  }

  /** compute_cost_regression_alerts: select, group by org, flag, and sort the worst first. */
  method ComputeCostRegressionAlerts(table: seq<Run>, sigma: real, baselineCutoff: real, recentCutoff: real, sqrt: real -> real)
    returns (findings: seq<Finding>)
    ensures var rows := Selected(table, baselineCutoff);
            findings == SortDown(Collected(Orgs(rows), rows, sigma, recentCutoff, sqrt), Worse)
    ensures IsSqrt(sqrt) ==> forall f :: multiset(findings)[f] == TimesReported(table, sigma, baselineCutoff, recentCutoff, f)
  {
    var rows := SelectRuns(table, baselineCutoff);
    var byOrg, order := GroupByOrg(rows);
    findings := [];
    for i := 0 to |order|
      invariant findings == Collected(order[..i], rows, sigma, recentCutoff, sqrt)
    {
      assert order[..i + 1][..i] == order[..i];
      var org := order[i];
      assert org in order;
      var found := FlagOrg(byOrg[org], sigma, recentCutoff, sqrt);
      findings := findings + found;
    }
    assert order[..|order|] == order;
    findings := SortDown(findings, Worse);
    if IsSqrt(sqrt) {
      forall f ensures multiset(findings)[f] == TimesReported(table, sigma, baselineCutoff, recentCutoff, f) {
        ReportExact(table, sigma, baselineCutoff, recentCutoff, sqrt, f);
      }
    }
  }

  lemma {:induction false} OrgRunsOf(rows: seq<Run>, org: int)
    ensures forall r :: r in OrgRuns(rows, org) <==> r in rows && r.orgId == org
    ensures org in Orgs(rows) <==> OrgRuns(rows, org) != []
  {
    if rows != [] {
      OrgRunsOf(rows[..|rows| - 1], org);
      assert rows == rows[..|rows| - 1] + [rows[|rows| - 1]];
    }
  }

  lemma {:induction false} FlagOrgIds(rs: seq<Run>, org: int, mean: real, stddev: real, sigma: real, recentCutoff: real)
    requires forall r :: r in rs ==> r.orgId == org
    ensures forall f :: f in Flag(rs, mean, stddev, sigma, recentCutoff) ==> f.orgId == org
  {
    if rs != [] {
      FlagOrgIds(rs[..|rs| - 1], org, mean, stddev, sigma, recentCutoff);
    }
  }

  lemma OrgFindingIds(rs: seq<Run>, org: int, sigma: real, recentCutoff: real, sqrt: real -> real)
    requires forall r :: r in rs ==> r.orgId == org
    ensures forall f :: f in OrgFindings(rs, sigma, recentCutoff, sqrt) ==> f.orgId == org
  {
    if |rs| >= MIN_BASELINE_RUNS {
      var mean := Mean(Costs(rs));
      FlagOrgIds(rs, org, mean, Stddev(Costs(rs), mean, sqrt), sigma, recentCutoff);
    }
  }

  lemma {:induction false} CollectedFrom(orgs: seq<int>, rows: seq<Run>, sigma: real, recentCutoff: real, sqrt: real -> real, f: Finding)
    ensures f in Collected(orgs, rows, sigma, recentCutoff, sqrt) <==>
            f.orgId in orgs && f in OrgFindings(OrgRuns(rows, f.orgId), sigma, recentCutoff, sqrt)
  {
    if orgs != [] {
      var init, org := orgs[..|orgs| - 1], orgs[|orgs| - 1];
      CollectedFrom(init, rows, sigma, recentCutoff, sqrt, f);
      OrgRunsOf(rows, org);
      OrgFindingIds(OrgRuns(rows, org), org, sigma, recentCutoff, sqrt);
      assert f.orgId in orgs <==> f.orgId in init || f.orgId == org by {
        assert orgs == init + [org];
      }
      var found := OrgFindings(OrgRuns(rows, org), sigma, recentCutoff, sqrt);
      assert Collected(orgs, rows, sigma, recentCutoff, sqrt) ==
             Collected(init, rows, sigma, recentCutoff, sqrt) + found;
    }
  }

  /** What compute_cost_regression_alerts reports: exactly the findings of every org's own history, the worst
      first; each is a finite deviation of `sigma` or more, and a critical one has 17 runs behind it. */
  lemma ReportedFindings(rows: seq<Run>, sigma: real, recentCutoff: real, sqrt: real -> real, f: Finding)
    requires IsSqrt(sqrt)
    ensures var report := SortDown(Collected(Orgs(rows), rows, sigma, recentCutoff, sqrt), Worse);
            && Descending(report, Worse)
            && (f in report <==> f in OrgFindings(OrgRuns(rows, f.orgId), sigma, recentCutoff, sqrt))
            && (f in report ==> f.sigmaAbove.Finite? && f.sigmaAbove.value >= sigma)
            && (f in report && SeverityOf(f) == Critical ==> |OrgRuns(rows, f.orgId)| >= 17)
  {
    var all := Collected(Orgs(rows), rows, sigma, recentCutoff, sqrt);
    Sorted(all, Worse);
    assert f in SortDown(all, Worse) <==> f in all by {
      assert f in SortDown(all, Worse) <==> f in multiset(SortDown(all, Worse));
      assert f in all <==> f in multiset(all);
    }
    var rs := OrgRuns(rows, f.orgId);
    CollectedFrom(Orgs(rows), rows, sigma, recentCutoff, sqrt, f);
    OrgRunsOf(rows, f.orgId);
    if f in OrgFindings(rs, sigma, recentCutoff, sqrt) {
      FindingsAreFinite(rs, sigma, recentCutoff, sqrt);
      FindingNeedsRuns(rs, sigma, recentCutoff, sqrt, f);
    }
  }

  // ---- What the report holds ----------------------------------------------------------------

  /** A successful run of the org inside the lookback window. */
  predicate InBaseline(r: Run, org: int, baselineCutoff: real) {
    r.orgId == org && r.done && r.createdAt.Some? && baselineCutoff <= r.createdAt.value
  }

  /** The history of an org, in table order. */
  function Baseline(table: seq<Run>, org: int, baselineCutoff: real): seq<Run> {
    if table == [] then []
    else (if InBaseline(table[0], org, baselineCutoff) then [table[0]] else []) + Baseline(table[1..], org, baselineCutoff)
  }

  lemma {:induction false} BaselineSnoc(table: seq<Run>, r: Run, org: int, baselineCutoff: real)
    ensures Baseline(table + [r], org, baselineCutoff) ==
            Baseline(table, org, baselineCutoff) + (if InBaseline(r, org, baselineCutoff) then [r] else [])
  {
    if table == [] {
      assert table + [r] == [r] && [r][1..] == [];
    } else {
      assert (table + [r])[1..] == table[1..] + [r];
      BaselineSnoc(table[1..], r, org, baselineCutoff);
    }
  }

  lemma {:induction false} BaselineIs(table: seq<Run>, org: int, baselineCutoff: real)
    ensures OrgRuns(Selected(table, baselineCutoff), org) == Baseline(table, org, baselineCutoff)
  {
    if table != [] {
      var init, r := table[..|table| - 1], table[|table| - 1];
      var before := Selected(init, baselineCutoff);
      BaselineIs(init, org, baselineCutoff);
      BaselineSnoc(init, r, org, baselineCutoff);
      assert init + [r] == table;
      assert (before + [r])[..|before|] == before && before + [] == before;
      assert (before + [r])[|before|] == r;
    }
  }

  /** Mean and spread of a baseline, by what they are. */
  predicate Statistics(xs: seq<real>, mean: real, spread: real) {
    mean * (|xs| as real) == Sum(xs) && spread >= 0.0 && spread * spread * (|xs| as real) == SumSquares(xs, mean, 0.0)
  }

  /** `r` is recent and costs at least `sigma` spreads more than the mean. */
  predicate Regresses(r: Run, sigma: real, recentCutoff: real, mean: real, spread: real) {
    r.createdAt.Some? && recentCutoff <= r.createdAt.value && Cost(r) - mean >= sigma * spread
  }

  /** The finding that a regressing run gets. */
  predicate Tells(f: Finding, r: Run, mean: real, spread: real) {
    && f.orgId == r.orgId && f.runId == r.runId && f.cost == Cost(r) && f.mean == mean && f.stddev == spread
    && f.sigmaAbove.Finite? && f.sigmaAbove.value * spread == Cost(r) - mean
  }

  /** How many runs of a history are to be reported as `f`. */
  function Matching(rs: seq<Run>, f: Finding, sigma: real, recentCutoff: real): nat {
    if rs == [] then 0
    else
      (if Regresses(rs[0], sigma, recentCutoff, f.mean, f.stddev) && Tells(f, rs[0], f.mean, f.stddev) then 1 else 0) +
      Matching(rs[1..], f, sigma, recentCutoff)
  }

  /**
   * How often `f` is to be reported: not at all unless it states the mean and the positive spread of a baseline of
   * three runs or more, else once for each run that it tells of.
   */
  function TimesReported(table: seq<Run>, sigma: real, baselineCutoff: real, recentCutoff: real, f: Finding): nat {
    var rs := Baseline(table, f.orgId, baselineCutoff);
    if |rs| >= 3 && f.stddev > 0.0 && Statistics(Costs(rs), f.mean, f.stddev) then Matching(rs, f, sigma, recentCutoff) else 0
  }

  lemma {:induction false} MatchingSnoc(rs: seq<Run>, r: Run, f: Finding, sigma: real, recentCutoff: real)
    ensures Matching(rs + [r], f, sigma, recentCutoff) ==
            Matching(rs, f, sigma, recentCutoff) +
            (if Regresses(r, sigma, recentCutoff, f.mean, f.stddev) && Tells(f, r, f.mean, f.stddev) then 1 else 0)
  {
    hide Regresses, Tells;
    if rs == [] {
      assert rs + [r] == [r] && [r][1..] == [];
    } else {
      assert (rs + [r])[1..] == rs[1..] + [r];
      MatchingSnoc(rs[1..], r, f, sigma, recentCutoff);
    }
  }

  lemma JudgedRight(r: Run, f: Finding, mean: real, s: real, sigma: real, recentCutoff: real)
    requires s > 0.0
    ensures (match Judge(r, mean, s, sigma, recentCutoff)
             case Some(above) => f == Finding(r.orgId, r.runId, Cost(r), mean, s, above)
             case None => false)
            <==> f.mean == mean && f.stddev == s && Regresses(r, sigma, recentCutoff, mean, s) && Tells(f, r, mean, s)
  {
    var d := Cost(r) - mean;
    var q := d / s;
    assert q * s == d;
    OverIff(d, s, sigma);
    if f.sigmaAbove.Finite? && f.sigmaAbove.value * s == d {
      SameFactor(f.sigmaAbove.value, q, s);
    }
  }

  lemma OverIff(d: real, s: real, sigma: real)
    requires s > 0.0
    ensures d / s >= sigma <==> d >= sigma * s
  {
    if d / s >= sigma {
      MultiplyOut(d, s, sigma);
    } else {
      var q := d / s;
      assert q * s == d;
      Positive(sigma - q, s);
      assert Times(sigma - q, s) == sigma * s - q * s;
    }
  }

  lemma SameFactor(a: real, b: real, s: real)
    requires s > 0.0 && a * s == b * s
    ensures a == b
  {
    assert Times(a - b, s) == a * s - b * s && Times(b - a, s) == b * s - a * s;
    if a > b {
      Positive(a - b, s);
    } else if b > a {
      Positive(b - a, s);
    }
  }

  lemma {:induction false} FlagMatches(rs: seq<Run>, f: Finding, mean: real, s: real, sigma: real, recentCutoff: real)
    requires s > 0.0
    ensures multiset(Flag(rs, mean, s, sigma, recentCutoff))[f] ==
            if f.mean == mean && f.stddev == s then Matching(rs, f, sigma, recentCutoff) else 0
  {
    if rs != [] {
      var init, r := rs[..|rs| - 1], rs[|rs| - 1];
      FlagMatches(init, f, mean, s, sigma, recentCutoff);
      MatchingSnoc(init, r, f, sigma, recentCutoff);
      assert init + [r] == rs;
      JudgedRight(r, f, mean, s, sigma, recentCutoff);
      hide Judge, Regresses, Tells, Matching;
    }
  }

  lemma MeanIs(xs: seq<real>, mean: real)
    requires xs != []
    ensures mean * (|xs| as real) == Sum(xs) <==> mean == Mean(xs)
  {
    var n := |xs| as real;
    MeanCancels(xs);
    assert Mean(xs) * n == Sum(xs);
    if mean * n == Sum(xs) {
      SameFactor(mean, Mean(xs), n);
    }
  }

  lemma SpreadIs(xs: seq<real>, sqrt: real -> real, mean: real, spread: real)
    requires IsSqrt(sqrt) && |xs| >= 2
    ensures Statistics(xs, mean, spread) <==> mean == Mean(xs) && spread == Stddev(xs, Mean(xs), sqrt)
  {
    var n, s := |xs| as real, Stddev(xs, Mean(xs), sqrt);
    MeanIs(xs, mean);
    SpreadSquared(xs, Mean(xs), sqrt);
    assert s * s * n == n * (s * s);
    hide SumSquares, Stddev, Mean, Sum, IsSqrt;
    if Statistics(xs, mean, spread) {
      SameFactor(spread * spread, s * s, n);
      assert Square(spread) == Square(s);
      RootOrder(spread, s);
      RootOrder(s, spread);
    }
  }

  lemma OrgReports(rs: seq<Run>, f: Finding, sigma: real, recentCutoff: real, sqrt: real -> real)
    requires IsSqrt(sqrt)
    ensures multiset(OrgFindings(rs, sigma, recentCutoff, sqrt))[f] ==
            if |rs| >= 3 && f.stddev > 0.0 && Statistics(Costs(rs), f.mean, f.stddev) then Matching(rs, f, sigma, recentCutoff) else 0
  {
    if |rs| >= 3 {
      var xs := Costs(rs);
      var mean, s := Mean(xs), Stddev(xs, Mean(xs), sqrt);
      SpreadSquared(xs, mean, sqrt);
      SpreadIs(xs, sqrt, f.mean, f.stddev);
      FindingsAreFinite(rs, sigma, recentCutoff, sqrt);
      hide SumSquares, Mean, Sum, Flag, Matching, Stddev, Statistics, Costs;
      if s > 0.0 {
        FlagMatches(rs, f, mean, s, sigma, recentCutoff);
      } else {
        assert f in OrgFindings(rs, sigma, recentCutoff, sqrt) ==> f.stddev > 0.0;
        FlagStddev(rs, mean, s, sigma, recentCutoff);
        assert f !in OrgFindings(rs, sigma, recentCutoff, sqrt);
      }
    }
  }

  lemma {:induction false} FlagStddev(rs: seq<Run>, mean: real, s: real, sigma: real, recentCutoff: real)
    ensures forall f :: f in Flag(rs, mean, s, sigma, recentCutoff) ==> f.stddev == s
  {
    if rs != [] {
      FlagStddev(rs[..|rs| - 1], mean, s, sigma, recentCutoff);
    }
  }

  predicate Different(orgs: seq<int>) {
    forall i, j | 0 <= i < j < |orgs| :: orgs[i] != orgs[j]
  }

  lemma {:induction false} OrgsDiffer(rows: seq<Run>)
    ensures Different(Orgs(rows))
  {
    if rows != [] {
      OrgsDiffer(rows[..|rows| - 1]);
    }
  }

  lemma {:induction false} CollectedTimes(orgs: seq<int>, rows: seq<Run>, sigma: real, recentCutoff: real, sqrt: real -> real, f: Finding)
    requires Different(orgs)
    ensures multiset(Collected(orgs, rows, sigma, recentCutoff, sqrt))[f] ==
            if f.orgId in orgs then multiset(OrgFindings(OrgRuns(rows, f.orgId), sigma, recentCutoff, sqrt))[f] else 0
  {
    hide OrgFindings;
    if orgs != [] {
      var init, org := orgs[..|orgs| - 1], orgs[|orgs| - 1];
      CollectedTimes(init, rows, sigma, recentCutoff, sqrt, f);
      OrgRunsOf(rows, org);
      OrgFindingIds(OrgRuns(rows, org), org, sigma, recentCutoff, sqrt);
      assert orgs == init + [org] && org !in init;
      var found := OrgFindings(OrgRuns(rows, org), sigma, recentCutoff, sqrt);
      assert f.orgId != org ==> f !in found;
    }
  }

  /**
   * Main result: the report holds a finding exactly as often as there are recent runs, in an org with three or more
   * successful runs in the lookback window, that lie at least `sigma` times the positive spread of those runs above
   * their mean and that the finding tells of.
   */
  lemma ReportExact(table: seq<Run>, sigma: real, baselineCutoff: real, recentCutoff: real, sqrt: real -> real, f: Finding)
    requires IsSqrt(sqrt)
    ensures var rows := Selected(table, baselineCutoff);
            multiset(SortDown(Collected(Orgs(rows), rows, sigma, recentCutoff, sqrt), Worse))[f] ==
            TimesReported(table, sigma, baselineCutoff, recentCutoff, f)
  {
    var rows := Selected(table, baselineCutoff);
    var all := Collected(Orgs(rows), rows, sigma, recentCutoff, sqrt);
    Sorted(all, Worse);
    OrgsDiffer(rows);
    CollectedTimes(Orgs(rows), rows, sigma, recentCutoff, sqrt, f);
    OrgRunsOf(rows, f.orgId);
    BaselineIs(table, f.orgId, baselineCutoff);
    hide Collected, Selected, SortDown, OrgFindings, Statistics, Matching;
    OrgReports(OrgRuns(rows, f.orgId), f, sigma, recentCutoff, sqrt);
  }
}
