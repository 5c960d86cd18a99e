/**
 * Token and dollar accounting: the rate table, the running totals, the summary that the dashboard folds out
 * of a run's event log, and the difference between two runs. Dollars are exact reals.
 */
module Totals {
  import opened Lists

  datatype Provider = Anthropic | OpenAi | Gemini | Minimax | Ollama | Vllm | Sglang | OpenAiCompat

  datatype Role = Planner | Coder | Reviewer | Subagent

  datatype Usage = Usage(provider: Provider, input: nat, output: nat, cacheRead: nat, cacheWrite: nat)

  /** One tracked model call; `name` is the subagent's name, empty when there is none. */
  datatype Call = Call(role: Role, name: string, usage: Usage)

  datatype Bucket = Bucket(input: nat, output: nat, cacheRead: nat, cacheWrite: nat,
                           cost: real, saved: real, calls: nat, anthropicCalls: nat)

  datatype Totals = Totals(planner: Bucket, coder: Bucket, reviewer: Bucket, subagent: Bucket,
                           bySubagent: map<string, Bucket>, overall: Bucket)

  // ---- Rates --------------------------------------------------------------------------------

  /** Dollars per million tokens; None where the provider has no separate rate. */
  datatype Rates = Rates(input: real, output: real, cacheRead: Option<real>, cacheWrite: Option<real>)

  function ProviderRates(p: Provider): Rates {
    match p
    case Anthropic => Rates(5.0, 25.0, Some(0.5), Some(10.0))
    case OpenAi => Rates(2.5, 10.0, None, None)
    case Gemini => Rates(1.25, 5.0, None, None)
    case Minimax => Rates(1.0, 4.0, None, None)
    case _ => Rates(0.0, 0.0, None, None)
  }

  function OrZero(rate: Option<real>): real {
    if rate.Some? then rate.value else 0.0
  }

  function Charge(tokens: nat, rate: real): real {
    (tokens as real / 1000000.0) * rate
  }

  function EstimateCost(u: Usage): (cost: real)
    ensures cost >= 0.0
  {
    var r := ProviderRates(u.provider);
    Charge(u.input, r.input) + Charge(u.output, r.output) +
    Charge(u.cacheRead, OrZero(r.cacheRead)) + Charge(u.cacheWrite, OrZero(r.cacheWrite))
  }

  function CacheSavings(u: Usage): (saved: real)
    ensures saved >= 0.0
  {
    var r := ProviderRates(u.provider);
    if r.cacheRead.None? then 0.0 else Charge(u.cacheRead, r.input - r.cacheRead.value)
  }

  /** Two calls to one provider, billed together. */
  function Together(u: Usage, v: Usage): Usage {
    u.(input := u.input + v.input, output := u.output + v.output,
       cacheRead := u.cacheRead + v.cacheRead, cacheWrite := u.cacheWrite + v.cacheWrite)
  }

  /**
   * What a cost is: it adds up over the tokens of a provider, whichever way they are split into calls, and a million
   * tokens of one kind cost that kind's rate - nothing, if the provider has no rate for it.
   */
  lemma CostFromRates(u: Usage, v: Usage)
    requires u.provider == v.provider
    ensures EstimateCost(Together(u, v)) == EstimateCost(u) + EstimateCost(v)
    ensures CacheSavings(Together(u, v)) == CacheSavings(u) + CacheSavings(v)
    ensures var p, r := u.provider, ProviderRates(u.provider);
            && EstimateCost(Usage(p, 1000000, 0, 0, 0)) == r.input
            && EstimateCost(Usage(p, 0, 1000000, 0, 0)) == r.output
            && EstimateCost(Usage(p, 0, 0, 1000000, 0)) == OrZero(r.cacheRead)
            && EstimateCost(Usage(p, 0, 0, 0, 1000000)) == OrZero(r.cacheWrite)
  {
    var r := ProviderRates(u.provider);
    ChargeAdds(u.input, v.input, r.input);
    ChargeAdds(u.output, v.output, r.output);
    ChargeAdds(u.cacheRead, v.cacheRead, OrZero(r.cacheRead));
    ChargeAdds(u.cacheWrite, v.cacheWrite, OrZero(r.cacheWrite));
    if r.cacheRead.Some? {
      ChargeAdds(u.cacheRead, v.cacheRead, r.input - r.cacheRead.value);
    }
  }

  lemma ChargeAdds(m: nat, n: nat, rate: real)
    ensures Charge(m + n, rate) == Charge(m, rate) + Charge(n, rate)
    ensures Charge(1000000, rate) == rate && Charge(0, rate) == 0.0
  {
    assert (m + n) as real == m as real + n as real;
  }

  /** The same prompt without a cache: every cached token is ordinary input. */
  function Uncached(u: Usage): Usage {
    u.(input := u.input + u.cacheRead + u.cacheWrite, cacheRead := 0, cacheWrite := 0)
  }

  /**
   * The reported saving is what the cache really saved over a run without one exactly when the provider is
   * free, or wrote nothing to the cache, and (off Anthropic, whose reads alone have a rate) read nothing.
   */
  lemma SavingsExactIff(u: Usage)
    ensures CacheSavings(u) == EstimateCost(Uncached(u)) - EstimateCost(u) <==>
            ProviderRates(u.provider).input == 0.0 || (u.cacheWrite == 0 && (u.provider.Anthropic? || u.cacheRead == 0))
  {
    var r := ProviderRates(u.provider);
    assert Charge(u.input + u.cacheRead + u.cacheWrite, r.input) ==
           Charge(u.input, r.input) + Charge(u.cacheRead, r.input) + Charge(u.cacheWrite, r.input);
  }

  // ---- Running totals -----------------------------------------------------------------------

  const EMPTY: Bucket := Bucket(0, 0, 0, 0, 0.0, 0.0, 0, 0)

  const FRESH: Totals := Totals(EMPTY, EMPTY, EMPTY, EMPTY, map[], EMPTY)

  function Plus(b: Bucket, c: Bucket): Bucket {
    Bucket(b.input + c.input, b.output + c.output, b.cacheRead + c.cacheRead, b.cacheWrite + c.cacheWrite,
           b.cost + c.cost, b.saved + c.saved, b.calls + c.calls, b.anthropicCalls + c.anthropicCalls)
  }

  /** What one call adds to each bucket it lands in. */
  function Weight(u: Usage): Bucket {
    Bucket(u.input, u.output, u.cacheRead, u.cacheWrite, EstimateCost(u), CacheSavings(u), 1,
           if u.provider.Anthropic? then 1 else 0)
  }

  function RoleTotals(t: Totals, role: Role): Bucket {
    match role
    case Planner => t.planner
    case Coder => t.coder
    case Reviewer => t.reviewer
    case Subagent => t.subagent
  }

  function SetRole(t: Totals, role: Role, b: Bucket): Totals {
    match role
    case Planner => t.(planner := b)
    case Coder => t.(coder := b)
    case Reviewer => t.(reviewer := b)
    case Subagent => t.(subagent := b)
  }

  function OrEmpty(m: map<string, Bucket>, name: string): Bucket {
    if name in m then m[name] else EMPTY
  }

  function Landed(t: Totals, role: Role, name: string, w: Bucket): Totals {
    var t1 := SetRole(t, role, Plus(RoleTotals(t, role), w)).(overall := Plus(t.overall, w));
    if role.Subagent? && name != "" then t1.(bySubagent := t.bySubagent[name := Plus(OrEmpty(t.bySubagent, name), w)]) else t1
  }

  function Added(t: Totals, c: Call): Totals {
    Landed(t, c.role, c.name, Weight(c.usage))
  }

  function Tally(t: Totals, calls: seq<Call>): Totals {
    if calls == [] then t else Added(Tally(t, calls[..|calls| - 1]), calls[|calls| - 1])
  }

  class RunTotals {
    var perRole: map<Role, Bucket>
    var bySubagent: map<string, Bucket>
    var overall: Bucket

    ghost predicate Valid()
      reads this
    {
      perRole.Keys == {Planner, Coder, Reviewer, Subagent}
    }

    function Value(): Totals
      reads this
      requires Valid()
    {
      Totals(perRole[Planner], perRole[Coder], perRole[Reviewer], perRole[Subagent], bySubagent, overall)
    }

    /** emptyRunTotals, or totals read back from a snapshot. */
    constructor (start: Totals)
      ensures Valid() && Value() == start
    {
      perRole := map[Planner := start.planner, Coder := start.coder, Reviewer := start.reviewer, Subagent := start.subagent];
      bySubagent, overall := start.bySubagent, start.overall;
    }

    method AddUsage(role: Role, u: Usage, name: string)
      requires Valid()
      modifies this
      ensures Valid() && Value() == Added(old(Value()), Call(role, name, u))
    {
      var w := Weight(u);
      perRole := perRole[role := Plus(perRole[role], w)];
      overall := Plus(overall, w);
      if role.Subagent? && |name| > 0 {
        if name !in bySubagent {
          bySubagent := bySubagent[name := EMPTY];
        }
        bySubagent := bySubagent[name := Plus(bySubagent[name], w)];
      }
    }
  }

  // ---- What the totals always satisfy -------------------------------------------------------

  function AllRoles(t: Totals): Bucket {
    Plus(Plus(t.planner, t.coder), Plus(t.reviewer, t.subagent))
  }

  /** The sum of every value of a map. */
  ghost function MapSum(m: map<string, Bucket>): Bucket
    decreases |m|
  {
    if m == map[] then EMPTY
    else
      var k :| k in m;
      Plus(m[k], MapSum(m - {k}))
  }

  lemma {:induction false} MapSumTakes(m: map<string, Bucket>, k: string)
    requires k in m
    ensures MapSum(m) == Plus(m[k], MapSum(m - {k}))
    decreases |m|
  {
    var j :| j in m && MapSum(m) == Plus(m[j], MapSum(m - {j}));
    if j != k {
      assert k in m - {j} && j in m - {k};
      MapSumTakes(m - {j}, k);
      MapSumTakes(m - {k}, j);
      assert m - {j} - {k} == m - {k} - {j};
      var rest := MapSum(m - {j} - {k});
      assert MapSum(m - {j}) == Plus(m[k], rest) && MapSum(m - {k}) == Plus(m[j], rest);
      assert Plus(m[j], Plus(m[k], rest)) == Plus(m[k], Plus(m[j], rest));
    }
  }

  lemma MapSumAdds(m: map<string, Bucket>, k: string, w: Bucket)
    ensures MapSum(m[k := Plus(OrEmpty(m, k), w)]) == Plus(MapSum(m), w)
  {
    hide MapSum;
    var m1 := m[k := Plus(OrEmpty(m, k), w)];
    MapSumTakes(m1, k);
    assert m1 - {k} == m - {k};
    if k in m {
      MapSumTakes(m, k);
    } else {
      assert m - {k} == m;
    }
  }

  /** The sum over the subagent calls without a name. */
  function Unnamed(calls: seq<Call>): Bucket {
    if calls == [] then EMPTY
    else
      var before, c := Unnamed(calls[..|calls| - 1]), calls[|calls| - 1];
      if c.role.Subagent? && c.name == "" then Plus(before, Weight(c.usage)) else before
  }

  ghost predicate Consistent(t: Totals, unnamed: Bucket) {
    t.overall == AllRoles(t) && t.subagent == Plus(MapSum(t.bySubagent), unnamed)
  }

  lemma LandedConsistent(t: Totals, role: Role, name: string, w: Bucket, unnamed: Bucket)
    requires Consistent(t, unnamed)
    ensures Consistent(Landed(t, role, name, w), if role.Subagent? && name == "" then Plus(unnamed, w) else unnamed)
  {
    hide MapSum;
    MapSumAdds(t.bySubagent, name, w);
  }

  lemma EmptySum(m: map<string, Bucket>)
    requires m == map[]
    ensures MapSum(m) == EMPTY
  {
  }

  lemma PlusEmpty(b: Bucket)
    ensures Plus(b, EMPTY) == b
  {
  }

  lemma FreshConsistent()
    ensures Consistent(FRESH, EMPTY)
  {
    hide MapSum, Plus;
    EmptySum(FRESH.bySubagent);
    PlusEmpty(FRESH.overall);
  }

  /**
   * Over every sequence of calls of a fresh run the overall bucket is the field-wise sum of the role buckets,
   * and the subagent bucket that of the named subagents and of the calls without a name.
   */
  lemma {:induction false} TotalsAgree(calls: seq<Call>)
    ensures Consistent(Tally(FRESH, calls), Unnamed(calls))
  {
    hide Weight, Landed, Consistent, Plus;
    if calls == [] {
      FreshConsistent();
    } else {
      var init, c := calls[..|calls| - 1], calls[|calls| - 1];
      TotalsAgree(init);
      LandedConsistent(Tally(FRESH, init), c.role, c.name, Weight(c.usage), Unnamed(init));
    }
  }

  /** The named subagents sum to the subagent bucket exactly when every subagent call was named. */
  lemma SubagentsSumIff(calls: seq<Call>)
    ensures MapSum(Tally(FRESH, calls).bySubagent) == Tally(FRESH, calls).subagent <==>
            forall c :: c in calls && c.role.Subagent? ==> c.name != ""
  {
    var t := Tally(FRESH, calls);
    hide Tally, MapSum, Unnamed;
    TotalsAgree(calls);
    UnnamedIff(calls);
    assert Plus(MapSum(t.bySubagent), Unnamed(calls)) == MapSum(t.bySubagent) <==> Unnamed(calls) == EMPTY;
  }

  lemma {:induction false} UnnamedIff(calls: seq<Call>)
    ensures Unnamed(calls).calls == 0 <==> Unnamed(calls) == EMPTY
    ensures Unnamed(calls) == EMPTY <==> forall c :: c in calls && c.role.Subagent? ==> c.name != ""
  {
    if calls != [] {
      hide EstimateCost, CacheSavings;
      UnnamedIff(calls[..|calls| - 1]);
      assert calls == calls[..|calls| - 1] + [calls[|calls| - 1]];
    }
  }

  // ---- The dashboard ------------------------------------------------------------------------

  datatype Spend = Spend(cost: real, calls: nat)

  datatype Event =
    | RunStart(requirement: string)
    | UsageEvent(role: Role, cost: real, name: string)
    | TodoComplete(rolledBack: bool)
    | RunEnd(reason: string, cost: real, saved: real, calls: nat)
    | OtherEvent

  datatype Summary = Summary(perRole: map<Role, Spend>, bySubagent: map<string, Spend>,
                             cost: real, calls: nat, saved: real,
                             requirement: Option<string>, reason: Option<string>, done: nat, rolledBack: nat)

  const NO_SPEND: Spend := Spend(0.0, 0)

  const BLANK: Summary := Summary(map[Planner := NO_SPEND, Coder := NO_SPEND, Reviewer := NO_SPEND, Subagent := NO_SPEND],
                                  map[], 0.0, 0, 0.0, None, None, 0, 0)

  function Spent(s: Spend, cost: real): Spend {
    Spend(s.cost + cost, s.calls + 1)
  }

  function SpendOf(m: map<string, Spend>, name: string): Spend {
    if name in m then m[name] else NO_SPEND
  }

  predicate Complete(s: Summary) {
    forall role: Role :: role in s.perRole
  }

  function Noted(s: Summary, e: Event): (r: Summary)
    requires Complete(s)
    ensures Complete(r)
  {
    match e
    case RunStart(requirement) => s.(requirement := Some(requirement))
    case UsageEvent(role, cost, name) =>
      s.(cost := s.cost + cost, calls := s.calls + 1,
         perRole := s.perRole[role := Spent(s.perRole[role], cost)],
         bySubagent := if name == "" then s.bySubagent
                       else s.bySubagent[name := Spent(SpendOf(s.bySubagent, name), cost)])
    case TodoComplete(rolled) => if rolled then s.(rolledBack := s.rolledBack + 1) else s.(done := s.done + 1)
    case RunEnd(reason, _, saved, _) => s.(reason := Some(reason), saved := saved)
    case OtherEvent => s
  }

  lemma BlankComplete()
    ensures Complete(BLANK)
  {
    forall role: Role ensures role in BLANK.perRole {
      assert role.Planner? || role.Coder? || role.Reviewer? || role.Subagent?;
    }
  }

  function Summarized(events: seq<Event>): (s: Summary)
    ensures Complete(s)
  {
    if events == [] then
      BlankComplete();
      BLANK
    else Noted(Summarized(events[..|events| - 1]), events[|events| - 1])
  }

  method SummarizeRun(events: seq<Event>) returns (out: Summary)
    ensures out == Summarized(events)
  {
    out := BLANK;
    for i := 0 to |events|
      invariant out == Summarized(events[..i])
    {
      assert events[..i + 1][..i] == events[..i];
      match events[i]
      case RunStart(requirement) =>
        out := out.(requirement := Some(requirement));
      case UsageEvent(role, cost, name) =>
        out := out.(cost := out.cost + cost, calls := out.calls + 1);
        out := out.(perRole := out.perRole[role := Spent(out.perRole[role], cost)]);
        if name != "" {
          out := out.(bySubagent := out.bySubagent[name := Spent(SpendOf(out.bySubagent, name), cost)]);
        }
      case TodoComplete(rolled) =>
        if rolled {
          out := out.(rolledBack := out.rolledBack + 1);
        } else {
          out := out.(done := out.done + 1);
        }
      case RunEnd(reason, _, saved, _) =>
        out := out.(reason := Some(reason), saved := saved);
      case OtherEvent =>
    }
    assert events[..|events|] == events;
  }

  /** The usage events of a log, as `track` writes them. */
  function UsageEvents(events: seq<Event>): seq<Event> {
    if events == [] then []
    else UsageEvents(events[..|events| - 1]) + (if events[|events| - 1].UsageEvent? then [events[|events| - 1]] else [])
  }

  function Logged(calls: seq<Call>): (events: seq<Event>)
    ensures |events| == |calls|
  {
    seq(|calls|, i requires 0 <= i < |calls| => UsageEvent(calls[i].role, EstimateCost(calls[i].usage), calls[i].name))
  }

  function SpendIn(b: Bucket): Spend {
    Spend(b.cost, b.calls)
  }

  predicate Agrees(s: Summary, t: Totals)
    requires Complete(s)
  {
    && (forall role: Role :: s.perRole[role] == SpendIn(RoleTotals(t, role)))
    && s.cost == t.overall.cost && s.calls == t.overall.calls
  }

  /** Per-subagent agreement: the same names with the same spend. */
  predicate AgreesByName(s: Summary, t: Totals) {
    && s.bySubagent.Keys == t.bySubagent.Keys
    && forall name :: name in s.bySubagent ==> s.bySubagent[name] == SpendIn(t.bySubagent[name])
  }

  lemma {:induction false} OnlyUsageMatters(events: seq<Event>)
    ensures var s, u := Summarized(events), Summarized(UsageEvents(events));
            s.perRole == u.perRole && s.bySubagent == u.bySubagent && s.cost == u.cost && s.calls == u.calls
  {
    if events != [] {
      var init, e := events[..|events| - 1], events[|events| - 1];
      OnlyUsageMatters(init);
      var u := UsageEvents(events);
      if e.UsageEvent? {
        assert u[..|u| - 1] == UsageEvents(init) && u[|u| - 1] == e;
      } else {
        assert u == UsageEvents(init);
      }
    }
  }

  lemma NotedAgrees(s: Summary, t: Totals, role: Role, name: string, w: Bucket)
    requires Complete(s) && w.calls == 1
    ensures Agrees(s, t) ==> Agrees(Noted(s, UsageEvent(role, w.cost, name)), Landed(t, role, name, w))
    ensures AgreesByName(s, t) && (name != "" ==> role.Subagent?) ==>
              AgreesByName(Noted(s, UsageEvent(role, w.cost, name)), Landed(t, role, name, w))
  {
  }

  lemma {:induction false} SummaryOfCalls(calls: seq<Call>)
    ensures Agrees(Summarized(Logged(calls)), Tally(FRESH, calls))
    ensures (forall c :: c in calls && c.name != "" ==> c.role.Subagent?) ==>
              AgreesByName(Summarized(Logged(calls)), Tally(FRESH, calls))
  {
    if calls != [] {
      var init, c := calls[..|calls| - 1], calls[|calls| - 1];
      SummaryOfCalls(init);
      assert Logged(calls)[..|calls| - 1] == Logged(init);
      assert calls == init + [c];
      NotedAgrees(Summarized(Logged(init)), Tally(FRESH, init), c.role, c.name, Weight(c.usage));
    }
  }

  /** How many calls carry a name, whatever their role: what the summary's names count. */
  function NamesSeen(m: map<string, Spend>, name: string): nat {
    if name in m then m[name].calls else 0
  }

  lemma CountsOneMore(s: Summary, t: Totals, role: Role, name: string, w: Bucket, target: string)
    requires Complete(s) && w.calls == 1 && target != ""
    ensures var s1, t1 := Noted(s, UsageEvent(role, w.cost, name)), Landed(t, role, name, w);
            var gap := NamesSeen(s.bySubagent, target) - OrEmpty(t.bySubagent, target).calls;
            NamesSeen(s1.bySubagent, target) - OrEmpty(t1.bySubagent, target).calls ==
            if name == target && !role.Subagent? then gap + 1 else gap
  {
  }

  lemma {:induction false} NameCounts(calls: seq<Call>, name: string)
    requires name != ""
    ensures NamesSeen(Summarized(Logged(calls)).bySubagent, name) >= OrEmpty(Tally(FRESH, calls).bySubagent, name).calls
    ensures (exists c :: c in calls && c.name == name && !c.role.Subagent?) ==>
              NamesSeen(Summarized(Logged(calls)).bySubagent, name) > OrEmpty(Tally(FRESH, calls).bySubagent, name).calls
  {
    if calls != [] {
      var init, c := calls[..|calls| - 1], calls[|calls| - 1];
      NameCounts(init, name);
      assert Logged(calls)[..|calls| - 1] == Logged(init);
      assert calls == init + [c];
      CountsOneMore(Summarized(Logged(init)), Tally(FRESH, init), c.role, c.name, Weight(c.usage), name);
    }
  }

  /**
   * Main result: folding a fresh run's log gives back the totals of every role and of the run, whatever other
   * events lie between; and the totals of every subagent exactly when no other role's call carried a name.
   */
  lemma SummaryReproducesTotals(events: seq<Event>, calls: seq<Call>)
    requires UsageEvents(events) == Logged(calls)
    ensures Agrees(Summarized(events), Tally(FRESH, calls))
    ensures AgreesByName(Summarized(events), Tally(FRESH, calls)) <==>
            forall c :: c in calls && c.name != "" ==> c.role.Subagent?
  {
    OnlyUsageMatters(events);
    SummaryOfCalls(calls);
    if c :| c in calls && c.name != "" && !c.role.Subagent? {
      NameCounts(calls, c.name);
    }
  }

  // ---- Two runs compared --------------------------------------------------------------------

  datatype Diff = Diff(overall: real, perRole: map<Role, real>, bySubagent: map<string, real>, done: int, rolledBack: int)

  const ROLE_BUCKETS: seq<Role> := [Planner, Coder, Reviewer, Subagent]

  method RoleDeltas(a: map<Role, Spend>, b: map<Role, Spend>) returns (d: map<Role, real>)
    requires forall role: Role :: role in a && role in b
    ensures forall role: Role :: role in d && d[role] == b[role].cost - a[role].cost
  {
    d := map[];
    for i := 0 to |ROLE_BUCKETS|
      invariant forall j | 0 <= j < i :: ROLE_BUCKETS[j] in d
      invariant forall role :: role in d ==> d[role] == b[role].cost - a[role].cost
    {
      var role := ROLE_BUCKETS[i];
      d := d[role := b[role].cost - a[role].cost];
    }
    assert ROLE_BUCKETS[0] in d && ROLE_BUCKETS[1] in d && ROLE_BUCKETS[2] in d && ROLE_BUCKETS[3] in d;
    forall role: Role ensures role in d {
      assert role.Planner? || role.Coder? || role.Reviewer? || role.Subagent?;
    }
  }

  method NameDeltas(a: map<string, Spend>, b: map<string, Spend>) returns (d: map<string, real>)
    ensures d.Keys == a.Keys + b.Keys
    ensures forall name :: name in d ==> d[name] == SpendOf(b, name).cost - SpendOf(a, name).cost
  {
    hide SpendOf;
    d := map[];
    var names := a.Keys + b.Keys;
    while names != {}
      invariant names + d.Keys == a.Keys + b.Keys
      invariant forall name :: name in d ==> d[name] == SpendOf(b, name).cost - SpendOf(a, name).cost
      decreases |names|
    {
      var name :| name in names;
      d := d[name := SpendOf(b, name).cost - SpendOf(a, name).cost];
      names := names - {name};
    }
  }

  method DiffRuns(a: Summary, b: Summary) returns (d: Diff)
    requires Complete(a) && Complete(b)
    ensures forall role: Role :: role in d.perRole && d.perRole[role] == b.perRole[role].cost - a.perRole[role].cost
    ensures d.bySubagent.Keys == a.bySubagent.Keys + b.bySubagent.Keys
    ensures forall name :: name in d.bySubagent ==>
              d.bySubagent[name] == SpendOf(b.bySubagent, name).cost - SpendOf(a.bySubagent, name).cost
    ensures d.overall == b.cost - a.cost && d.done == b.done - a.done && d.rolledBack == b.rolledBack - a.rolledBack
  {
    var perRole := RoleDeltas(a.perRole, b.perRole);
    var bySubagent := NameDeltas(a.bySubagent, b.bySubagent);
    d := Diff(b.cost - a.cost, perRole, bySubagent, b.done - a.done, b.rolledBack - a.rolledBack);
  }

  ghost predicate Balanced(s: Summary) {
    && Complete(s)
    && s.cost == s.perRole[Planner].cost + s.perRole[Coder].cost + s.perRole[Reviewer].cost + s.perRole[Subagent].cost
    && s.calls == s.perRole[Planner].calls + s.perRole[Coder].calls + s.perRole[Reviewer].calls + s.perRole[Subagent].calls
  }

  lemma NotedBalanced(s: Summary, e: Event)
    requires Balanced(s)
    ensures Balanced(Noted(s, e))
  {
    if e.UsageEvent? {
      assert e.role.Planner? || e.role.Coder? || e.role.Reviewer? || e.role.Subagent?;
    }
  }

  /** Whatever log was read - of any age, cut short, or edited - the overall cost and calls are those of the roles. */
  lemma {:induction false} SummaryBalanced(events: seq<Event>)
    ensures Balanced(Summarized(events))
  {
    if events == [] {
      BlankComplete();
    } else {
      hide Noted, Balanced;
      SummaryBalanced(events[..|events| - 1]);
      NotedBalanced(Summarized(events[..|events| - 1]), events[|events| - 1]);
    }
  }

  /** The overall change between two runs is the sum of the changes of their roles. */
  lemma DeltasAddUp(a: seq<Event>, b: seq<Event>)
    ensures var p, q := Summarized(a), Summarized(b);
            q.cost - p.cost == (q.perRole[Planner].cost - p.perRole[Planner].cost) + (q.perRole[Coder].cost - p.perRole[Coder].cost) +
                               (q.perRole[Reviewer].cost - p.perRole[Reviewer].cost) + (q.perRole[Subagent].cost - p.perRole[Subagent].cost)
  {
    hide Summarized;
    SummaryBalanced(a);
    SummaryBalanced(b);
  }
}
