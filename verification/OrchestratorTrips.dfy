/** When a call can follow one that went over a cap: the exact condition on the configuration. */
module OrchestratorTrips {
  import opened Lists
  import opened Totals
  import opened OrchestratorModel
  import opened OrchestratorCalls
  import opened OrchestratorBudget

  const FRESH_RUN: Run := Run(false, [], [], [], 0, FRESH, [], None)

  /** A call that went over a cap was the last. */
  ghost predicate NothingFollows(cfg: Config, attempts: seq<Attempt>) {
    forall i: nat :: OverCall(cfg, FRESH, attempts, i) ==> |attempts| == i
  }

  predicate NoCap(cfg: Config) {
    cfg.maxCost.None? && cfg.maxTokens.None?
  }

  predicate NegativeCap(cfg: Config) {
    (cfg.maxCost.Some? && cfg.maxCost.value < 0.0) || (cfg.maxTokens.Some? && cfg.maxTokens.value < 0)
  }

  /** The run stops after its first list: no clarification, and no Coder call. */
  predicate ListsOnly(cfg: Config) {
    cfg.maxClarifications <= 0 && (cfg.dryRun || cfg.maxLoops <= 0 || cfg.maxReviewRounds <= 0)
  }

  // ---- Configurations in which nothing follows ----------------------------------------------

  lemma WithoutSubagents(cfg: Config, w: World)
    requires cfg.subagents == {}
    ensures NothingFollows(cfg, RunPhases(cfg, w, FRESH_RUN).run.attempts)
  {
    hide RunPhases, OverCall;
    RunSettles(cfg, w, FRESH_RUN);
    var attempts := RunPhases(cfg, w, FRESH_RUN).run.attempts;
    forall i: nat | OverCall(cfg, FRESH, attempts, i) ensures |attempts| == i {
      assert 0 < i <= |attempts| by {
        OverCallInRange(cfg, attempts, i);
      }
      assert Primary(attempts[i - 1]);
    }
  }

  lemma OverCallInRange(cfg: Config, attempts: seq<Attempt>, i: nat)
    requires OverCall(cfg, FRESH, attempts, i)
    ensures 0 < i <= |attempts|
  {
  }

  lemma {:induction false} CostsSomething(calls: seq<Call>)
    ensures Tally(FRESH, calls).overall.cost >= 0.0
  {
    if calls != [] {
      CostsSomething(calls[..|calls| - 1]);
    }
  }

  /** A negative cap is passed by the first call that returns, which is a primary call. */
  lemma AtOnce(cfg: Config, w: World)
    requires NegativeCap(cfg)
    ensures NothingFollows(cfg, RunPhases(cfg, w, FRESH_RUN).run.attempts)
  {
    hide RunPhases, Tally;
    RunSettles(cfg, w, FRESH_RUN);
    var attempts := RunPhases(cfg, w, FRESH_RUN).run.attempts;
    forall i: nat | OverCall(cfg, FRESH, attempts, i) ensures |attempts| == i {
      CostsSomething(Tracked(attempts[..1]));
      assert attempts[0].usage.Some? ==> OverCall(cfg, FRESH, attempts, 1);
    }
  }

  lemma ExecutesNothing(cfg: Config, w: World, r: Run)
    requires Sound(r) && (cfg.maxLoops <= r.loopCount || cfg.maxReviewRounds <= 0)
    ensures Execute(cfg, w, r).run.attempts == r.attempts
  {
    hide Round, Replan;
  }

  lemma ListingFollowsNothing(cfg: Config, w: World, r: Run)
    requires r == FRESH_RUN.(planReady := true)
    ensures NothingFollows(cfg, Plan(cfg, w, r).run.attempts)
  {
    var turn := w.planner(0);
    assert Steady(cfg, FRESH, r);
    hide Called, Dispatch, OverCall, Tally;
    ConsultKept(cfg, FRESH, r, turn);
    if turn.PlannerFails? {
      CalledKeeps(cfg, r, Planner, "", None, false);
    } else {
      CalledKeeps(cfg, r, Planner, "", Some(turn.usage), turn.quit);
    }
  }

  lemma OnlyLists(cfg: Config, w: World)
    requires ListsOnly(cfg)
    ensures NothingFollows(cfg, RunPhases(cfg, w, FRESH_RUN).run.attempts)
  {
    hide Plan, Execute, NothingFollows;
    var r1 := FRESH_RUN.(planReady := true);
    assert Clarify(cfg, w, FRESH_RUN, 0) == Go(r1);
    PlanningSound(cfg, w, FRESH_RUN);
    ListingFollowsNothing(cfg, w, r1);
    var phase2 := Plan(cfg, w, r1);
    if phase2.Go? && !cfg.dryRun {
      PlanningCount(cfg, w, FRESH_RUN);
      ExecutesNothing(cfg, w, phase2.run);
    }
  }

  // ---- Worlds in which something follows ----------------------------------------------------

  const NO_COST: Usage := Usage(Ollama, 0, 0, 0, 0)

  /** Output tokens that pass the cap. */
  function Excess(cfg: Config): nat
    requires !NoCap(cfg) && !NegativeCap(cfg)
  {
    if cfg.maxCost.Some? then (cfg.maxCost.value.Floor + 1) * 1000000 else cfg.maxTokens.value + 1
  }

  function Costly(cfg: Config): Usage
    requires !NoCap(cfg) && !NegativeCap(cfg)
  {
    Usage(Anthropic, 0, Excess(cfg), 0, 0)
  }

  lemma CostlyPasses(cfg: Config, b: Bucket)
    requires !NoCap(cfg) && !NegativeCap(cfg)
    requires b.cost == EstimateCost(Costly(cfg)) && Tokens(b) == Excess(cfg)
    ensures Over(cfg, b)
  {
    if cfg.maxCost.Some? {
      var n := cfg.maxCost.value.Floor + 1;
      assert n as real > cfg.maxCost.value;
      assert EstimateCost(Costly(cfg)) == (n as real) * 25.0 by {
        assert (n * 1000000) as real == (n as real) * 1000000.0;
      }
    }
  }

  /** Every Planner turn delegates to `helper`, whose answer is costly. */
  function TemptingWorld(cfg: Config, helper: string, phase: Phase): World
    requires !NoCap(cfg) && !NegativeCap(cfg)
  {
    World(_ => false,
          _ => PlannerSays(NO_COST, false, [Delegate(helper, Some(Costly(cfg)), false)], phase, 0, [NewTodo("t", None)], Answered(false)),
          _ => RoundAnswers(false, CoderSays(NO_COST, false, NoEdits), false, CommitFails, false, false, false, None, false,
                            ReviewerFails, false, CiUnknown, ConfirmFails, false),
          _ => true)
  }

  lemma CalledTrips(cfg: Config, r: Run, role: Role, name: string, u: Usage)
    requires r.exceeded.None?
    ensures var r1, t := Called(cfg, r, role, name, Some(u), false), Added(r.totals, Call(role, name, u));
            r1.totals == t && (r1.exceeded.Some? <==> Over(cfg, t.overall))
  {
    hide Added, Over;
  }

  lemma AddedOverall(t: Totals, c: Call)
    ensures Added(t, c).overall == Plus(t.overall, Weight(c.usage))
  {
    hide Plus, Weight;
  }

  lemma NotOver(cfg: Config, b: Bucket)
    requires !NegativeCap(cfg) && b.cost == 0.0 && Tokens(b) == 0
    ensures !Over(cfg, b)
  {
  }

  lemma FreeFirst(cfg: Config, r: Run)
    requires !NoCap(cfg) && !NegativeCap(cfg) && r.exceeded.None? && r.totals == FRESH
    ensures var r1 := Called(cfg, r, Planner, "", Some(NO_COST), false);
            && r1.exceeded.None? && r1.totals == Added(FRESH, Call(Planner, "", NO_COST))
            && r1.totals.overall.cost == 0.0 && Tokens(r1.totals.overall) == 0
  {
    hide Called, Added, Over, Weight;
    CalledTrips(cfg, r, Planner, "", NO_COST);
    AddedOverall(FRESH, Call(Planner, "", NO_COST));
    FreeWeight();
    NotOver(cfg, Added(FRESH, Call(Planner, "", NO_COST)).overall);
  }

  lemma FreeWeight()
    ensures Weight(NO_COST) == Bucket(0, 0, 0, 0, 0.0, 0.0, 1, 0)
  {
  }

  lemma CostlySecond(cfg: Config, r: Run, helper: string)
    requires !NoCap(cfg) && !NegativeCap(cfg) && r.exceeded.None?
    requires r.totals.overall.cost == 0.0 && Tokens(r.totals.overall) == 0
    ensures var r1, call := Called(cfg, r, Subagent, helper, Some(Costly(cfg)), false), Call(Subagent, helper, Costly(cfg));
            && r1.exceeded.Some? && r1.totals == Added(r.totals, call) && Over(cfg, r1.totals.overall)
  {
    hide Called, Added, Over, EstimateCost, CacheSavings, Excess;
    var call := Call(Subagent, helper, Costly(cfg));
    CalledTrips(cfg, r, Subagent, helper, Costly(cfg));
    AddedOverall(r.totals, call);
    CostlyPasses(cfg, Added(r.totals, call).overall);
  }

  /** The first Planner turn: a free call, then the costly one, which trips and stops the delegations. */
  lemma FirstTurn(cfg: Config, helper: string, phase: Phase, r: Run)
    requires !NoCap(cfg) && !NegativeCap(cfg) && helper in cfg.subagents
    requires r.attempts == [] && r.exceeded.None? && r.totals == FRESH
    ensures var flow := Consult(cfg, r, TemptingWorld(cfg, helper, phase).planner(0));
            && flow.Go? && OnlyCalls(r, flow.run) && flow.run.exceeded.Some?
            && flow.run.attempts == [Attempt(Planner, "", Some(NO_COST)), Attempt(Subagent, helper, Some(Costly(cfg)))]
            && OverCall(cfg, FRESH, flow.run.attempts, 2)
  {
    hide Called, Added, Over, Tally, Tracked;
    var turn := TemptingWorld(cfg, helper, phase).planner(0);
    ConsultKeeps(cfg, r, turn);
    var r1 := Called(cfg, r, Planner, "", Some(NO_COST), false);
    CalledKeeps(cfg, r, Planner, "", Some(NO_COST), false);
    FreeFirst(cfg, r);
    var r2 := Called(cfg, r1, Subagent, helper, Some(Costly(cfg)), false);
    CalledKeeps(cfg, r1, Subagent, helper, Some(Costly(cfg)), false);
    CostlySecond(cfg, r1, helper);
    assert turn.delegates[0] == Delegate(helper, Some(Costly(cfg)), false);
    assert Dispatch(cfg, r1, turn.delegates) == r2;
    var a, b := Attempt(Planner, "", Some(NO_COST)), Attempt(Subagent, helper, Some(Costly(cfg)));
    TwoTracked(a, b);
    assert r2.attempts == [a, b] && [a, b][..2] == [a, b];
  }

  lemma TwoTracked(a: Attempt, b: Attempt)
    requires a.usage.Some? && b.usage.Some?
    ensures Tally(FRESH, Tracked([a, b])) ==
            Added(Added(FRESH, Call(a.role, a.name, a.usage.value)), Call(b.role, b.name, b.usage.value))
  {
    hide Added;
    var x, y := Call(a.role, a.name, a.usage.value), Call(b.role, b.name, b.usage.value);
    assert Tracked([a]) == [x] by {
      assert [a][..0] == [];
    }
    assert Tracked([a, b]) == [x, y] by {
      assert [a, b][..1] == [a];
    }
    assert Tally(FRESH, [x]) == Added(FRESH, x) by {
      assert [x][..0] == [];
    }
    assert [x, y][..1] == [x];
  }

  /** A list asked for before the tasks: the Planner is called once more. */
  lemma PlannerFollows(cfg: Config, helper: string)
    requires !NoCap(cfg) && !NegativeCap(cfg) && helper in cfg.subagents && cfg.maxClarifications > 0
    ensures !NothingFollows(cfg, RunPhases(cfg, TemptingWorld(cfg, helper, Ready), FRESH_RUN).run.attempts)
  {
    hide Called, Consult, Execute, OverCall;
    var w := TemptingWorld(cfg, helper, Ready);
    FirstTurn(cfg, helper, Ready, FRESH_RUN);
    var r1 := Consult(cfg, FRESH_RUN, w.planner(0)).run;
    var r2 := r1.(planReady := true);
    assert Clarify(cfg, w, FRESH_RUN, 0) == Go(r2);
    PlanningSound(cfg, w, FRESH_RUN);
    ConsultKeeps(cfg, r2, w.planner(2));
    NextAborts(cfg, r2, w.planner(2));
    var e := Consult(cfg, r2, w.planner(2)).run;
    assert RunPhases(cfg, w, FRESH_RUN) == End(e, Aborted);
    Follows(cfg, r2.attempts, e.attempts);
  }

  lemma NextAborts(cfg: Config, r: Run, turn: PlannerTurn)
    requires r.exceeded.Some? && turn.PlannerSays?
    ensures Consult(cfg, r, turn).End? && Consult(cfg, r, turn).exit == Aborted
  {
    hide Added, Over;
  }

  lemma Follows(cfg: Config, before: seq<Attempt>, attempts: seq<Attempt>)
    requires OverCall(cfg, FRESH, before, |before|) && before < attempts
    ensures !NothingFollows(cfg, attempts)
  {
    assert attempts[..|before|] == before[..|before|];
    assert OverCall(cfg, FRESH, attempts, |before|);
  }

  /** No question allowed, but a task: its Coder is called. */
  lemma CoderFollows(cfg: Config, helper: string)
    requires !NoCap(cfg) && !NegativeCap(cfg) && helper in cfg.subagents
    requires cfg.maxClarifications <= 0 && !cfg.dryRun && cfg.maxLoops > 0 && cfg.maxReviewRounds > 0
    ensures !NothingFollows(cfg, RunPhases(cfg, TemptingWorld(cfg, helper, TodoList), FRESH_RUN).run.attempts)
  {
    hide Called, Consult, OverCall, Execute;
    var w, r0 := TemptingWorld(cfg, helper, TodoList), FRESH_RUN.(planReady := true);
    assert Clarify(cfg, w, FRESH_RUN, 0) == Go(r0);
    PlanningSound(cfg, w, FRESH_RUN);
    FirstTurn(cfg, helper, TodoList, r0);
    var r1 := Listed(Consult(cfg, r0, w.planner(0)).run, [NewTodo("t", None)]);
    assert Plan(cfg, w, r0) == Go(r1);
    TaskStarts(cfg, w, r1);
    Follows(cfg, r1.attempts, Execute(cfg, w, r1).run.attempts);
  }

  lemma TaskStarts(cfg: Config, w: World, r: Run)
    requires Sound(r) && r.todos == [0] && r.heap == Fresh([NewTodo("t", None)]) && r.loopCount == 0 && r.exceeded.Some?
    requires cfg.maxLoops > 0 && cfg.maxReviewRounds > 0 && !w.headFails(|r.attempts|)
    requires w.round(|r.attempts|) == RoundAnswers(false, CoderSays(NO_COST, false, NoEdits), false, CommitFails, false, false, false, None,
                                                   false, ReviewerFails, false, CiUnknown, ConfirmFails, false)
    ensures r.attempts < Execute(cfg, w, r).run.attempts
  {
    hide Called, Replan;
    var r0, a := Picked(r, 0), w.round(|r.attempts|);
    var r1 := r0.(heap := r0.heap[0 := r0.heap[0].(iterations := r0.heap[0].iterations + 1)]);
    var r2 := Called(cfg, r1, Coder, "", Some(NO_COST), false);
    CalledKeeps(cfg, r1, Coder, "", Some(NO_COST), false);
    StillExceeded(cfg, r1, NO_COST);
    var b := Branch(None, 0, None, []);
    assert Round(cfg, a, r0, 0, b) == Turn(r2, b, TaskAborted);
    assert TaskLoop(cfg, w, 0, r0, 0, b) == Turn(r2, b, TaskAborted);
    assert RunTask(cfg, w, r0, 0) == Turn(r2, b, TaskAborted);
    assert OneTask(cfg, w, r, 0) == End(r2, Aborted);
    assert FirstPending(r.heap, r.todos) == Some(0);
  }

  lemma StillExceeded(cfg: Config, r: Run, u: Usage)
    requires r.exceeded.Some?
    ensures Called(cfg, r, Coder, "", Some(u), false).exceeded.Some?
  {
    hide Added, Over;
  }

  /**
   * Main result: in every fresh run of a configuration a call that goes over a cap is the last one, exactly when the
   * configuration has no subagents, no cap, a negative cap, or ends its runs before any call could follow the first
   * TODO list.
   */
  lemma TripIsLastIff(cfg: Config)
    ensures (forall w :: NothingFollows(cfg, RunPhases(cfg, w, FRESH_RUN).run.attempts)) <==>
            cfg.subagents == {} || NoCap(cfg) || NegativeCap(cfg) || ListsOnly(cfg)
  {
    hide RunPhases, NothingFollows;
    if cfg.subagents == {} || NoCap(cfg) || NegativeCap(cfg) || ListsOnly(cfg) {
      forall w: World ensures NothingFollows(cfg, RunPhases(cfg, w, FRESH_RUN).run.attempts) {
        if cfg.subagents == {} {
          WithoutSubagents(cfg, w);
        } else if NoCap(cfg) {
          Uncapped(cfg, RunPhases(cfg, w, FRESH_RUN).run.attempts);
        } else if NegativeCap(cfg) {
          AtOnce(cfg, w);
        } else {
          OnlyLists(cfg, w);
        }
      }
    } else {
      var helper :| helper in cfg.subagents;
      if cfg.maxClarifications > 0 {
        PlannerFollows(cfg, helper);
      } else {
        CoderFollows(cfg, helper);
      }
    }
  }

  lemma Uncapped(cfg: Config, attempts: seq<Attempt>)
    requires NoCap(cfg)
    ensures NothingFollows(cfg, attempts)
  {
  }
}
