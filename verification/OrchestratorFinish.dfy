/** When a run does finish: with good answers every listed TODO is done, as far as the caps and loops allow. */
module OrchestratorFinish {
  import opened Lists
  import opened Totals
  import opened OrchestratorModel
  import opened OrchestratorCalls
  import opened OrchestratorTodos
  import opened OrchestratorOutcomes

  // ---- Good answers -------------------------------------------------------------------------

  /** The Coder edits, hooks, commit and tests succeed, the Reviewer approves, and CI and the user agree, where asked. */
  predicate GoodRound(cfg: Config, a: RoundAnswers) {
    && !a.contextFails && a.coder.CoderSays? && !a.coder.quit && a.coder.work.Edits?
    && !a.preCommitVetoes && a.commit.Changed? && !a.postCommitVetoes && (cfg.runsTests ==> a.testsPass)
    && !a.quit && a.reviewer.ReviewerSays? && !a.reviewer.quit && a.reviewer.decision.Approve? && !a.lateQuit
    && (cfg.waitForCi ==> a.ci.CiPassed?) && (cfg.requireHumanApproval ==> a.confirm.Agreed?)
  }

  predicate KnownRepos(cfg: Config, news: seq<NewTodo>) {
    forall n :: n in news && n.repoAlias.Some? ==> n.repoAlias.value in cfg.repos
  }

  /** The Planner answers, asks for known repositories only and does not call the plan complete; nobody quits. */
  predicate GoodPlanner(cfg: Config, turn: PlannerTurn) {
    && turn.PlannerSays? && !turn.quit && (forall d :: d in turn.delegates ==> !d.quit)
    && !turn.phase.PlanComplete? && KnownRepos(cfg, turn.todos)
  }

  ghost predicate GoodWorld(cfg: Config, w: World) {
    && (forall k :: !w.headFails(k) && GoodRound(cfg, w.round(k)) && GoodPlanner(cfg, w.planner(k)))
  }

  // ---- Only a cap can stop it ---------------------------------------------------------------

  /** If the flag is up then a cap is passed. */
  predicate Solvent(cfg: Config, r: Run) {
    r.exceeded.Some? ==> !InBudget(cfg, r.totals.overall)
  }

  lemma CalledSolvent(cfg: Config, r: Run, role: Role, name: string, usage: Option<Usage>)
    requires Solvent(cfg, r)
    ensures Solvent(cfg, Called(cfg, r, role, name, usage, false))
    ensures r.exceeded.Some? ==> Called(cfg, r, role, name, usage, false).exceeded.Some?
  {
    if usage.Some? {
      CalledClear(cfg, r, role, name, usage.value, false);
      Grows(cfg, r.totals.overall, usage.value);
    }
  }

  lemma Grows(cfg: Config, b: Bucket, u: Usage)
    ensures InBudget(cfg, With(b, u)) ==> InBudget(cfg, b)
  {
    hide EstimateCost, CacheSavings;
  }

  lemma {:induction false} DispatchSolvent(cfg: Config, r: Run, ds: seq<Delegate>)
    requires Solvent(cfg, r) && forall d :: d in ds ==> !d.quit
    ensures Solvent(cfg, Dispatch(cfg, r, ds))
    ensures r.exceeded.Some? ==> Dispatch(cfg, r, ds).exceeded.Some?
    decreases |ds|
  {
    hide Called, Solvent;
    if ds != [] {
      assert ds[0] in ds;
      CalledSolvent(cfg, r, Subagent, ds[0].name, ds[0].answer);
      DispatchSolvent(cfg, r, ds[1..]);
      DispatchSolvent(cfg, Called(cfg, r, Subagent, ds[0].name, ds[0].answer, false), ds[1..]);
    }
  }

  /** A good Planner answer goes on, unless the flag is up. */
  lemma ConsultGood(cfg: Config, r: Run, turn: PlannerTurn)
    requires Solvent(cfg, r) && GoodPlanner(cfg, turn)
    ensures var flow := Consult(cfg, r, turn);
            && Solvent(cfg, flow.run) && (flow.run.exceeded.None? ==> flow.Go?)
            && (r.exceeded.Some? ==> flow.run.exceeded.Some?)
  {
    hide Called, Dispatch, Solvent;
    CalledSolvent(cfg, r, Planner, "", Some(turn.usage));
    DispatchSolvent(cfg, Called(cfg, r, Planner, "", Some(turn.usage), false), turn.delegates);
  }

  /** A good round completes the task, unless the flag is up. */
  lemma RoundGood(cfg: Config, a: RoundAnswers, r: Run, t: nat, b: Branch)
    requires t < |r.heap| && Solvent(cfg, r) && GoodRound(cfg, a)
    ensures var turn := Round(cfg, a, r, t, b);
            && Solvent(cfg, turn.run) && !turn.outcome.Again?
            && (turn.run.exceeded.None? ==> turn.outcome.TaskComplete?)
            && (r.exceeded.Some? ==> turn.run.exceeded.Some?)
  {
    RoundOutcome(cfg, a, r, t, b);
    RoundFlag(cfg, a, r, t, b);
    var turn := Round(cfg, a, r, t, b);
    hide Round, InBudget, With;
    assert !Ends(cfg, a, r, b, Again);
    if turn.run.exceeded.None? {
      assert Ends(cfg, a, r, b, TaskComplete);
    }
  }

  /** The flag after a good round is clear exactly when both calls stayed within the caps. */
  lemma RoundFlag(cfg: Config, a: RoundAnswers, r: Run, t: nat, b: Branch)
    requires t < |r.heap| && Solvent(cfg, r) && GoodRound(cfg, a)
    ensures var turn := Round(cfg, a, r, t, b);
            && Solvent(cfg, turn.run)
            && (turn.run.exceeded.None? <==> Reviewed(cfg, a, r))
  {
    hide InBudget, With, Called, Land;
    var r0 := r.(heap := r.heap[t := r.heap[t].(iterations := r.heap[t].iterations + 1)]);
    assert Solvent(cfg, r0);
    var r1 := Called(cfg, r0, Coder, "", Some(a.coder.usage), false);
    CalledKeeps(cfg, r0, Coder, "", Some(a.coder.usage), false);
    CalledClear(cfg, r0, Coder, "", a.coder.usage, false);
    CalledSolvent(cfg, r0, Coder, "", Some(a.coder.usage));
    if r1.exceeded.None? {
      var b1 := Did(b, Committed(b.commits)).(commits := b.commits + 1);
      var b2 := if cfg.runsTests then Did(b1, Tested(a.testsPass)) else b1;
      assert Round(cfg, a, r, t, b) == Review(cfg, a, r1, t, Published(cfg, a, b2));
      ReviewFlag(cfg, a, r1, t, Published(cfg, a, b2));
    }
  }

  lemma ReviewFlag(cfg: Config, a: RoundAnswers, r: Run, t: nat, b: Branch)
    requires t < |r.heap| && r.exceeded.None? && GoodRound(cfg, a)
    ensures var end := Review(cfg, a, r, t, b).run;
            Solvent(cfg, end) && (end.exceeded.None? <==> InBudget(cfg, With(r.totals.overall, a.reviewer.usage)))
  {
    hide InBudget, With, Called, Land;
    var r1 := Called(cfg, r, Reviewer, "", Some(a.reviewer.usage), false);
    CalledKeeps(cfg, r, Reviewer, "", Some(a.reviewer.usage), false);
    CalledClear(cfg, r, Reviewer, "", a.reviewer.usage, false);
    CalledSolvent(cfg, r, Reviewer, "", Some(a.reviewer.usage));
    LandOutcome(cfg, a, r1.(reviews := r1.reviews + [Approve]), t, Did(b, Judged(Approve)));
  }

  // ---- One task -----------------------------------------------------------------------------

  /** Every TODO is pending or done, in a known repository. */
  predicate Open(cfg: Config, heap: seq<Todo>) {
    forall i | 0 <= i < |heap| :: (heap[i].status.Pending? || heap[i].status.Done?) && KnownRepo(cfg, heap[i])
  }

  lemma RunTaskGood(cfg: Config, w: World, r: Run, t: nat)
    requires t < |r.heap| && Solvent(cfg, r) && GoodWorld(cfg, w) && cfg.maxReviewRounds > 0
    ensures var turn := RunTask(cfg, w, r, t);
            && Solvent(cfg, turn.run) && (turn.run.exceeded.None? ==> turn.outcome.TaskComplete?)
            && (r.exceeded.Some? ==> turn.run.exceeded.Some?)
            && t < |turn.run.heap| && turn.run.heap[t].repoAlias == r.heap[t].repoAlias
  {
    hide Round, Solvent, GoodRound, GoodPlanner, Marked;
    var a, b := w.round(|r.attempts|), Branch(None, 0, None, []);
    assert GoodRound(cfg, a) && !w.headFails(|r.attempts|);
    RoundGood(cfg, a, r, t, b);
    RoundOutcome(cfg, a, r, t, b);
    TaskLoopStep(cfg, w, 0, r, t, b);
    MarkedRepo(cfg, a, r, t, b);
  }

  lemma MarkedRepo(cfg: Config, a: RoundAnswers, r: Run, t: nat, b: Branch)
    requires t < |r.heap|
    ensures Marked(cfg, a, r, t, b).repoAlias == r.heap[t].repoAlias
  {
  }

  /** With good answers an iteration finishes its TODO and goes on, unless the flag is up. */
  lemma OneTaskGood(cfg: Config, w: World, r: Run, t: nat)
    requires Sound(r) && t < |r.heap| && r.heap[t].status.Pending? && Open(cfg, r.heap)
    requires Solvent(cfg, r) && GoodWorld(cfg, w) && cfg.maxReviewRounds > 0
    ensures var flow := OneTask(cfg, w, r, t);
            && Solvent(cfg, flow.run) && (r.exceeded.Some? ==> flow.run.exceeded.Some?)
            && (flow.run.exceeded.None? ==> flow.Go?)
            && (flow.Go? ==>
                  && Open(cfg, flow.run.heap) && |flow.run.heap| >= |r.heap|
                  && flow.run.heap[t].status.Done?
                  && forall i | 0 <= i < |r.heap| && i != t :: flow.run.heap[i] == r.heap[i])
  {
    hide RunTask, Replan, GoodPlanner, GoodRound;
    var r0 := Picked(r, t);
    RunTaskGood(cfg, w, r0, t);
    var turn := RunTask(cfg, w, r0, t);
    if turn.outcome.TaskComplete? && turn.run.exceeded.None? {
      var r1 := SetStatus(turn.run, t, Done).(loopCount := turn.run.loopCount + 1);
      ReplanGood(cfg, w, r1);
    }
  }

  lemma ReplanGood(cfg: Config, w: World, r: Run)
    requires Sound(r) && Open(cfg, r.heap) && Solvent(cfg, r) && GoodWorld(cfg, w)
    ensures var flow := Replan(cfg, w, r);
            && Solvent(cfg, flow.run) && r.heap <= flow.run.heap && Open(cfg, flow.run.heap)
            && (r.exceeded.Some? ==> flow.run.exceeded.Some?)
            && (flow.run.exceeded.None? ==> flow.Go?)
  {
    hide Consult;
    var turn := w.planner(|r.attempts|);
    assert GoodPlanner(cfg, turn);
    ConsultGood(cfg, r, turn);
    ConsultKeeps(cfg, r, turn);
    ReplanGrows(cfg, w, r);
    FreshKnown(cfg, TodosOf(turn));
  }

  lemma FreshKnown(cfg: Config, news: seq<NewTodo>)
    requires KnownRepos(cfg, news)
    ensures Open(cfg, Fresh(news))
  {
    forall i | 0 <= i < |news| ensures KnownRepo(cfg, Fresh(news)[i]) {
      assert news[i] in news;
    }
  }

  // ---- Phase 3 ------------------------------------------------------------------------------

  predicate AllDone(r: Run)
    requires Sound(r)
  {
    forall t :: t in r.todos ==> r.heap[t].status.Done?
  }

  /** With good answers phase 3 ends complete, with every listed TODO done, or at its last loop, unless a cap is passed. */
  lemma {:induction false} ExecuteGood(cfg: Config, w: World, r: Run)
    requires Sound(r) && Open(cfg, r.heap) && Solvent(cfg, r) && GoodWorld(cfg, w) && cfg.maxReviewRounds > 0
    ensures var end := Execute(cfg, w, r);
            && Solvent(cfg, end.run) && (r.exceeded.Some? ==> end.run.exceeded.Some?)
            && (end.run.exceeded.None? ==>
                  && Sound(end.run) && Open(cfg, end.run.heap)
                  && (end.exit.MaxLoops? || (end.exit.Complete? && AllDone(end.run))))
    decreases cfg.maxLoops - r.loopCount
  {
    hide OneTask, GoodWorld, Solvent, Open;
    if r.loopCount < cfg.maxLoops {
      if FirstPending(r.heap, r.todos).Some? {
        var t := FirstPending(r.heap, r.todos).value;
        OneTaskGood(cfg, w, r, t);
        var flow := OneTask(cfg, w, r, t);
        if flow.Go? {
          ExecuteGood(cfg, w, flow.run);
        }
      } else {
        NonePending(cfg, r);
      }
    }
  }

  lemma NonePending(cfg: Config, r: Run)
    requires Sound(r) && Open(cfg, r.heap) && FirstPending(r.heap, r.todos).None?
    ensures AllDone(r)
  {
  }

  // ---- Whole runs ---------------------------------------------------------------------------

  /**
   * Main result, for resumed runs: with good answers a run whose plan is ready ends complete, with every listed TODO
   * done, or at its last loop - if its calls have passed no cap.
   */
  lemma ResumedFinishes(cfg: Config, w: World, r: Run)
    requires Starts(r) && r.planReady && r.todos != [] && Open(cfg, r.heap)
    requires GoodWorld(cfg, w) && cfg.maxReviewRounds > 0 && !cfg.dryRun
    requires InBudget(cfg, RunPhases(cfg, w, r).run.totals.overall)
    ensures var end := RunPhases(cfg, w, r);
            && Sound(end.run) && end.run.exceeded.None? && Open(cfg, end.run.heap)
            && (end.exit.MaxLoops? || (end.exit.Complete? && AllDone(end.run)))
  {
    hide Execute, GoodWorld, Open;
    assert RunPhases(cfg, w, r) == Execute(cfg, w, r);
    ExecuteGood(cfg, w, r);
  }

  // ---- How many loops it takes --------------------------------------------------------------

  /** The pending TODOs of the list. */
  function PendingIn(r: Run): set<nat>
    requires Sound(r)
  {
    set t | t in r.todos && r.heap[t].status.Pending?
  }

  /** The Planner leaves the list as it is after a task. */
  ghost predicate KeepsPlan(w: World, from: nat) {
    forall k | k >= from :: TodosOf(w.planner(k)) == []
  }

  lemma OneTaskCountsDown(cfg: Config, w: World, r: Run, t: nat)
    requires Sound(r) && t in r.todos && t < |r.heap| && r.heap[t].status.Pending? && Open(cfg, r.heap)
    requires Solvent(cfg, r) && GoodWorld(cfg, w) && cfg.maxReviewRounds > 0 && KeepsPlan(w, |r.attempts|)
    ensures var flow := OneTask(cfg, w, r, t);
            flow.Go? ==>
              && flow.run.todos == r.todos && |flow.run.attempts| >= |r.attempts|
              && Sound(flow.run) && |PendingIn(flow.run)| == |PendingIn(r)| - 1
  {
    OneTaskGood(cfg, w, r, t);
    OneTaskKeepsList(cfg, w, r, t);
    hide OneTask, GoodWorld, Solvent, Open, KeepsPlan;
    var flow := OneTask(cfg, w, r, t);
    if flow.Go? {
      assert PendingIn(flow.run) == PendingIn(r) - {t};
    }
  }

  lemma OneTaskKeepsList(cfg: Config, w: World, r: Run, t: nat)
    requires Sound(r) && t < |r.heap| && KeepsPlan(w, |r.attempts|)
    ensures var flow := OneTask(cfg, w, r, t);
            flow.Go? ==> flow.run.todos == r.todos && |flow.run.attempts| >= |r.attempts|
  {
    hide TaskLoop, Consult, Within;
    var r0 := Picked(r, t);
    var turn := RunTask(cfg, w, r0, t);
    TaskKeepsList(r0, turn, t);
    var r1 := turn.run;
    if KnownRepo(cfg, r.heap[t]) && turn.outcome.TaskComplete? && r1.exceeded.None? {
      var r2 := SetStatus(r1, t, Done).(loopCount := r1.loopCount + 1);
      ConsultKeeps(cfg, r2, w.planner(|r2.attempts|));
    }
  }

  lemma TaskKeepsList(r: Run, turn: Turn, t: nat)
    requires StageWithin(r, turn, t)
    ensures t < |turn.run.heap| && turn.run.todos == r.todos && |turn.run.attempts| >= |r.attempts|
  {
  }

  /**
   * With a plan that stays as it is: the phase ends complete exactly when the loops left are more than the pending
   * TODOs - one spare loop is needed to see that nothing is pending - and every TODO is done exactly when they are no
   * fewer.
   */
  lemma {:induction false} ExecuteCounts(cfg: Config, w: World, r: Run)
    requires Sound(r) && Open(cfg, r.heap) && Solvent(cfg, r) && GoodWorld(cfg, w) && cfg.maxReviewRounds > 0
    requires KeepsPlan(w, |r.attempts|) && Execute(cfg, w, r).run.exceeded.None?
    ensures var end, n := Execute(cfg, w, r), |PendingIn(r)|;
            && Sound(end.run) && end.run.todos == r.todos
            && (end.exit.Complete? <==> r.loopCount + n < cfg.maxLoops)
            && (end.exit.MaxLoops? <==> r.loopCount + n >= cfg.maxLoops)
            && (AllDone(end.run) <==> n == 0 || r.loopCount + n <= cfg.maxLoops)
    decreases cfg.maxLoops - r.loopCount
  {
    hide OneTask, GoodWorld, Solvent, KeepsPlan;
    PendingOrDone(cfg, r);
    if r.loopCount < cfg.maxLoops && FirstPending(r.heap, r.todos).Some? {
      var t := FirstPending(r.heap, r.todos).value;
      OneTaskGood(cfg, w, r, t);
      OneTaskCountsDown(cfg, w, r, t);
      assert t in PendingIn(r);
      var flow := OneTask(cfg, w, r, t);
      if flow.Go? {
        StillKeeps(w, |r.attempts|, |flow.run.attempts|);
        hide Open;
        ExecuteCounts(cfg, w, flow.run);
      }
    }
  }

  lemma StillKeeps(w: World, from: nat, later: nat)
    requires KeepsPlan(w, from) && from <= later
    ensures KeepsPlan(w, later)
  {
  }

  lemma PendingOrDone(cfg: Config, r: Run)
    requires Sound(r) && Open(cfg, r.heap)
    ensures AllDone(r) <==> |PendingIn(r)| == 0
    ensures FirstPending(r.heap, r.todos).None? <==> |PendingIn(r)| == 0
  {
    if |PendingIn(r)| == 0 {
      assert forall t :: t in r.todos && r.heap[t].status.Pending? ==> t in PendingIn(r);
    }
    if FirstPending(r.heap, r.todos).Some? {
      assert FirstPending(r.heap, r.todos).value in PendingIn(r);
    }
    if AllDone(r) {
      assert PendingIn(r) == {};
    }
    if FirstPending(r.heap, r.todos).None? {
      assert PendingIn(r) == {};
    }
  }

  /**
   * Main result, for fresh runs: when the Planner answers at once with a list of n TODOs, in known repositories, and
   * leaves it so, and every round is good, then - unless a cap is passed - the run ends complete exactly when
   * n < maxLoops, else at max_loops, and every TODO is done exactly when n <= maxLoops.
   */
  lemma FreshRunFinishes(cfg: Config, w: World, r: Run)
    requires Starts(r) && r.heap == [] && r.todos == [] && r.loopCount == 0 && !r.planReady
    requires GoodWorld(cfg, w) && cfg.maxReviewRounds > 0 && !cfg.dryRun && KeepsPlan(w, 1)
    requires w.planner(0).phase.TodoList? && w.planner(0).todos != []
    requires InBudget(cfg, RunPhases(cfg, w, r).run.totals.overall)
    ensures var end, n := RunPhases(cfg, w, r), |w.planner(0).todos|;
            && Sound(end.run) && |end.run.todos| == n && end.run.exceeded.None?
            && (end.exit.Complete? <==> n < cfg.maxLoops) && (end.exit.MaxLoops? <==> n >= cfg.maxLoops)
            && (AllDone(end.run) <==> n <= cfg.maxLoops)
  {
    var turn := w.planner(0);
    var r0 := if cfg.maxClarifications > 0 then r else r.(planReady := true);
    hide RunPhases, Consult, GoodRound, Execute;
    assert GoodPlanner(cfg, turn);
    FreshPhases(cfg, w, r);
    ConsultGood(cfg, r0, turn);
    ConsultKeeps(cfg, r0, turn);
    var flow := Consult(cfg, r0, turn);
    if flow.Go? {
      var r1 := Listed(flow.run, turn.todos).(planReady := true);
      ListedFresh(cfg, flow.run, turn.todos);
      StillKeeps(w, 1, |r1.attempts|);
      hide GoodWorld, KeepsPlan, GoodPlanner;
      ExecuteGood(cfg, w, r1);
      ExecuteCounts(cfg, w, r1);
    }
  }

  /** The first Planner call of a fresh run gives the list, in phase 1 or, without clarifications, in phase 2. */
  lemma FreshPhases(cfg: Config, w: World, r: Run)
    requires Starts(r) && r.todos == [] && !r.planReady && !cfg.dryRun
    requires w.planner(0).PlannerSays? && w.planner(0).phase.TodoList? && w.planner(0).todos != []
    ensures var flow := Consult(cfg, if cfg.maxClarifications > 0 then r else r.(planReady := true), w.planner(0));
            RunPhases(cfg, w, r) == if flow.End? then flow else Execute(cfg, w, Listed(flow.run, w.planner(0).todos).(planReady := true))
  {
    hide Consult, Execute;
    var turn := w.planner(0);
    var r0 := if cfg.maxClarifications > 0 then r else r.(planReady := true);
    ConsultKeeps(cfg, r0, turn);
    var phase1 := Clarify(cfg, w, r, 0);
    var flow := Consult(cfg, r0, turn);
    if cfg.maxClarifications > 0 {
      assert phase1 == if flow.End? then flow else Go(Listed(flow.run, turn.todos).(planReady := true));
    } else {
      assert phase1 == Go(r0);
    }
  }

  lemma ListedFresh(cfg: Config, r: Run, news: seq<NewTodo>)
    requires r.heap == [] && KnownRepos(cfg, news)
    ensures var r1 := Listed(r, news).(planReady := true);
            Sound(r1) && Open(cfg, r1.heap) && |r1.todos| == |news| && |PendingIn(r1)| == |news|
  {
    FreshKnown(cfg, news);
    var r1 := Listed(r, news).(planReady := true);
    assert r1.heap == Fresh(news);
    Enumerates(r1.todos);
    forall t | t in r1.todos ensures t < |news| && r1.heap[t].status.Pending? {
    }
    assert PendingIn(r1) == set t | t in r1.todos;
  }

  lemma {:induction false} Enumerates(xs: seq<nat>)
    requires forall i | 0 <= i < |xs| :: xs[i] == i
    ensures |set x | x in xs| == |xs|
  {
    if xs != [] {
      var init, n := xs[..|xs| - 1], |xs| - 1;
      Enumerates(init);
      assert xs == init + [n] && n !in init;
      assert (set x | x in xs) == (set x | x in init) + {n};
    }
  }
}
