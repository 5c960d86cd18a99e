/** The budget of a run: the flag is sticky, little follows it, and the totals account for every call. */
module OrchestratorBudget {
  import opened Lists
  import opened Totals
  import opened OrchestratorModel
  import opened OrchestratorCalls

  // ---- The books ----------------------------------------------------------------------------

  /** The calls that `track` recorded. */
  function Tracked(attempts: seq<Attempt>): seq<Call> {
    if attempts == [] then []
    else
      var a := attempts[|attempts| - 1];
      Tracked(attempts[..|attempts| - 1]) + (if a.usage.Some? then [Call(a.role, a.name, a.usage.value)] else [])
  }

  function CostOf(a: Attempt): real {
    if a.usage.Some? then EstimateCost(a.usage.value) else 0.0
  }

  function TokensIn(a: Attempt): nat {
    if a.usage.Some? then Tokens(Weight(a.usage.value)) else 0
  }

  /** Cost of the last `k` calls. */
  function LastCosts(attempts: seq<Attempt>, k: nat): (cost: real)
    ensures cost >= 0.0
  {
    if k == 0 || attempts == [] then 0.0
    else LastCosts(attempts[..|attempts| - 1], k - 1) + CostOf(attempts[|attempts| - 1])
  }

  function LastTokens(attempts: seq<Attempt>, k: nat): nat {
    if k == 0 || attempts == [] then 0
    else LastTokens(attempts[..|attempts| - 1], k - 1) + TokensIn(attempts[|attempts| - 1])
  }

  /** Without its last `k` calls the run would be within its caps, or where it started if that was over. */
  predicate WithinCaps(cfg: Config, start: Totals, r: Run, k: nat) {
    && (cfg.maxCost.Some? ==>
          var cost := r.totals.overall.cost - LastCosts(r.attempts, k);
          cost <= cfg.maxCost.value || cost <= start.overall.cost)
    && (cfg.maxTokens.Some? ==>
          var tokens := Tokens(r.totals.overall) - LastTokens(r.attempts, k);
          tokens <= cfg.maxTokens.value || tokens <= Tokens(start.overall))
  }

  predicate Primary(a: Attempt) {
    !a.role.Subagent?
  }

  /** Only subagent calls carry a name, one of the catalog. */
  predicate WellNamed(cfg: Config, attempts: seq<Attempt>) {
    forall i | 0 <= i < |attempts| ::
      if Primary(attempts[i]) then attempts[i].name == "" else attempts[i].name in cfg.subagents
  }

  /** The first call is a primary call, and nothing follows it if it fails. */
  predicate OpenedWell(attempts: seq<Attempt>) {
    attempts != [] ==> Primary(attempts[0]) && (attempts[0].usage.None? ==> |attempts| == 1)
  }

  predicate Opened(attempts: seq<Attempt>) {
    attempts != [] ==> Primary(attempts[0]) && attempts[0].usage.Some?
  }

  /** Call number i returned and left the run over a cap. */
  predicate OverCall(cfg: Config, start: Totals, attempts: seq<Attempt>, i: nat) {
    0 < i <= |attempts| && attempts[i - 1].usage.Some? && Over(cfg, Tally(start, Tracked(attempts[..i])).overall)
  }

  /** A run goes on only while none of its calls went over a cap, but for a subagent's that was the last. */
  ghost predicate MayGoOn(cfg: Config, start: Totals, r: Run) {
    forall i: nat :: OverCall(cfg, start, r.attempts, i) ==> r.exceeded.Some? && i == |r.attempts| && !Primary(r.attempts[i - 1])
  }

  /** At most one call follows a call that went over a cap, none if that was a primary call. */
  ghost predicate HadToEnd(cfg: Config, start: Totals, r: Run) {
    forall i: nat :: OverCall(cfg, start, r.attempts, i) ==>
      r.exceeded.Some? && |r.attempts| <= i + 1 && (Primary(r.attempts[i - 1]) ==> |r.attempts| == i)
  }

  /** Between calls: if the flag is up then it went up at once before, by the user or a subagent's call. */
  ghost predicate Steady(cfg: Config, start: Totals, r: Run) {
    && r.totals == Tally(start, Tracked(r.attempts)) && WellNamed(cfg, r.attempts) && Opened(r.attempts) && MayGoOn(cfg, start, r)
    && match r.exceeded
       case None => WithinCaps(cfg, start, r, 0)
       case Some(trip) =>
         && trip.at == |r.attempts| && WithinCaps(cfg, start, r, 1)
         && (!trip.byUser ==> trip.at > 0 && !Primary(r.attempts[trip.at - 1]))
  }

  /** At any end: at most one call after the flag went up, and none if a primary call put it up. */
  ghost predicate Settled(cfg: Config, start: Totals, r: Run) {
    && r.totals == Tally(start, Tracked(r.attempts)) && WellNamed(cfg, r.attempts) && OpenedWell(r.attempts) && HadToEnd(cfg, start, r)
    && match r.exceeded
       case None => WithinCaps(cfg, start, r, 0)
       case Some(trip) =>
         && trip.at <= |r.attempts| <= trip.at + 1
         && (!trip.byUser ==> trip.at > 0 && (Primary(r.attempts[trip.at - 1]) ==> |r.attempts| == trip.at))
         && WithinCaps(cfg, start, r, 2)
  }

  lemma SteadySettles(cfg: Config, start: Totals, r: Run)
    requires Steady(cfg, start, r)
    ensures Settled(cfg, start, r)
  {
    hide Tally, OverCall;
    if r.exceeded.Some? {
      OneMoreBack(cfg, start, r, 1);
    }
  }

  lemma OneMoreBack(cfg: Config, start: Totals, r: Run, k: nat)
    requires WithinCaps(cfg, start, r, k)
    ensures WithinCaps(cfg, start, r, k + 1)
  {
    hide EstimateCost, Weight;
    Longer(r.attempts, k);
  }

  lemma {:induction false} Longer(attempts: seq<Attempt>, k: nat)
    ensures LastCosts(attempts, k) <= LastCosts(attempts, k + 1)
    ensures LastTokens(attempts, k) <= LastTokens(attempts, k + 1)
  {
    hide EstimateCost, Weight;
    if k > 0 && attempts != [] {
      Longer(attempts[..|attempts| - 1], k - 1);
    }
  }

  /** One call more is one call further back. */
  lemma CalledWithin(cfg: Config, start: Totals, r: Run, role: Role, name: string, usage: Option<Usage>, quit: bool, k: nat)
    requires WithinCaps(cfg, start, r, k)
    ensures WithinCaps(cfg, start, Called(cfg, r, role, name, usage, quit), k + 1)
  {
    hide EstimateCost, CacheSavings, Over;
    var r1 := Called(cfg, r, role, name, usage, quit);
    assert r1.attempts[..|r.attempts|] == r.attempts;
  }

  lemma CalledTracked(cfg: Config, start: Totals, r: Run, role: Role, name: string, usage: Option<Usage>, quit: bool)
    requires r.totals == Tally(start, Tracked(r.attempts))
    ensures var r1 := Called(cfg, r, role, name, usage, quit);
            r1.totals == Tally(start, Tracked(r1.attempts))
  {
    hide Added, Over;
    var r1 := Called(cfg, r, role, name, usage, quit);
    assert r1.attempts[..|r.attempts|] == r.attempts;
    var calls := Tracked(r1.attempts);
    if usage.Some? {
      assert calls == Tracked(r.attempts) + [Call(role, name, usage.value)];
      assert calls[..|calls| - 1] == Tracked(r.attempts);
    } else {
      assert calls == Tracked(r.attempts);
    }
  }

  /** The flag after a call: sticky, and clear only within the caps. */
  lemma CalledFlag(cfg: Config, start: Totals, r: Run, role: Role, name: string, usage: Option<Usage>, quit: bool)
    ensures var r1 := Called(cfg, r, role, name, usage, quit);
            && (r.exceeded.Some? ==> r1.exceeded == r.exceeded)
            && (r.exceeded.None? && r1.exceeded.Some? ==> r1.exceeded.value.at == |r1.attempts|)
            && (usage.Some? && Over(cfg, r1.totals.overall) ==> r1.exceeded.Some?)
            && (r1.exceeded.None? && (usage.Some? || WithinCaps(cfg, start, r, 0)) ==> WithinCaps(cfg, start, r1, 0))
  {
    hide Added;
  }

  lemma CalledOver(cfg: Config, start: Totals, r: Run, role: Role, name: string, usage: Option<Usage>, quit: bool)
    requires r.totals == Tally(start, Tracked(r.attempts)) && MayGoOn(cfg, start, r)
    ensures var r1 := Called(cfg, r, role, name, usage, quit);
            && HadToEnd(cfg, start, r1)
            && (r1.exceeded.None? || (role.Subagent? && r.exceeded.None?) ==> MayGoOn(cfg, start, r1))
  {
    hide Called, Tally, Tracked, Over;
    CalledKeeps(cfg, r, role, name, usage, quit);
    CalledTracked(cfg, start, r, role, name, usage, quit);
    CalledFlag(cfg, start, r, role, name, usage, quit);
    var r1 := Called(cfg, r, role, name, usage, quit);
    forall i: nat | OverCall(cfg, start, r1.attempts, i)
      ensures r1.exceeded.Some? && (i == |r1.attempts| || OverCall(cfg, start, r.attempts, i))
    {
      if i <= |r.attempts| {
        assert r1.attempts[..i] == r.attempts[..i];
        assert OverCall(cfg, start, r.attempts, i);
      } else {
        assert r1.attempts[..i] == r1.attempts;
      }
    }
  }

  lemma CalledSettles(cfg: Config, start: Totals, r: Run, role: Role, name: string, usage: Option<Usage>, quit: bool)
    requires Steady(cfg, start, r) && (if role.Subagent? then name in cfg.subagents && r.attempts != [] else name == "")
    ensures var r1 := Called(cfg, r, role, name, usage, quit);
            && Settled(cfg, start, r1)
            && (r1.exceeded.None? && usage.Some? ==> Steady(cfg, start, r1))
            && (role.Subagent? && r.exceeded.None? ==> Steady(cfg, start, r1))
  {
    hide Called, WithinCaps, Tally, Tracked, MayGoOn, HadToEnd;
    CalledOver(cfg, start, r, role, name, usage, quit);
    CalledKeeps(cfg, r, role, name, usage, quit);
    CalledTracked(cfg, start, r, role, name, usage, quit);
    CalledFlag(cfg, start, r, role, name, usage, quit);
    var r1 := Called(cfg, r, role, name, usage, quit);
    if r.exceeded.None? {
      CalledWithin(cfg, start, r, role, name, usage, quit, 0);
      OneMoreBack(cfg, start, r1, 1);
    } else {
      CalledWithin(cfg, start, r, role, name, usage, quit, 1);
    }
  }

  // ---- Every step of a run keeps the books --------------------------------------------------

  lemma PollSteady(cfg: Config, start: Totals, r: Run, quit: bool)
    requires Steady(cfg, start, r)
    ensures Steady(cfg, start, Poll(r, quit))
  {
    hide Tally, Tracked, OverCall;
    if r.exceeded.None? {
      OneMoreBack(cfg, start, r, 0);
    }
  }

  predicate SameBooks(r: Run, r': Run) {
    r'.attempts == r.attempts && r'.totals == r.totals && r'.exceeded == r.exceeded
  }

  lemma BooksSteady(cfg: Config, start: Totals, r: Run, r': Run)
    requires Steady(cfg, start, r) && SameBooks(r, r')
    ensures Steady(cfg, start, r')
  {
    hide Tally, Tracked, LastCosts, LastTokens, OverCall;
  }

  lemma {:induction false} DispatchSteady(cfg: Config, start: Totals, r: Run, ds: seq<Delegate>)
    requires Steady(cfg, start, r) && r.exceeded.None? && r.attempts != []
    ensures Steady(cfg, start, Dispatch(cfg, r, ds))
    decreases |ds|
  {
    hide Called, Steady, Settled;
    if ds != [] {
      if ds[0].name !in cfg.subagents {
        DispatchSteady(cfg, start, r, ds[1..]);
      } else {
        CalledSettles(cfg, start, r, Subagent, ds[0].name, ds[0].answer, ds[0].quit);
        CalledKeeps(cfg, r, Subagent, ds[0].name, ds[0].answer, ds[0].quit);
        var r1 := Called(cfg, r, Subagent, ds[0].name, ds[0].answer, ds[0].quit);
        if r1.exceeded.None? {
          DispatchSteady(cfg, start, r1, ds[1..]);
        }
      }
    }
  }

  ghost predicate Kept(cfg: Config, start: Totals, flow: Flow) {
    Settled(cfg, start, flow.run) && (flow.Go? ==> Steady(cfg, start, flow.run))
  }

  lemma ConsultKept(cfg: Config, start: Totals, r: Run, turn: PlannerTurn)
    requires Steady(cfg, start, r)
    ensures Kept(cfg, start, Consult(cfg, r, turn))
  {
    hide Called, Steady, Settled;
    if turn.PlannerFails? {
      CalledSettles(cfg, start, r, Planner, "", None, false);
    } else {
      CalledSettles(cfg, start, r, Planner, "", Some(turn.usage), turn.quit);
      CalledKeeps(cfg, r, Planner, "", Some(turn.usage), turn.quit);
      var r1 := Called(cfg, r, Planner, "", Some(turn.usage), turn.quit);
      if r1.exceeded.None? {
        DispatchSteady(cfg, start, r1, turn.delegates);
        SteadySettles(cfg, start, Dispatch(cfg, r1, turn.delegates));
      }
    }
  }

  /** After a stage of a round: the books are settled, and steady unless the run is about to end. */
  ghost predicate StageKept(cfg: Config, start: Totals, turn: Turn) {
    && Settled(cfg, start, turn.run)
    && (turn.outcome.Again? || turn.outcome.TaskComplete? ==> Steady(cfg, start, turn.run))
  }

  lemma SteadyStage(cfg: Config, start: Totals, r: Run, turn: Turn)
    requires Steady(cfg, start, r) && SameBooks(r, turn.run)
    ensures StageKept(cfg, start, turn)
  {
    hide Steady, Settled;
    BooksSteady(cfg, start, r, turn.run);
    SteadySettles(cfg, start, turn.run);
  }

  lemma ReviewKept(cfg: Config, start: Totals, a: RoundAnswers, r: Run, t: nat, b: Branch)
    requires t < |r.heap| && Steady(cfg, start, r)
    ensures StageKept(cfg, start, Review(cfg, a, r, t, b))
  {
    hide Called, Steady, Settled, Poll;
    if a.reviewer.ReviewerFails? {
      CalledSettles(cfg, start, r, Reviewer, "", None, false);
    } else {
      CalledSettles(cfg, start, r, Reviewer, "", Some(a.reviewer.usage), a.reviewer.quit);
      var r1 := Called(cfg, r, Reviewer, "", Some(a.reviewer.usage), a.reviewer.quit);
      if r1.exceeded.None? {
        var r2 := r1.(reviews := r1.reviews + [a.reviewer.decision]);
        BooksSteady(cfg, start, r1, r2);
        PollSteady(cfg, start, r2, a.lateQuit);
        SteadyStage(cfg, start, Poll(r2, a.lateQuit), Review(cfg, a, r, t, b));
      }
    }
  }

  lemma CommitKept(cfg: Config, start: Totals, a: RoundAnswers, r: Run, t: nat, b: Branch)
    requires t < |r.heap| && Steady(cfg, start, r)
    ensures StageKept(cfg, start, CommitAndReview(cfg, a, r, t, b))
  {
    hide Steady, Settled, Review, Published, StageKept;
    if a.preCommitVetoes || !a.commit.Changed? || a.postCommitVetoes || (cfg.runsTests && !a.testsPass) {
      SteadyStage(cfg, start, r, CommitAndReview(cfg, a, r, t, b));
    } else {
      var b1 := Did(b, Committed(b.commits)).(commits := b.commits + 1);
      var b2 := if cfg.runsTests then Did(b1, Tested(a.testsPass)) else b1;
      PollSteady(cfg, start, r, a.quit);
      ReviewKept(cfg, start, a, Poll(r, a.quit), t, Published(cfg, a, b2));
    }
  }

  lemma RoundKept(cfg: Config, start: Totals, a: RoundAnswers, r: Run, t: nat, b: Branch)
    requires t < |r.heap| && Steady(cfg, start, r)
    ensures StageKept(cfg, start, Round(cfg, a, r, t, b))
  {
    hide Called, Steady, Settled, CommitAndReview;
    var r0 := r.(heap := r.heap[t := r.heap[t].(iterations := r.heap[t].iterations + 1)]);
    BooksSteady(cfg, start, r, r0);
    if a.contextFails {
      SteadySettles(cfg, start, r0);
    } else if a.coder.CoderFails? {
      CalledSettles(cfg, start, r0, Coder, "", None, false);
    } else {
      CalledSettles(cfg, start, r0, Coder, "", Some(a.coder.usage), a.coder.quit);
      CalledKeeps(cfg, r0, Coder, "", Some(a.coder.usage), a.coder.quit);
      var r1 := Called(cfg, r0, Coder, "", Some(a.coder.usage), a.coder.quit);
      if r1.exceeded.None? {
        CommitKept(cfg, start, a, r1, t, b);
        if a.coder.work.CannotDo? {
          SteadyStage(cfg, start, r1, Turn(SetStatus(r1, t, Abandoned), b, TaskBlocked));
        }
      }
    }
  }

  lemma {:induction false} TaskLoopKept(cfg: Config, start: Totals, w: World, n: nat, r: Run, t: nat, b: Branch)
    requires t < |r.heap| && Steady(cfg, start, r)
    ensures StageKept(cfg, start, TaskLoop(cfg, w, n, r, t, b))
    decreases cfg.maxReviewRounds - n
  {
    hide Steady, Settled, Round;
    if n >= cfg.maxReviewRounds {
      SteadyStage(cfg, start, r, GiveUp(cfg.rollbackOnMaxRounds, r, t, b));
    } else {
      var a := w.round(|r.attempts|);
      RoundKept(cfg, start, a, r, t, b);
      RoundWithin(cfg, a, r, t, b);
      var turn := Round(cfg, a, r, t, b);
      if turn.outcome.Again? {
        TaskLoopKept(cfg, start, w, n + 1, turn.run, t, turn.branch);
      }
    }
  }

  lemma ReplanKept(cfg: Config, start: Totals, w: World, r: Run)
    requires Sound(r) && Steady(cfg, start, r)
    ensures Kept(cfg, start, Replan(cfg, w, r))
  {
    hide Steady, Settled, Consult;
    var turn := w.planner(|r.attempts|);
    ConsultKept(cfg, start, r, turn);
    var flow := Consult(cfg, r, turn);
    if flow.Go? {
      ConsultKeeps(cfg, r, turn);
      var r2 := Replan(cfg, w, r).run;
      BooksSteady(cfg, start, flow.run, r2);
      SteadySettles(cfg, start, r2);
    }
  }

  lemma OneTaskKept(cfg: Config, start: Totals, w: World, r: Run, t: nat)
    requires Sound(r) && t < |r.heap| && Steady(cfg, start, r)
    ensures Kept(cfg, start, OneTask(cfg, w, r, t))
  {
    hide Steady, Settled, TaskLoop, Replan;
    var r0 := Picked(r, t);
    BooksSteady(cfg, start, r, r0);
    BooksSteady(cfg, start, r, SetStatus(r0, t, Abandoned));
    SteadySettles(cfg, start, SetStatus(r0, t, Abandoned));
    SteadySettles(cfg, start, r0);
    TaskLoopKept(cfg, start, w, 0, r0, t, Branch(None, 0, None, []));
    var turn := RunTask(cfg, w, r0, t);
    if KnownRepo(cfg, r.heap[t]) && turn.outcome.TaskComplete? && turn.run.exceeded.None? {
      var r1 := SetStatus(turn.run, t, Done).(loopCount := turn.run.loopCount + 1);
      BooksSteady(cfg, start, turn.run, r1);
      ReplanKept(cfg, start, w, r1);
    }
  }

  lemma {:induction false} ExecuteKept(cfg: Config, start: Totals, w: World, r: Run)
    requires Sound(r) && Steady(cfg, start, r)
    ensures Settled(cfg, start, Execute(cfg, w, r).run)
    decreases cfg.maxLoops - r.loopCount
  {
    hide Steady, Settled, OneTask;
    SteadySettles(cfg, start, r);
    if r.loopCount < cfg.maxLoops && FirstPending(r.heap, r.todos).Some? {
      var t := FirstPending(r.heap, r.todos).value;
      OneTaskKept(cfg, start, w, r, t);
      var flow := OneTask(cfg, w, r, t);
      if flow.Go? {
        ExecuteKept(cfg, start, w, flow.run);
      }
    }
  }

  lemma {:induction false} ClarifyKept(cfg: Config, start: Totals, w: World, r: Run, rounds: nat)
    requires Steady(cfg, start, r)
    ensures Kept(cfg, start, Clarify(cfg, w, r, rounds))
    decreases cfg.maxClarifications - rounds
  {
    hide Steady, Settled, Called, Dispatch, Poll;
    SteadySettles(cfg, start, r);
    if r.planReady {
    } else if rounds >= cfg.maxClarifications {
      BooksSteady(cfg, start, r, r.(planReady := true));
      SteadySettles(cfg, start, r.(planReady := true));
    } else {
      var turn := w.planner(|r.attempts|);
      ConsultKept(cfg, start, r, turn);
      var flow := Consult(cfg, r, turn);
      if flow.Go? {
        if turn.phase.Clarification? && turn.questions > 0 {
          if turn.prompt.Answered? {
            PollSteady(cfg, start, flow.run, turn.prompt.quit);
            ClarifyKept(cfg, start, w, Poll(flow.run, turn.prompt.quit), rounds + 1);
          }
        } else {
          var r2 := Clarify(cfg, w, r, rounds).run;
          BooksSteady(cfg, start, flow.run, r2);
          SteadySettles(cfg, start, r2);
        }
      }
    }
  }

  lemma PlanKept(cfg: Config, start: Totals, w: World, r: Run)
    requires Steady(cfg, start, r)
    ensures Kept(cfg, start, Plan(cfg, w, r))
  {
    hide Steady, Settled, Consult;
    SteadySettles(cfg, start, r);
    var turn := w.planner(|r.attempts|);
    ConsultKept(cfg, start, r, turn);
    var flow := Consult(cfg, r, turn);
    if r.todos == [] && flow.Go? {
      var r2 := Plan(cfg, w, r).run;
      BooksSteady(cfg, start, flow.run, r2);
      SteadySettles(cfg, start, r2);
    }
  }

  /**
   * Main result, for every run: at most one call follows a call that went over a cap, or the user's quitting, and none
   * follows a primary call that went over; a run that starts within its caps costs, and uses tokens, no more than the
   * cap and its last two calls; and the totals tally every call that returned.
   */
  lemma BudgetHolds(cfg: Config, w: World, r: Run)
    requires Starts(r)
    ensures var e := RunPhases(cfg, w, r).run;
            && (forall i: nat :: OverCall(cfg, r.totals, e.attempts, i) ==>
                  e.exceeded.Some? && |e.attempts| <= i + 1 && (Primary(e.attempts[i - 1]) ==> |e.attempts| == i))
            && (e.exceeded.Some? ==>
                  var trip := e.exceeded.value;
                  && trip.at <= |e.attempts| <= trip.at + 1
                  && (!trip.byUser ==> trip.at > 0 && (Primary(e.attempts[trip.at - 1]) ==> |e.attempts| == trip.at)))
            && (cfg.maxCost.Some? && r.totals.overall.cost <= cfg.maxCost.value ==>
                  e.totals.overall.cost <= cfg.maxCost.value + LastCosts(e.attempts, if e.exceeded.Some? then 2 else 0))
            && (cfg.maxTokens.Some? && Tokens(r.totals.overall) <= cfg.maxTokens.value ==>
                  Tokens(e.totals.overall) <= cfg.maxTokens.value + LastTokens(e.attempts, if e.exceeded.Some? then 2 else 0))
            && e.totals == Tally(r.totals, Tracked(e.attempts))
  {
    hide RunPhases, Tally, Tracked, OverCall;
    RunSettles(cfg, w, r);
  }

  lemma RunSettles(cfg: Config, w: World, r: Run)
    requires Starts(r)
    ensures Settled(cfg, r.totals, RunPhases(cfg, w, r).run)
  {
    assert Steady(cfg, r.totals, r);
    hide Steady, Settled, Clarify, Plan, Execute;
    PlanningSound(cfg, w, r);
    ClarifyKept(cfg, r.totals, w, r, 0);
    var r1 := Clarify(cfg, w, r, 0).run;
    if Clarify(cfg, w, r, 0).Go? {
      PlanKept(cfg, r.totals, w, r1);
      if Plan(cfg, w, r1).Go? {
        ExecuteKept(cfg, r.totals, w, Plan(cfg, w, r1).run);
      }
    }
  }

  // ---- The log ------------------------------------------------------------------------------

  /** The tracked calls whose usage event could be appended; `track` swallows the errors of the others. */
  function Written(w: World, attempts: seq<Attempt>): seq<Call> {
    if attempts == [] then []
    else
      var n := |attempts| - 1;
      var a := attempts[n];
      Written(w, attempts[..n]) + (if a.usage.Some? && w.logs(n) then [Call(a.role, a.name, a.usage.value)] else [])
  }

  lemma {:induction false} WrittenIff(w: World, attempts: seq<Attempt>)
    ensures |Written(w, attempts)| <= |Tracked(attempts)|
    ensures (forall k: nat :: k < |attempts| && attempts[k].usage.Some? ==> w.logs(k)) ==> Written(w, attempts) == Tracked(attempts)
    ensures |Written(w, attempts)| == |Tracked(attempts)| ==> forall k: nat :: k < |attempts| && attempts[k].usage.Some? ==> w.logs(k)
  {
    if attempts != [] {
      var n := |attempts| - 1;
      WrittenIff(w, attempts[..n]);
      if forall k: nat :: k < |attempts| && attempts[k].usage.Some? ==> w.logs(k) {
        assert forall k: nat :: k < n && attempts[..n][k].usage.Some? ==> w.logs(k);
      }
      if |Written(w, attempts)| == |Tracked(attempts)| {
        forall k: nat | k < |attempts| && attempts[k].usage.Some? ensures w.logs(k) {
          assert k < n ==> attempts[..n][k].usage.Some?;
        }
      }
    }
  }

  lemma {:induction false} CallsCounted(calls: seq<Call>)
    ensures Tally(FRESH, calls).overall.calls == |calls|
  {
    hide EstimateCost, CacheSavings;
    if calls != [] {
      CallsCounted(calls[..|calls| - 1]);
    }
  }

  /**
   * The log of a fresh run folds back into its totals - of every role, of the run, and of every subagent - exactly
   * when no usage event was lost to a failed append.
   */
  lemma LogMatchesTotals(cfg: Config, w: World, r: Run, events: seq<Event>)
    requires Starts(r) && r.totals == FRESH
    requires UsageEvents(events) == Logged(Written(w, RunPhases(cfg, w, r).run.attempts))
    ensures var e := RunPhases(cfg, w, r).run;
            (Agrees(Summarized(events), e.totals) && AgreesByName(Summarized(events), e.totals)) <==>
            forall k: nat :: k < |e.attempts| && e.attempts[k].usage.Some? ==> w.logs(k)
  {
    hide RunPhases, Tally, Summarized;
    RunSettles(cfg, w, r);
    var e := RunPhases(cfg, w, r).run;
    var written := Written(w, e.attempts);
    TrackedNames(cfg, e.attempts);
    WrittenIff(w, e.attempts);
    SummaryReproducesTotals(events, written);
    CallsCounted(written);
    CallsCounted(Tracked(e.attempts));
  }

  lemma {:induction false} TrackedNames(cfg: Config, attempts: seq<Attempt>)
    requires WellNamed(cfg, attempts)
    ensures forall c :: c in Tracked(attempts) && c.name != "" ==> c.role.Subagent?
  {
    if attempts != [] {
      TrackedNames(cfg, attempts[..|attempts| - 1]);
    }
  }
}
