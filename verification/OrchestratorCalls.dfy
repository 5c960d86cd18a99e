/** How many model calls a run makes, what they cost, and that the totals account for every one of them. */
module OrchestratorCalls {
  import opened Lists
  import opened Totals
  import opened OrchestratorModel

  // ---- Counting calls -----------------------------------------------------------------------

  function Count(attempts: seq<Attempt>, role: Role): nat {
    if attempts == [] then 0
    else Count(attempts[..|attempts| - 1], role) + (if attempts[|attempts| - 1].role == role then 1 else 0)
  }

  /** Attempts of each role: Planner, Coder, Reviewer. */
  datatype Tried = Tried(p: nat, c: nat, v: nat)

  function TriedBy(r: Run): Tried {
    Tried(Count(r.attempts, Planner), Count(r.attempts, Coder), Count(r.attempts, Reviewer))
  }

  lemma CalledTried(cfg: Config, r: Run, role: Role, name: string, usage: Option<Usage>, quit: bool)
    ensures var n := TriedBy(r);
            TriedBy(Called(cfg, r, role, name, usage, quit)) ==
            match role
            case Planner => n.(p := n.p + 1)
            case Coder => n.(c := n.c + 1)
            case Reviewer => n.(v := n.v + 1)
            case Subagent => n
    ensures OnlyCalls(r, Called(cfg, r, role, name, usage, quit))
  {
    hide Called;
    CalledKeeps(cfg, r, role, name, usage, quit);
    var r1 := Called(cfg, r, role, name, usage, quit);
    assert r1.attempts[..|r.attempts|] == r.attempts;
  }

  lemma {:induction false} DispatchTried(cfg: Config, r: Run, ds: seq<Delegate>)
    ensures TriedBy(Dispatch(cfg, r, ds)) == TriedBy(r)
    decreases |ds|
  {
    hide Called, TriedBy;
    if ds != [] {
      CalledTried(cfg, r, Subagent, ds[0].name, ds[0].answer, ds[0].quit);
      DispatchTried(cfg, r, ds[1..]);
      DispatchTried(cfg, Called(cfg, r, Subagent, ds[0].name, ds[0].answer, ds[0].quit), ds[1..]);
    }
  }

  lemma ConsultTried(cfg: Config, r: Run, turn: PlannerTurn)
    ensures TriedBy(Consult(cfg, r, turn).run) == TriedBy(r).(p := TriedBy(r).p + 1)
  {
    hide Called, TriedBy;
    if turn.PlannerFails? {
      CalledTried(cfg, r, Planner, "", None, false);
    } else {
      CalledTried(cfg, r, Planner, "", Some(turn.usage), turn.quit);
      DispatchTried(cfg, Called(cfg, r, Planner, "", Some(turn.usage), turn.quit), turn.delegates);
    }
  }

  lemma ReviewTried(cfg: Config, a: RoundAnswers, r: Run, t: nat, b: Branch)
    requires t < |r.heap|
    ensures TriedBy(Review(cfg, a, r, t, b).run) == TriedBy(r).(v := TriedBy(r).v + 1)
  {
    hide Called;
    if a.reviewer.ReviewerFails? {
      CalledTried(cfg, r, Reviewer, "", None, false);
    } else {
      CalledTried(cfg, r, Reviewer, "", Some(a.reviewer.usage), a.reviewer.quit);
    }
  }

  lemma RoundTried(cfg: Config, a: RoundAnswers, r: Run, t: nat, b: Branch)
    requires t < |r.heap|
    ensures var n, n' := TriedBy(r), TriedBy(Round(cfg, a, r, t, b).run);
            n'.p == n.p && n'.c <= n.c + 1 && n'.v - n.v <= n'.c - n.c
  {
    hide Called, Review;
    var r0 := r.(heap := r.heap[t := r.heap[t].(iterations := r.heap[t].iterations + 1)]);
    assert TriedBy(r0) == TriedBy(r);
    if a.coder.CoderFails? {
      CalledTried(cfg, r0, Coder, "", None, false);
    } else {
      CalledTried(cfg, r0, Coder, "", Some(a.coder.usage), a.coder.quit);
      CommitTried(cfg, a, Called(cfg, r0, Coder, "", Some(a.coder.usage), a.coder.quit), t, b);
    }
  }

  lemma CommitTried(cfg: Config, a: RoundAnswers, r: Run, t: nat, b: Branch)
    requires t < |r.heap|
    ensures var n, n' := TriedBy(r), TriedBy(CommitAndReview(cfg, a, r, t, b).run);
            n' == n || n' == n.(v := n.v + 1)
  {
    hide Called, Review, Published;
    var b1 := if a.commit.Changed? then Did(b, Committed(b.commits)).(commits := b.commits + 1) else b;
    if a.commit.Changed? {
      var b2 := if cfg.runsTests then Did(b1, Tested(a.testsPass)) else b1;
      ReviewTried(cfg, a, Poll(r, a.quit), t, Published(cfg, a, b2));
    }
  }

  function Cap(n: int): nat {
    if n > 0 then n else 0
  }

  lemma {:induction false} TaskLoopTried(cfg: Config, w: World, n: nat, r: Run, t: nat, b: Branch)
    requires t < |r.heap|
    ensures var m, m' := TriedBy(r), TriedBy(TaskLoop(cfg, w, n, r, t, b).run);
            m'.p == m.p && m'.c <= m.c + Cap(cfg.maxReviewRounds - n) && m'.v - m.v <= m'.c - m.c
    decreases cfg.maxReviewRounds - n
  {
    hide Round, Count;
    if n < cfg.maxReviewRounds {
      var a := w.round(|r.attempts|);
      RoundTried(cfg, a, r, t, b);
      RoundWithin(cfg, a, r, t, b);
      var turn := Round(cfg, a, r, t, b);
      if turn.outcome.Again? {
        TaskLoopTried(cfg, w, n + 1, turn.run, t, turn.branch);
      }
    }
  }

  lemma OneTaskTried(cfg: Config, w: World, r: Run, t: nat)
    requires Sound(r) && t < |r.heap|
    ensures var m, m' := TriedBy(r), TriedBy(OneTask(cfg, w, r, t).run);
            m'.p <= m.p + 1 && m'.c <= m.c + Cap(cfg.maxReviewRounds) && m'.v - m.v <= m'.c - m.c
  {
    hide TaskLoop, Count, Consult;
    var r0 := Picked(r, t);
    assert TriedBy(r0) == TriedBy(r);
    var turn := RunTask(cfg, w, r0, t);
    TaskLoopTried(cfg, w, 0, r0, t, Branch(None, 0, None, []));
    var r1 := SetStatus(turn.run, t, Done).(loopCount := turn.run.loopCount + 1);
    assert TriedBy(r1) == TriedBy(turn.run);
    ConsultTried(cfg, r1, w.planner(|r1.attempts|));
  }

  function Product(a: nat, b: nat): nat {
    a * b
  }

  lemma ProductStep(a: nat, b: nat)
    ensures Product(a + 1, b) == Product(a, b) + b
  {
  }

  lemma {:induction false} ExecuteTried(cfg: Config, w: World, r: Run)
    requires Sound(r)
    ensures var m, m' := TriedBy(r), TriedBy(Execute(cfg, w, r).run);
            var loops := Cap(cfg.maxLoops - r.loopCount);
            m'.p <= m.p + loops && m'.c <= m.c + Product(loops, Cap(cfg.maxReviewRounds)) && m'.v - m.v <= m'.c - m.c
    decreases cfg.maxLoops - r.loopCount
  {
    hide OneTask, Count, Product;
    if r.loopCount < cfg.maxLoops && FirstPending(r.heap, r.todos).Some? {
      var t := FirstPending(r.heap, r.todos).value;
      OneTaskTried(cfg, w, r, t);
      var flow := OneTask(cfg, w, r, t);
      ProductStep(Cap(cfg.maxLoops - r.loopCount) - 1, Cap(cfg.maxReviewRounds));
      if flow.Go? {
        ExecuteTried(cfg, w, flow.run);
      }
    }
  }

  lemma {:induction false} ClarifyTried(cfg: Config, w: World, r: Run, rounds: nat)
    ensures var m, m' := TriedBy(r), TriedBy(Clarify(cfg, w, r, rounds).run);
            m'.p <= m.p + Cap(cfg.maxClarifications - rounds) && m'.c == m.c && m'.v == m.v
    decreases cfg.maxClarifications - rounds
  {
    hide Called, Dispatch, Count;
    if !r.planReady && rounds < cfg.maxClarifications {
      var turn := w.planner(|r.attempts|);
      ConsultTried(cfg, r, turn);
      var flow := Consult(cfg, r, turn);
      if flow.Go? && turn.phase.Clarification? && turn.questions > 0 && turn.prompt.Answered? {
        ClarifyTried(cfg, w, Poll(flow.run, turn.prompt.quit), rounds + 1);
      }
    }
  }

  lemma PlanTried(cfg: Config, w: World, r: Run)
    ensures var m, m' := TriedBy(r), TriedBy(Plan(cfg, w, r).run);
            m'.p <= m.p + 1 && m'.c == m.c && m'.v == m.v
  {
    hide Consult, Count;
    ConsultTried(cfg, r, w.planner(|r.attempts|));
  }

  /** A run begins with no call attempted and the flag clear. */
  predicate Starts(r: Run) {
    Sound(r) && r.attempts == [] && r.exceeded.None?
  }

  /**
   * Main result: every run ends, whatever it is answered, with no more than maxClarifications + 1 + maxLoops
   * Planner calls, no more than maxLoops * maxReviewRounds Coder calls and no more Reviewer than Coder calls.
   * A resumed run has only the loops left that its loop count leaves.
   */
  lemma CallBounds(cfg: Config, w: World, r: Run)
    requires Starts(r)
    ensures var n := TriedBy(RunPhases(cfg, w, r).run);
            var loops := Cap(cfg.maxLoops - r.loopCount);
            && n.p <= Cap(cfg.maxClarifications) + 1 + loops
            && n.c <= loops * Cap(cfg.maxReviewRounds)
            && n.v <= n.c
  {
    hide Execute, Plan, Clarify;
    PlanningSound(cfg, w, r);
    var r1 := Clarify(cfg, w, r, 0).run;
    var r2 := Plan(cfg, w, r1).run;
    ClarifyTried(cfg, w, r, 0);
    PlanTried(cfg, w, r1);
    PlanningCount(cfg, w, r);
    ExecuteTried(cfg, w, r2);
  }

  lemma {:induction false} ClarifyCount(cfg: Config, w: World, r: Run, rounds: nat)
    ensures Clarify(cfg, w, r, rounds).run.loopCount == r.loopCount
    decreases cfg.maxClarifications - rounds
  {
    hide Called, Dispatch;
    if !r.planReady && rounds < cfg.maxClarifications {
      var turn := w.planner(|r.attempts|);
      ConsultKeeps(cfg, r, turn);
      var flow := Consult(cfg, r, turn);
      if flow.Go? && turn.phase.Clarification? && turn.questions > 0 && turn.prompt.Answered? {
        ClarifyCount(cfg, w, Poll(flow.run, turn.prompt.quit), rounds + 1);
      }
    }
  }

  lemma PlanningCount(cfg: Config, w: World, r: Run)
    ensures Clarify(cfg, w, r, 0).run.loopCount == r.loopCount
    ensures Plan(cfg, w, Clarify(cfg, w, r, 0).run).run.loopCount == r.loopCount
  {
    hide Consult;
    ClarifyCount(cfg, w, r, 0);
    var r1 := Clarify(cfg, w, r, 0).run;
    ConsultKeeps(cfg, r1, w.planner(|r1.attempts|));
  }

  /** No Coder or Reviewer call before there is a plan, and none at all in a dry run. */
  lemma NothingBeforeThePlan(cfg: Config, w: World, r: Run)
    requires Starts(r)
    ensures var phase1 := Clarify(cfg, w, r, 0);
            && TriedBy(phase1.run).c == 0 && TriedBy(phase1.run).v == 0
            && (phase1.Go? ==> TriedBy(Plan(cfg, w, phase1.run).run).c == 0 && TriedBy(Plan(cfg, w, phase1.run).run).v == 0)
    ensures cfg.dryRun ==> TriedBy(RunPhases(cfg, w, r).run).c == 0 && TriedBy(RunPhases(cfg, w, r).run).v == 0
  {
    hide Clarify, Plan, Execute;
    ClarifyTried(cfg, w, r, 0);
    PlanTried(cfg, w, Clarify(cfg, w, r, 0).run);
  }
}
