/** What a task may do to the world outside, and what happens to the TODOs of a run. */
module OrchestratorTasks {
  import opened Lists
  import opened Totals
  import opened OrchestratorModel
  import opened OrchestratorCalls

  // ---- The effects of a task ----------------------------------------------------------------

  predicate NoMerge(es: seq<Effect>) {
    forall i | 0 <= i < |es| :: !es[i].MergeAsked?
  }

  /** Between the commit at `i` and its approval at `j` there are only passed tests and its own publication. */
  predicate Approved(es: seq<Effect>, i: nat, j: nat) {
    && i < j < |es| && es[i].Committed? && es[j] == Judged(Approve)
    && forall k | i < k < j :: es[k] == Tested(true) || es[k] == Pushed(es[i].commit) || es[k].PrOpened?
  }

  /** From position `j` on, `e` happened. */
  predicate Since(es: seq<Effect>, j: nat, e: Effect) {
    j <= |es| && e in es[j..]
  }

  /** What stands between an approval and the merge. */
  function Clearance(cfg: Config, remote: Option<nat>): seq<Effect> {
    (if cfg.waitForCi then [CiReported(CiPassed, remote)] else []) +
    (if cfg.requireHumanApproval then [UserDecided(true)] else [])
  }

  /**
   * A finished task: its last commit, at `i`, passed the tests if there are any and was approved at `j`; if there
   * is a pull request then CI passed, the user agreed, both where configured, and one merge was asked for, at the
   * very end. What CI has judged and GitHub merges is the commit on the branch there, which is no later one; it is
   * the approved commit exactly when that was pushed.
   */
  ghost predicate Landed(cfg: Config, b: Branch, i: nat, j: nat) {
    var es := b.effects;
    && Approved(es, i, j) && es[i].commit + 1 == b.commits
    && (cfg.runsTests ==> i + 1 < j && es[i + 1] == Tested(true))
    && if cfg.github && b.pr.Some? then
         && es[j + 1..] == Clearance(cfg, b.remote) + [MergeAsked(b.pr.value, b.remote)] && NoMerge(es[..j + 1])
         && b.remote.Some? && b.remote.value <= es[i].commit
         && (b.remote.value == es[i].commit <==> Since(es[..j], i, Pushed(es[i].commit)))
       else j == |es| - 1 && NoMerge(es)
  }

  /** The state of a branch between rounds; what was pushed was committed before. */
  predicate BranchOk(b: Branch) {
    && NoMerge(b.effects)
    && (b.pr.Some? ==> b.remote.Some?)
    && (b.remote.Some? ==> b.remote.value < b.commits)
  }

  /** The last commit, at `i`, is on GitHub exactly when it was pushed. */
  predicate PushedIff(b: Branch, i: nat) {
    b.commits > 0 && (b.remote == Some(b.commits - 1) <==> Since(b.effects, i, Pushed(b.commits - 1)))
  }

  ghost predicate RoundSafe(cfg: Config, b: Branch, turn: Turn) {
    && b.effects <= turn.branch.effects
    && (turn.outcome.Again? ==> BranchOk(turn.branch))
    && (!turn.outcome.TaskComplete? ==> NoMerge(turn.branch.effects))
    && (turn.outcome.TaskComplete? ==>
          && turn.run.reviews != [] && turn.run.reviews[|turn.run.reviews| - 1] == Approve
          && exists i, j :: Landed(cfg, turn.branch, i, j))
  }

  lemma LandEffects(cfg: Config, a: RoundAnswers, r: Run, t: nat, b: Branch)
    requires t < |r.heap| && BranchOk(b)
    ensures var turn := Land(cfg, a, r, t, b);
            && turn.branch.pr == b.pr && turn.branch.remote == b.remote && turn.branch.commits == b.commits
            && b.effects <= turn.branch.effects
            && (!turn.outcome.TaskComplete? ==> NoMerge(turn.branch.effects))
            && (turn.outcome.TaskComplete? ==>
                  && turn.run.reviews == r.reviews
                  && turn.branch.effects ==
                     if cfg.github && b.pr.Some? then b.effects + Clearance(cfg, b.remote) + [MergeAsked(b.pr.value, b.remote)] else b.effects)
  {
  }

  lemma MergeLands(cfg: Config, b: Branch, j: nat, i: nat, e: Effect, before: seq<Effect>)
    requires before + Clearance(cfg, b.remote) + [e] == b.effects && NoMerge(before)
    requires cfg.github && b.pr.Some? && e == MergeAsked(b.pr.value, b.remote)
    requires Approved(before, i, j) && j == |before| - 1 && before[i].commit + 1 == b.commits
    requires cfg.runsTests ==> i + 1 < j && before[i + 1] == Tested(true)
    requires b.remote.Some? && b.remote.value < b.commits
    requires b.remote == Some(before[i].commit) <==> Since(before[..j], i, Pushed(before[i].commit))
    ensures Landed(cfg, b, i, j)
  {
    assert b.effects[..j] == before[..j] && b.effects[..j + 1] == before;
    assert b.effects[j + 1..] == Clearance(cfg, b.remote) + [e];
    forall k | i < k < j ensures b.effects[k] == before[k] {
    }
  }

  lemma LandSafe(cfg: Config, a: RoundAnswers, r: Run, t: nat, b: Branch, i: nat, j: nat)
    requires t < |r.heap| && BranchOk(b)
    requires Approved(b.effects, i, j) && j == |b.effects| - 1 && b.effects[i].commit + 1 == b.commits
    requires cfg.runsTests ==> i + 1 < j && b.effects[i + 1] == Tested(true)
    requires r.reviews != [] && r.reviews[|r.reviews| - 1] == Approve
    requires b.remote == Some(b.effects[i].commit) <==> Since(b.effects[..j], i, Pushed(b.effects[i].commit))
    ensures RoundSafe(cfg, b, Land(cfg, a, r, t, b))
  {
    hide Land, Landed, Clearance, Approved;
    LandEffects(cfg, a, r, t, b);
    var turn := Land(cfg, a, r, t, b);
    if turn.outcome.TaskComplete? {
      if cfg.github && b.pr.Some? {
        MergeLands(cfg, turn.branch, j, i, MergeAsked(b.pr.value, b.remote), b.effects);
      } else {
        NoPrLands(cfg, turn.branch, i, j);
      }
      assert Landed(cfg, turn.branch, i, j);
    }
  }

  lemma NoPrLands(cfg: Config, b: Branch, i: nat, j: nat)
    requires BranchOk(b) && !(cfg.github && b.pr.Some?)
    requires Approved(b.effects, i, j) && j == |b.effects| - 1 && b.effects[i].commit + 1 == b.commits
    requires cfg.runsTests ==> i + 1 < j && b.effects[i + 1] == Tested(true)
    ensures Landed(cfg, b, i, j)
  {
  }

  lemma ReviewSafe(cfg: Config, a: RoundAnswers, r: Run, t: nat, b: Branch, i: nat)
    requires t < |r.heap| && BranchOk(b)
    requires i < |b.effects| && b.effects[i].Committed? && b.effects[i].commit + 1 == b.commits
    requires forall k | i < k < |b.effects| ::
               b.effects[k] == Tested(true) || b.effects[k] == Pushed(b.effects[i].commit) || b.effects[k].PrOpened?
    requires cfg.runsTests ==> i + 1 < |b.effects| && b.effects[i + 1] == Tested(true)
    requires PushedIff(b, i)
    ensures RoundSafe(cfg, b, Review(cfg, a, r, t, b))
  {
    hide Called, Land, Landed;
    if a.reviewer.ReviewerSays? {
      var r1 := Called(cfg, r, Reviewer, "", Some(a.reviewer.usage), a.reviewer.quit);
      CalledKeeps(cfg, r, Reviewer, "", Some(a.reviewer.usage), a.reviewer.quit);
      var r2 := Poll(r1.(reviews := r1.reviews + [a.reviewer.decision]), a.lateQuit);
      var b1 := Did(b, Judged(a.reviewer.decision));
      if a.reviewer.decision.Approve? && r1.exceeded.None? {
        assert b1.effects[..|b.effects|] == b.effects;
        LandSafe(cfg, a, r2, t, b1, i, |b.effects|);
      }
    }
  }

  lemma CommitSafe(cfg: Config, a: RoundAnswers, r: Run, t: nat, b: Branch)
    requires t < |r.heap| && BranchOk(b)
    ensures RoundSafe(cfg, b, CommitAndReview(cfg, a, r, t, b))
  {
    hide Review, Landed, Published;
    if !a.preCommitVetoes && a.commit.Changed? && !a.postCommitVetoes && (cfg.runsTests ==> a.testsPass) {
      var b1 := Did(b, Committed(b.commits)).(commits := b.commits + 1);
      var b2 := if cfg.runsTests then Did(b1, Tested(a.testsPass)) else b1;
      PublishedOk(cfg, a, b2, |b.effects|);
      ReviewSafe(cfg, a, Poll(r, a.quit), t, Published(cfg, a, b2), |b.effects|);
    }
  }

  lemma PublishedOk(cfg: Config, a: RoundAnswers, b: Branch, i: nat)
    requires BranchOk(b) && i < |b.effects| && b.commits > 0 && b.effects[i] == Committed(b.commits - 1)
    requires forall k | i < k < |b.effects| :: b.effects[k] == Tested(true)
    requires b.remote.Some? ==> b.remote.value < b.commits - 1
    ensures var p := Published(cfg, a, b);
            && BranchOk(p) && b.effects <= p.effects && p.commits == b.commits && PushedIff(p, i)
            && forall k | i < k < |p.effects| ::
                 p.effects[k] == Tested(true) || p.effects[k] == Pushed(b.commits - 1) || p.effects[k].PrOpened?
  {
    var p := Published(cfg, a, b);
    if cfg.github && a.pushes {
      assert p.effects[|b.effects|] == Pushed(b.commits - 1) == p.effects[i..][|b.effects| - i];
    }
  }

  lemma RoundIsSafe(cfg: Config, a: RoundAnswers, r: Run, t: nat, b: Branch)
    requires t < |r.heap| && BranchOk(b)
    ensures RoundSafe(cfg, b, Round(cfg, a, r, t, b))
  {
    hide Called, CommitAndReview, Landed;
    var r0 := r.(heap := r.heap[t := r.heap[t].(iterations := r.heap[t].iterations + 1)]);
    if a.coder.CoderSays? {
      CalledKeeps(cfg, r0, Coder, "", Some(a.coder.usage), a.coder.quit);
      CommitSafe(cfg, a, Called(cfg, r0, Coder, "", Some(a.coder.usage), a.coder.quit), t, b);
    }
  }

  lemma {:induction false} TaskLoopSafe(cfg: Config, w: World, n: nat, r: Run, t: nat, b: Branch)
    requires t < |r.heap| && BranchOk(b)
    ensures RoundSafe(cfg, b, TaskLoop(cfg, w, n, r, t, b))
    decreases cfg.maxReviewRounds - n
  {
    hide Round, Landed;
    if n < cfg.maxReviewRounds {
      var a := w.round(|r.attempts|);
      RoundIsSafe(cfg, a, r, t, b);
      RoundWithin(cfg, a, r, t, b);
      var turn := Round(cfg, a, r, t, b);
      if turn.outcome.Again? {
        TaskLoopSafe(cfg, w, n + 1, turn.run, t, turn.branch);
      }
    }
  }

  /**
   * Main result for a task: it completes only when its last commit passed the tests and was approved, CI passed on
   * the branch and the user confirmed, as configured; the last verdict on record is then that approval; one merge was asked for if
   * there is a pull request; and a task that does not complete asks for none.
   */
  lemma TaskCompletesSafely(cfg: Config, w: World, r: Run, t: nat)
    requires t < |r.heap|
    ensures var turn := RunTask(cfg, w, r, t);
            && (turn.outcome.TaskComplete? ==>
                  && turn.run.reviews != [] && turn.run.reviews[|turn.run.reviews| - 1] == Approve
                  && exists i, j :: Landed(cfg, turn.branch, i, j))
            && (!turn.outcome.TaskComplete? ==> NoMerge(turn.branch.effects))
  {
    hide TaskLoop, Landed;
    TaskLoopSafe(cfg, w, 0, r, t, Branch(None, 0, None, []));
  }

  // ---- What a task leaves on its TODO -------------------------------------------------------

  predicate Untold(todo: Todo, es: seq<Effect>) {
    todo.mergedPr.None? && !todo.rolledBack && RolledBack !in es
  }

  /** The TODO says what happened: a merged pull request, a rollback, or neither. */
  ghost predicate Told(turn: Turn, t: nat) {
    && t < |turn.run.heap|
    && var todo, es := turn.run.heap[t], turn.branch.effects;
       && (todo.rolledBack <==> RolledBack in es)
       && (todo.rolledBack ==> turn.outcome.TaskBlocked? && todo.status.Abandoned?)
       && (todo.mergedPr.Some? ==>
             turn.outcome.TaskComplete? && es != [] && es[|es| - 1].MergeAsked? && es[|es| - 1].pr == todo.mergedPr.value)
       && (turn.outcome.Again? ==> Untold(todo, es))
  }

  lemma LandTold(cfg: Config, a: RoundAnswers, r: Run, t: nat, b: Branch)
    requires t < |r.heap| && Untold(r.heap[t], b.effects)
    ensures Told(Land(cfg, a, r, t, b), t)
  {
  }

  lemma ReviewTold(cfg: Config, a: RoundAnswers, r: Run, t: nat, b: Branch)
    requires t < |r.heap| && Untold(r.heap[t], b.effects)
    ensures Told(Review(cfg, a, r, t, b), t)
  {
    hide Called, Land;
    if a.reviewer.ReviewerFails? {
      CalledKeeps(cfg, r, Reviewer, "", None, false);
    } else {
      var r1 := Called(cfg, r, Reviewer, "", Some(a.reviewer.usage), a.reviewer.quit);
      CalledKeeps(cfg, r, Reviewer, "", Some(a.reviewer.usage), a.reviewer.quit);
      var r2 := Poll(r1.(reviews := r1.reviews + [a.reviewer.decision]), a.lateQuit);
      LandTold(cfg, a, r2, t, Did(b, Judged(a.reviewer.decision)));
    }
  }

  lemma CommitTold(cfg: Config, a: RoundAnswers, r: Run, t: nat, b: Branch)
    requires t < |r.heap| && Untold(r.heap[t], b.effects)
    ensures Told(CommitAndReview(cfg, a, r, t, b), t)
  {
    hide Review;
    if !a.preCommitVetoes && a.commit.Changed? && !a.postCommitVetoes {
      var b1 := Did(b, Committed(b.commits)).(commits := b.commits + 1);
      var b2 := if cfg.runsTests then Did(b1, Tested(a.testsPass)) else b1;
      ReviewTold(cfg, a, Poll(r, a.quit), t, Published(cfg, a, b2));
    }
  }

  lemma RoundTold(cfg: Config, a: RoundAnswers, r: Run, t: nat, b: Branch)
    requires t < |r.heap| && Untold(r.heap[t], b.effects)
    ensures Told(Round(cfg, a, r, t, b), t)
    ensures Round(cfg, a, r, t, b).run.heap[t].iterations == r.heap[t].iterations + 1
  {
    hide Called, CommitAndReview;
    var r0 := r.(heap := r.heap[t := r.heap[t].(iterations := r.heap[t].iterations + 1)]);
    if a.coder.CoderFails? {
      CalledKeeps(cfg, r0, Coder, "", None, false);
    } else {
      var r1 := Called(cfg, r0, Coder, "", Some(a.coder.usage), a.coder.quit);
      CalledKeeps(cfg, r0, Coder, "", Some(a.coder.usage), a.coder.quit);
      CommitTold(cfg, a, r1, t, b);
      CommitIterations(cfg, a, r1, t, b);
    }
  }

  lemma CommitIterations(cfg: Config, a: RoundAnswers, r: Run, t: nat, b: Branch)
    requires t < |r.heap|
    ensures var turn := CommitAndReview(cfg, a, r, t, b);
            |turn.run.heap| == |r.heap| && turn.run.heap[t].iterations == r.heap[t].iterations
  {
    hide Review, Published;
    if !a.preCommitVetoes && a.commit.Changed? && !a.postCommitVetoes {
      var b1 := Did(b, Committed(b.commits)).(commits := b.commits + 1);
      var b2 := if cfg.runsTests then Did(b1, Tested(a.testsPass)) else b1;
      ReviewIterations(cfg, a, Poll(r, a.quit), t, Published(cfg, a, b2));
    }
  }

  lemma ReviewIterations(cfg: Config, a: RoundAnswers, r: Run, t: nat, b: Branch)
    requires t < |r.heap|
    ensures var turn := Review(cfg, a, r, t, b);
            |turn.run.heap| == |r.heap| && turn.run.heap[t].iterations == r.heap[t].iterations
  {
    hide Added, Over;
  }

  lemma {:induction false} TaskLoopTold(cfg: Config, w: World, n: nat, r: Run, t: nat, b: Branch)
    requires t < |r.heap| && Untold(r.heap[t], b.effects)
    ensures Told(TaskLoop(cfg, w, n, r, t, b), t)
    ensures TaskLoop(cfg, w, n, r, t, b).run.heap[t].iterations <= r.heap[t].iterations + Cap(cfg.maxReviewRounds - n)
    decreases cfg.maxReviewRounds - n
  {
    hide Round, Told;
    if n < cfg.maxReviewRounds {
      var a := w.round(|r.attempts|);
      RoundTold(cfg, a, r, t, b);
      RoundWithin(cfg, a, r, t, b);
      var turn := Round(cfg, a, r, t, b);
      if turn.outcome.Again? {
        AgainUntold(turn, t);
        TaskLoopTold(cfg, w, n + 1, turn.run, t, turn.branch);
      }
    } else {
      GiveUpTold(cfg, r, t, b);
    }
  }

  lemma AgainUntold(turn: Turn, t: nat)
    requires Told(turn, t) && turn.outcome.Again?
    ensures t < |turn.run.heap| && Untold(turn.run.heap[t], turn.branch.effects)
  {
  }

  lemma GiveUpTold(cfg: Config, r: Run, t: nat, b: Branch)
    requires t < |r.heap| && Untold(r.heap[t], b.effects)
    ensures Told(GiveUp(cfg.rollbackOnMaxRounds, r, t, b), t)
  {
  }

  /**
   * The TODO records its task: a rollback exactly when the branch was rolled back, and then the task is blocked and
   * abandoned; a merged pull request only when that was the one asked to merge, last of all; and no more iterations
   * than maxReviewRounds.
   */
  lemma TaskLeavesRecord(cfg: Config, w: World, r: Run, t: nat)
    requires t < |r.heap| && r.heap[t].mergedPr.None? && !r.heap[t].rolledBack
    ensures Told(RunTask(cfg, w, r, t), t)
    ensures RunTask(cfg, w, r, t).run.heap[t].iterations <= r.heap[t].iterations + Cap(cfg.maxReviewRounds)
  {
    hide TaskLoop;
    TaskLoopTold(cfg, w, 0, r, t, Branch(None, 0, None, []));
  }

  // ---- What a merge can miss ----------------------------------------------------------------

  function Free(): Usage {
    Usage(Ollama, 0, 0, 0, 0)
  }

  function EveryAnswerGood(): RoundAnswers {
    RoundAnswers(false, CoderSays(Free(), false, Edits), false, Changed, false, true, true, Some(7), false,
                 ReviewerSays(Free(), false, Approve), false, CiPassed, Agreed, true)
  }

  function OneShotConfig(): Config {
    Config(0, 2, 1, None, None, false, false, true, false, true, true, true, {}, {})
  }

  /**
   * A failed push is only logged. When a task has a pull request from an earlier round, a later commit that is
   * approved but was not pushed leaves CI to judge and GitHub to merge the earlier one, which the Reviewer had
   * turned down.
   */
  lemma UnpushedApprovalMergesOldCommit(r: Run, w: World)
    requires Starts(r) && r.heap != [] && r.totals == FRESH
    requires !w.headFails(0)
    requires w.round(0) == EveryAnswerGood().(reviewer := ReviewerSays(Free(), false, RequestChanges))
    requires w.round(2) == EveryAnswerGood().(pushes := false)
    ensures var turn := RunTask(OneShotConfig(), w, r, 0);
            && turn.outcome.TaskComplete? && turn.run.heap[0].mergedPr == Some(7)
            && turn.branch.effects == [Committed(0), Pushed(0), PrOpened(7), Judged(RequestChanges),
                                       Committed(1), Judged(Approve), CiReported(CiPassed, Some(0)), MergeAsked(7, Some(0))]
  {
    hide Added;
    var cfg, b := OneShotConfig(), Branch(None, 0, None, []);
    var first := Round(cfg, w.round(0), r, 0, b);
    assert first.outcome.Again? && |first.run.attempts| == 2 && first.run.exceeded.None?;
    assert first.branch == Branch(Some(7), 1, Some(0), [Committed(0), Pushed(0), PrOpened(7), Judged(RequestChanges)]);
    RoundWithin(cfg, w.round(0), r, 0, b);
    var second := Round(cfg, w.round(2), first.run, 0, first.branch);
    assert second.outcome.TaskComplete?;
    assert TaskLoop(cfg, w, 0, r, 0, b) == TaskLoop(cfg, w, 1, first.run, 0, first.branch) == second;
  }
}
