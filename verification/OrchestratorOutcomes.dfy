/** Exactly when a round, a task and a run end in which way, in terms of the answers they get. */
module OrchestratorOutcomes {
  import opened Lists
  import opened Totals
  import opened OrchestratorModel
  import opened OrchestratorCalls
  import opened OrchestratorTodos

  // ---- The flag -----------------------------------------------------------------------------

  predicate InBudget(cfg: Config, b: Bucket) {
    && (cfg.maxCost.Some? ==> b.cost <= cfg.maxCost.value)
    && (cfg.maxTokens.Some? ==> b.input + b.output + b.cacheRead + b.cacheWrite <= cfg.maxTokens.value)
  }

  function With(b: Bucket, u: Usage): Bucket {
    Plus(b, Weight(u))
  }

  /** A call leaves the flag clear exactly when it was clear, the user stays and the call passes no cap. */
  lemma CalledClear(cfg: Config, r: Run, role: Role, name: string, u: Usage, quit: bool)
    ensures var r1 := Called(cfg, r, role, name, Some(u), quit);
            && r1.totals.overall == With(r.totals.overall, u)
            && (r1.exceeded.None? <==> r.exceeded.None? && !quit && InBudget(cfg, With(r.totals.overall, u)))
            && (r.exceeded.Some? ==> r1.exceeded == r.exceeded)
  {
    hide Weight;
  }

  // ---- One round ----------------------------------------------------------------------------

  /** The Coder has answered, and the run goes on. */
  predicate Coded(cfg: Config, a: RoundAnswers, r: Run) {
    && !a.contextFails && a.coder.CoderSays? && !a.coder.quit
    && r.exceeded.None? && InBudget(cfg, With(r.totals.overall, a.coder.usage))
  }

  /** Its edits are committed. */
  predicate Kept(cfg: Config, a: RoundAnswers, r: Run) {
    Coded(cfg, a, r) && a.coder.work.Edits? && !a.preCommitVetoes && a.commit.Changed? && !a.postCommitVetoes
  }

  predicate Tests(cfg: Config, a: RoundAnswers, r: Run) {
    Kept(cfg, a, r) && (cfg.runsTests ==> a.testsPass)
  }

  /** The Reviewer has answered, and the run goes on. */
  predicate Reviewed(cfg: Config, a: RoundAnswers, r: Run) {
    && Tests(cfg, a, r) && a.reviewer.ReviewerSays? && !a.quit && !a.reviewer.quit
    && InBudget(cfg, With(With(r.totals.overall, a.coder.usage), a.reviewer.usage))
  }

  predicate ApprovedIn(cfg: Config, a: RoundAnswers, r: Run) {
    Reviewed(cfg, a, r) && a.reviewer.decision.Approve?
  }

  /** There is a pull request once this round's commit was published. */
  function PrOf(cfg: Config, a: RoundAnswers, b: Branch): Option<nat> {
    if !cfg.github then None else if b.pr.Some? then b.pr else if a.pushes then a.pr else None
  }

  /** With a pull request CI is awaited and the user asked, where configured. */
  predicate Passes(cfg: Config, a: RoundAnswers) {
    cfg.waitForCi ==> a.ci.CiPassed?
  }

  predicate Agrees(cfg: Config, a: RoundAnswers) {
    cfg.requireHumanApproval ==> a.confirm.Agreed?
  }

  /** How an approved task lands. */
  predicate LandsAs(cfg: Config, a: RoundAnswers, pr: Option<nat>, outcome: Outcome) {
    match outcome
    case TaskComplete => pr.None? || (Passes(cfg, a) && Agrees(cfg, a))
    case Again => pr.Some? && cfg.waitForCi && a.ci.CiFailed?
    case TaskBlocked => pr.Some? && cfg.waitForCi && !a.ci.CiPassed? && !a.ci.CiFailed?
    case TaskAborted => pr.Some? && Passes(cfg, a) && cfg.requireHumanApproval && a.confirm.Declined?
    case TaskThrew => pr.Some? && Passes(cfg, a) && cfg.requireHumanApproval && a.confirm.ConfirmFails?
  }

  /** What a round ends as. */
  predicate Ends(cfg: Config, a: RoundAnswers, r: Run, b: Branch, outcome: Outcome) {
    var approved, pr := ApprovedIn(cfg, a, r), PrOf(cfg, a, b);
    match outcome
    case TaskComplete => approved && LandsAs(cfg, a, pr, TaskComplete)
    case Again =>
      || (Coded(cfg, a, r) && a.coder.work.NoEdits?)
      || (Coded(cfg, a, r) && a.coder.work.Edits? && !a.preCommitVetoes && a.commit.NothingChanged? && !a.postCommitVetoes)
      || (Kept(cfg, a, r) && cfg.runsTests && !a.testsPass)
      || (Reviewed(cfg, a, r) && a.reviewer.decision.RequestChanges?)
      || (approved && LandsAs(cfg, a, pr, Again))
    case TaskBlocked =>
      || GivenUp(cfg, a, r)
      || (approved && LandsAs(cfg, a, pr, TaskBlocked))
    case TaskAborted =>
      || (!a.contextFails && a.coder.CoderSays? && !Coded(cfg, a, r))
      || (Tests(cfg, a, r) && a.reviewer.ReviewerSays? && !Reviewed(cfg, a, r))
      || (approved && LandsAs(cfg, a, pr, TaskAborted))
    case TaskThrew =>
      || a.contextFails || a.coder.CoderFails?
      || (Coded(cfg, a, r) && a.coder.work.Edits? && !a.preCommitVetoes && (a.commit.CommitFails? || a.postCommitVetoes))
      || (Tests(cfg, a, r) && a.reviewer.ReviewerFails?)
      || (approved && LandsAs(cfg, a, pr, TaskThrew))
  }

  /** The Coder cannot do it, or the hook before the commit forbids it. */
  predicate GivenUp(cfg: Config, a: RoundAnswers, r: Run) {
    Coded(cfg, a, r) && (a.coder.work.CannotDo? || (a.coder.work.Edits? && a.preCommitVetoes))
  }

  /** The verdicts that a round puts on record. */
  function VerdictsIn(cfg: Config, a: RoundAnswers, r: Run, b: Branch): seq<Decision> {
    if Kept(cfg, a, r) && cfg.runsTests && !a.testsPass then [RequestChanges]
    else if !Reviewed(cfg, a, r) then []
    else if a.reviewer.decision.Approve? && LandsAs(cfg, a, PrOf(cfg, a, b), Again) then [Approve, RequestChanges]
    else [a.reviewer.decision]
  }

  /** What a round makes of its TODO. */
  function Marked(cfg: Config, a: RoundAnswers, r: Run, t: nat, b: Branch): Todo
    requires t < |r.heap|
  {
    var todo := r.heap[t].(iterations := r.heap[t].iterations + 1);
    if GivenUp(cfg, a, r) then
      todo.(status := Abandoned, rolledBack := todo.rolledBack || (a.coder.work.Edits? && cfg.rollbackOnHardFail))
    else if ApprovedIn(cfg, a, r) && PrOf(cfg, a, b).Some? && LandsAs(cfg, a, PrOf(cfg, a, b), TaskComplete) && a.merges then
      todo.(mergedPr := PrOf(cfg, a, b))
    else todo
  }

  lemma LandOutcome(cfg: Config, a: RoundAnswers, r: Run, t: nat, b: Branch)
    requires t < |r.heap|
    ensures var turn, pr := Land(cfg, a, r, t, b), if cfg.github then b.pr else None;
            && (forall o :: LandsAs(cfg, a, pr, o) <==> turn.outcome == o)
            && turn.run.reviews == r.reviews + (if turn.outcome.Again? then [RequestChanges] else [])
            && t < |turn.run.heap|
            && turn.run.heap[t] == (if turn.outcome.TaskComplete? && pr.Some? && a.merges then r.heap[t].(mergedPr := pr) else r.heap[t])
            && turn.run.totals == r.totals && turn.run.exceeded == r.exceeded
  {
  }

  /** In a round that began with `r`, the state at a later stage: what the round ends as, and its record. */
  ghost predicate EndsWith(cfg: Config, a: RoundAnswers, r: Run, t: nat, b: Branch, turn: Turn)
    requires t < |r.heap|
  {
    && Ends(cfg, a, r, b, turn.outcome)
    && turn.run.reviews == r.reviews + VerdictsIn(cfg, a, r, b)
    && t < |turn.run.heap| && turn.run.heap[t] == Marked(cfg, a, r, t, b)
  }

  /** `r1` is the state after the Coder's answer, in the round that began with `r`. */
  ghost predicate CoderDone(cfg: Config, a: RoundAnswers, r: Run, t: nat, r1: Run) {
    && Coded(cfg, a, r)
    && t < |r.heap| && r1.heap == r.heap[t := r.heap[t].(iterations := r.heap[t].iterations + 1)]
    && r1.reviews == r.reviews && r1.exceeded.None? && r1.totals.overall == With(r.totals.overall, a.coder.usage)
  }

  lemma ReviewOutcome(cfg: Config, a: RoundAnswers, r: Run, r1: Run, t: nat, b: Branch, b1: Branch)
    requires CoderDone(cfg, a, r, t, r1) && Tests(cfg, a, r) && (cfg.github ==> b1.pr == PrOf(cfg, a, b))
    ensures EndsWith(cfg, a, r, t, b, Review(cfg, a, Poll(r1, a.quit), t, b1))
  {
    hide Called, Land, LandsAs, InBudget, With;
    var r2 := Poll(r1, a.quit);
    if a.reviewer.ReviewerFails? {
      CalledKeeps(cfg, r2, Reviewer, "", None, false);
    } else {
      var u := a.reviewer.usage;
      CalledKeeps(cfg, r2, Reviewer, "", Some(u), a.reviewer.quit);
      CalledClear(cfg, r2, Reviewer, "", u, a.reviewer.quit);
      var r3 := Called(cfg, r2, Reviewer, "", Some(u), a.reviewer.quit);
      if r3.exceeded.None? && a.reviewer.decision.Approve? {
        var r4 := Poll(r3.(reviews := r3.reviews + [a.reviewer.decision]), a.lateQuit);
        var b2 := Did(b1, Judged(a.reviewer.decision));
        LandOutcome(cfg, a, r4, t, b2);
        var pr, turn := PrOf(cfg, a, b), Land(cfg, a, r4, t, b2);
        assert (if cfg.github then b2.pr else None) == pr;
        assert Review(cfg, a, r2, t, b1) == turn;
        assert LandsAs(cfg, a, pr, turn.outcome) && (LandsAs(cfg, a, pr, Again) <==> turn.outcome.Again?)
               && (LandsAs(cfg, a, pr, TaskComplete) <==> turn.outcome.TaskComplete?);
      }
    }
  }

  lemma CommitOutcome(cfg: Config, a: RoundAnswers, r: Run, r1: Run, t: nat, b: Branch)
    requires CoderDone(cfg, a, r, t, r1) && a.coder.work.Edits?
    ensures EndsWith(cfg, a, r, t, b, CommitAndReview(cfg, a, r1, t, b))
  {
    hide Review, LandsAs, Published, InBudget, With;
    if Kept(cfg, a, r) && (cfg.runsTests ==> a.testsPass) {
      var b1 := Did(b, Committed(b.commits)).(commits := b.commits + 1);
      var b2 := if cfg.runsTests then Did(b1, Tested(a.testsPass)) else b1;
      PublishedPr(cfg, a, b2);
      ReviewOutcome(cfg, a, r, r1, t, b, Published(cfg, a, b2));
    }
  }

  lemma PublishedPr(cfg: Config, a: RoundAnswers, b: Branch)
    requires b.commits > 0
    ensures cfg.github ==> Published(cfg, a, b).pr == PrOf(cfg, a, b)
  {
  }

  lemma OneEnd(cfg: Config, a: RoundAnswers, r: Run, b: Branch, o: Outcome, o': Outcome)
    requires Ends(cfg, a, r, b, o) && Ends(cfg, a, r, b, o')
    ensures o == o'
  {
    hide InBudget, With;
  }

  /**
   * Main result for a round: exactly when it completes the task, goes on, blocks, aborts or throws, in terms of the
   * answers, the caps and the pull request; the verdicts it puts on record; and what becomes of its TODO.
   */
  lemma RoundOutcome(cfg: Config, a: RoundAnswers, r: Run, t: nat, b: Branch)
    requires t < |r.heap|
    ensures var turn := Round(cfg, a, r, t, b);
            && (forall o :: turn.outcome == o <==> Ends(cfg, a, r, b, o))
            && turn.run.reviews == r.reviews + VerdictsIn(cfg, a, r, b)
            && t < |turn.run.heap| && turn.run.heap[t] == Marked(cfg, a, r, t, b)
  {
    var turn := Round(cfg, a, r, t, b);
    RoundEnds(cfg, a, r, t, b);
    forall o ensures turn.outcome == o <==> Ends(cfg, a, r, b, o) {
      if Ends(cfg, a, r, b, o) {
        OneEnd(cfg, a, r, b, o, turn.outcome);
      }
    }
  }

  lemma RoundEnds(cfg: Config, a: RoundAnswers, r: Run, t: nat, b: Branch)
    requires t < |r.heap|
    ensures EndsWith(cfg, a, r, t, b, Round(cfg, a, r, t, b))
  {
    hide Called, CommitAndReview, LandsAs, InBudget, With, PrOf;
    var r0 := r.(heap := r.heap[t := r.heap[t].(iterations := r.heap[t].iterations + 1)]);
    if a.coder.CoderFails? {
      CalledKeeps(cfg, r0, Coder, "", None, false);
    } else {
      var r1 := Called(cfg, r0, Coder, "", Some(a.coder.usage), a.coder.quit);
      CalledKeeps(cfg, r0, Coder, "", Some(a.coder.usage), a.coder.quit);
      CalledClear(cfg, r0, Coder, "", a.coder.usage, a.coder.quit);
      if !a.contextFails && r1.exceeded.None? && a.coder.work.Edits? {
        CommitOutcome(cfg, a, r, r1, t, b);
      }
    }
  }

  // ---- What a round does to the world outside -----------------------------------------------

  /** What GitHub has of the branch once this round's commit was published. */
  function RemoteOf(cfg: Config, a: RoundAnswers, b: Branch): Option<nat> {
    if cfg.github && a.pushes then Some(b.commits) else b.remote
  }

  function PublishStory(cfg: Config, a: RoundAnswers, b: Branch): seq<Effect> {
    if !cfg.github || !a.pushes then []
    else if b.pr.None? && a.pr.Some? then [Pushed(b.commits), PrOpened(a.pr.value)]
    else [Pushed(b.commits)]
  }

  function LandStory(cfg: Config, a: RoundAnswers, pr: Option<nat>, remote: Option<nat>): seq<Effect> {
    if pr.None? then []
    else
      (if cfg.waitForCi then [CiReported(a.ci, remote)] else []) +
      (if Passes(cfg, a) && cfg.requireHumanApproval && !a.confirm.ConfirmFails? then [UserDecided(a.confirm.Agreed?)] else []) +
      (if Passes(cfg, a) && Agrees(cfg, a) then [MergeAsked(pr.value, remote)] else [])
  }

  function Story(cfg: Config, a: RoundAnswers, r: Run, b: Branch): seq<Effect> {
    (if Coded(cfg, a, r) && a.coder.work.Edits? && !a.preCommitVetoes && a.commit.Changed? then [Committed(b.commits)] else []) +
    (if Kept(cfg, a, r) && cfg.runsTests then [Tested(a.testsPass)] else []) +
    (if Tests(cfg, a, r) then PublishStory(cfg, a, b) else []) +
    (if Reviewed(cfg, a, r) then [Judged(a.reviewer.decision)] else []) +
    (if ApprovedIn(cfg, a, r) then LandStory(cfg, a, PrOf(cfg, a, b), RemoteOf(cfg, a, b)) else []) +
    (if GivenUp(cfg, a, r) && a.coder.work.Edits? && cfg.rollbackOnHardFail then [RolledBack] else [])
  }

  lemma LandTells(cfg: Config, a: RoundAnswers, r: Run, t: nat, b: Branch)
    requires t < |r.heap|
    ensures Land(cfg, a, r, t, b).branch ==
            b.(effects := b.effects + LandStory(cfg, a, if cfg.github then b.pr else None, b.remote))
  {
  }

  lemma ReviewTells(cfg: Config, a: RoundAnswers, r: Run, r1: Run, t: nat, b: Branch, b1: Branch)
    requires CoderDone(cfg, a, r, t, r1) && Tests(cfg, a, r)
    requires b1.remote == RemoteOf(cfg, a, b) && (cfg.github ==> b1.pr == PrOf(cfg, a, b))
    ensures Review(cfg, a, Poll(r1, a.quit), t, b1).branch ==
            b1.(effects := b1.effects + (if Reviewed(cfg, a, r) then [Judged(a.reviewer.decision)] else []) +
                           (if ApprovedIn(cfg, a, r) then LandStory(cfg, a, PrOf(cfg, a, b), RemoteOf(cfg, a, b)) else []))
  {
    hide Called, Land, LandStory, InBudget, With, RemoteOf;
    var r2 := Poll(r1, a.quit);
    if a.reviewer.ReviewerSays? {
      var u := a.reviewer.usage;
      CalledKeeps(cfg, r2, Reviewer, "", Some(u), a.reviewer.quit);
      CalledClear(cfg, r2, Reviewer, "", u, a.reviewer.quit);
      var r3 := Called(cfg, r2, Reviewer, "", Some(u), a.reviewer.quit);
      if r3.exceeded.None? && a.reviewer.decision.Approve? {
        var r4 := Poll(r3.(reviews := r3.reviews + [a.reviewer.decision]), a.lateQuit);
        LandTells(cfg, a, r4, t, Did(b1, Judged(a.reviewer.decision)));
        assert (if cfg.github then b1.pr else None) == PrOf(cfg, a, b);
      }
    }
  }

  lemma PublishTells(cfg: Config, a: RoundAnswers, b: Branch, b2: Branch)
    requires b2 == b.(effects := b2.effects, commits := b.commits + 1)
    ensures var p := Published(cfg, a, b2);
            && p.effects == b2.effects + PublishStory(cfg, a, b) && p.remote == RemoteOf(cfg, a, b)
            && p.commits == b.commits + 1 && (cfg.github ==> p.pr == PrOf(cfg, a, b))
  {
  }

  lemma CommitTells(cfg: Config, a: RoundAnswers, r: Run, r1: Run, t: nat, b: Branch)
    requires CoderDone(cfg, a, r, t, r1) && a.coder.work.Edits?
    ensures CommitAndReview(cfg, a, r1, t, b).branch.effects == b.effects + Story(cfg, a, r, b)
  {
    hide Review, LandStory, PublishStory, Published, InBudget, With, RemoteOf, PrOf;
    if Kept(cfg, a, r) && (cfg.runsTests ==> a.testsPass) {
      var b1 := Did(b, Committed(b.commits)).(commits := b.commits + 1);
      var b2 := if cfg.runsTests then Did(b1, Tested(a.testsPass)) else b1;
      PublishTells(cfg, a, b, b2);
      ReviewTells(cfg, a, r, r1, t, b, Published(cfg, a, b2));
    }
  }

  /**
   * Exactly what a round does outside, in order: commit, tests, push and pull request, verdict, CI, the user's word and
   * the merge, or a rollback.
   */
  lemma RoundTells(cfg: Config, a: RoundAnswers, r: Run, t: nat, b: Branch)
    requires t < |r.heap|
    ensures Round(cfg, a, r, t, b).branch.effects == b.effects + Story(cfg, a, r, b)
  {
    hide Called, CommitAndReview, LandStory, PublishStory, InBudget, With, PrOf, RemoteOf;
    var r0 := r.(heap := r.heap[t := r.heap[t].(iterations := r.heap[t].iterations + 1)]);
    if a.coder.CoderSays? && !a.contextFails {
      var r1 := Called(cfg, r0, Coder, "", Some(a.coder.usage), a.coder.quit);
      CalledKeeps(cfg, r0, Coder, "", Some(a.coder.usage), a.coder.quit);
      CalledClear(cfg, r0, Coder, "", a.coder.usage, a.coder.quit);
      if r1.exceeded.None? && a.coder.work.Edits? {
        CommitTells(cfg, a, r, r1, t, b);
      }
    }
  }

  // ---- A task -------------------------------------------------------------------------------

  /** The states in which the rounds of a task begin, as long as they go on. */
  ghost predicate RoundsTo(cfg: Config, w: World, k: nat, r: Run, t: nat, b: Branch, r': Run, b': Branch)
    requires t < |r.heap|
    decreases k
  {
    if k == 0 then r' == r && b' == b
    else
      var turn := Round(cfg, w.round(|r.attempts|), r, t, b);
      turn.outcome.Again? && t < |turn.run.heap| && RoundsTo(cfg, w, k - 1, turn.run, t, turn.branch, r', b')
  }

  /** Round `k`, from 0, is reached and decides the task as `outcome`. */
  ghost predicate DecidedIn(cfg: Config, w: World, r: Run, t: nat, b: Branch, k: nat, outcome: Outcome)
    requires t < |r.heap|
  {
    exists r', b' :: RoundsTo(cfg, w, k, r, t, b, r', b') && Ends(cfg, w.round(|r'.attempts|), r', b', outcome)
  }

  lemma DecidedLater(cfg: Config, w: World, r: Run, t: nat, b: Branch, k: nat, outcome: Outcome)
    requires t < |r.heap|
    ensures var turn := Round(cfg, w.round(|r.attempts|), r, t, b);
            t < |turn.run.heap| &&
            (DecidedIn(cfg, w, r, t, b, k + 1, outcome) <==>
             turn.outcome.Again? && DecidedIn(cfg, w, turn.run, t, turn.branch, k, outcome))
  {
    hide Round, Ends;
    RoundWithin(cfg, w.round(|r.attempts|), r, t, b);
    var turn := Round(cfg, w.round(|r.attempts|), r, t, b);
    forall r', b' ensures RoundsTo(cfg, w, k + 1, r, t, b, r', b') <==>
                          turn.outcome.Again? && RoundsTo(cfg, w, k, turn.run, t, turn.branch, r', b')
    {
    }
  }

  lemma DecidedNow(cfg: Config, w: World, r: Run, t: nat, b: Branch, outcome: Outcome)
    requires t < |r.heap|
    ensures DecidedIn(cfg, w, r, t, b, 0, outcome) <==> Ends(cfg, w.round(|r.attempts|), r, b, outcome)
  {
    hide Ends;
    if Ends(cfg, w.round(|r.attempts|), r, b, outcome) {
      assert RoundsTo(cfg, w, 0, r, t, b, r, b);
    }
  }

  ghost predicate Decided(cfg: Config, w: World, r: Run, t: nat, b: Branch, n: nat, outcome: Outcome)
    requires t < |r.heap|
  {
    exists k: nat :: n + k < cfg.maxReviewRounds && DecidedIn(cfg, w, r, t, b, k, outcome)
  }

  /**
   * A task ends as one of its first maxReviewRounds rounds decides - completed exactly when one of them meets the
   * conditions of a completing round - and is blocked when none of them decides.
   */
  lemma {:induction false} TaskOutcome(cfg: Config, w: World, n: nat, r: Run, t: nat, b: Branch, outcome: Outcome)
    requires t < |r.heap| && !outcome.Again?
    ensures TaskLoop(cfg, w, n, r, t, b).outcome == outcome <==>
            || Decided(cfg, w, r, t, b, n, outcome)
            || (outcome.TaskBlocked? && forall o: Outcome :: !o.Again? ==> !Decided(cfg, w, r, t, b, n, o))
    decreases cfg.maxReviewRounds - n
  {
    hide Round, Ends, DecidedIn, TaskLoop;
    if n < cfg.maxReviewRounds {
      var a := w.round(|r.attempts|);
      var turn := Round(cfg, a, r, t, b);
      RoundOutcome(cfg, a, r, t, b);
      RoundWithin(cfg, a, r, t, b);
      forall o: Outcome ensures Decided(cfg, w, r, t, b, n, o) <==>
                                turn.outcome == o || (turn.outcome.Again? && Decided(cfg, w, turn.run, t, turn.branch, n + 1, o))
      {
        DecidedSplits(cfg, w, r, t, b, n, o);
      }
      TaskLoopStep(cfg, w, n, r, t, b);
      if turn.outcome.Again? {
        TaskOutcome(cfg, w, n + 1, turn.run, t, turn.branch, outcome);
      }
    } else {
      TaskLoopOver(cfg, w, n, r, t, b);
    }
  }

  lemma DecidedSplits(cfg: Config, w: World, r: Run, t: nat, b: Branch, n: nat, o: Outcome)
    requires t < |r.heap| && n < cfg.maxReviewRounds
    ensures var turn := Round(cfg, w.round(|r.attempts|), r, t, b);
            t < |turn.run.heap| &&
            (Decided(cfg, w, r, t, b, n, o) <==>
             turn.outcome == o || (turn.outcome.Again? && Decided(cfg, w, turn.run, t, turn.branch, n + 1, o)))
  {
    hide Round, Ends, DecidedIn;
    var turn := Round(cfg, w.round(|r.attempts|), r, t, b);
    RoundOutcome(cfg, w.round(|r.attempts|), r, t, b);
    DecidedNow(cfg, w, r, t, b, o);
    if k: nat :| n + k < cfg.maxReviewRounds && DecidedIn(cfg, w, r, t, b, k, o) {
      if k > 0 {
        DecidedLater(cfg, w, r, t, b, k - 1, o);
        assert n + 1 + (k - 1) < cfg.maxReviewRounds;
      }
    }
    if turn.outcome.Again? && Decided(cfg, w, turn.run, t, turn.branch, n + 1, o) {
      var k: nat :| n + 1 + k < cfg.maxReviewRounds && DecidedIn(cfg, w, turn.run, t, turn.branch, k, o);
      DecidedLater(cfg, w, r, t, b, k, o);
      assert n + (k + 1) < cfg.maxReviewRounds;
    }
    if turn.outcome == o {
      assert n + 0 < cfg.maxReviewRounds;
    }
  }

  lemma TaskLoopStep(cfg: Config, w: World, n: nat, r: Run, t: nat, b: Branch)
    requires t < |r.heap| && n < cfg.maxReviewRounds
    ensures var turn := Round(cfg, w.round(|r.attempts|), r, t, b);
            t < |turn.run.heap| &&
            TaskLoop(cfg, w, n, r, t, b) == if turn.outcome.Again? then TaskLoop(cfg, w, n + 1, turn.run, t, turn.branch) else turn
  {
    hide Round;
    RoundWithin(cfg, w.round(|r.attempts|), r, t, b);
  }

  lemma TaskLoopOver(cfg: Config, w: World, n: nat, r: Run, t: nat, b: Branch)
    requires t < |r.heap| && n >= cfg.maxReviewRounds
    ensures var turn := TaskLoop(cfg, w, n, r, t, b);
            && turn.outcome.TaskBlocked? && t < |turn.run.heap| && turn.run.heap[t].status.Abandoned?
            && turn.run.heap[t].rolledBack == (r.heap[t].rolledBack || cfg.rollbackOnMaxRounds)
            && turn.branch.effects == b.effects + (if cfg.rollbackOnMaxRounds then [RolledBack] else [])
  {
  }

  // ---- The Planner's calls ------------------------------------------------------------------

  /** The calls that the delegations ask for, but for unknown names. */
  function Requested(cfg: Config, ds: seq<Delegate>): seq<Attempt> {
    if ds == [] then []
    else (if ds[0].name in cfg.subagents then [Attempt(Subagent, ds[0].name, ds[0].answer)] else []) + Requested(cfg, ds[1..])
  }

  /** The delegations to known subagents are called in order, all of them unless the flag goes up. */
  lemma {:induction false} DispatchMakes(cfg: Config, r: Run, ds: seq<Delegate>)
    ensures var r', wanted := Dispatch(cfg, r, ds), Requested(cfg, ds);
            var m := |r'.attempts| - |r.attempts|;
            && 0 <= m <= |wanted| && r'.attempts == r.attempts + wanted[..m]
            && (m < |wanted| ==> r'.exceeded.Some?)
    decreases |ds|
  {
    hide Called;
    if |ds| > 0 {
      var d := ds[0];
      if d.name in cfg.subagents {
        CalledKeeps(cfg, r, Subagent, d.name, d.answer, d.quit);
        var r1 := Called(cfg, r, Subagent, d.name, d.answer, d.quit);
        var first, rest := Attempt(Subagent, d.name, d.answer), Requested(cfg, ds[1..]);
        assert Requested(cfg, ds) == [first] + rest;
        if r1.exceeded.None? {
          DispatchMakes(cfg, r1, ds[1..]);
          var n := |Dispatch(cfg, r1, ds[1..]).attempts| - |r1.attempts|;
          assert ([first] + rest)[..n + 1] == [first] + rest[..n];
        } else {
          assert ([first] + rest)[..1] == [first];
        }
      } else {
        DispatchMakes(cfg, r, ds[1..]);
        assert [] + Requested(cfg, ds[1..]) == Requested(cfg, ds[1..]);
      }
    }
  }

  /** An answer that asks the user something, and is answered. */
  predicate Asks(turn: PlannerTurn) {
    && turn.PlannerSays? && !turn.quit && turn.delegates == [] && turn.phase.Clarification? && turn.questions > 0
    && turn.prompt == Answered(false)
  }

  /** A Planner that never stops asking is asked maxClarifications times, and then the plan counts as ready, unless the
      flag goes up. */
  lemma {:induction false} QuestionsRunOut(cfg: Config, w: World, r: Run, rounds: nat)
    requires !r.planReady && forall k :: Asks(w.planner(k))
    ensures var flow := Clarify(cfg, w, r, rounds);
            && (flow.Go? ==> flow.run.planReady && flow.run.todos == r.todos
                             && |flow.run.attempts| == |r.attempts| + Cap(cfg.maxClarifications - rounds))
            && (flow.End? ==> flow.exit.Aborted? && flow.run.exceeded.Some?)
    decreases cfg.maxClarifications - rounds
  {
    hide Called;
    if rounds < cfg.maxClarifications {
      var turn := w.planner(|r.attempts|);
      assert Asks(turn);
      CalledKeeps(cfg, r, Planner, "", Some(turn.usage), turn.quit);
      var r1 := Called(cfg, r, Planner, "", Some(turn.usage), turn.quit);
      if r1.exceeded.None? {
        assert Consult(cfg, r, turn) == Go(r1) && Poll(r1, false) == r1;
        QuestionsRunOut(cfg, w, r1, rounds + 1);
      }
    }
  }

  // ---- Where a run ends ---------------------------------------------------------------------

  /** The Planner answers, nobody quits and no cap is passed. */
  predicate Answers(cfg: Config, r: Run, turn: PlannerTurn) {
    turn.PlannerSays? && r.exceeded.None? && !turn.quit && InBudget(cfg, With(r.totals.overall, turn.usage))
  }

  lemma ConsultOutcome(cfg: Config, r: Run, turn: PlannerTurn)
    ensures var flow := Consult(cfg, r, turn);
            && (flow.Go? <==> Answers(cfg, r, turn))
            && (flow.End? ==> flow.exit == if turn.PlannerFails? then Threw else Aborted)
  {
    hide Called, InBudget, With;
    if turn.PlannerSays? {
      CalledClear(cfg, r, Planner, "", turn.usage, turn.quit);
    }
  }

  /** Exactly how phase 2 ends: with a list, blocked without one, aborted or thrown. */
  lemma PlanOutcome(cfg: Config, w: World, r: Run)
    ensures var flow, turn := Plan(cfg, w, r), w.planner(|r.attempts|);
            var listed := turn.PlannerSays? && turn.phase.TodoList? && turn.todos != [];
            && (flow.Go? <==> r.todos != [] || (Answers(cfg, r, turn) && listed))
            && (flow.Go? && r.todos == [] ==> |flow.run.todos| == |turn.todos|)
            && (flow.End? ==> (flow.exit.Blocked? <==> Answers(cfg, r, turn)) && (flow.exit.Threw? <==> turn.PlannerFails?)
                              && (flow.exit.Aborted? <==> turn.PlannerSays? && !Answers(cfg, r, turn)))
  {
    hide Consult, InBudget, With;
    ConsultOutcome(cfg, r, w.planner(|r.attempts|));
  }

  /**
   * Exactly where an iteration of phase 3 ends the run: blocked, by an unknown repository or a blocked task; aborted, by
   * the task, by the flag after it or at the Planner's review; thrown; or complete, because the Planner says so. Else it
   * goes on with the TODO done.
   */
  lemma TaskExit(cfg: Config, w: World, r: Run, t: nat)
    requires Sound(r) && t < |r.heap|
    ensures var flow, turn := OneTask(cfg, w, r, t), RunTask(cfg, w, Picked(r, t), t);
            var known, planner := KnownRepo(cfg, r.heap[t]), w.planner(|turn.run.attempts|);
            var done := known && turn.outcome.TaskComplete? && turn.run.exceeded.None?;
            && (flow.Go? <==> done && Answers(cfg, turn.run, planner) && !planner.phase.PlanComplete?)
            && (flow.Go? ==> t < |flow.run.heap| && flow.run.heap[t].status.Done? && flow.run.loopCount == r.loopCount + 1)
            && (flow.End? ==>
                  && (flow.exit.Complete? <==> done && Answers(cfg, turn.run, planner) && planner.phase.PlanComplete?)
                  && (flow.exit.Blocked? <==> !known || turn.outcome.TaskBlocked?)
                  && (flow.exit.Threw? <==> known && (turn.outcome.TaskThrew? || (done && planner.PlannerFails?)))
                  && (flow.exit.Aborted? <==>
                        known && (turn.outcome.TaskAborted? || (turn.outcome.TaskComplete? && turn.run.exceeded.Some?)
                                  || (done && planner.PlannerSays? && !Answers(cfg, turn.run, planner)))))
  {
    hide RunTask, Consult, InBudget, With;
    var turn := RunTask(cfg, w, Picked(r, t), t);
    if KnownRepo(cfg, r.heap[t]) && turn.outcome.TaskComplete? && turn.run.exceeded.None? {
      var r1 := SetStatus(turn.run, t, Done).(loopCount := turn.run.loopCount + 1);
      ConsultOutcome(cfg, r1, w.planner(|r1.attempts|));
      ConsultKeeps(cfg, r1, w.planner(|r1.attempts|));
    }
  }
}
