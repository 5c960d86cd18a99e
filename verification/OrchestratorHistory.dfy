/** The TODOs at every milestone of a run: after each phase, each round of a task and each revision of the plan. */
module OrchestratorHistory {
  import opened Lists
  import opened OrchestratorModel
  import opened OrchestratorCalls
  import opened OrchestratorTodos

  // ---- The milestones -----------------------------------------------------------------------

  /** The states after each round of runTaskLoop, from its round `n` on. */
  function Rounds(cfg: Config, w: World, n: nat, r: Run, t: nat, b: Branch): (s: seq<Run>)
    requires t < |r.heap|
    ensures s != [] && s[|s| - 1] == TaskLoop(cfg, w, n, r, t, b).run
    decreases cfg.maxReviewRounds - n
  {
    if n >= cfg.maxReviewRounds then [GiveUp(cfg.rollbackOnMaxRounds, r, t, b).run]
    else
      var turn := Round(cfg, w.round(|r.attempts|), r, t, b);
      RoundWithin(cfg, w.round(|r.attempts|), r, t, b);
      [turn.run] + if turn.outcome.Again? then Rounds(cfg, w, n + 1, turn.run, t, turn.branch) else []
  }

  /** The states of a task: picked, worked on round by round. */
  function Worked(cfg: Config, w: World, r: Run, t: nat): (s: seq<Run>)
    requires t < |r.heap|
    ensures s != [] && s[|s| - 1] == RunTask(cfg, w, Picked(r, t), t).run
  {
    var r0 := Picked(r, t);
    [r0] + if w.headFails(|r0.attempts|) then [] else Rounds(cfg, w, 0, r0, t, Branch(None, 0, None, []))
  }

  /** The states after a task: the finished TODO, the new plan. */
  function Closing(cfg: Config, w: World, turn: Turn, t: nat): seq<Run>
    requires Sound(turn.run) && t < |turn.run.heap|
  {
    if turn.outcome.TaskComplete? && turn.run.exceeded.None? then
      var r1 := SetStatus(turn.run, t, Done).(loopCount := turn.run.loopCount + 1);
      [r1, Replan(cfg, w, r1).run]
    else []
  }

  /** The states of one iteration of phase 3: the task, the finished TODO, the new plan. */
  function Iteration(cfg: Config, w: World, r: Run, t: nat): (s: seq<Run>)
    requires Sound(r) && t < |r.heap|
    ensures |s| > 0
  {
    var r0 := Picked(r, t);
    if !KnownRepo(cfg, r.heap[t]) then [r0, SetStatus(r0, t, Abandoned)]
    else
      var turn := RunTask(cfg, w, r0, t);
      Sounds(r0, turn, t);
      Worked(cfg, w, r, t) + Closing(cfg, w, turn, t)
  }

  lemma Sounds(r: Run, turn: Turn, t: nat)
    requires Sound(r) && t < |r.heap| && StageWithin(r, turn, t)
    ensures Sound(turn.run) && t < |turn.run.heap|
  {
  }

  lemma IterationEnds(cfg: Config, w: World, r: Run, t: nat)
    requires Sound(r) && t < |r.heap|
    ensures var s := Iteration(cfg, w, r, t);
            s[|s| - 1] == OneTask(cfg, w, r, t).run
  {
    hide Worked, Replan, RunTask, StageWithin;
    if KnownRepo(cfg, r.heap[t]) {
      var turn := RunTask(cfg, w, Picked(r, t), t);
      Sounds(Picked(r, t), turn, t);
      var work, end := Worked(cfg, w, r, t), Closing(cfg, w, turn, t);
      assert Iteration(cfg, w, r, t) == work + end;
    }
  }

  /** The states of phase 3. */
  function Tasks(cfg: Config, w: World, r: Run): (s: seq<Run>)
    requires Sound(r)
    ensures s != [] && s[0] == r && s[|s| - 1] == Execute(cfg, w, r).run
    decreases cfg.maxLoops - r.loopCount
  {
    if r.loopCount >= cfg.maxLoops then [r]
    else match FirstPending(r.heap, r.todos)
      case None => [r]
      case Some(t) =>
        var flow := OneTask(cfg, w, r, t);
        IterationEnds(cfg, w, r, t);
        [r] + Iteration(cfg, w, r, t) + if flow.Go? then Tasks(cfg, w, flow.run) else []
  }

  /** The states of a whole run, from its start to its end. */
  function History(cfg: Config, w: World, r: Run): (s: seq<Run>)
    requires Sound(r)
    ensures s != [] && s[0] == r && s[|s| - 1] == RunPhases(cfg, w, r).run
  {
    PlanningSound(cfg, w, r);
    var phase1 := Clarify(cfg, w, r, 0);
    [r, phase1.run] +
    if phase1.End? then []
    else
      var phase2 := Plan(cfg, w, phase1.run);
      if phase2.End? || cfg.dryRun then [phase2.run] else Tasks(cfg, w, phase2.run)
  }

  // ---- Steps --------------------------------------------------------------------------------

  predicate Finished(s: Status) {
    s.Done? || s.Abandoned?
  }

  /** pending to in_progress, in_progress to done or abandoned. */
  predicate NextStatus(a: Status, b: Status) {
    a == b || (a.Pending? && b.InProgress?) || (a.InProgress? && Finished(b))
  }

  /** One TODO at most changes, by at most one move, never a finished one; TODOs that are added are pending. */
  ghost predicate Step(h: seq<Todo>, h': seq<Todo>) {
    && |h| <= |h'|
    && (forall i | 0 <= i < |h| ::
          && h'[i].id == h[i].id && NextStatus(h[i].status, h'[i].status) && h'[i].iterations >= h[i].iterations
          && (Finished(h[i].status) ==> h'[i] == h[i]))
    && (forall i | |h| <= i < |h'| :: h'[i].status.Pending?)
    && (forall i, j | 0 <= i < |h| && 0 <= j < |h| && h'[i] != h[i] && h'[j] != h[j] :: i == j)
  }

  ghost predicate Chain(s: seq<Run>) {
    forall k | 0 <= k < |s| - 1 :: Step(s[k].heap, s[k + 1].heap)
  }

  /** Any number of steps. */
  ghost predicate Advanced(h: seq<Todo>, h': seq<Todo>) {
    && |h| <= |h'|
    && (forall i | 0 <= i < |h| ::
          && h'[i].id == h[i].id && Forward(h[i].status, h'[i].status) && h'[i].iterations >= h[i].iterations
          && (Finished(h[i].status) ==> h'[i] == h[i]))
  }

  lemma {:induction false} ChainAdvances(s: seq<Run>, i: nat, j: nat)
    requires Chain(s) && i <= j < |s|
    ensures Advanced(s[i].heap, s[j].heap)
    decreases j - i
  {
    if i < j {
      ChainAdvances(s, i, j - 1);
      assert Step(s[j - 1].heap, s[j - 1 + 1].heap);
    }
  }

  lemma Joined(s: seq<Run>, s': seq<Run>)
    requires Chain(s) && Chain(s')
    requires s != [] && s' != [] ==> Step(s[|s| - 1].heap, s'[0].heap)
    ensures Chain(s + s')
  {
    hide Step;
    var all := s + s';
    forall k | 0 <= k < |all| - 1 ensures Step(all[k].heap, all[k + 1].heap) {
      if k >= |s| {
        assert all[k] == s'[k - |s|] && all[k + 1] == s'[k - |s| + 1];
      }
    }
  }

  lemma FromSecond(x: Run, s: seq<Run>)
    requires Chain([x] + s)
    ensures Chain(s) && (s != [] ==> Step(x.heap, s[0].heap))
  {
    hide Step;
    var all := [x] + s;
    assert s != [] ==> Step(all[0].heap, all[0 + 1].heap);
    forall k | 0 <= k < |s| - 1 ensures Step(s[k].heap, s[k + 1].heap) {
      assert Step(all[k + 1].heap, all[k + 1 + 1].heap);
    }
  }

  /** `h'` differs from `h` in the status and record of `t` and by pending TODOs behind its end. */
  ghost predicate Around(h: seq<Todo>, t: nat, h': seq<Todo>) {
    && t < |h| <= |h'|
    && (forall i | 0 <= i < |h| && i != t :: h'[i] == h[i])
    && (forall i | |h| <= i < |h'| :: h'[i].status.Pending?)
  }

  /** Work on the task in progress `t`, that may end it. */
  ghost predicate AtWork(r: Run, s: seq<Run>, t: nat) {
    && t < |r.heap|
    && forall k | 0 <= k < |s| :: |s[k].heap| == |r.heap| && Around(r.heap, t, s[k].heap)
  }

  lemma StageSteps(r: Run, turn: Turn, t: nat)
    requires StageWithin(r, turn, t) && r.heap[t].status.InProgress?
    ensures Step(r.heap, turn.run.heap) && Around(r.heap, t, turn.run.heap) && |turn.run.heap| == |r.heap|
  {
  }

  lemma {:induction false} RoundsStep(cfg: Config, w: World, n: nat, r: Run, t: nat, b: Branch)
    requires t < |r.heap| && r.heap[t].status.InProgress?
    ensures Chain([r] + Rounds(cfg, w, n, r, t, b)) && AtWork(r, Rounds(cfg, w, n, r, t, b), t)
    decreases cfg.maxReviewRounds - n
  {
    hide Round, StageWithin, Step, TaskLoop;
    if n >= cfg.maxReviewRounds {
      GaveUp(cfg, r, t, b);
    } else {
      var turn := Round(cfg, w.round(|r.attempts|), r, t, b);
      RoundWithin(cfg, w.round(|r.attempts|), r, t, b);
      StageSteps(r, turn, t);
      if turn.outcome.Again? {
        StillInProgress(r, turn, t);
        var rest := Rounds(cfg, w, n + 1, turn.run, t, turn.branch);
        RoundsStep(cfg, w, n + 1, turn.run, t, turn.branch);
        Joined([r], [turn.run] + rest);
        forall k | 0 <= k < |rest| ensures |rest[k].heap| == |r.heap| && Around(r.heap, t, rest[k].heap) {
          assert Around(turn.run.heap, t, rest[k].heap);
        }
      }
    }
  }

  lemma GaveUp(cfg: Config, r: Run, t: nat, b: Branch)
    requires t < |r.heap| && r.heap[t].status.InProgress?
    ensures var end := GiveUp(cfg.rollbackOnMaxRounds, r, t, b).run;
            Step(r.heap, end.heap) && Around(r.heap, t, end.heap) && |end.heap| == |r.heap|
  {
  }

  lemma StillInProgress(r: Run, turn: Turn, t: nat)
    requires StageWithin(r, turn, t) && r.heap[t].status.InProgress? && turn.outcome.Again?
    ensures t < |turn.run.heap| && turn.run.heap[t].status.InProgress?
  {
  }

  lemma WorkedSteps(cfg: Config, w: World, r: Run, t: nat)
    requires t < |r.heap| && r.heap[t].status.Pending?
    ensures Chain([r] + Worked(cfg, w, r, t)) && AtWork(r, Worked(cfg, w, r, t), t)
  {
    hide Rounds;
    var r0, b := Picked(r, t), Branch(None, 0, None, []);
    assert Step(r.heap, r0.heap);
    hide Step;
    if !w.headFails(|r0.attempts|) {
      RoundsStep(cfg, w, 0, r0, t, b);
      Joined([r], [r0] + Rounds(cfg, w, 0, r0, t, b));
    }
  }

  /** One iteration: a chain of steps around its own TODO. */
  lemma IterationSteps(cfg: Config, w: World, r: Run, t: nat)
    requires Sound(r) && t < |r.heap| && r.heap[t].status.Pending?
    ensures Chain([r] + Iteration(cfg, w, r, t))
    ensures forall k | 0 <= k < |Iteration(cfg, w, r, t)| :: Around(r.heap, t, Iteration(cfg, w, r, t)[k].heap)
  {
    hide Worked, RunTask, Closing, StageWithin, Step, Around, Chain;
    var r0 := Picked(r, t);
    if KnownRepo(cfg, r.heap[t]) {
      var turn := RunTask(cfg, w, r0, t);
      Sounds(r0, turn, t);
      var work, end := Worked(cfg, w, r, t), Closing(cfg, w, turn, t);
      WorkedSteps(cfg, w, r, t);
      ClosingSteps(cfg, w, r0, turn, t);
      FromSecond(turn.run, end);
      Joined([r] + work, end);
      assert ([r] + work) + end == [r] + Iteration(cfg, w, r, t);
    } else {
      UnknownRepo(r, t);
    }
  }

  lemma UnknownRepo(r: Run, t: nat)
    requires t < |r.heap| && r.heap[t].status.Pending?
    ensures var s := [Picked(r, t), SetStatus(Picked(r, t), t, Abandoned)];
            Chain([r] + s) && Around(r.heap, t, s[0].heap) && Around(r.heap, t, s[1].heap)
  {
  }

  lemma ClosingSteps(cfg: Config, w: World, r0: Run, turn: Turn, t: nat)
    requires StageWithin(r0, turn, t) && Sound(r0) && r0.heap[t].status.InProgress?
    ensures Sound(turn.run) && t < |turn.run.heap|
    ensures var end := Closing(cfg, w, turn, t);
            && Chain([turn.run] + end)
            && forall h, k | Around(h, t, turn.run.heap) && |h| == |r0.heap| && 0 <= k < |end| :: Around(h, t, end[k].heap)
  {
    hide Replan;
    if turn.outcome.TaskComplete? && turn.run.exceeded.None? {
      var r1 := SetStatus(turn.run, t, Done).(loopCount := turn.run.loopCount + 1);
      ReplanGrows(cfg, w, r1);
    }
  }

  // ---- Who is in progress -------------------------------------------------------------------

  /** Since `h` no TODO was touched that was not pending there, and at most one is in progress anew. */
  ghost predicate OneAtATime(h: seq<Todo>, h': seq<Todo>) {
    && |h| <= |h'|
    && (forall i | 0 <= i < |h| && !h[i].status.Pending? :: h'[i] == h[i])
    && OneActivated(h, h')
  }

  ghost predicate AllOneAtATime(h: seq<Todo>, s: seq<Run>) {
    forall k | 0 <= k < |s| :: OneAtATime(h, s[k].heap)
  }

  lemma AroundOne(h0: seq<Todo>, h: seq<Todo>, t: nat, h': seq<Todo>)
    requires OneAtATime(h0, h) && NoneActivated(h0, h) && Around(h, t, h') && h[t].status.Pending?
    ensures OneAtATime(h0, h')
  {
    forall i: nat | Activated(h0, h', i) ensures i == t {
      assert !Activated(h0, h, i) || i >= |h|;
    }
  }

  lemma StaysSettled(h0: seq<Todo>, h: seq<Todo>, h': seq<Todo>)
    requires OneAtATime(h0, h) && NoneActivated(h0, h) && Moved(h, h') && NoneActivated(h, h')
    ensures OneAtATime(h0, h') && NoneActivated(h0, h')
  {
    forall i | 0 <= i < |h'| ensures !Activated(h0, h', i) {
      assert !Activated(h, h', i) && (i < |h| ==> !Activated(h0, h, i));
    }
  }

  lemma {:induction false} TasksStep(cfg: Config, w: World, h0: seq<Todo>, r: Run)
    requires Sound(r) && OneAtATime(h0, r.heap) && NoneActivated(h0, r.heap)
    ensures Chain(Tasks(cfg, w, r)) && AllOneAtATime(h0, Tasks(cfg, w, r))
    decreases cfg.maxLoops - r.loopCount
  {
    hide OneTask, Iteration, Execute, OneAtATime, NoneActivated, Around, Moved, OneActivated, Step;
    if r.loopCount < cfg.maxLoops && FirstPending(r.heap, r.todos).Some? {
      var t := FirstPending(r.heap, r.todos).value;
      var flow, s := OneTask(cfg, w, r, t), Iteration(cfg, w, r, t);
      IterationSteps(cfg, w, r, t);
      IterationEnds(cfg, w, r, t);
      forall k | 0 <= k < |s| ensures OneAtATime(h0, s[k].heap) {
        AroundOne(h0, r.heap, t, s[k].heap);
      }
      if flow.Go? {
        OneTaskLifecycle(cfg, w, r, t);
        StaysSettled(h0, r.heap, flow.run.heap);
        TasksStep(cfg, w, h0, flow.run);
        SameState(flow.run.heap);
        Joined([r] + s, Tasks(cfg, w, flow.run));
      }
    }
  }

  lemma SameState(h: seq<Todo>)
    ensures Step(h, h)
  {
  }

  lemma GrownStep(h0: seq<Todo>, h: seq<Todo>, h': seq<Todo>)
    requires Grown(h0, h) && Grown(h, h')
    ensures Grown(h0, h') && Step(h, h') && OneAtATime(h0, h') && NoneActivated(h0, h')
  {
  }

  /** The TODO at `t` is started between two states. */
  predicate Started(h: seq<Todo>, h': seq<Todo>, t: nat) {
    t < |h| && t < |h'| && h[t].status.Pending? && h'[t].status.InProgress?
  }

  predicate StartedAt(s: seq<Run>, k: nat, t: nat) {
    k + 1 < |s| && Started(s[k].heap, s[k + 1].heap, t)
  }

  lemma StartedAlone(h0: seq<Todo>, h: seq<Todo>, h': seq<Todo>, t: nat)
    requires OneAtATime(h0, h) && OneAtATime(h0, h') && Step(h, h') && Started(h, h', t)
    ensures NoneActivated(h0, h)
  {
    forall i | 0 <= i < |h| ensures !Activated(h0, h, i) {
      if Activated(h0, h, i) {
        assert h'[i] == h[i] && Activated(h0, h', i) && Activated(h0, h', t);
        assert false;
      }
    }
  }

  lemma HistorySteps(cfg: Config, w: World, r: Run)
    requires Sound(r)
    ensures Chain(History(cfg, w, r)) && AllOneAtATime(r.heap, History(cfg, w, r))
  {
    hide Clarify, Plan, Tasks, Grown, OneAtATime, NoneActivated, Step;
    PlanningSound(cfg, w, r);
    var phase1 := Clarify(cfg, w, r, 0);
    var phase2 := Plan(cfg, w, phase1.run);
    ClarifyGrows(cfg, w, r, 0);
    PlanGrows(cfg, w, phase1.run);
    SameHeap(r.heap);
    GrownStep(r.heap, r.heap, r.heap);
    GrownStep(r.heap, r.heap, phase1.run.heap);
    GrownStep(r.heap, phase1.run.heap, phase2.run.heap);
    if phase1.Go? && phase2.Go? {
      TasksStep(cfg, w, r.heap, phase2.run);
      if !cfg.dryRun {
        Joined([r, phase1.run], Tasks(cfg, w, phase2.run));
      }
    }
  }

  lemma SameHeap(h: seq<Todo>)
    ensures Grown(h, h)
  {
  }

  /**
   * Main result, over every run, fresh or resumed: from each milestone to the next at most one TODO changes, by at
   * most one move pending, in progress, done or abandoned, and added TODOs are pending; so between any two
   * milestones TODOs only move forward and a finished one is frozen. No TODO that was not pending at the start is
   * ever touched. At every milestone at most one TODO is in progress that was not so at the start, and a TODO is
   * only started when there is none.
   */
  lemma TodosMoveStepwise(cfg: Config, w: World, r: Run)
    requires Sound(r)
    ensures var s := History(cfg, w, r);
            && Chain(s) && AllOneAtATime(r.heap, s)
            && (forall i, j | 0 <= i <= j < |s| :: Advanced(s[i].heap, s[j].heap))
            && (forall k: nat, t: nat :: StartedAt(s, k, t) ==> NoneActivated(r.heap, s[k].heap))
  {
    hide History, Step, OneAtATime, Advanced, NoneActivated, Started;
    HistorySteps(cfg, w, r);
    var s := History(cfg, w, r);
    forall i, j | 0 <= i <= j < |s| ensures Advanced(s[i].heap, s[j].heap) {
      ChainAdvances(s, i, j);
    }
    forall k: nat, t: nat | StartedAt(s, k, t) ensures NoneActivated(r.heap, s[k].heap) {
      StartedAlone(r.heap, s[k].heap, s[k + 1].heap, t);
    }
  }

  /**
   * In a fresh run this is absolute: the tasks begin with only pending TODOs, every TODO is created pending, and at
   * every milestone at most one is in progress, none when another is started.
   */
  lemma FreshRunStepwise(cfg: Config, w: World, r: Run)
    requires Sound(r) && r.heap == []
    ensures forall todo :: todo in Plan(cfg, w, Clarify(cfg, w, r, 0).run).run.heap ==> todo.status.Pending?
    ensures var s := History(cfg, w, r);
            && (forall k | 0 <= k < |s| :: OneInProgress(s[k].heap))
            && (forall k: nat, t: nat :: StartedAt(s, k, t) ==> NoneInProgress(s[k].heap))
  {
    hide History, Clarify, Plan, Chain, Advanced;
    TodosMoveStepwise(cfg, w, r);
    var phase1 := Clarify(cfg, w, r, 0);
    ClarifyGrows(cfg, w, r, 0);
    PlanGrows(cfg, w, phase1.run);
    GrownStep([], phase1.run.heap, Plan(cfg, w, phase1.run).run.heap);
    hide StartedAt;
    var s := History(cfg, w, r);
    forall k | 0 <= k < |s|
      ensures OneInProgress(s[k].heap) && (NoneActivated([], s[k].heap) ==> NoneInProgress(s[k].heap))
    {
      FromNothing(s[k].heap);
    }
  }

  predicate NoneInProgress(h: seq<Todo>) {
    forall i | 0 <= i < |h| :: !h[i].status.InProgress?
  }

  predicate OneInProgress(h: seq<Todo>) {
    forall i, j | 0 <= i < |h| && 0 <= j < |h| && h[i].status.InProgress? && h[j].status.InProgress? :: i == j
  }

  lemma FromNothing(h: seq<Todo>)
    requires OneAtATime([], h)
    ensures OneInProgress(h) && (NoneActivated([], h) ==> NoneInProgress(h))
  {
    assert forall i | 0 <= i < |h| :: Activated([], h, i) <==> h[i].status.InProgress?;
  }
}
