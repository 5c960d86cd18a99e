/** What happens to the TODOs of a run. */
module OrchestratorTodos {
  import opened Lists
  import opened Totals
  import opened OrchestratorModel
  import opened OrchestratorCalls

  /** pending, then in_progress, then done or abandoned. */
  predicate Forward(a: Status, b: Status) {
    a == b || a.Pending? || (a.InProgress? && !b.Pending?)
  }

  /** Every TODO only moves forward; those that were not pending have not moved at all; new ones may be active. */
  ghost predicate Moved(h: seq<Todo>, h': seq<Todo>) {
    && |h| <= |h'|
    && (forall i | 0 <= i < |h| ::
          && h'[i].id == h[i].id && Forward(h[i].status, h'[i].status) && h'[i].iterations >= h[i].iterations
          && (!h[i].status.Pending? ==> h'[i] == h[i]))
  }

  /** In progress now and not before. */
  predicate Activated(h: seq<Todo>, h': seq<Todo>, i: nat) {
    i < |h'| && h'[i].status.InProgress? && !(i < |h| && h[i].status.InProgress?)
  }

  ghost predicate NoneActivated(h: seq<Todo>, h': seq<Todo>) {
    forall i | 0 <= i < |h'| :: !Activated(h, h', i)
  }

  ghost predicate OneActivated(h: seq<Todo>, h': seq<Todo>) {
    forall i, j :: Activated(h, h', i) && Activated(h, h', j) ==> i == j
  }

  /** A finished piece of a run. */
  ghost predicate Lifecycle(h: seq<Todo>, flow: Flow) {
    && Moved(h, flow.run.heap)
    && OneActivated(h, flow.run.heap)
    && (flow.Go? || flow.exit.Complete? || flow.exit.MaxLoops? || flow.exit.DryRun? ==> NoneActivated(h, flow.run.heap))
  }

  /** The heap only grows, by pending TODOs. */
  ghost predicate Grown(h: seq<Todo>, h': seq<Todo>) {
    h <= h' && forall i | |h| <= i < |h'| :: h'[i].status.Pending?
  }

  lemma GrownLifecycle(h: seq<Todo>, flow: Flow)
    requires Grown(h, flow.run.heap)
    ensures Lifecycle(h, flow)
  {
  }

  lemma Continue(h: seq<Todo>, h1: seq<Todo>, flow: Flow)
    requires Moved(h, h1) && NoneActivated(h, h1) && Lifecycle(h1, flow)
    ensures Lifecycle(h, flow)
  {
    var h2 := flow.run.heap;
    assert Moved(h, h2);
    forall i | Activated(h, h2, i) ensures Activated(h1, h2, i) {
      assert !Activated(h, h1, i);
    }
  }

  // ---- The id merge -------------------------------------------------------------------------

  ghost predicate DistinctIds(r: Run)
    requires Sound(r)
  {
    forall i, j | 0 <= i < j < |r.todos| :: r.heap[r.todos[i]].id != r.heap[r.todos[j]].id
  }

  /**
   * The merge answers the Planner's list item by item: a known id keeps its object, with its status and
   * iterations, and the others start afresh. Distinct ids stay distinct.
   */
  lemma MergeKeepsKnown(r: Run, news: seq<NewTodo>)
    requires Sound(r)
    ensures var r' := Merged(r, news);
            && Grown(r.heap, r'.heap) && |r'.todos| == |news|
            && (forall i | 0 <= i < |news| ::
                  var t := r'.todos[i];
                  && r'.heap[t].id == news[i].id
                  && if t < |r.heap| then t in r.todos && r'.heap[t] == r.heap[t]
                     else r'.heap[t].status.Pending? && forall u :: u in r.todos ==> r.heap[u].id != news[i].id)
            && ((forall i, j | 0 <= i < j < |news| :: news[i].id != news[j].id) ==> DistinctIds(r'))
  {
    var r' := Merged(r, news);
    forall i | 0 <= i < |news|
      ensures r'.heap[r'.todos[i]].id == news[i].id
    {
      if ById(r.heap, r.todos, news[i].id).None? {
        assert r'.todos[i] == |r.heap| + i;
        assert r'.heap[|r.heap| + i] == Fresh(news)[i];
      }
    }
  }

  // ---- Every step of a run ------------------------------------------------------------------

  lemma OneTaskLifecycle(cfg: Config, w: World, r: Run, t: nat)
    requires Sound(r) && t < |r.heap| && r.heap[t].status.Pending?
    ensures var flow := OneTask(cfg, w, r, t);
            Lifecycle(r.heap, flow) && !flow.run.heap[t].status.Pending?
  {
    hide Replan, TaskLoop, KnownRepo;
    var r0 := Picked(r, t);
    var turn := RunTask(cfg, w, r0, t);
    if KnownRepo(cfg, r.heap[t]) && turn.outcome.TaskComplete? && turn.run.exceeded.None? {
      var r1 := SetStatus(turn.run, t, Done).(loopCount := turn.run.loopCount + 1);
      ReplanGrows(cfg, w, r1);
      GrownLifecycle(r1.heap, Replan(cfg, w, r1));
      Continue(r.heap, r1.heap, OneTask(cfg, w, r, t));
    }
  }

  lemma ReplanGrows(cfg: Config, w: World, r: Run)
    requires Sound(r)
    ensures Grown(r.heap, Replan(cfg, w, r).run.heap)
  {
    hide Consult;
    var turn := w.planner(|r.attempts|);
    ConsultKeeps(cfg, r, turn);
    var r1 := Consult(cfg, r, turn).run;
    MergeKeepsKnown(r1, TodosOf(turn));
  }

  lemma {:induction false} ExecuteLifecycle(cfg: Config, w: World, r: Run)
    requires Sound(r)
    ensures Lifecycle(r.heap, Execute(cfg, w, r))
    ensures r.loopCount < cfg.maxLoops && FirstPending(r.heap, r.todos).Some? ==> Execute(cfg, w, r).run.heap != r.heap
    decreases cfg.maxLoops - r.loopCount
  {
    hide OneTask;
    if r.loopCount < cfg.maxLoops && FirstPending(r.heap, r.todos).Some? {
      var t := FirstPending(r.heap, r.todos).value;
      OneTaskLifecycle(cfg, w, r, t);
      var flow := OneTask(cfg, w, r, t);
      if flow.Go? {
        ExecuteLifecycle(cfg, w, flow.run);
        Continue(r.heap, flow.run.heap, Execute(cfg, w, flow.run));
      }
    } else {
      GrownLifecycle(r.heap, Execute(cfg, w, r));
    }
  }

  lemma {:induction false} ClarifyGrows(cfg: Config, w: World, r: Run, rounds: nat)
    ensures Grown(r.heap, Clarify(cfg, w, r, rounds).run.heap)
    decreases cfg.maxClarifications - rounds
  {
    hide Called, Dispatch;
    if !r.planReady && rounds < cfg.maxClarifications {
      var turn := w.planner(|r.attempts|);
      ConsultKeeps(cfg, r, turn);
      var flow := Consult(cfg, r, turn);
      if flow.Go? && turn.phase.Clarification? && turn.questions > 0 && turn.prompt.Answered? {
        ClarifyGrows(cfg, w, Poll(flow.run, turn.prompt.quit), rounds + 1);
      }
    }
  }

  lemma PlanGrows(cfg: Config, w: World, r: Run)
    ensures Grown(r.heap, Plan(cfg, w, r).run.heap)
  {
    hide Consult;
    ConsultKeeps(cfg, r, w.planner(|r.attempts|));
  }

  /**
   * Main result: over every run, fresh or resumed, a TODO only moves forward and one that was not pending at the
   * start is never touched; at most one is left in progress by the run, and none by a run that ends complete,
   * at max_loops or as a dry run.
   */
  lemma TodosMoveForward(cfg: Config, w: World, r: Run)
    requires Starts(r)
    ensures Lifecycle(r.heap, RunPhases(cfg, w, r))
  {
    hide Clarify, Plan, Execute, Lifecycle, Grown, Moved, NoneActivated;
    PlanningSound(cfg, w, r);
    var end := RunPhases(cfg, w, r);
    var phase1 := Clarify(cfg, w, r, 0);
    ClarifyGrows(cfg, w, r, 0);
    GrownLifecycle(r.heap, phase1);
    if phase1.Go? {
      var phase2 := Plan(cfg, w, phase1.run);
      PlanGrows(cfg, w, phase1.run);
      Chained(r.heap, phase1.run.heap, phase2);
      if phase2.Go? {
        if cfg.dryRun {
          Chained(r.heap, phase1.run.heap, End(phase2.run, DryRun));
        } else {
          ExecuteLifecycle(cfg, w, phase2.run);
          GoMoved(r.heap, phase2);
          Continue(r.heap, phase2.run.heap, end);
        }
      }
    }
  }

  lemma Chained(h: seq<Todo>, h1: seq<Todo>, flow: Flow)
    requires Grown(h, h1) && Grown(h1, flow.run.heap)
    ensures Lifecycle(h, flow)
  {
    GrownLifecycle(h, flow);
  }

  lemma GoMoved(h: seq<Todo>, flow: Flow)
    requires Lifecycle(h, flow) && flow.Go?
    ensures Moved(h, flow.run.heap) && NoneActivated(h, flow.run.heap)
  {
  }

  /** In a fresh run the statement is absolute. */
  lemma FreshRunTodos(cfg: Config, w: World, r: Run)
    requires Starts(r) && r.heap == []
    ensures var end := RunPhases(cfg, w, r);
            && (forall i, j | 0 <= i < |end.run.heap| && 0 <= j < |end.run.heap| ::
                  end.run.heap[i].status.InProgress? && end.run.heap[j].status.InProgress? ==> i == j)
            && (end.exit.Complete? || end.exit.MaxLoops? ==>
                  forall i | 0 <= i < |end.run.heap| :: !end.run.heap[i].status.InProgress?)
  {
    hide RunPhases;
    TodosMoveForward(cfg, w, r);
    var h := RunPhases(cfg, w, r).run.heap;
    assert forall i | 0 <= i < |h| :: Activated([], h, i) <==> h[i].status.InProgress?;
  }

  /**
   * A resumed plan is reported complete at once, without a single call, exactly when it holds no pending TODO:
   * one that was interrupted in progress is not picked up again.
   */
  lemma ResumeSkipsInterrupted(cfg: Config, w: World, r: Run)
    requires Starts(r) && r.planReady && r.todos != [] && !cfg.dryRun && r.loopCount < cfg.maxLoops
    ensures RunPhases(cfg, w, r) == End(r, Complete) <==> forall t :: t in r.todos ==> !r.heap[t].status.Pending?
  {
    hide Execute, OneTask;
    ExecuteLifecycle(cfg, w, r);
    assert RunPhases(cfg, w, r) == Execute(cfg, w, r);
    if FirstPending(r.heap, r.todos).None? {
      ExecuteIdle(cfg, w, r);
    }
  }

  lemma ExecuteIdle(cfg: Config, w: World, r: Run)
    requires Sound(r) && r.loopCount < cfg.maxLoops && FirstPending(r.heap, r.todos).None?
    ensures Execute(cfg, w, r) == End(r, Complete)
  {
  }

  // ---- Loops and finished TODOs -------------------------------------------------------------

  function CountDone(h: seq<Todo>): nat {
    if h == [] then 0 else CountDone(h[..|h| - 1]) + (if h[|h| - 1].status.Done? then 1 else 0)
  }

  lemma {:induction false} CountUpdated(h: seq<Todo>, h': seq<Todo>, t: nat)
    requires t < |h| == |h'| && forall i | 0 <= i < |h| && i != t :: h'[i] == h[i]
    ensures CountDone(h') + (if h[t].status.Done? then 1 else 0) == CountDone(h) + (if h'[t].status.Done? then 1 else 0)
  {
    var n := |h| - 1;
    if t < n {
      CountUpdated(h[..n], h'[..n], t);
    } else {
      assert h'[..n] == h[..n];
    }
  }

  lemma {:induction false} CountGrown(h: seq<Todo>, h': seq<Todo>)
    requires Grown(h, h')
    ensures CountDone(h') == CountDone(h)
  {
    if |h'| > |h| {
      CountGrown(h, h'[..|h'| - 1]);
    } else {
      assert h' == h;
    }
  }

  lemma OneTaskCounts(cfg: Config, w: World, r: Run, t: nat)
    requires Sound(r) && t < |r.heap| && r.heap[t].status.Pending?
    ensures var e := OneTask(cfg, w, r, t).run;
            CountDone(e.heap) - CountDone(r.heap) == e.loopCount - r.loopCount
  {
    hide Replan, TaskLoop, KnownRepo, CountDone;
    var r0 := Picked(r, t);
    var turn := RunTask(cfg, w, r0, t);
    CountUpdated(r.heap, turn.run.heap, t);
    CountUpdated(r.heap, SetStatus(r0, t, Abandoned).heap, t);
    if KnownRepo(cfg, r.heap[t]) && turn.outcome.TaskComplete? && turn.run.exceeded.None? {
      var r1 := SetStatus(turn.run, t, Done).(loopCount := turn.run.loopCount + 1);
      CountUpdated(r.heap, r1.heap, t);
      ReplanGrows(cfg, w, r1);
      ReplanCount(cfg, w, r1);
      CountGrown(r1.heap, Replan(cfg, w, r1).run.heap);
    }
  }

  lemma ReplanCount(cfg: Config, w: World, r: Run)
    requires Sound(r)
    ensures Replan(cfg, w, r).run.loopCount == r.loopCount
  {
    hide Consult;
    ConsultKeeps(cfg, r, w.planner(|r.attempts|));
  }

  /** Every loop counted has finished exactly one TODO, and the count never passes its cap. */
  lemma {:induction false} LoopsFinishTodos(cfg: Config, w: World, r: Run)
    requires Sound(r)
    ensures var end := Execute(cfg, w, r);
            && CountDone(end.run.heap) - CountDone(r.heap) == end.run.loopCount - r.loopCount
            && (r.loopCount <= cfg.maxLoops ==> end.run.loopCount <= cfg.maxLoops)
            && (end.exit.MaxLoops? && r.loopCount <= cfg.maxLoops ==> end.run.loopCount == cfg.maxLoops)
    decreases cfg.maxLoops - r.loopCount
  {
    hide OneTask, CountDone;
    if r.loopCount < cfg.maxLoops && FirstPending(r.heap, r.todos).Some? {
      var t := FirstPending(r.heap, r.todos).value;
      OneTaskCounts(cfg, w, r, t);
      OneTaskLoops(cfg, w, r, t);
      var flow := OneTask(cfg, w, r, t);
      if flow.Go? {
        LoopsFinishTodos(cfg, w, flow.run);
      }
    }
  }

  lemma OneTaskLoops(cfg: Config, w: World, r: Run, t: nat)
    requires Sound(r) && t < |r.heap|
    ensures OneTask(cfg, w, r, t).run.loopCount <= r.loopCount + 1
    ensures OneTask(cfg, w, r, t).End? ==> OneTask(cfg, w, r, t).exit != MaxLoops
  {
    hide TaskLoop, Dispatch, Called;
    var turn := RunTask(cfg, w, Picked(r, t), t);
    var r1 := SetStatus(turn.run, t, Done).(loopCount := turn.run.loopCount + 1);
    ReplanCount(cfg, w, r1);
  }

  // ---- A trip that one more call follows ----------------------------------------------------

  function ChattyWorld(paid: Usage, free: Usage): World {
    World(_ => false,
          _ => PlannerSays(free, false, [Delegate("helper", Some(paid), false)], Clarification, 1, [], Answered(false)),
          _ => RoundAnswers(true, CoderFails, false, CommitFails, false, false, false, None, false, ReviewerFails, false,
                            CiUnknown, ConfirmFails, false),
          _ => true)
  }

  /**
   * The one call is real: when a subagent's call goes over the cap only the delegations stop, the questions go
   * on, and the Planner is called once more before the run is aborted.
   */
  lemma OneCallAfterTheTrip(cfg: Config, r: Run, paid: Usage, free: Usage)
    requires Starts(r) && !r.planReady && r.totals == FRESH
    requires cfg.maxClarifications >= 2 && cfg.maxCost == Some(0.0) && cfg.maxTokens.None? && cfg.subagents == {"helper"}
    requires EstimateCost(free) == 0.0 && EstimateCost(paid) > 0.0
    ensures var end := RunPhases(cfg, ChattyWorld(paid, free), r);
            && end.exit == Aborted && end.run.exceeded == Some(Trip(2, false)) && |end.run.attempts| == 3
            && end.run.totals.overall.cost > 0.0
  {
    var w := ChattyWorld(paid, free);
    hide EstimateCost, CacheSavings, Execute, Plan;
    var turn := w.planner(0);
    var r1 := Called(cfg, r, Planner, "", Some(free), false);
    assert r1.exceeded.None?;
    var r2 := Called(cfg, r1, Subagent, "helper", Some(paid), false);
    assert r2.exceeded == Some(Trip(2, false)) && r2.totals.overall.cost == EstimateCost(paid);
    assert Consult(cfg, r, turn) == Go(r2);
    var r3 := Called(cfg, r2, Planner, "", Some(free), false);
    assert Clarify(cfg, w, r, 0) == Clarify(cfg, w, r2, 1) == End(r3, Aborted);
  }
}
