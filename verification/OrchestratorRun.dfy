/** The orchestrator as it runs: state updated in place, answers taken from the world as they are needed. */
module OrchestratorRun {
  import opened Lists
  import opened Totals
  import opened OrchestratorModel
  import opened OrchestratorCalls
  import opened OrchestratorBudget

  /** No exit means that the run goes on. */
  function AsFlow(r: Run, exit: Option<Exit>): Flow {
    if exit.Some? then End(r, exit.value) else Go(r)
  }

  class Orchestrator {
    const cfg: Config
    const world: World
    const totals: RunTotals

    var planReady: bool
    var heap: seq<Todo>
    var todos: seq<nat>
    var reviews: seq<Decision>
    var loopCount: int
    var attempts: seq<Attempt>
    var exceeded: Option<Trip>
    var branch: Branch
    /** The run log, as far as its usage events go. */
    var log: seq<Event>

    ghost predicate Valid()
      reads this, totals
    {
      totals.Valid() && Sound(View()) && UsageEvents(log) == Logged(Written(world, attempts))
    }

    ghost function View(): Run
      reads this, totals
      requires totals.Valid()
    {
      Run(planReady, heap, todos, reviews, loopCount, totals.Value(), attempts, exceeded)
    }

    constructor (cfg: Config, world: World, start: Run)
      requires Starts(start)
      ensures Valid() && View() == start && this.cfg == cfg && this.world == world && fresh(totals)
    {
      this.cfg, this.world := cfg, world;
      totals := new RunTotals(start.totals);
      planReady, heap, todos, reviews := start.planReady, start.heap, start.todos, start.reviews;
      loopCount, attempts, exceeded := start.loopCount, [], None;
      branch, log := Branch(None, 0, None, []), [];
    }

    // ---- Calls ------------------------------------------------------------------------------

    method Quit(quits: bool)
      requires totals.Valid()
      modifies this`exceeded
      ensures totals.Valid() && (old(Valid()) ==> Valid()) && View() == Poll(old(View()), quits)
    {
      if quits && exceeded.None? {
        exceeded := Some(Trip(|attempts|, true));
      }
    }

    /** Record the usage of the call just attempted: in the totals, in the log if that works, against the caps. */
    method Track(role: Role, u: Usage, name: string)
      requires totals.Valid() && attempts != []
      modifies this`exceeded, this`log, totals
      ensures totals.Valid()
      ensures log == if world.logs(|attempts| - 1) then old(log) + [UsageEvent(role, EstimateCost(u), name)] else old(log)
      ensures var r := old(View());
              var r1 := r.(totals := Added(r.totals, Call(role, name, u)));
              View() == Flag(r1, Over(cfg, r1.totals.overall), false)
    {
      totals.AddUsage(role, u, name);
      if world.logs(|attempts| - 1) {
        log := log + [UsageEvent(role, EstimateCost(u), name)];
      }
      var overall := totals.overall;
      var trips := false;
      if cfg.maxCost.Some? && overall.cost > cfg.maxCost.value {
        trips := true;
      }
      if cfg.maxTokens.Some? && overall.input + overall.output + overall.cacheRead + overall.cacheWrite > cfg.maxTokens.value {
        trips := true;
      }
      if trips && exceeded.None? {
        exceeded := Some(Trip(|attempts|, false));
      }
    }

    /** Await a model; a call that returns is tracked. */
    method Invoke(role: Role, name: string, usage: Option<Usage>, quit: bool)
      requires Valid()
      modifies this`attempts, this`exceeded, this`log, totals
      ensures Valid() && View() == Called(cfg, old(View()), role, name, usage, quit)
    {
      hide Added, Over, Written, UsageEvents, Logged, EstimateCost;
      attempts := attempts + [Attempt(role, name, usage)];
      Quit(quit);
      if usage.Some? {
        Track(role, usage.value, name);
      }
      LoggedOneMore(world, old(attempts), Attempt(role, name, usage), old(log), log);
    }

    method DispatchDelegates(requested: seq<Delegate>)
      requires Valid()
      modifies this`attempts, this`exceeded, this`log, totals
      ensures Valid() && View() == Dispatch(cfg, old(View()), requested)
    {
      hide Called;
      for i := 0 to |requested|
        invariant Valid() && heap == old(heap) && todos == old(todos)
        invariant Dispatch(cfg, old(View()), requested) == Dispatch(cfg, View(), requested[i..])
      {
        var d := requested[i];
        assert requested[i..][0] == d && requested[i..][1..] == requested[i + 1..];
        if d.name !in cfg.subagents {
          continue;
        }
        Invoke(Subagent, d.name, d.answer, d.quit);
        if exceeded.Some? {
          return;
        }
      }
    }

    /** Ask the Planner, check the budget, run its delegations. */
    method AskPlanner() returns (turn: PlannerTurn, exit: Option<Exit>)
      requires Valid()
      modifies this`attempts, this`exceeded, this`log, totals
      ensures Valid() && turn == world.planner(|old(attempts)|)
      ensures AsFlow(View(), exit) == Consult(cfg, old(View()), turn)
      ensures |attempts| > |old(attempts)|
    {
      hide Called, Dispatch;
      turn := world.planner(|attempts|);
      ghost var r := View();
      ConsultKeeps(cfg, r, turn);
      if turn.PlannerFails? {
        Invoke(Planner, "", None, false);
        return turn, Some(Threw);
      }
      Invoke(Planner, "", Some(turn.usage), turn.quit);
      if exceeded.Some? {
        return turn, Some(Aborted);
      }
      DispatchDelegates(turn.delegates);
      exit := None;
    }

    // ---- Phases 1 and 2 ---------------------------------------------------------------------

    method SetTodos(news: seq<NewTodo>)
      requires Valid()
      modifies this`heap, this`todos
      ensures Valid() && View() == Listed(old(View()), news)
    {
      var n := |heap|;
      todos := seq(|news|, i => n + i);
      heap := heap + Fresh(news);
      assert todos == Listed(old(View()), news).todos;
    }

    method RunClarification() returns (exit: Option<Exit>)
      requires Valid()
      modifies this, totals
      ensures Valid() && AsFlow(View(), exit) == Clarify(cfg, world, old(View()), 0)
    {
      hide Consult, Written, UsageEvents, Logged;
      var rounds := 0;
      exit := None;
      while !planReady
        invariant Valid() && rounds >= 0 && exit.None?
        invariant Clarify(cfg, world, old(View()), 0) == Clarify(cfg, world, View(), rounds)
        decreases cfg.maxClarifications - rounds, !planReady
      {
        if rounds >= cfg.maxClarifications {
          planReady := true;
          break;
        }
        label Asked:
        var turn;
        turn, exit := AskPlanner();
        PlannerSpoke(cfg, old@Asked(View()), turn);
        if exit.Some? {
          return;
        }
        if turn.phase.Clarification? && turn.questions > 0 {
          if turn.prompt.PromptFails? {
            return Some(Threw);
          }
          Quit(turn.prompt.quit);
          rounds := rounds + 1;
        } else if turn.phase.TodoList? {
          planReady := true;
          SetTodos(turn.todos);
        } else {
          planReady := true;
        }
      }
    }

    method EnsureTodos() returns (exit: Option<Exit>)
      requires Valid()
      modifies this, totals
      ensures Valid() && AsFlow(View(), exit) == Plan(cfg, world, old(View()))
    {
      hide Consult, Listed;
      exit := None;
      if |todos| == 0 {
        var turn;
        turn, exit := AskPlanner();
        PlannerSpoke(cfg, old(View()), turn);
        if exit.Some? {
          return;
        }
        if turn.phase.TodoList? && |turn.todos| > 0 {
          SetTodos(turn.todos);
        } else {
          exit := Some(Blocked);
        }
      }
    }

    // ---- The Coder / Reviewer loop ----------------------------------------------------------

    method Abandon(rollback: bool, t: nat) returns (outcome: Outcome)
      requires Valid() && t < |heap|
      modifies this`heap, this`branch
      ensures Valid() && Turn(View(), branch, outcome) == GiveUp(rollback, old(View()), t, old(branch))
    {
      heap := heap[t := heap[t].(status := Abandoned)];
      if rollback {
        branch := Did(branch, RolledBack);
        heap := heap[t := heap[t].(rolledBack := true)];
      }
      outcome := TaskBlocked;
    }

    method Publish(a: RoundAnswers)
      requires branch.commits > 0
      modifies this`branch
      ensures branch == Published(cfg, a, old(branch))
    {
      if cfg.github && a.pushes {
        branch := Did(branch, Pushed(branch.commits - 1)).(remote := Some(branch.commits - 1));
        if branch.pr.None? && a.pr.Some? {
          branch := Did(branch, PrOpened(a.pr.value)).(pr := a.pr);
        }
      }
    }

    method MergeApproved(a: RoundAnswers, t: nat) returns (outcome: Outcome)
      requires Valid() && t < |heap|
      modifies this`heap, this`reviews, this`branch
      ensures Valid() && Turn(View(), branch, outcome) == Land(cfg, a, old(View()), t, old(branch))
    {
      if cfg.waitForCi && cfg.github && branch.pr.Some? {
        branch := Did(branch, CiReported(a.ci, branch.remote));
        if a.ci.CiFailed? {
          reviews := reviews + [RequestChanges];
          return Again;
        }
        if a.ci.CiPendingTimeout? || a.ci.CiUnknown? {
          return TaskBlocked;
        }
      }
      if cfg.github && branch.pr.Some? {
        if cfg.requireHumanApproval {
          if a.confirm.ConfirmFails? {
            return TaskThrew;
          }
          branch := Did(branch, UserDecided(a.confirm.Agreed?));
          if !a.confirm.Agreed? {
            return TaskAborted;
          }
        }
        branch := Did(branch, MergeAsked(branch.pr.value, branch.remote));
        if a.merges {
          heap := heap[t := heap[t].(mergedPr := branch.pr)];
        }
      }
      outcome := TaskComplete;
    }

    method ReviewDiff(a: RoundAnswers, t: nat) returns (outcome: Outcome)
      requires Valid() && t < |heap|
      modifies this, totals
      ensures Valid() && Turn(View(), branch, outcome) == Review(cfg, a, old(View()), t, old(branch))
    {
      hide Called, Land, Written, UsageEvents, Logged;
      ghost var r := View();
      CalledKeeps(cfg, r, Reviewer, "", if a.reviewer.ReviewerFails? then None else Some(a.reviewer.usage), true);
      if a.reviewer.ReviewerFails? {
        Invoke(Reviewer, "", None, false);
        return TaskThrew;
      }
      Invoke(Reviewer, "", Some(a.reviewer.usage), a.reviewer.quit);
      if exceeded.Some? {
        return TaskAborted;
      }
      reviews := reviews + [a.reviewer.decision];
      Quit(a.lateQuit);
      branch := Did(branch, Judged(a.reviewer.decision));
      if a.reviewer.decision.Approve? {
        outcome := MergeApproved(a, t);
      } else {
        outcome := Again;
      }
    }

    method CommitEdits(a: RoundAnswers, t: nat) returns (outcome: Outcome)
      requires Valid() && t < |heap|
      modifies this, totals
      ensures Valid() && Turn(View(), branch, outcome) == CommitAndReview(cfg, a, old(View()), t, old(branch))
    {
      hide Review, Published;
      if a.preCommitVetoes {
        outcome := Abandon(cfg.rollbackOnHardFail, t);
        return;
      }
      if a.commit.CommitFails? {
        return TaskThrew;
      }
      if a.commit.Changed? {
        branch := Did(branch, Committed(branch.commits)).(commits := branch.commits + 1);
      }
      if a.postCommitVetoes {
        return TaskThrew;
      }
      if a.commit.NothingChanged? {
        return Again;
      }
      if cfg.runsTests {
        branch := Did(branch, Tested(a.testsPass));
        if !a.testsPass {
          reviews := reviews + [RequestChanges];
          return Again;
        }
      }
      Quit(a.quit);
      Publish(a);
      outcome := ReviewDiff(a, t);
    }

    method RunRound(a: RoundAnswers, t: nat) returns (outcome: Outcome)
      requires Valid() && t < |heap|
      modifies this, totals
      ensures Valid() && Turn(View(), branch, outcome) == Round(cfg, a, old(View()), t, old(branch))
    {
      hide Called, CommitAndReview;
      heap := heap[t := heap[t].(iterations := heap[t].iterations + 1)];
      if a.contextFails {
        return TaskThrew;
      }
      if a.coder.CoderFails? {
        Invoke(Coder, "", None, false);
        return TaskThrew;
      }
      Invoke(Coder, "", Some(a.coder.usage), a.coder.quit);
      if exceeded.Some? {
        return TaskAborted;
      }
      if a.coder.work.CannotDo? {
        heap := heap[t := heap[t].(status := Abandoned)];
        return TaskBlocked;
      }
      if a.coder.work.NoEdits? {
        return Again;
      }
      outcome := CommitEdits(a, t);
    }

    method RunTaskLoop(t: nat) returns (outcome: Outcome)
      requires Valid() && t < |heap|
      modifies this, totals
      ensures Valid() && Turn(View(), branch, outcome) == RunTask(cfg, world, old(View()), t)
    {
      hide Round, GiveUp;
      branch := Branch(None, 0, None, []);
      if world.headFails(|attempts|) {
        return TaskThrew;
      }
      ghost var before, b0 := View(), branch;
      var n := 0;
      while n < cfg.maxReviewRounds
        invariant Valid() && n >= 0 && t < |heap|
        invariant TaskLoop(cfg, world, 0, before, t, b0) == TaskLoop(cfg, world, n, View(), t, branch)
        decreases cfg.maxReviewRounds - n
      {
        label Top:
        outcome := RunRound(world.round(|attempts|), t);
        RoundWithin(cfg, world.round(|old@Top(attempts)|), old@Top(View()), t, old@Top(branch));
        if outcome != Again {
          return;
        }
        n := n + 1;
      }
      outcome := Abandon(cfg.rollbackOnMaxRounds, t);
    }

    // ---- Phase 3 ----------------------------------------------------------------------------

    method IndexById() returns (prevById: map<string, nat>)
      requires Valid()
      ensures forall id :: id in prevById <==> ById(heap, todos, id).Some?
      ensures forall id :: id in prevById ==> prevById[id] == ById(heap, todos, id).value
    {
      prevById := map[];
      for i := 0 to |todos|
        invariant forall id :: id in prevById <==> ById(heap, todos[..i], id).Some?
        invariant forall id :: id in prevById ==> prevById[id] == ById(heap, todos[..i], id).value
      {
        assert todos[..i + 1][..i] == todos[..i];
        prevById := prevById[heap[todos[i]].id := todos[i]];
      }
      assert todos[..|todos|] == todos;
    }

    method MergePlan(news: seq<NewTodo>)
      requires Valid()
      modifies this`heap, this`todos
      ensures Valid() && View() == Merged(old(View()), news)
    {
      hide LastAt, Written, UsageEvents, Logged;
      var prevById := IndexById();
      var merged: seq<nat> := [];
      for i := 0 to |news|
        invariant |merged| == i
        invariant forall k | 0 <= k < i :: merged[k] == match ById(heap, todos, news[k].id)
                                                        case Some(t) => t
                                                        case None => |heap| + k
      {
        merged := merged + [if news[i].id in prevById then prevById[news[i].id] else |heap| + i];
      }
      assert merged == Merged(View(), news).todos;
      heap, todos := heap + Fresh(news), merged;
    }

    method MarkPicked(t: nat)
      requires Valid() && t < |heap|
      modifies this`heap, this`reviews
      ensures Valid() && View() == Picked(old(View()), t)
    {
      heap := heap[t := heap[t].(status := InProgress)];
      reviews := [];
    }

    method MarkDone(t: nat)
      requires Valid() && t < |heap|
      modifies this`heap, this`loopCount
      ensures Valid() && View() == SetStatus(old(View()), t, Done).(loopCount := old(loopCount) + 1)
    {
      heap := heap[t := heap[t].(status := Done)];
      loopCount := loopCount + 1;
    }

    method WorkOn(t: nat) returns (exit: Option<Exit>)
      requires Valid() && t < |heap|
      modifies this, totals
      ensures Valid() && AsFlow(View(), exit) == OneTask(cfg, world, old(View()), t)
    {
      hide RunTask, Replan, Written, UsageEvents, Logged;
      MarkPicked(t);
      if heap[t].repoAlias.Some? && heap[t].repoAlias.value !in cfg.repos {
        heap := heap[t := heap[t].(status := Abandoned)];
        return Some(Blocked);
      }
      hide Picked;
      var outcome := RunTaskLoop(t);
      if outcome.TaskBlocked? {
        return Some(Blocked);
      } else if outcome.TaskAborted? {
        return Some(Aborted);
      } else if outcome.TaskThrew? {
        return Some(Threw);
      }
      if exceeded.Some? {
        return Some(Aborted);
      }
      MarkDone(t);
      exit := ReviewProgress();
    }

    method ReviewProgress() returns (exit: Option<Exit>)
      requires Valid()
      modifies this, totals
      ensures Valid() && AsFlow(View(), exit) == Replan(cfg, world, old(View()))
    {
      hide Consult, Merged;
      var turn;
      turn, exit := AskPlanner();
      PlannerSpoke(cfg, old(View()), turn);
      if exit.Some? {
        return;
      }
      if turn.phase.PlanComplete? {
        return Some(Complete);
      }
      if turn.phase.TodoList? && |turn.todos| > 0 {
        MergePlan(turn.todos);
      }
    }

    method FindPending() returns (found: Option<nat>)
      requires Valid()
      ensures found == FirstPending(heap, todos)
    {
      for i := 0 to |todos|
        invariant FirstPending(heap, todos) == FirstPending(heap, todos[i..])
      {
        assert todos[i..][0] == todos[i] && todos[i..][1..] == todos[i + 1..];
        if heap[todos[i]].status == Pending {
          return Some(todos[i]);
        }
      }
      return None;
    }

    method RunTasks() returns (exit: Exit)
      requires Valid()
      modifies this, totals
      ensures Valid() && End(View(), exit) == Execute(cfg, world, old(View()))
    {
      hide OneTask;
      while loopCount < cfg.maxLoops
        invariant Valid()
        invariant Execute(cfg, world, old(View())) == Execute(cfg, world, View())
        decreases cfg.maxLoops - loopCount
      {
        var next := FindPending();
        if next.None? {
          return Complete;
        }
        var stop := WorkOn(next.value);
        if stop.Some? {
          return stop.value;
        }
      }
      exit := MaxLoops;
    }

    /** runPhases: what the run ends with is what the specification says, for every world; and the log it leaves
        folds back into its totals exactly when no append failed. */
    method Start() returns (exit: Exit)
      requires Valid()
      modifies this, totals
      ensures Valid() && End(View(), exit) == RunPhases(cfg, world, old(View()))
      ensures Starts(old(View())) && old(totals.Value()) == FRESH ==>
                (Agrees(Summarized(log), totals.Value()) && AgreesByName(Summarized(log), totals.Value()) <==>
                 forall k: nat :: k < |attempts| && attempts[k].usage.Some? ==> world.logs(k))
    {
      exit := RunAll();
      hide RunPhases, Tally, Summarized;
      if Starts(old(View())) && old(totals.Value()) == FRESH {
        LogMatchesTotals(cfg, world, old(View()), log);
      }
    }

    method RunAll() returns (exit: Exit)
      requires Valid()
      modifies this, totals
      ensures Valid() && End(View(), exit) == RunPhases(cfg, world, old(View()))
    {
      hide Clarify, Plan, Execute;
      var stop := RunClarification();
      if stop.Some? {
        return stop.value;
      }
      stop := EnsureTodos();
      if stop.Some? {
        return stop.value;
      }
      if cfg.dryRun {
        return DryRun;
      }
      exit := RunTasks();
    }
  }

  lemma LoggedOneMore(w: World, attempts: seq<Attempt>, a: Attempt, before: seq<Event>, after: seq<Event>)
    requires UsageEvents(before) == Logged(Written(w, attempts))
    requires after == before + (if a.usage.Some? && w.logs(|attempts|) then [UsageEvent(a.role, EstimateCost(a.usage.value), a.name)] else [])
    ensures UsageEvents(after) == Logged(Written(w, attempts + [a]))
  {
    hide EstimateCost;
    assert (attempts + [a])[..|attempts|] == attempts;
    if a.usage.Some? && w.logs(|attempts|) {
      assert after[..|before|] == before;
    } else {
      assert after == before;
    }
  }

  /** A consultation that goes on had an answer. */
  lemma PlannerSpoke(cfg: Config, r: Run, turn: PlannerTurn)
    ensures Consult(cfg, r, turn).Go? ==> turn.PlannerSays?
  {
    hide Called, Dispatch;
  }
}
