/**
 * The Planner / Coder / Reviewer run as a function of what the outside world answers.
 *
 * A `World` scripts every answer of the models, the user, git and GitHub; a statement about all worlds is a
 * statement about every sequence of answers. Scripts are indexed by the number of model calls attempted so
 * far, which grows between any two consultations. An answer that "fails" stands for a thrown exception.
 */
module OrchestratorModel {
  import opened Lists
  import opened Totals

  /** `runsTests`: the test command is set and not blank. */
  datatype Config = Config(
    maxClarifications: int, maxReviewRounds: int, maxLoops: int,
    maxCost: Option<real>, maxTokens: Option<int>,
    dryRun: bool, runsTests: bool, waitForCi: bool, requireHumanApproval: bool,
    rollbackOnHardFail: bool, rollbackOnMaxRounds: bool,
    github: bool, repos: set<string>, subagents: set<string>)

  datatype Status = Pending | InProgress | Done | Abandoned

  datatype Todo = Todo(id: string, repoAlias: Option<string>, status: Status, iterations: nat,
                       rolledBack: bool, mergedPr: Option<nat>)

  datatype Decision = Approve | RequestChanges

  /** A model call that was attempted; `usage` is None when it failed. */
  datatype Attempt = Attempt(role: Role, name: string, usage: Option<Usage>)

  /**
   * The state of a run. `heap` holds every TODO object created so far and `todos` is the TODO list, as
   * references into it. `exceeded` is the sticky abort flag.
   */
  datatype Run = Run(planReady: bool, heap: seq<Todo>, todos: seq<nat>, reviews: seq<Decision>, loopCount: int,
                     totals: Totals, attempts: seq<Attempt>, exceeded: Option<Trip>)

  /** When the flag was first set, in calls attempted, and whether a cap or the user set it. */
  datatype Trip = Trip(at: nat, byUser: bool)

  datatype Exit = Complete | MaxLoops | Blocked | Aborted | DryRun | Threw

  datatype Flow = Go(run: Run) | End(run: Run, exit: Exit)

  // ---- What the world answers ---------------------------------------------------------------

  datatype NewTodo = NewTodo(id: string, repoAlias: Option<string>)

  /** A requested subagent; `quit` says that the user quits while it is running. */
  datatype Delegate = Delegate(name: string, answer: Option<Usage>, quit: bool)

  datatype Phase = Clarification | Ready | TodoList | PlanComplete

  datatype Prompt = Answered(quit: bool) | PromptFails

  datatype PlannerTurn =
    | PlannerFails
    | PlannerSays(usage: Usage, quit: bool, delegates: seq<Delegate>, phase: Phase,
                  questions: nat, todos: seq<NewTodo>, prompt: Prompt)

  datatype Work = CannotDo | NoEdits | Edits

  datatype CoderTurn = CoderFails | CoderSays(usage: Usage, quit: bool, work: Work)

  datatype ReviewerTurn = ReviewerFails | ReviewerSays(usage: Usage, quit: bool, decision: Decision)

  datatype CommitResult = CommitFails | NothingChanged | Changed

  datatype Ci = CiPassed | CiFailed | CiPendingTimeout | CiUnknown

  datatype Confirm = Agreed | Declined | ConfirmFails

  /** The answers met in one Coder / Reviewer round; `quit` is the user quitting between the two calls,
      `lateQuit` after the review. */
  datatype RoundAnswers = RoundAnswers(
    contextFails: bool, coder: CoderTurn, preCommitVetoes: bool, commit: CommitResult, postCommitVetoes: bool,
    testsPass: bool, pushes: bool, pr: Option<nat>, quit: bool, reviewer: ReviewerTurn, lateQuit: bool,
    ci: Ci, confirm: Confirm, merges: bool)

  /** `logs(n)`: the usage event of call n can be appended to the run log. */
  datatype World = World(headFails: nat -> bool, planner: nat -> PlannerTurn, round: nat -> RoundAnswers, logs: nat -> bool)

  // ---- Calls and the budget -----------------------------------------------------------------

  function Tokens(b: Bucket): nat {
    b.input + b.output + b.cacheRead + b.cacheWrite
  }

  predicate Over(cfg: Config, overall: Bucket) {
    || (cfg.maxCost.Some? && overall.cost > cfg.maxCost.value)
    || (cfg.maxTokens.Some? && Tokens(overall) > cfg.maxTokens.value)
  }

  function Flag(r: Run, trips: bool, byUser: bool): Run {
    if trips && r.exceeded.None? then r.(exceeded := Some(Trip(|r.attempts|, byUser))) else r
  }

  /** The user may quit whenever the run waits for something. */
  function Poll(r: Run, quit: bool): Run {
    Flag(r, quit, true)
  }

  /** One awaited model call, and `track` when it returns. */
  function Called(cfg: Config, r: Run, role: Role, name: string, usage: Option<Usage>, quit: bool): Run {
    var r1 := r.(attempts := r.attempts + [Attempt(role, name, usage)]);
    var r2 := if usage.Some? then r1.(totals := Added(r1.totals, Call(role, name, usage.value))) else r1;
    Flag(Poll(r2, quit), usage.Some? && Over(cfg, r2.totals.overall), false)
  }

  /** dispatchDelegates: an unknown name is skipped before the budget check, a failing subagent is not. */
  function Dispatch(cfg: Config, r: Run, ds: seq<Delegate>): Run
    decreases |ds|
  {
    if ds == [] then r
    else if ds[0].name !in cfg.subagents then Dispatch(cfg, r, ds[1..])
    else
      var r1 := Called(cfg, r, Subagent, ds[0].name, ds[0].answer, ds[0].quit);
      if r1.exceeded.Some? then r1 else Dispatch(cfg, r1, ds[1..])
  }

  /** A Planner call, its budget check, and its delegations. */
  function Consult(cfg: Config, r: Run, turn: PlannerTurn): Flow {
    if turn.PlannerFails? then End(Called(cfg, r, Planner, "", None, false), Threw)
    else
      var r1 := Called(cfg, r, Planner, "", Some(turn.usage), turn.quit);
      if r1.exceeded.Some? then End(r1, Aborted) else Go(Dispatch(cfg, r1, turn.delegates))
  }

  // ---- The TODO list ------------------------------------------------------------------------

  predicate Sound(r: Run) {
    forall i | 0 <= i < |r.todos| :: r.todos[i] < |r.heap|
  }

  function Fresh(news: seq<NewTodo>): (heap: seq<Todo>)
    ensures |heap| == |news|
    ensures forall i | 0 <= i < |news| :: heap[i] == Todo(news[i].id, news[i].repoAlias, Pending, 0, false, None)
  {
    seq(|news|, i requires 0 <= i < |news| => Todo(news[i].id, news[i].repoAlias, Pending, 0, false, None))
  }

  /** Only an answer in the TODO-list phase carries TODOs. */
  function TodosOf(turn: PlannerTurn): seq<NewTodo> {
    if turn.PlannerSays? && turn.phase.TodoList? then turn.todos else []
  }

  function Listed(r: Run, news: seq<NewTodo>): (r': Run)
    ensures Sound(r')
  {
    r.(heap := r.heap + Fresh(news), todos := seq(|news|, i => |r.heap| + i))
  }

  /** The list has `t`, and no TODO with the id behind it. */
  ghost predicate LastAt(heap: seq<Todo>, todos: seq<nat>, id: string, t: nat)
    requires forall i | 0 <= i < |todos| :: todos[i] < |heap|
  {
    exists k | 0 <= k < |todos| :: todos[k] == t && forall j | k < j < |todos| :: heap[todos[j]].id != id
  }

  /** The entry that a Map built from the list holds for `id`: the last one. */
  function ById(heap: seq<Todo>, todos: seq<nat>, id: string): (found: Option<nat>)
    requires forall i | 0 <= i < |todos| :: todos[i] < |heap|
    ensures found.Some? ==> found.value in todos && heap[found.value].id == id && LastAt(heap, todos, id, found.value)
    ensures found.None? ==> forall t :: t in todos ==> heap[t].id != id
  {
    if todos == [] then None
    else if heap[todos[|todos| - 1]].id == id then
      Some(todos[|todos| - 1])
    else ById(heap, todos[..|todos| - 1], id)
  }

  /** The revised list: known ids keep their object, the others are new. */
  function Merged(r: Run, news: seq<NewTodo>): (r': Run)
    requires Sound(r)
    ensures Sound(r')
  {
    r.(heap := r.heap + Fresh(news),
       todos := seq(|news|, i requires 0 <= i < |news| =>
                  match ById(r.heap, r.todos, news[i].id)
                  case Some(t) => t
                  case None => |r.heap| + i))
  }

  function FirstPending(heap: seq<Todo>, todos: seq<nat>): (found: Option<nat>)
    requires forall i | 0 <= i < |todos| :: todos[i] < |heap|
    ensures found.Some? ==> found.value in todos && heap[found.value].status == Pending
    ensures found.None? ==> forall t :: t in todos ==> heap[t].status != Pending
  {
    if todos == [] then None
    else if heap[todos[0]].status == Pending then Some(todos[0])
    else FirstPending(heap, todos[1..])
  }

  function SetStatus(r: Run, t: nat, status: Status): Run
    requires t < |r.heap|
  {
    r.(heap := r.heap[t := r.heap[t].(status := status)])
  }

  // ---- One task -----------------------------------------------------------------------------

  /** What a task does to the world outside, in order. Commits of a task are numbered. */
  datatype Effect =
    | Committed(commit: nat)
    | Tested(passed: bool)
    | Pushed(commit: nat)
    | PrOpened(pr: nat)
    | Judged(decision: Decision)
    | CiReported(ci: Ci, remote: Option<nat>)
    | UserDecided(agreed: bool)
    | MergeAsked(pr: nat, remote: Option<nat>)
    | RolledBack

  /** `commits` counts the task's commits and `remote` is the one its branch has on GitHub. */
  datatype Branch = Branch(pr: Option<nat>, commits: nat, remote: Option<nat>, effects: seq<Effect>)

  datatype Outcome = Again | TaskComplete | TaskBlocked | TaskAborted | TaskThrew

  datatype Turn = Turn(run: Run, branch: Branch, outcome: Outcome)

  function Did(b: Branch, e: Effect): Branch {
    b.(effects := b.effects + [e])
  }

  function GiveUp(rollback: bool, r: Run, t: nat, b: Branch): Turn
    requires t < |r.heap|
  {
    var r1 := SetStatus(r, t, Abandoned);
    if rollback then
      Turn(r1.(heap := r1.heap[t := r1.heap[t].(rolledBack := true)]), Did(b, RolledBack), TaskBlocked)
    else Turn(r1, b, TaskBlocked)
  }

  /** Push, then open the pull request if the task has none. A failure is logged and the round goes on. */
  function Published(cfg: Config, a: RoundAnswers, b: Branch): Branch
    requires b.commits > 0
  {
    if !cfg.github || !a.pushes then b
    else
      var b1 := Did(b, Pushed(b.commits - 1)).(remote := Some(b.commits - 1));
      if b1.pr.None? && a.pr.Some? then Did(b1, PrOpened(a.pr.value)).(pr := a.pr) else b1
  }

  /** After an approval: CI, the user, the merge. */
  function Land(cfg: Config, a: RoundAnswers, r: Run, t: nat, b: Branch): Turn
    requires t < |r.heap|
  {
    if !cfg.github || b.pr.None? then Turn(r, b, TaskComplete)
    else
      var b1 := if cfg.waitForCi then Did(b, CiReported(a.ci, b.remote)) else b;
      if cfg.waitForCi && a.ci.CiFailed? then Turn(r.(reviews := r.reviews + [RequestChanges]), b1, Again)
      else if cfg.waitForCi && !a.ci.CiPassed? then Turn(r, b1, TaskBlocked)
      else if cfg.requireHumanApproval && a.confirm.ConfirmFails? then Turn(r, b1, TaskThrew)
      else
        var b2 := if cfg.requireHumanApproval then Did(b1, UserDecided(a.confirm.Agreed?)) else b1;
        if cfg.requireHumanApproval && a.confirm.Declined? then Turn(r, b2, TaskAborted)
        else
          Turn(if a.merges then r.(heap := r.heap[t := r.heap[t].(mergedPr := b.pr)]) else r,
               Did(b2, MergeAsked(b.pr.value, b.remote)), TaskComplete)
  }

  function Review(cfg: Config, a: RoundAnswers, r: Run, t: nat, b: Branch): Turn
    requires t < |r.heap|
  {
    if a.reviewer.ReviewerFails? then Turn(Called(cfg, r, Reviewer, "", None, false), b, TaskThrew)
    else
      var r1 := Called(cfg, r, Reviewer, "", Some(a.reviewer.usage), a.reviewer.quit);
      if r1.exceeded.Some? then Turn(r1, b, TaskAborted)
      else
        var r2 := Poll(r1.(reviews := r1.reviews + [a.reviewer.decision]), a.lateQuit);
        var b1 := Did(b, Judged(a.reviewer.decision));
        if a.reviewer.decision.Approve? then Land(cfg, a, r2, t, b1) else Turn(r2, b1, Again)
  }

  function CommitAndReview(cfg: Config, a: RoundAnswers, r: Run, t: nat, b: Branch): Turn
    requires t < |r.heap|
  {
    if a.preCommitVetoes then GiveUp(cfg.rollbackOnHardFail, r, t, b)
    else if a.commit.CommitFails? then Turn(r, b, TaskThrew)
    else
      var b1 := if a.commit.Changed? then Did(b, Committed(b.commits)).(commits := b.commits + 1) else b;
      if a.postCommitVetoes then Turn(r, b1, TaskThrew)
      else if !a.commit.Changed? then Turn(r, b1, Again)
      else
        var b2 := if cfg.runsTests then Did(b1, Tested(a.testsPass)) else b1;
        if cfg.runsTests && !a.testsPass then Turn(r.(reviews := r.reviews + [RequestChanges]), b2, Again)
        else Review(cfg, a, Poll(r, a.quit), t, Published(cfg, a, b2))
  }

  /** One iteration of the Coder / Reviewer loop. */
  function Round(cfg: Config, a: RoundAnswers, r: Run, t: nat, b: Branch): Turn
    requires t < |r.heap|
  {
    var r0 := r.(heap := r.heap[t := r.heap[t].(iterations := r.heap[t].iterations + 1)]);
    if a.contextFails then Turn(r0, b, TaskThrew)
    else if a.coder.CoderFails? then Turn(Called(cfg, r0, Coder, "", None, false), b, TaskThrew)
    else
      var r1 := Called(cfg, r0, Coder, "", Some(a.coder.usage), a.coder.quit);
      if r1.exceeded.Some? then Turn(r1, b, TaskAborted)
      else match a.coder.work
        case CannotDo => Turn(SetStatus(r1, t, Abandoned), b, TaskBlocked)
        case NoEdits => Turn(r1, b, Again)
        case Edits => CommitAndReview(cfg, a, r1, t, b)
  }

  /** What a round leaves alone: everything but its own TODO, the reviews, the calls and the flag. */
  ghost predicate Within(r: Run, r': Run, t: nat) {
    && t < |r.heap| == |r'.heap|
    && (forall i | 0 <= i < |r.heap| && i != t :: r'.heap[i] == r.heap[i])
    && r'.heap[t].id == r.heap[t].id && r'.heap[t].iterations >= r.heap[t].iterations
    && r'.todos == r.todos && r'.planReady == r.planReady && r'.loopCount == r.loopCount
    && r.attempts <= r'.attempts
  }

  /** A stage of a round leaves the status, unless it gives the task up. */
  ghost predicate StageWithin(r: Run, turn: Turn, t: nat) {
    && Within(r, turn.run, t)
    && (turn.run.heap[t].status == r.heap[t].status || (turn.outcome.TaskBlocked? && turn.run.heap[t].status == Abandoned))
  }

  lemma LandWithin(cfg: Config, a: RoundAnswers, r: Run, t: nat, b: Branch)
    requires t < |r.heap|
    ensures StageWithin(r, Land(cfg, a, r, t, b), t)
  {
  }

  lemma ReviewWithin(cfg: Config, a: RoundAnswers, r: Run, t: nat, b: Branch)
    requires t < |r.heap|
    ensures StageWithin(r, Review(cfg, a, r, t, b), t)
  {
    hide Added, Land, Over;
    if a.reviewer.ReviewerSays? {
      var r1 := Called(cfg, r, Reviewer, "", Some(a.reviewer.usage), a.reviewer.quit);
      var r2 := Poll(r1.(reviews := r1.reviews + [a.reviewer.decision]), a.lateQuit);
      LandWithin(cfg, a, r2, t, Did(b, Judged(a.reviewer.decision)));
    }
  }

  lemma CommitWithin(cfg: Config, a: RoundAnswers, r: Run, t: nat, b: Branch)
    requires t < |r.heap|
    ensures StageWithin(r, CommitAndReview(cfg, a, r, t, b), t)
  {
    hide Review, Published;
    if !a.preCommitVetoes && a.commit.Changed? && !a.postCommitVetoes {
      var b1 := Did(b, Committed(b.commits)).(commits := b.commits + 1);
      var b2 := if cfg.runsTests then Did(b1, Tested(a.testsPass)) else b1;
      ReviewWithin(cfg, a, Poll(r, a.quit), t, Published(cfg, a, b2));
    }
  }

  /** One more iteration and some calls before a stage stay within the round. */
  lemma Carried(r: Run, r1: Run, turn: Turn, t: nat)
    requires t < |r.heap| && r1.heap == r.heap[t := r.heap[t].(iterations := r.heap[t].iterations + 1)]
    requires r1.todos == r.todos && r1.planReady == r.planReady && r1.loopCount == r.loopCount && r.attempts <= r1.attempts
    requires StageWithin(r1, turn, t)
    ensures StageWithin(r, turn, t) && |turn.run.attempts| >= |r1.attempts|
  {
  }

  lemma Ended(r1: Run, turn: Turn, t: nat)
    requires t < |r1.heap| && (turn.run == r1 || (turn.run == SetStatus(r1, t, Abandoned) && turn.outcome.TaskBlocked?))
    ensures StageWithin(r1, turn, t)
  {
  }

  lemma RoundWithin(cfg: Config, a: RoundAnswers, r: Run, t: nat, b: Branch)
    requires t < |r.heap|
    ensures var turn := Round(cfg, a, r, t, b);
            StageWithin(r, turn, t) && (turn.outcome.Again? ==> |turn.run.attempts| > |r.attempts|)
  {
    hide Called, CommitAndReview, StageWithin, Within;
    var r0 := r.(heap := r.heap[t := r.heap[t].(iterations := r.heap[t].iterations + 1)]);
    var usage := if a.coder.CoderFails? then None else Some(a.coder.usage);
    var quits := a.coder.CoderSays? && a.coder.quit;
    CalledKeeps(cfg, r0, Coder, "", usage, quits);
    var r1 := if a.contextFails then r0 else Called(cfg, r0, Coder, "", usage, quits);
    var turn := Round(cfg, a, r, t, b);
    if !a.contextFails && a.coder.CoderSays? && r1.exceeded.None? && a.coder.work.Edits? {
      CommitWithin(cfg, a, r1, t, b);
    } else {
      Ended(r1, turn, t);
    }
    Carried(r, r1, turn, t);
  }

  /** runTaskLoop from its round `n` on. */
  function TaskLoop(cfg: Config, w: World, n: nat, r: Run, t: nat, b: Branch): (turn: Turn)
    requires t < |r.heap|
    ensures StageWithin(r, turn, t) && turn.outcome != Again
    decreases cfg.maxReviewRounds - n
  {
    if n >= cfg.maxReviewRounds then GiveUp(cfg.rollbackOnMaxRounds, r, t, b)
    else
      var turn := Round(cfg, w.round(|r.attempts|), r, t, b);
      RoundWithin(cfg, w.round(|r.attempts|), r, t, b);
      if turn.outcome.Again? then TaskLoop(cfg, w, n + 1, turn.run, t, turn.branch) else turn
  }

  function RunTask(cfg: Config, w: World, r: Run, t: nat): (turn: Turn)
    requires t < |r.heap|
    ensures StageWithin(r, turn, t) && turn.outcome != Again
  {
    var b := Branch(None, 0, None, []);
    if w.headFails(|r.attempts|) then Turn(r, b, TaskThrew) else TaskLoop(cfg, w, 0, r, t, b)
  }

  // ---- The phases of a run ------------------------------------------------------------------

  /** Phase 1: questions until the Planner is ready. */
  function Clarify(cfg: Config, w: World, r: Run, rounds: nat): Flow
    decreases cfg.maxClarifications - rounds
  {
    if r.planReady then Go(r)
    else if rounds >= cfg.maxClarifications then Go(r.(planReady := true))
    else
      var turn := w.planner(|r.attempts|);
      match Consult(cfg, r, turn)
      case End(r1, exit) => End(r1, exit)
      case Go(r1) =>
        if turn.phase.Clarification? && turn.questions > 0 then
          if turn.prompt.PromptFails? then End(r1, Threw)
          else Clarify(cfg, w, Poll(r1, turn.prompt.quit), rounds + 1)
        else if turn.phase.TodoList? then Go(Listed(r1, turn.todos).(planReady := true))
        else Go(r1.(planReady := true))
  }

  /** Phase 2: a TODO list if there is none yet. */
  function Plan(cfg: Config, w: World, r: Run): Flow {
    if |r.todos| > 0 then Go(r)
    else
      var turn := w.planner(|r.attempts|);
      match Consult(cfg, r, turn)
      case End(r1, exit) => End(r1, exit)
      case Go(r1) => if |TodosOf(turn)| > 0 then Go(Listed(r1, TodosOf(turn))) else End(r1, Blocked)
  }

  predicate KnownRepo(cfg: Config, todo: Todo) {
    todo.repoAlias.Some? ==> todo.repoAlias.value in cfg.repos
  }

  function Picked(r: Run, t: nat): Run
    requires t < |r.heap|
  {
    SetStatus(r, t, InProgress).(reviews := [])
  }

  /** The Planner's review after a finished task. */
  function Replan(cfg: Config, w: World, r: Run): (flow: Flow)
    requires Sound(r)
    ensures flow.Go? ==> Sound(flow.run) && flow.run.loopCount == r.loopCount
  {
    var turn := w.planner(|r.attempts|);
    match Consult(cfg, r, turn)
    case End(r1, exit) => End(r1, exit)
    case Go(r1) =>
      ConsultKeeps(cfg, r, turn);
      if turn.phase.PlanComplete? then End(r1, Complete)
      else if |TodosOf(turn)| > 0 then Go(Merged(r1, TodosOf(turn)))
      else Go(r1)
  }

  /** Phase 3, one task: an end of the run, or a finished task and a new plan. */
  function OneTask(cfg: Config, w: World, r: Run, t: nat): (flow: Flow)
    requires Sound(r) && t < |r.heap|
    ensures flow.Go? ==> Sound(flow.run) && flow.run.loopCount == r.loopCount + 1
  {
    if !KnownRepo(cfg, r.heap[t]) then End(SetStatus(Picked(r, t), t, Abandoned), Blocked)
    else
      var turn := RunTask(cfg, w, Picked(r, t), t);
      var r1 := turn.run;
      match turn.outcome
      case TaskBlocked => End(r1, Blocked)
      case TaskAborted => End(r1, Aborted)
      case TaskThrew => End(r1, Threw)
      case TaskComplete =>
        if r1.exceeded.Some? then End(r1, Aborted)
        else Replan(cfg, w, SetStatus(r1, t, Done).(loopCount := r1.loopCount + 1))
  }

  /** Phase 3: one TODO after the other. */
  function Execute(cfg: Config, w: World, r: Run): (end: Flow)
    requires Sound(r)
    ensures end.End?
    decreases cfg.maxLoops - r.loopCount
  {
    if r.loopCount >= cfg.maxLoops then End(r, MaxLoops)
    else match FirstPending(r.heap, r.todos)
      case None => End(r, Complete)
      case Some(t) =>
        var flow := OneTask(cfg, w, r, t);
        if flow.End? then flow else Execute(cfg, w, flow.run)
  }

  /** A whole run, fresh or resumed. */
  function RunPhases(cfg: Config, w: World, r: Run): (end: Flow)
    requires Sound(r)
    ensures end.End?
  {
    var phase1 := Clarify(cfg, w, r, 0);
    if phase1.End? then phase1
    else
      PlanningSound(cfg, w, r);
      var phase2 := Plan(cfg, w, phase1.run);
      if phase2.End? then phase2
      else if cfg.dryRun then End(phase2.run, DryRun)
      else Execute(cfg, w, phase2.run)
  }

  // ---- What calls leave alone ---------------------------------------------------------------

  /** Only the calls, their totals and the flag change. */
  ghost predicate OnlyCalls(r: Run, r': Run) {
    && r' == r.(attempts := r'.attempts, totals := r'.totals, exceeded := r'.exceeded)
    && r.attempts <= r'.attempts
  }

  lemma CalledKeeps(cfg: Config, r: Run, role: Role, name: string, usage: Option<Usage>, quit: bool)
    ensures OnlyCalls(r, Called(cfg, r, role, name, usage, quit))
    ensures Called(cfg, r, role, name, usage, quit).attempts == r.attempts + [Attempt(role, name, usage)]
  {
    hide Added, Over;
  }

  lemma {:induction false} DispatchKeeps(cfg: Config, r: Run, ds: seq<Delegate>)
    ensures OnlyCalls(r, Dispatch(cfg, r, ds))
    decreases |ds|
  {
    if ds != [] {
      var r1 := Called(cfg, r, Subagent, ds[0].name, ds[0].answer, ds[0].quit);
      DispatchKeeps(cfg, r, ds[1..]);
      DispatchKeeps(cfg, r1, ds[1..]);
    }
  }

  lemma ConsultKeeps(cfg: Config, r: Run, turn: PlannerTurn)
    ensures OnlyCalls(r, Consult(cfg, r, turn).run)
    ensures |Consult(cfg, r, turn).run.attempts| > |r.attempts|
  {
    if turn.PlannerSays? {
      DispatchKeeps(cfg, Called(cfg, r, Planner, "", Some(turn.usage), turn.quit), turn.delegates);
    }
  }

  lemma {:induction false} ClarifySound(cfg: Config, w: World, r: Run, rounds: nat)
    requires Sound(r)
    ensures Sound(Clarify(cfg, w, r, rounds).run)
    ensures Clarify(cfg, w, r, rounds).Go? ==> Clarify(cfg, w, r, rounds).run.planReady
    decreases cfg.maxClarifications - rounds
  {
    if !r.planReady && rounds < cfg.maxClarifications {
      var turn := w.planner(|r.attempts|);
      ConsultKeeps(cfg, r, turn);
      var flow := Consult(cfg, r, turn);
      if flow.Go? && turn.phase.Clarification? && turn.questions > 0 && turn.prompt.Answered? {
        ClarifySound(cfg, w, Poll(flow.run, turn.prompt.quit), rounds + 1);
      }
    }
  }

  /** Only a ready plan with something to do goes on to the tasks. */
  lemma PlanningSound(cfg: Config, w: World, r: Run)
    requires Sound(r)
    ensures Sound(Clarify(cfg, w, r, 0).run)
    ensures Clarify(cfg, w, r, 0).Go? ==> Clarify(cfg, w, r, 0).run.planReady
    ensures var phase2 := Plan(cfg, w, Clarify(cfg, w, r, 0).run);
            Sound(phase2.run) && (phase2.Go? ==> phase2.run.todos != [])
  {
    ClarifySound(cfg, w, r, 0);
    var r1 := Clarify(cfg, w, r, 0).run;
    ConsultKeeps(cfg, r1, w.planner(|r1.attempts|));
  }
}
