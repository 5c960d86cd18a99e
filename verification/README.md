# claudeStruct and claw-squad: a model in Dafny

Models, in Dafny, of the parts of the repository that carry state, and proofs of what they promise:

- **The Redis job queue** (`JobProtocol`, `JobSafety`, `JobDurability`, `JobContents`, `JobRetries`, `JobQueue`). Three lists and any
  number of clients; each Redis command is one atomic step. Safety over all interleavings, with and without crashes,
  then the operations, the worker loop and the drain on a queue object.
- **The orchestrator** (`OrchestratorModel`, the eight modules of theorems beside it, `OrchestratorRun`). A run as a function of a
  *world* that scripts every answer of the models, the user, git and GitHub, theorems about that function for all
  worlds, and the object whose nested loops compute it.
- **Accounting** (`Totals`, `TotalsLedger`): rates, running totals, the summary folded out of the event log, run differences.
- **The embedding index** (`Similarity`, `IndexBuild`, `IndexStore`): the top-K cosine query, the batched incremental
  build with both commit policies, the watch loop, and the file format with export and import.
- **Cost-regression alerts** (`CostAlerts`, `CostReport`): a run is part of its own baseline, which bounds how many can be
  flagged; and exactly what is reported.
- **Three small machines**: the Slack request and delivery matcher (`SlackSocket`, `SlackAnswers`), the local response cache
  (`LocalCache`) and the rotating lesson file (`LessonMemory`).

`Lists`, `Reals` and `Sorting` hold what they share. `dafny verify dfyconfig.toml` checks the project.

## Conventions

- An object that the source updates in place is a class; its methods are proved against functions on values, and the
  theorems are about those functions. TODO objects are entries of a growing table and the TODO list holds references
  to them, so that two positions of a list can share one object as they can in the source.
- Dollars, scores and statistics are exact reals; `sqrt` is any function that returns the non-negative root.
- The hash, the embedding model, the language models, the collation and the JSON printer and parser are parameters;
  the laws assumed of them are written as predicates (`LocalCache.Fixed`, `IndexStore.Faithful`, `IndexBuild.Injective`,
  `Sorting.KeyOrder`, `Reals.IsSqrt`) and appear as preconditions. The JSON codec is only assumed to work for rows that
  have a text (`IndexStore.Codec.ok`), since not every exact real has one; `IndexStore.PathCodecFaithful` meets the law.
- RPOPLPUSH adds at the head of its destination, as Redis does.

## Where the code does not do what it says

Each of these is a lemma, beside a theorem that says when the code does meet the property.

- A pop inside an iteration of `requeueDeadJobs` duplicates a job (`JobSafety.PopInsideRequeueDuplicates`), and only such
  a pop does (`JobSafety.PopIsSafeIff`). A crash loses a job for good exactly between LREM and LPUSH
  (`JobDurability.CrashBetweenRemAndPushLoses`). Malformed dead entries are not discarded but stay for ever
  (`JobDurability.MalformedStaysForEver`).
- A malformed entry ends a drain with work left (`JobQueue.DrainStopsAtMalformed`), but for the queues of
  `JobQueue.DrainEmptiesIff`.
- A subagent that goes over the budget is followed by one more Planner call (`OrchestratorTodos.OneCallAfterTheTrip`);
  `OrchestratorTrips.TripIsLastIff` names the configurations in which no call follows a trip.
- A push that fails in the approved round lets CI judge and GitHub merge an older, rejected commit
  (`OrchestratorTasks.UnpushedApprovalMergesOldCommit`).
- A plan of exactly `maxLoops` TODOs is finished but reported as `max_loops` (`OrchestratorFinish.FreshRunFinishes`).
- An interrupted TODO is never resumed, and the run reports complete (`OrchestratorTodos.ResumeSkipsInterrupted`).
- `cacheSavings` is not the saving over a run without a cache once tokens were written to it (`Totals.SavingsExactIff`).
- A second pass over an unchanged tree is not idle when one path is walked with two contents, as for files `a\b` and `a/b`
  in the Python twin; then every pass embeds one of them anew (`IndexBuild.SecondPassIdle`).
- A model name or effort that imitates the NUL framing shares its cache key with another request and can be given its
  answer (`LocalCache.KeyUniqueIff`, `LocalCache.TransparentIff`).
- The index file is not canonical when the collation calls two paths equal (`IndexStore.TiedPathsDiffer`).
- The second request for a button prompt leaves the first open past a shutdown, and a second unclaimed click
  overwrites the first (`SlackSocket.SupersededStaysOpen`, `SlackSocket.ShutdownResolvesAllIff`,
  `SlackSocket.ClicksConserved`).
- Over exact reals the infinite-sigma branch of the alerts is never taken (`CostAlerts.FindingsAreFinite`).

## Model

| member | source | states |
|---|---|---|
| JobProtocol.FindById | claw-squad/src/queue.ts:145-155 | the scan of the processing list finds an entry with the wanted id if there is one, and only such an entry |
| JobSafety.ExactlyOnePlace | claw-squad/src/queue.ts:103-192 | in every run of any number of clients, one Redis command at a time, without crashes, malformed entries or a pop of an entry just being requeued, every enqueued id is in exactly one place: queue, processing, one client between LREM and LPUSH, dead list or completed; and each processing entry is held by exactly one client |
| JobSafety.TidyStep | claw-squad/src/queue.ts:103-217 | the invariant behind it, kept by every single command |
| JobSafety.ScanFindsOwn | claw-squad/src/queue.ts:140-178 | completeJob and abandonJob find the very entry their worker was handed |
| JobSafety.PopInsideRequeueDuplicates | claw-squad/src/queue.ts:194-217 | the excluded interleaving is a real one: a pop between the RPOPLPUSH and the LREM of requeueDeadJobs leaves one job twice in the system |
| JobSafety.PopIsSafeIff | claw-squad/src/queue.ts:103-217 | the excluded interleaving is exactly the one that matters: after a pop in a tidy state no calm run can have an id in two places if and only if no client was about to remove the popped entry inside requeueDeadJobs |
| JobDurability.LostOnlyBetweenRemAndPush | claw-squad/src/queue.ts:159-217 | with crashes at any command, malformed entries and any interleaving, requeueDeadJobs included, a job that was enqueued and never completed is missing from all three lists only while a client stands, or has crashed, between an LREM and the LPUSH after it |
| JobDurability.CrashBetweenRemAndPushLoses | claw-squad/src/queue.ts:159-217 | a crash loses an uncompleted job for good, so that no list has it and nobody completes it in any continuation whatever, exactly when it strikes between the LREM and the LPUSH of that job |
| JobDurability.MalformedStep | claw-squad/src/queue.ts:103-217 | the exact change of the copies of a malformed text under every command |
| JobDurability.MalformedStaysForEver | claw-squad/src/queue.ts:194-217 | over every run, with crashes, no malformed text ever loses a copy, neither in the three lists nor in processing alone; one that requeueDeadJobs takes from the dead list is never discarded, against the comment there |
| JobContents.JobsKeepPayload | claw-squad/src/queue.ts:88-217 | over every interleaving, with crashes and malformed text, a job in a list or in a client's hands has the payload that was submitted with its id and, once retried, an error that was reported for it |
| JobContents.LastErrorIsKept | claw-squad/src/queue.ts:159-192 | in every calm run a retried job carries the very last error reported for its id |
| JobRetries.RetriesAndOrder | claw-squad/src/queue.ts:103-217 | with iterations of requeueDeadJobs undisturbed, a waiting or processing job has retries equal to its failures since the last reset and below MAX_RETRIES, a dead job failed exactly MAX_RETRIES times, and jobs leave the queue in the order in which they entered it |
| JobRetries.PacedStep | claw-squad/src/queue.ts:103-217 | the invariant behind it, kept by every single command |
| JobQueue.JobQueue.EnqueueJob | claw-squad/src/queue.ts:88-101 | the job goes to the head of the queue with no retries |
| JobQueue.JobQueue.DequeueJob | claw-squad/src/queue.ts:103-138 | the tail entry moves to processing; a malformed one is also copied to the dead list and nothing is returned |
| JobQueue.JobQueue.CompleteJob | claw-squad/src/queue.ts:140-157 | the first processing entry with the id is removed |
| JobQueue.JobQueue.AbandonJob | claw-squad/src/queue.ts:159-192 | the first processing entry with the id is removed and the job, with its id and payload, one more retry and the error, goes to the head of the queue or, at MAX_RETRIES, of the dead list |
| JobQueue.JobQueue.RequeueDeadJobs | claw-squad/src/queue.ts:194-217 | the loop of pops, removals and pushes leaves the lists of the next row and reports only the jobs it renewed |
| JobQueue.ReviveBringsBackOldest | claw-squad/src/queue.ts:194-217 | the entries that died first come back, in their order, in front of the queue, jobs with fresh retries; malformed text comes back too but is not counted |
| JobQueue.RenewedEach | claw-squad/src/queue.ts:194-217 | a job that comes back has its id and payload, no retries and no error |
| JobQueue.SoloComplete | claw-squad/src/queue.ts:140-157 | undisturbed, the two commands of the protocol add up to the operation |
| JobQueue.SoloAbandon | claw-squad/src/queue.ts:159-192 | undisturbed, the three commands of the protocol add up to the operation |
| JobQueue.SoloRequeue | claw-squad/src/queue.ts:194-217 | undisturbed, the three commands of the protocol add up to one iteration of the operation |
| JobQueue.DrainQueueOnce | claw-squad/src/daemon.ts:331-389 | the loop on the queue object ends with the lists, count and completions of the drain that the next four rows are about |
| JobQueue.DrainStep | claw-squad/src/daemon.ts:344-386 | an iteration strictly lowers the effort left, by one when the job fails, and leaves processing as it was |
| JobQueue.DrainConserves | claw-squad/src/daemon.ts:344-386 | no id is lost or duplicated by a drain |
| JobQueue.DrainReports | claw-squad/src/daemon.ts:331-389 | the completed ids are those of the runs that succeeded, in order, and the count is that of the runs that did not throw |
| JobQueue.DrainLeaves | claw-squad/src/daemon.ts:331-389 | the lists a drain leaves are those of its runs, each job gone, dead or back with its error, and of the malformed text that ends it |
| JobQueue.DrainTerminatesEmpty | claw-squad/src/daemon.ts:331-389 | a well-formed queue is emptied whatever the outcomes of its jobs exactly when maxJobs covers the sum of the runs left to its jobs, and every job is then completed or dead |
| JobQueue.DrainStopsAtMalformed | claw-squad/src/daemon.ts:344-346 | whatever the outcomes a malformed entry ends the drain with the entries behind it still queued, only bounced jobs beside them, and is left both dead and in processing |
| JobQueue.DrainEmptiesIff | claw-squad/src/daemon.ts:331-389 | any queue is emptied whatever the outcomes exactly when it is well-formed and maxJobs covers its effort, or holds one malformed entry, at the head, behind no more than maxJobs - 1 jobs all at their last chance |
| JobQueue.RunWorkerDaemon | claw-squad/src/daemon.ts:209-285 | the main loop, stopped by a signal or not, ends with no current job and with the lists and completions that the next row is about |
| JobQueue.WorkerStopsClean | claw-squad/src/daemon.ts:209-285 | when a lone worker stops, processing is as it was and every job it claimed is queued again, dead or completed |
| JobQueue.WorkerReports | claw-squad/src/daemon.ts:209-285 | a worker completes exactly the jobs whose runs succeeded, in order, and leaves the lists that its turns add up to |
| Totals.CostFromRates | claw-squad/src/providers/registry.ts:82-129 | costs and savings add up over calls however the tokens are split, and a million tokens of a kind cost the rate of that kind |
| Totals.SavingsExactIff | claw-squad/src/providers/registry.ts:97-129 | the reported saving is the real one over the same call without a cache exactly when the provider is free, or nothing was written to the cache and, off Anthropic, nothing read from it |
| Totals.RunTotals.AddUsage | claw-squad/src/totals.ts:85-110 | the call lands in its role, in the run and, for a named subagent, in that subagent |
| Totals.TotalsAgree | claw-squad/src/totals.ts:46-110 | over every sequence of calls of a fresh run the overall bucket is the field-wise sum of the roles, and the subagent bucket that of the named subagents and of the calls without a name |
| TotalsLedger.TotalsBooked | claw-squad/src/totals.ts:46-110 | every bucket of the totals holds, field by field, the sum over the calls that belong there: all of them, those of a role, those of a named subagent; and only names that were called have a bucket |
| Totals.SubagentsSumIff | claw-squad/src/totals.ts:46-110 | the named subagents sum to the subagent bucket exactly when every subagent call was named |
| Totals.SummarizeRun | claw-squad/src/dashboard.ts:53-98 | the loop over the events gives the summary that the next row ties to the running totals |
| Totals.SummaryReproducesTotals | claw-squad/src/dashboard.ts:53-98 | folding the log of a fresh run gives back cost and calls of every role and of the run; and of every subagent exactly when no other role was logged with a name |
| Totals.SummaryBalanced | claw-squad/src/dashboard.ts:53-98 | of any list of events the overall cost and calls are the sums of those of the roles |
| TotalsLedger.SummaryReads | claw-squad/src/dashboard.ts:53-98 | the summary of any log has the TODOs finished and rolled back, reason and savings of the last end, the last requirement, and the spend of every role and name |
| Totals.DiffRuns | claw-squad/src/dashboard.ts:258-293 | every delta is newer minus older, over all roles and over the subagents of either run |
| Totals.DeltasAddUp | claw-squad/src/dashboard.ts:258-293 | the overall delta of any two event logs is the sum of their role deltas |
| CostAlerts.OneSidedBound | src/claudestruct/server/alerts.py:73-160 | among n samples at most n / (1 + t * t) lie t population standard deviations or more above their own mean |
| CostAlerts.SumsFromFront | src/claudestruct/server/alerts.py:73-80 | what the sums are that mean and spread rest on |
| CostAlerts.FlaggedRunsBound | src/claudestruct/server/alerts.py:113-160 | for every org history, threshold and t, the number k of runs flagged at t or more satisfies k * (1 + t * t) <= n |
| CostAlerts.FindingsAreFinite | src/claudestruct/server/alerts.py:144-151 | the branch for a zero standard deviation never flags a run |
| CostAlerts.FindingNeedsRuns | src/claudestruct/server/alerts.py:168-182 | a finding at the default threshold needs 5 runs, a warning 10, a critical alert 17 |
| CostAlerts.CanFireIff | src/claudestruct/server/alerts.py:113-160 | n runs can fire an alert at sigma exactly when n >= 3 and, for a positive sigma, n >= 1 + sigma * sigma |
| CostReport.FlagRuns | src/claudestruct/server/alerts.py:132-160 | the loop with its four skips finds, in order, exactly the runs that the bounds above are about |
| CostReport.FlagMatches | src/claudestruct/server/alerts.py:132-160 | the runs flagged in an org are exactly the recent ones at least sigma spreads above the mean |
| CostReport.GroupByOrg | src/claudestruct/server/alerts.py:107-110 | every run ends up in the list of its org, in table order |
| CostReport.ComputeCostRegressionAlerts | src/claudestruct/server/alerts.py:83-165 | the report holds a finding exactly as often as the next row says, and is sorted |
| CostReport.ReportExact | src/claudestruct/server/alerts.py:83-165 | a finding is reported exactly once for each successful run of its org that is inside the lookback window and recent, where the org has three or more runs in the window and a positive spread, and the cost lies at least sigma spreads above the mean; it states that cost, mean, spread and deviation |
| CostReport.ReportedFindings | src/claudestruct/server/alerts.py:83-165 | the report holds exactly the findings of every org over its own history, worst first, each finite and at least sigma |
| Sorting.Sorted | src/claudestruct/server/alerts.py:162-165 | the library sort as modelled: a permutation in descending order |
| Sorting.SortStable | src/claudestruct/server/alerts.py:162-165 | elements that tie keep their order |
| OrchestratorModel.TaskLoop | claw-squad/src/orchestrator.ts:829-1246 | one task ends after its rounds, and touches nothing but its own TODO, the reviews, the calls and the flag |
| OrchestratorOutcomes.RoundOutcome | claw-squad/src/orchestrator.ts:829-1232 | for every outcome, a round ends so exactly when the answers, the caps and the pull request say so: complete, again, blocked, aborted or thrown; with the verdicts it puts on record and what becomes of its TODO |
| OrchestratorOutcomes.RoundTells | claw-squad/src/orchestrator.ts:940-1225 | exactly what a round does outside, in order: commit, tests, push and pull request, verdict, CI, the user's word, merge or rollback |
| OrchestratorOutcomes.TaskOutcome | claw-squad/src/orchestrator.ts:731-1246 | a task completes exactly when one of its first maxReviewRounds rounds is reached and meets the conditions of a completing round; the same for every other end; and it is blocked when none decides |
| OrchestratorOutcomes.TaskExit | claw-squad/src/orchestrator.ts:599-729 | exactly where an iteration of phase 3 ends the run and how, and when it goes on with its TODO done |
| OrchestratorOutcomes.PlanOutcome | claw-squad/src/orchestrator.ts:551-577 | exactly how phase 2 ends: with a list, blocked without one, aborted or thrown |
| OrchestratorOutcomes.DispatchMakes | claw-squad/src/orchestrator.ts:231-270 | the delegations to known subagents are called in order, all of them unless the flag goes up |
| OrchestratorOutcomes.QuestionsRunOut | claw-squad/src/orchestrator.ts:488-549 | a Planner that never stops asking is called maxClarifications times, and then the plan counts as ready |
| OrchestratorFinish.FreshRunFinishes | claw-squad/src/orchestrator.ts:487-729 | with a list of n TODOs that stays as it is and good answers to every round a fresh run that passes no cap ends complete exactly when n < maxLoops, else at max_loops, and has done every TODO exactly when n <= maxLoops |
| OrchestratorFinish.ResumedFinishes | claw-squad/src/orchestrator.ts:599-725 | with good answers, whatever the revisions of the plan, a resumed run that passes no cap ends complete with every listed TODO done, or at its last loop |
| OrchestratorModel.ById | claw-squad/src/orchestrator.ts:716-718 | the entry of a Map built from the list: the last TODO with the id, none at a later position, and None only when no TODO has it |
| OrchestratorModel.PlanningSound | claw-squad/src/orchestrator.ts:488-577 | only a ready plan with a non-empty TODO list goes on to the tasks |
| OrchestratorCalls.CallBounds | claw-squad/src/orchestrator.ts:489-725 | every run ends, whatever it is answered, within maxClarifications + 1 + maxLoops Planner calls, maxLoops * maxReviewRounds Coder calls, and no more Reviewer than Coder calls |
| OrchestratorCalls.NothingBeforeThePlan | claw-squad/src/orchestrator.ts:487-596 | no Coder or Reviewer call before there is a plan, and none in a dry run |
| OrchestratorBudget.BudgetHolds | claw-squad/src/orchestrator.ts:231-426 | for every run: after a call that leaves it over a cap at most one more call is made, none if that was a Planner, Coder or Reviewer call, and at most one after the user quits; a run that starts within its caps costs, and uses tokens, no more than the cap and its last two calls; the totals tally exactly the calls that returned |
| OrchestratorBudget.CalledSettles | claw-squad/src/orchestrator.ts:360-426 | what one call, tracked and checked, does to the books |
| OrchestratorBudget.LogMatchesTotals | claw-squad/src/orchestrator.ts:384-397 | the log of a fresh run folds back into its totals for every role, the run and every subagent exactly when no usage append failed |
| OrchestratorTodos.OneCallAfterTheTrip | claw-squad/src/orchestrator.ts:267 | the one call is real: a subagent that goes over the cap only stops the delegations, and the Planner is called once more |
| OrchestratorTrips.TripIsLastIff | claw-squad/src/orchestrator.ts:231-426 | in every fresh run a call that goes over a cap is the last, exactly when the configuration has no subagents, no cap, a negative cap, or neither clarifications nor Coder calls |
| OrchestratorTasks.TaskCompletesSafely | claw-squad/src/orchestrator.ts:829-1246 | a task completes only when its last commit passed the tests and was approved, CI passed on the commit GitHub had of the branch and the user confirmed, as configured and in that order; that approval is the last verdict on record; one merge is asked for, at the very end, and none by a task that does not complete; what CI judged and GitHub merges is the approved commit exactly when that commit was pushed |
| OrchestratorTasks.RoundIsSafe | claw-squad/src/orchestrator.ts:829-1232 | the same for one round, with what a round that goes on leaves to the next |
| OrchestratorTasks.UnpushedApprovalMergesOldCommit | claw-squad/src/orchestrator.ts:1025-1056 | a push that fails is only logged: a run in which the commit that CI judged and GitHub merged is one the Reviewer had turned down |
| OrchestratorTasks.TaskLeavesRecord | claw-squad/src/orchestrator.ts:786-827 | the TODO is marked rolled back exactly when its branch was, and is then abandoned; a merged pull request is recorded only when it was the one asked to merge; iterations stay within maxReviewRounds |
| OrchestratorTodos.MergeKeepsKnown | claw-squad/src/orchestrator.ts:714-719 | the revised list keeps the object, status and iterations of every known id and adds the others as pending; distinct ids stay distinct |
| OrchestratorHistory.TodosMoveStepwise | claw-squad/src/orchestrator.ts:487-729 | over every run, fresh or resumed, and all its milestones - after each phase, each pick, each Coder / Reviewer round, each finished task and each new plan: from one to the next at most one TODO changes, by at most one move pending, in progress, done or abandoned, and added TODOs are pending; between any two, TODOs only move forward and finished ones are frozen; one that was not pending at the start is never touched; at most one is in progress that was not so at the start, and one is only started when there is none |
| OrchestratorHistory.FreshRunStepwise | claw-squad/src/orchestrator.ts:487-729 | in a fresh run the tasks begin with only pending TODOs, at every milestone at most one TODO is in progress, and none when another is started |
| OrchestratorHistory.IterationSteps | claw-squad/src/orchestrator.ts:599-725 | the same for one iteration of phase 3, which touches no listed TODO but its own |
| OrchestratorTodos.TodosMoveForward | claw-squad/src/orchestrator.ts:599-725 | what a run leaves of the TODOs that it began with: each moved forward or not at all, none was touched that was not pending; at most one TODO is left in progress that was not so at the start, and none by a run that ends complete, at max_loops or dry |
| OrchestratorTodos.FreshRunTodos | claw-squad/src/orchestrator.ts:599-725 | at the end of a fresh run at most one TODO is in progress, none after complete or max_loops |
| OrchestratorTodos.ResumeSkipsInterrupted | claw-squad/src/orchestrator.ts:599-604 | a resumed plan is reported complete at once, without a call, exactly when it holds no pending TODO, even if one was interrupted in progress |
| OrchestratorTodos.LoopsFinishTodos | claw-squad/src/orchestrator.ts:599-725 | the loop count grows by exactly the TODOs finished and never passes maxLoops |
| OrchestratorRun.Orchestrator.Track | claw-squad/src/orchestrator.ts:360-420 | usage is added to the totals and appended to the run log, unless the append fails, and the flag is set when a cap is passed |
| OrchestratorRun.Orchestrator.Invoke | claw-squad/src/orchestrator.ts:360-426 | an awaited call, tracked when it returns |
| OrchestratorRun.Orchestrator.DispatchDelegates | claw-squad/src/orchestrator.ts:231-270 | the loop, with its skip of unknown names and its budget check, makes the calls of the delegations that the budget rows are about |
| OrchestratorRun.Orchestrator.RunClarification | claw-squad/src/orchestrator.ts:488-549 | the question loop ends with the state and exit that the theorems on runs take from phase 1 |
| OrchestratorRun.Orchestrator.EnsureTodos | claw-squad/src/orchestrator.ts:551-577 | the same for phase 2 |
| OrchestratorRun.Orchestrator.MergeApproved | claw-squad/src/orchestrator.ts:1125-1225 | CI wait, confirmation and merge refine the landing that the safety rows are about |
| OrchestratorRun.Orchestrator.RunRound | claw-squad/src/orchestrator.ts:829-1232 | one round, call by call, refines the round that RoundIsSafe is about |
| OrchestratorRun.Orchestrator.RunTaskLoop | claw-squad/src/orchestrator.ts:731-1246 | the round loop refines the task that TaskCompletesSafely is about |
| OrchestratorRun.Orchestrator.MergePlan | claw-squad/src/orchestrator.ts:714-719 | the merge through a Map filled in list order keeps the objects that MergeKeepsKnown describes |
| OrchestratorRun.Orchestrator.WorkOn | claw-squad/src/orchestrator.ts:605-713 | one iteration of phase 3 refines the step that the TODO rows are about |
| OrchestratorRun.Orchestrator.Start | claw-squad/src/orchestrator.ts:487-729 | the nested loops on the object end in the state and for the reason that every theorem on runs is about, for every world; the log written by a fresh run folds back into its totals exactly when every append worked |
| Similarity.ComputeDot | claw-squad/src/index/store.ts:243-255 | the accumulating loop computes the product |
| Similarity.ComputeNorm | claw-squad/src/index/store.ts:257-261 | the accumulating loop computes the norm |
| Similarity.DotFromFront | src/claudestruct/index.py:227-239 | the product is the sum of the products of all components |
| Similarity.NormZeroIff | src/claudestruct/index.py:227-239 | the norm is zero exactly for the all-zero vector |
| Similarity.AxisQuery | src/claudestruct/index.py:191-219 | a query along an axis scores every non-zero row by its component there, as a part of its norm |
| Similarity.HitMeans | src/claudestruct/index.py:209-219 | a hit has the path of its row, and its score times the two norms is their product |
| Similarity.CauchySchwarz | src/claudestruct/index.py:227-239 | the inequality, for vectors of every dimension |
| Similarity.ScoreInRange | src/claudestruct/index.py:216-220 | every score is in [-1, 1] |
| Similarity.SelfScore | src/claudestruct/index.py:216-220 | a vector scores 1 against itself |
| Similarity.Query | src/claudestruct/index.py:191-219 | the loop, with its skips and its error, gives the hits that TopK, QueryScale and SelfQuery are about |
| Similarity.TopK | src/claudestruct/index.py:191-219 | a query gives min(k, number of non-zero rows) hits, for a negative k all but the last -k, each a row with its cosine, highest first, and no omitted row scores above a returned one; it fails exactly when a non-zero row has another dimension |
| Similarity.QueryScale | src/claudestruct/index.py:191-219 | scaling the query by a positive constant changes nothing |
| Similarity.SelfQuery | src/claudestruct/index.py:191-219 | a query by the embedding of a row has a first hit, which scores 1, exactly when k is positive or a negative one that does not drop every hit |
| IndexBuild.EmbeddingIndex.Flush | src/claudestruct/indexer.py:82-93 | a flush stores the pending rows and commits them, or leaves everything as it was when the endpoint fails |
| IndexBuild.FlushedRow | src/claudestruct/indexer.py:82-93 | after a flush a path has the hash of the content last flushed for it and the embedding of that content's text, and every other path its old row |
| IndexBuild.EmbeddingIndex.Visit | src/claudestruct/indexer.py:95-110 | one file of the walk: skipped, left waiting, or the last of a batch that is flushed |
| IndexBuild.EmbeddingIndex.Build | src/claudestruct/indexer.py:69-119 | for every walk, repeated paths included: a pass flushes the files it has to embed in batches of 16; a failure at batch j leaves exactly the first 16 j of them flushed, in the index of the Python twin only; a flushed path has hash and text embedding of its file, the others their old rows; the counts are those of the scan |
| IndexBuild.CountsAddUp | src/claudestruct/indexer.py:112-119 | embedded, unchanged and unreadable files add up to those walked |
| IndexBuild.EmbedsStale | src/claudestruct/indexer.py:95-110 | where no path is walked with two hashes a pass embeds exactly the paths of stale files, whatever its batches |
| IndexBuild.PassMatchesFreshBuild | src/claudestruct/indexer.py:69-119 | a successful pass gives every readable walked file its hash and the embedding of its text exactly when no path was walked with two rows and the index was faithful on those files, and leaves all other rows alone |
| IndexBuild.FaithfulEverywhere | src/claudestruct/indexer.py:95-104 | a faithful index is faithful on every tree, the hash telling contents apart |
| IndexBuild.FlushedFaithful | src/claudestruct/indexer.py:82-93 | flushing keeps an index faithful, however far it gets |
| IndexBuild.FreshBuild | claw-squad/src/index/build.ts:107-168 | a fresh build leaves exactly the paths of the readable files, each with hash and text embedding of one of them, of all of them exactly when no path was walked with two rows |
| IndexBuild.SecondPassIdle | src/claudestruct/indexer.py:69-119 | a second pass over the same tree embeds nothing exactly when no path is walked with two hashes |
| IndexBuild.TodoShrinksIff | src/claudestruct/indexer.py:133-184 | wherever a pass can stop exactly the files it did not flush are left, in their order, if and only if no path is walked with two hashes |
| IndexBuild.WatchIndex | src/claudestruct/indexer.py:133-184 | over any walk and any failures, the repeated passes leave the index that the next rows are about |
| IndexBuild.WatchingProgress | src/claudestruct/indexer.py:133-184 | where no path has two hashes, after i passes the index has flushed a first part of what one good pass would embed and exactly the rest is left; how much is left follows from which batches of which passes were answered and from the commit policy |
| IndexBuild.WatchingEnds | src/claudestruct/indexer.py:133-184 | nothing is left in the TypeScript twin exactly when some pass met no failure among the batches it needed, and before that nothing is kept; in the Python twin every pass whose first batch is answered takes a batch of 16 off the rest, or all of it |
| IndexBuild.WatchedFaithful | src/claudestruct/indexer.py:133-184 | over any walk and any failures watching keeps a faithful index faithful |
| IndexStore.ReadRows | claw-squad/src/index/store.ts:78-113 | loadAll reads the rows of the well-formed lines, in order |
| IndexStore.LoadedFromFront | claw-squad/src/index/store.ts:78-113 | line by line, which lines loadAll reads and which it passes over |
| IndexStore.ImportedFromFront | claw-squad/src/index/io.ts:57-108 | line by line, which lines an import reads, passes over and counts |
| IndexStore.PathCodecFaithful | claw-squad/src/index/store.ts:78-113 | the assumption about the JSON codec that the rows below rest on, for the rows that have a text, can be met |
| IndexStore.LoadInvertsRender | claw-squad/src/index/store.ts:78-238 | loadAll inverts what commit writes |
| IndexStore.CommitRoundTrip | claw-squad/src/index/store.ts:218-238 | after a commit the file holds the map in memory |
| IndexStore.CommitOrdered | claw-squad/src/index/store.ts:218-238 | a committed file has one line a row, in the order of the collation |
| IndexStore.CommitCanonicalIff | claw-squad/src/index/store.ts:218-238 | the file depends only on the final map, whatever the history, exactly when the collation separates different paths |
| IndexStore.TiedPathsDiffer | claw-squad/src/index/store.ts:226-230 | two paths that the collation calls equal give two files for one map |
| IndexStore.Index.Upsert | claw-squad/src/index/store.ts:194-197 | Map.set: a known path keeps its place |
| IndexStore.Index.UpsertMany | claw-squad/src/index/store.ts:199-203 | the rows are put in order; dirty if there were any |
| IndexStore.Index.Clear | claw-squad/src/index/store.ts:206-211 | every row is dropped |
| IndexStore.Index.Commit | claw-squad/src/index/store.ts:218-238 | the canonical text is written unless the index is clean, and a clean index agrees with its file |
| IndexStore.Index.ExportJsonl | claw-squad/src/index/io.ts:36-55 | the text of a commit |
| IndexStore.Index.ImportJsonl | claw-squad/src/index/io.ts:57-108 | the last line of a path overrides; rows read and lines skipped add up to the non-blank lines |
| IndexStore.MalformedLinesIgnored | claw-squad/src/index/io.ts:72-103 | malformed lines change nothing |
| IndexStore.ExportThenImport | src/claudestruct/index_io.py:60-145 | an export imported into an empty index gives back the index and the same text again, and into any index it overrides the rows of its paths |
| SlackSocket.RepliesInOrder | claw-squad/src/ui/slack-socket.ts:162-239 | over every interleaving: waiters and buffer are never both non-empty, the texts handed out followed by the buffer are the texts delivered, and requests are served in the order made |
| SlackAnswers.RepliesAnswered | claw-squad/src/ui/slack-socket.ts:162-239 | the reply promises that resolved with a text are exactly those handed one, and the texts handed out, in order, followed by the buffer are the texts delivered |
| SlackSocket.ReplyResolvedOnce | claw-squad/src/ui/slack-socket.ts:162-178 | a reply promise resolves at most once |
| SlackSocket.ClosedReplies | claw-squad/src/ui/slack-socket.ts:198-205 | a shutdown resolves every reply request |
| SlackSocket.ButtonResolvedOnce | claw-squad/src/ui/slack-socket.ts:180-198 | a button promise resolves at most once |
| SlackSocket.ClosedButtons | claw-squad/src/ui/slack-socket.ts:198-210 | after a shutdown only superseded button requests are still open |
| SlackSocket.SupersededStaysOpen | claw-squad/src/ui/slack-socket.ts:188-196 | such histories exist: the first of two requests for one prompt is still open after a shutdown |
| SlackSocket.ShutdownResolvesAllIff | claw-squad/src/ui/slack-socket.ts:198-210 | a shutdown resolves every button request ever made exactly when each superseded one had already resolved |
| SlackSocket.ClicksConserved | claw-squad/src/ui/slack-socket.ts:180-239 | over every history clicks are handed to a request, buffered or lost: the buffer holds exactly the clicks for which nobody waited and after which nothing happened at their prompt, and lost are exactly those for which nobody waited and after which the next thing at their prompt was another click |
| SlackAnswers.ButtonsAnswered | claw-squad/src/ui/slack-socket.ts:180-239 | a button promise that resolved with a value got that of a click at its own prompt, with no other request or click there between the two |
| SlackAnswers.ReplyExpires | claw-squad/src/ui/slack-socket.ts:169-173 | a reply request whose time runs out resolves then, with nothing unless it had its text |
| SlackAnswers.ButtonExpires | claw-squad/src/ui/slack-socket.ts:188-193 | the same for a button request, which never takes a later one out of the map |
| SlackSocket.InteractiveSocket.NextReply | claw-squad/src/ui/slack-socket.ts:162-178 | the fields stay those of the history of operations, now one operation longer, that the rows above are about |
| SlackSocket.InteractiveSocket.NextButton | claw-squad/src/ui/slack-socket.ts:180-198 | the fields stay those of the history of operations, now one operation longer, that the rows above are about |
| SlackSocket.InteractiveSocket.DeliverReply | claw-squad/src/ui/slack-socket.ts:220-228 | the fields stay those of the history of operations, now one operation longer, that the rows above are about |
| SlackSocket.InteractiveSocket.DeliverButton | claw-squad/src/ui/slack-socket.ts:230-239 | the fields stay those of the history of operations, now one operation longer, that the rows above are about |
| SlackSocket.InteractiveSocket.ReplyTimeout | claw-squad/src/ui/slack-socket.ts:169-173 | the fields stay those of the history of operations, now one operation longer, that the rows above are about |
| SlackSocket.InteractiveSocket.ButtonTimeout | claw-squad/src/ui/slack-socket.ts:188-193 | the fields stay those of the history of operations, now one operation longer, that the rows above are about |
| SlackSocket.InteractiveSocket.Shutdown | claw-squad/src/ui/slack-socket.ts:198-216 | both halves are drained |
| LocalCache.FrameUniqueIff | src/claudestruct/local_cache.py:80-92 | the NUL framing of two or more fields is unambiguous for a list of fields exactly when none of them holds a NUL |
| LocalCache.KeyIff | src/claudestruct/local_cache.py:57-92 | two requests share a key exactly when they are the same request, a missing and an empty effort being the same, if one of them does not imitate the framing |
| LocalCache.KeyUniqueIff | src/claudestruct/local_cache.py:57-92 | a request shares its key with no other exactly when neither its model name nor its effort, with the NUL beside it, holds a prompt and a message list between NULs |
| LocalCache.ResponseCache.RunTask | src/claudestruct/client.py:126-241 | a cached answer is given exactly when the policy is on for the provider and the key is known; else the provider is asked with model, prompt, message, effort and limit, and the answer stored where the policy is on and the write works |
| LocalCache.CacheIsTransparent | src/claudestruct/client.py:126-241 | over every sequence of tasks that do not imitate the framing, whatever the policies, failed writes and lost entries, texts and token counts are those without a cache |
| LocalCache.TransparentIff | src/claudestruct/client.py:126-241 | a request is answered right after every history of any requests, and for every provider, exactly when it does not imitate the framing |
| LocalCache.AskedOnce | src/claudestruct/client.py:126-241 | with the cache on and working the provider is called at most once for each distinct request |
| LessonMemory.LessonFile.AppendLesson | claw-squad/src/memory/memory.ts:185-210 | one append, rotation included, refines the step that the next two rows are about, and the archive file stays the rotated chunks, each behind a rule |
| LessonMemory.ArchiveFromFront | claw-squad/src/memory/memory.ts:185-210 | the archive file has the chunks in order, each behind a rule |
| LessonMemory.NothingLost | claw-squad/src/memory/memory.ts:185-210 | rotated chunks followed by the live file are everything appended |
| LessonMemory.LiveBoundIff | claw-squad/src/memory/memory.ts:185-210 | blocks of up to a size keep the live file within 40000 bytes over every history exactly when that size is at most 17142 |

## Left out

- Redis connection handling, key TTLs, blocking timeouts and worker heartbeats: time-based I/O. A Redis error inside an
  operation is a crash of its client at that command.
- Poll intervals and sleeps; `watch_index` without an iteration limit and a worker that is never stopped are covered by
  their finite prefixes.
- What prompts and answers say: parsing of model output, clarification texts, lessons, skills, memory snippets and
  smart context. A Planner answer is its phase, question count, TODOs and delegations.
- File-system errors of snapshots and lessons inside a run, and the hooks' own effects.
- Events of the run log other than usage events: `Totals.Summarized` folds them, `OrchestratorRun` does not write them.
- git, GitHub, CI and test internals: commits of a task are numbered and GitHub merges the last one pushed.
- JSON values that parse but are not objects in a Redis list, which the source would let through or throw on.
- Float rounding, UTF-16 and UTF-8 sizes, universal newlines in the Python import, and directory creation.
- An embedding client that returns a wrong number of vectors: it breaks its contract and both builds raise.
- Totals: the snapshot form, the silent-cache-invalidator warning and the table and diff renderings.
- Cache statistics, `clear` counts and the wall clock of an entry.
- The dispatch of alerts to notifiers, team-budget and burn-rate alerts and the scheduler thread: they rest on a billing
  module that is not part of this model.
- `appendPattern`, which truncates instead of rotating, and the relevance ranking of lessons.
- Secrets, tracing, voice, redaction, sandboxing, command-line and web interfaces, editor plugins and packaging.
