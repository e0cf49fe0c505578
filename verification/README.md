# A verified model of the agent fleet

This project models four parts of the fleet and proves what they promise:

1. **The sprint scheduler**: `SprintManager` with its worker registry, pressure
   tracker and store, and the active set of the orchestrator. Ticks, spawns, handle
   completions, cancels, resumes and restarts interleave at every `await`.
2. **The pipeline runner**: architect, plan-reviewer, editor, verify/doctor and
   reviewer with their three retry loops, and the bridge that turns a finished run
   into an exit code, a PR URL and a cost.
3. **Three transformations**: the JSON extractor of the diff-reviewer, the issue-label
   parser and printer, the drift comparator with its pull-request planner.
4. **Four small protocols**: the bandit's circuit breaker, the approval gate, the
   mkdir lock on `closed.json`, and the step that reads a plan review.

## How to read it

The scheduler is stated twice. `SprintManager.dfy` has it in the program's own form:
classes whose methods change a store, a registry, a tracker and the manager's maps.
`Scheduler.dfy` has the same pieces as functions on one state. Every method is proved
to do to the object's `View()` what the function does to the state, so each lemma about
the functions speaks of the methods. A piece is what the program does from one `await`
to the next; a suspended call is an entry of `acts`.

* **Level A** (`Interleaving.dfy`): a run is any sequence of pieces. Slot conservation
  (`SlotConservation.dfy`), the transition graph and running time
  (`SprintHistory.dfy`), the money and rate-reset records (`RuntimeRecords.dfy`) and the
  active set (`Orchestrator.dfy`) hold at this level. `SingleStart.dfy` says exactly when
  single dispatch does; `OverlappingTicks.dfy` is a run in which it does not.
  `TaskStamps.dfy`, `FailedBriefs.dfy` and `BudgetPauses.dfy` are at this level too.
* **Level B** (`SprintTicks.dfy`): a tick runs to completion before the next event.
  Every such run is proved to be a Level A run, so what holds there holds here. Single
  dispatch, completion, work conservation, rate-cap sleep, the budget guard and the
  measure of remaining work are proved at this level
  (`SprintInvariants.dfy`, `SprintEvents.dfy`, `SprintProgress.dfy`, `SprintSleep.dfy`,
  `SprintCompletion.dfy`, `SprintBudget.dfy`, `SprintMeasure.dfy`, `SprintCapacity.dfy`).
  `SprintNeeds.dfy`, `SprintVerdicts.dfy` and `SprintCancels.dfy` tell which tasks a tick
  may hand out, how a settled handle is recorded and which handles a cancel stops;
  `SprintSteps.dfy` tells what single steps decide.
  `SprintLeak.dfy` and `DoubleRelease.dfy` are concrete runs.

The runner (`PipelineRunner.dfy`) is a method with the three loops, proved equal to a
function of an arbitrary oracle that answers for the workers, the verifier, git and the
PR opener. `PipelineSafety.dfy`, `PipelineBounds.dfy`, `PipelineVerdicts.dfy` and
`PipelineLogs.dfy` read only the log of such a run: what stands behind a pull request, how
often each worker is asked, why the run ended as it did, and that the log is true.

Histories (`slots`, `moves`, `work`, logs) record what happened. The program reads of
them only the newest move, as the event it handles. Reference notions such as
`RunningTime`, `Billed`, `FateOf` or `GreenVersion` are functions of a history alone.

## What turned out not to hold as one might expect

* Two overlapping ticks of one sprint can start a task twice; `OverlappingTicks` has such
  a run from the empty database. A run, however its ticks overlap, starts no task twice if
  and only if no dispatch that gets a slot carries a brief in its record while its task is
  started already (`SingleStart.SingleDispatchIff`): the path that loads the brief looks
  at the task again, the other one does not. With whole ticks single dispatch always
  holds (`SprintEvents.SingleDispatch`).
* A brief that cannot be loaded writes back the record that its tick had read, and drops
  whatever another tick stored meanwhile; a loaded one looks at the store again. In
  `FailedBriefs.FailedWhileRunning` a task ends up stored as failed and never attempted
  while it runs. Nothing but the state is lost exactly when the record is current
  (`FailedBriefs.LosesNothingIff`).
* A throw after a settled handle has released its slot, however much later, releases it a
  second time; the counter stays right exactly when no other call holds a slot of that
  worker by then (`SlotConservation.LateThrow`). `DoubleRelease.ThrowFreesAnother` is a
  run after which another one does.
* A registry may list a worker id twice. The pick goes by any entry, `acquire` by the
  first. A tick then can pick a worker it cannot acquire, and leaves a task pending while
  a worker counts as free. Over all runs this never happens exactly when of the entries
  with one id the first has the largest limit (`SprintCapacity.WorkConservedIff`); for any
  other registry, a sprint with more tasks than slots is such a run.
* An operator resume from a rate pause leaves a wake-up time behind; when it comes due, a
  tick lifts a later budget pause. `SprintLeak.BudgetPauseCanLeak` is such a run,
  `SprintBudget.TickLiftsIff` says exactly when it happens.
* With a plan-veto cap of 0 the runner's "no plan" exit is reachable
  (`PipelineBounds.NoPlanExit`); with a cap of at least 1 it is not.
* `compareDrift` is described as giving the same output for the same input. Its output
  does not depend on the order of the observations if and only if nothing is left to that
  order (`DriftOrder.CompareInvariantIff`): no symbol mixes missing signatures, a real one
  that spells the internal key for "missing", and a third one; no two signatures of a
  symbol are found in equally many repositories and collate alike; no two symbols give
  candidates that collate alike. `localeCompare` returns 0 on canonically equivalent
  strings, so the second case is real: with the two spellings of the letter Å as
  signatures, whichever repository comes second is the outlier
  (`DriftOrder.TwoSpellings`). The shared key for "missing" also puts single repositories on
  the wrong side of a skew; `DriftMajority.OutliersExactly` says which.
* The plan-reviewer's slice runs to the last closing brace: a well-formed approval
  followed by prose with a closing brace counts as malformed
  (`PlanReviewer.PrintedReview`).
* `verify:none` with `autonomy:review` is read back as the default verification
  (`Labels.ParsePrint`).
* The lock gives mutual exclusion exactly as long as no lock directory outlives the stale
  age (`ClosedJsonLock.MutualExclusion`, `OverstayAdmitsTwo`, `LeftoverAdmitsTwo`);
  `OverstayRun` and `LeftoverRun` are runs in which one does and two get inside.
* The lock's timeout is not a bound on waiting: a process that removes a stale directory
  tries again without looking at its deadline, for as long as it finds one stale each time
  (`ClosedJsonLock.TimeoutOverrun`). Each such removal but the first takes a stale age
  (`ClosedJsonLock.WaiterTries`), and in a run without stale directories there is none
  (`ClosedJsonLock.TriesBounded`).

## Model

| member | source | states |
|---|---|---|
| SlotConservation.SlotsAlwaysConserved | src/orchestrator/sprint.ts:375-479 | After every interleaving each worker's counter is the number of calls that hold one of its slots, is never above `maxConcurrent`, and every call that took a slot still waits, gave it back exactly once, or died with its process |
| SlotConservation.ApplyConserves | src/orchestrator/workers.ts:134-160 | Every single piece keeps slot conservation, on every path of dispatch and handle settlement |
| SlotConservation.LateThrow | src/orchestrator/sprint.ts:578-682 | A throw at any later moment after the first release, be it a rejected budget callback, leaves the counter right if and only if nobody else holds a slot of that worker by then |
| SlotConservation.ImmediateThrow | src/orchestrator/sprint.ts:578-682 | The same for a throw right after the release, seen from the state before it |
| DoubleRelease.ThrowFreesAnother | src/orchestrator/sprint.ts:578-682 | A run of three events after which the program awaits the budget callback while another task runs on the worker; a throw then leaves the counter at 0 with that task still holding its slot |
| SingleStart.SingleDispatchIff | src/orchestrator/sprint.ts:280-409 | A run of any interleaving never starts a task twice if and only if no dispatch that gets a slot carries a brief while its task is started already |
| SingleStart.SingleThroughoutIff | src/orchestrator/sprint.ts:280-409 | The same without any assumption on the run, counting also briefs that arrive for a started task still pending in the store |
| SingleStart.StepSingleIff | src/orchestrator/sprint.ts:375-409 | From any state, a piece keeps single dispatch if and only if it is not one of those two starts of a started task |
| SingleStart.AlwaysMarked | src/orchestrator/sprint.ts:410-431 | Over every run a started task is not pending in the store, which is why looking again helps |
| SingleStart.CurrentRecordsSuffice | src/orchestrator/sprint.ts:397-409 | Hence single dispatch holds when each dispatch carries a current record or has its brief still to load |
| SingleStart.DispatchStartsIff | src/orchestrator/sprint.ts:375-380 | A dispatch starts its task at once if and only if it gets a slot and its record has a brief |
| SingleStart.BriefStartsIff | src/orchestrator/sprint.ts:400-409 | A loaded brief starts its task if and only if the store still has the task pending |
| OverlappingTicks.OverlapStartsTwice | src/orchestrator/sprint.ts:280-309 | A run of seven pieces from the empty database at whose end two calls have started one task |
| OverlappingTicks.BothReadPending | src/orchestrator/sprint.ts:280-282 | In it both ticks read that task as pending from the store |
| OverlappingTicks.EachPicked | src/orchestrator/sprint.ts:366-373 | In it each dispatch goes to the worker a tick picks at that moment |
| FailedBriefs.FailureWritesBack | src/orchestrator/sprint.ts:379-396 | When a brief cannot be loaded the task becomes the record that the tick had read, as failed; other tasks, handles and running entries stay |
| FailedBriefs.LosesNothingIff | src/orchestrator/sprint.ts:379-396 | This changes nothing but the state if and only if the record is current but for its state |
| FailedBriefs.FailedWhileRunning | src/orchestrator/sprint.ts:379-409 | A run of eight pieces from the empty database, with two ticks of one sprint, at whose end a task is stored as failed and never attempted while its handle is awaited |
| SprintHistory.AlwaysTold | src/orchestrator/sprint.ts:225-254 | After every interleaving the stored state of a sprint is where its moves lead along the transition table, and every `durationMs` reported on completion is the time a stopwatch over the moves shows for `running`, pauses excluded |
| SprintHistory.ApplyTold | src/orchestrator/sprint.ts:524-530 | Every piece writes the elapsed time the stopwatch shows into the next state |
| SprintHistory.TerminalAbsorbs | src/orchestrator/sprint.ts:98-108 | A terminal sprint record is never written again, whatever interleaving follows |
| SprintHistory.CancelEnds | src/orchestrator/sprint.ts:741-753 | After the wait a cancelled sprint is terminal, also when the final transition throws, which it does exactly when somebody else ended the sprint during the wait |
| SprintHistory.CancelBegins | src/orchestrator/sprint.ts:736-740 | Before it, a cancel throws exactly on an unknown sprint and returns at once exactly on a terminal one |
| SprintCancels.ToldAreItsOwn | src/orchestrator/sprint.ts:741-746 | Over every run: the tasks that a cancel tells to stop are exactly those on the list of its own sprint whose handles are awaited; they are in progress, and none is of another sprint |
| SprintHistory.AlwaysLawful | src/orchestrator/sprint.ts:98-108 | After every interleaving each move of a sprint left a state that was not terminal and wrote its own moment into the new one; the sprint came to run only from the queue or a pause, and was paused or completed only while it ran |
| TaskStamps.ChangesAreStamped | src/orchestrator/sprint.ts:375-479 | In every interleaving a piece that changes the state of a stored task writes its moment and, while the task is under way, the worker whose slot it has; only the resume on boot takes a task back to pending, and only one under way |
| BudgetPauses.AlwaysEarned | src/orchestrator/sprint.ts:493-530 | After every interleaving each budget pause names the configured limit and a spend that reaches it, and some worker is billed by the call |
| BudgetPauses.NeverForTheBudget | src/orchestrator/sprint.ts:495-515 | Without a limit, or without a worker that is billed by the call, no sprint is ever paused for its budget |
| RuntimeRecords.AlwaysRecorded | src/orchestrator/sprint.ts:481-491 | After every interleaving and restart, in-memory spend and reset equal the row; the spend is the sum of all reported costs of returned runs; the reset is the last wake-up time no tick has used; a row exists exactly if a cost was reported or a rate pause happened |
| RuntimeRecords.RestartRecorded | src/orchestrator/sprint.ts:162-170 | Rehydration after a crash reproduces both in-memory counters from the row |
| RuntimeRecords.RestartAgrees | src/orchestrator/sprint.ts:165-166 | Rehydration loses a spend exactly when it is negative |
| RuntimeRecords.UpsertsIndependent | src/orchestrator/store.ts:479-510 | The two upserts commute and neither touches the other's column, also when they create the row |
| Orchestrator.ActiveExact | src/orchestrator/index.ts:198-252 | Within one process, after every interleaving, the active set is exactly the sprints submitted or resumed in it that are not terminal |
| Orchestrator.ApplyInStep | src/orchestrator/index.ts:242-252 | The event handler removes a sprint exactly when the piece that ran ended it |
| Orchestrator.Orchestrator.SubmitSprint | src/orchestrator/index.ts:198-202 | Submitting starts the sprint and changes the active set as the run semantics says |
| Orchestrator.Orchestrator.BeginCancel | src/orchestrator/index.ts:204-208 | Cancelling up to its wait: a terminal sprint leaves the set at once, any other stays |
| Orchestrator.Orchestrator.FinishCancel | src/orchestrator/index.ts:204-208 | Cancelling after it, with its event: the sprint leaves the set, or the call throws and the set is as the event handler left it |
| Orchestrator.Orchestrator.ResumeSprint | src/orchestrator/index.ts:214-218 | Resuming puts the sprint into the active set unless it throws |
| Orchestrator.Orchestrator.EndTick | src/orchestrator/index.ts:242-252 | The end of a tick takes the sprint out of the set exactly if it ended it |
| Orchestrator.Orchestrator.HandleEvent | src/orchestrator/index.ts:242-252 | Of all events only a move to completed, cancelled or failed removes a sprint, and only its own |
| SprintTicks.RunIsInterleaving | src/orchestrator/sprint.ts:256-356 | Every run of whole ticks is one particular interleaving |
| SprintTicks.InterleavingFacts | src/orchestrator/sprint.ts:256-356 | Slot conservation, running time and money records therefore hold after every run of whole ticks |
| SprintInvariants.DispatchCases | src/orchestrator/sprint.ts:375-479 | A whole dispatch of a pending task launches it, with one new live handle and running entry, if and only if its brief loads and its spawn succeeds; otherwise the task fails and no handle or running entry is added |
| SprintInvariants.DispatchCounts | src/orchestrator/workers.ts:150-160 | It leaves one more slot taken in the first case, and every counter as it was in the second |
| SprintEvents.AlwaysInv | src/orchestrator/sprint.ts:280-314 | After every run each live handle has a running entry and each running entry a live handle, both are of a task in progress, each task is on the list of its own sprint, no task is left assigned, and what ended, sleeping and queued states say about tasks is true |
| SprintEvents.HandlesMatch | src/orchestrator/sprint.ts:440-478 | Over every run live handles and running entries match one to one, and each stands for a task in progress |
| SprintEvents.InHandUntilRestart | src/orchestrator/sprint.ts:755-784 | If each task in progress has its handle, it keeps having one until the next restart |
| SprintEvents.InHandWithoutRestart | src/orchestrator/sprint.ts:440-478 | So without a restart handles and tasks in progress match one to one too |
| SprintEvents.SingleDispatch | src/orchestrator/sprint.ts:284-314 | The recorded attempts of a task are its `task.assigned` events, at most one more than its resets after restarts, and at most one live handle waits for it |
| SprintEvents.TickNeverThrows | src/orchestrator/sprint.ts:225-233 | Over every run no tick throws an invalid transition, when it resumes, starts or concludes its sprint |
| SprintEvents.TickKeeps | src/orchestrator/sprint.ts:256-356 | A tick keeps the invariant from any state that has it |
| SprintEvents.HandleKeeps | src/orchestrator/sprint.ts:578-682 | So does a settled handle with its cost booking and budget check |
| SprintEvents.BootKeeps | src/orchestrator/sprint.ts:755-784 | So does `resumeAbandoned` over any list of sprints |
| SprintEvents.EndsWithItsTasks | src/orchestrator/sprint.ts:339-355 | A sprint that was not cancelled ends only when all its tasks have settled, as completed exactly when all are done |
| SprintNeeds.TickMeetsNeeds | src/orchestrator/sprint.ts:284-309 | Over every run: a tick that gets to dispatching does not assign a pending task that requires something the process does not offer, and fails it unless no worker is left to pick; a task whose needs are all offered is failed only for its brief or its spawn |
| SprintNeeds.NeverAssigned | src/orchestrator/sprint.ts:286-305 | Over every run a task that requires something not offered has never been assigned and is pending or failed |
| SprintNeeds.TickDeals | src/orchestrator/sprint.ts:284-309 | The same for one tick from any state that has the invariant |
| SprintVerdicts.HandleRecords | src/orchestrator/sprint.ts:578-652 | A settled handle makes its task done exactly if the run opened its PR or found nothing to do, cancelled exactly if the run was cancelled, failed exactly if it was rejected, threw or ended otherwise; the PR is the run's, and no other task changes |
| SprintVerdicts.VerdictsRecorded | src/orchestrator/sprint.ts:589-652 | Over every run a task is done or cancelled only by a run that returned, and while that is its newest event its state is what that run's status says |
| SprintVerdicts.CostIs | src/orchestrator/pipeline-bridge.ts:263-277 | A handle brings a cost exactly if its run returned and an attempt reported one, and then their sum |
| SprintSteps.TailDecides | src/orchestrator/sprint.ts:316-364 | From any state, the end of a tick completes, fails or pauses a running sprint exactly in the cases told on its tasks, its entries and the pressures, and otherwise leaves it alone |
| SprintSteps.HandleClears | src/orchestrator/sprint.ts:578-682 | A settled handle is gone afterwards, with its running entry and no other, whether its task is still stored or not |
| SprintSteps.HandlePausesIff | src/orchestrator/sprint.ts:493-539 | A settled handle books its cost on the task's sprint and pauses it exactly if the run resolved, the new total reaches the limit and a worker is billed by the call |
| SprintSteps.ResumeIff | src/orchestrator/sprint.ts:715-734 | A resume succeeds exactly on a known sprint that runs or is paused, and changes nothing if it ran |
| SprintSteps.SubmitRecords | src/orchestrator/sprint.ts:173-223 | A submission stores every task with its own brief and needs, pending and not attempted, and changes nothing that was there |
| SprintSteps.DispatchStoresBrief | src/orchestrator/sprint.ts:375-431 | A dispatch stores the record's own brief, or the loaded one if it had none |
| SprintSteps.BootResets | src/orchestrator/sprint.ts:755-784 | `resumeAbandoned` puts exactly the tasks under way of running sprints without handles back to pending |
| SprintProgress.NoTickLeavesWork | src/orchestrator/sprint.ts:284-314 | Work conservation over every run: after a tick that leaves its sprint running, no task is pending or no worker has both a free slot and pressure below the threshold, or the pick cannot be acquired; the last case is out when of the entries with one id the first has the largest limit |
| SprintProgress.WorkConserved | src/orchestrator/sprint.ts:366-373 | The same for one tick from any state that has the invariant |
| SprintProgress.NoTickLeavesSettled | src/orchestrator/sprint.ts:316-355 | A tick never leaves a sprint running whose tasks have all settled |
| SprintProgress.FirstDueServed | src/orchestrator/sprint.ts:284-309 | When a worker is free and the pick can be acquired, a tick hands the first dispatchable task in line to the worker it picks |
| SprintCapacity.WorkConservedIff | src/orchestrator/workers.ts:130-154 | For any registry: over every run each tick that leaves its sprint running leaves no pending task while a worker is free, if and only if of the entries with one id the first has the largest limit |
| SprintCapacity.NeverStuckIff | src/orchestrator/workers.ts:130-154 | In the same registries, and in no others, no run makes a pick that cannot be acquired |
| SprintCapacity.WorkIsLeft | src/orchestrator/sprint.ts:284-314 | In any other registry, submitting one task more than there are slots and ticking once with every spawn succeeding leaves a task pending and a worker free |
| SprintProgress.DistinctFirstIsLargest | src/orchestrator/workers.ts:130-132 | Registries without repeated ids are among them |
| SprintProgress.StuckTickServesNobody | src/orchestrator/sprint.ts:375-376 | A tick whose pick cannot be acquired hands out none of the tasks that are due |
| SprintProgress.PickNone | src/orchestrator/sprint.ts:366-373 | No worker is picked exactly when each lacks a free slot or is at or above the block threshold |
| SprintProgress.PickFirst | src/orchestrator/sprint.ts:366-373 | The pick is the first worker in the order of the registry that has a free slot and pressure below the threshold |
| SprintProgress.RestartPicks | src/orchestrator/sprint.ts:144-170 | A restart forgets slots and rate limits: whatever was recorded before, the first worker that takes any task is picked next |
| SprintMeasure.TickLoad | src/orchestrator/sprint.ts:284-314 | The work left in a sprint never rises during its tick, and falls if the tick touched any task |
| SprintMeasure.SettleLoad | src/orchestrator/sprint.ts:578-653 | A settled handle lowers the work left in its sprint by one |
| SprintMeasure.WorkBounded | src/orchestrator/sprint.ts:284-314 | Over every run the dispatches and returns of a sprint and the work left in it add up to at most two for each task and two more for each reset |
| SprintMeasure.TwoStepsEach | src/orchestrator/sprint.ts:284-314 | Hence without `resumeAbandoned` a sprint has at most twice as many dispatches and returns as tasks |
| SprintMeasure.AlwaysReturns | src/orchestrator/sprint.ts:578-653 | Over every run each return of a task answers one of its assignments |
| SprintSleep.SleepExact | src/orchestrator/pressure.ts:30-52 | With all workers blocked and no new headers, they are all blocked at a later time exactly if it is before the wake-up time |
| SprintSleep.PausesWhenBlocked | src/orchestrator/sprint.ts:541-576 | A running sprint is rate-paused exactly when there are workers and all are blocked |
| SprintSleep.SleepsOn | src/orchestrator/sprint.ts:261-274 | No tick before the wake-up time resumes the sprint, nor does any sequence of handles, headers, other sprints' ticks or restarts |
| SprintSleep.WakesUp | src/orchestrator/sprint.ts:261-274 | The first tick at or after it resumes the sprint and clears the reset in memory and on disk |
| SprintSleep.SleepsExactly | src/orchestrator/sprint.ts:541-576 | Over a run: after a tick that rate-paused the sprint until R, and any events but headers, a restart, an operator resume or cancel of the sprint or a late tick of it, the sprint is still paused until R and all workers are blocked at a later time exactly before R |
| SprintSleep.WakesExactly | src/orchestrator/sprint.ts:261-314 | At the end of such a run a tick before R does nothing; one at or after R resumes the sprint, finds some worker open, and hands the first dispatchable task to a worker if one that has opened has a free slot and the pick can be acquired |
| SprintSleep.WakeDispatches | src/orchestrator/sprint.ts:359-363 | The same hand-out from any state that has the invariant |
| SprintCompletion.CompletionSound | src/orchestrator/sprint.ts:316-355 | In a completed sprint each task's newest run opened its PR or found the work done, `prs` is what those runs reported in task order, and no handle of the sprint is live; if the handles stood for pipeline runs, each of those opened its PR safely, or its architect or first editor found that nothing was to be done |
| SprintCompletion.CompletionIsFinal | src/orchestrator/sprint.ts:256-259 | Whatever follows, the record of a completed sprint and the records of its tasks stay as they are |
| SprintCompletion.DoFinal | src/orchestrator/sprint.ts:284-285 | A settled task is never written again by any event |
| SprintCompletion.EveryListedPrIsSafe | src/orchestrator/pipeline-bridge.ts:228-260 | Every PR a completed sprint lists was opened as the last act of a pipeline run on the version that was verified and approved |
| SprintBudget.BudgetGuard | src/orchestrator/sprint.ts:493-539 | A running sprint at or above its limit has been resumed by the operator since its last budget pause, or by a tick, and the latter only if the operator once resumed it from a rate pause |
| SprintBudget.TickLiftsIff | src/orchestrator/sprint.ts:261-274 | A tick lifts a budget pause exactly when an unused wake-up time of some rate pause has come |
| SprintBudget.TickRespectsBudget | src/orchestrator/sprint.ts:261-274 | Without such an operator resume a tick does nothing at all to a sprint on a budget pause |
| SprintLeak.BudgetPauseCanLeak | src/orchestrator/sprint.ts:261-274 | A concrete run in which a tick lifts a budget pause |
| Scheduler.ComputePressure | src/orchestrator/pressure.ts:59-69 | Pressure is between 0 and 1, and blocks exactly when the limit is not positive or at most 15% of the tokens are left |
| SprintSteps.HeadersBlock | src/orchestrator/pressure.ts:17-57 | Recorded headers block their worker exactly until the reset they name, and exactly if at most 15% of the tokens are left; they say nothing of other workers |
| Scheduler.ById | src/orchestrator/workers.ts:130-132 | Finds a worker with the id, or none exists |
| Scheduler.AvailableIff | src/orchestrator/workers.ts:144-148 | An id is available exactly if a configured worker with that id has a free slot |
| Scheduler.FirstDispatchable | src/orchestrator/sprint.ts:366-373 | The pick is available and below the threshold, or every available worker is at or above it |
| Scheduler.MinOf | src/orchestrator/sprint.ts:548-554 | The wake-up time is one of the future resets and none is earlier |
| Scheduler.FutureSlots | src/orchestrator/sprint.ts:548-552 | Exactly the next slots that lie strictly ahead |
| SprintManager.SprintManager.constructor | src/orchestrator/sprint.ts:148-171 | A new manager over the same store is the old state after a restart |
| SprintManager.Rehydrate | src/orchestrator/sprint.ts:162-170 | The loop over the rows rebuilds both counter maps, skipping zero spends and null resets |
| SprintManager.SprintManager.StartSprint | src/orchestrator/sprint.ts:173-223 | The loop creates every task pending and the sprint queued |
| SprintManager.SprintManager.Transition | src/orchestrator/sprint.ts:225-254 | Writes the state and the event, or changes nothing and throws |
| SprintManager.SprintManager.TickHead | src/orchestrator/sprint.ts:256-278 | Which states a tick starts, resumes or leaves alone |
| SprintManager.SprintManager.DispatchPending | src/orchestrator/sprint.ts:280-314 | The dispatch loop over the snapshot of the tasks does what the run semantics says |
| SprintManager.SprintManager.TickTail | src/orchestrator/sprint.ts:316-364 | How a tick concludes the sprint, pauses it for the rate cap, or leaves it |
| SprintManager.SprintManager.Conclude | src/orchestrator/sprint.ts:339-355 | Failed if some task is not done, else completed with the PRs in task order |
| SprintManager.SprintManager.CollectPrs | src/orchestrator/sprint.ts:349-351 | The loop collects the non-empty PR URLs of completed tasks in order |
| SprintManager.SprintManager.Tick | src/orchestrator/sprint.ts:256-364 | A tick that runs to completion is the tick of the run semantics |
| SprintManager.SprintManager.PickWorker | src/orchestrator/sprint.ts:366-373 | The loop returns the first available worker below the threshold |
| SprintManager.SprintManager.BeginDispatch | src/orchestrator/sprint.ts:375-382 | Takes a slot or does nothing; goes on to the spawn if there is a brief |
| SprintManager.SprintManager.BriefLoaded | src/orchestrator/sprint.ts:380-409 | Failed load and stale task give the slot back; otherwise the refreshed task is assigned |
| SprintManager.SprintManager.BeginSpawn | src/orchestrator/sprint.ts:410-431 | Books one more attempt and assigns the task |
| SprintManager.SprintManager.Spawned | src/orchestrator/sprint.ts:440-478 | The task runs, or fails and gives its slot back |
| SprintManager.SprintManager.Dispatch | src/orchestrator/sprint.ts:375-479 | The whole of a dispatch when nothing interleaves |
| SprintManager.SprintManager.AccumulateCost | src/orchestrator/sprint.ts:481-491 | Adds a reported cost to memory and row; an unreported one changes neither; returns the total |
| SprintManager.SprintManager.CheckBudget | src/orchestrator/sprint.ts:493-539 | Pauses exactly a running sprint at or above the limit when an API worker exists |
| SprintManager.SprintManager.CheckRateLimit | src/orchestrator/sprint.ts:541-576 | Pauses until the earliest future reset, remembered in memory and row |
| SprintManager.SprintManager.HandleSettled | src/orchestrator/sprint.ts:578-682 | Releases the slot once, books the cost, records the verdict by exit code, then checks the budget |
| SprintManager.SprintManager.ResumeSprint | src/orchestrator/sprint.ts:715-734 | Idempotent on running, throws unless paused, carries the elapsed time over |
| SprintManager.SprintManager.BeginCancel | src/orchestrator/sprint.ts:736-747 | Throws on an unknown sprint, returns a terminal one, else the loop tells exactly the handles of the sprint to stop |
| SprintManager.SprintManager.FinishCancel | src/orchestrator/sprint.ts:748-753 | The final transition, with its throw on a sprint that ended meanwhile |
| SprintManager.SprintManager.ResumeAbandoned | src/orchestrator/sprint.ts:755-784 | The loop resets exactly the running sprints without live handles |
| SprintManager.SprintManager.ResetTasks | src/orchestrator/sprint.ts:764-774 | Tasks under way become pending, others stay |
| SprintManager.WorkerRegistry.AvailableWorkers | src/orchestrator/workers.ts:144-148 | The workers with a free slot, in order |
| SprintManager.WorkerRegistry.Acquire | src/orchestrator/workers.ts:150-154 | Succeeds exactly if the worker is known and has room, and then takes one slot |
| SprintManager.WorkerRegistry.Release | src/orchestrator/workers.ts:156-160 | Gives one slot back, never below zero |
| SprintManager.PressureTracker.RecordHeaders | src/orchestrator/pressure.ts:17-28 | Replaces the worker's snapshot with the computed pressure |
| SprintManager.StateStore.SaveSprintSpend | src/orchestrator/store.ts:479-490 | Upsert of the spend column |
| SprintManager.StateStore.SaveSprintRateReset | src/orchestrator/store.ts:496-510 | Upsert of the reset column |
| PipelineRunner.Run | src/pipeline/runner.ts:51-461 | The program with its three loops does exactly what the run semantics says, for every oracle |
| PipelineRunner.PlanOnce | src/pipeline/runner.ts:82-210 | One architect and plan-review iteration with all its exits |
| PipelineRunner.VerifyOnce | src/pipeline/runner.ts:268-321 | One verify and doctor iteration with all its exits |
| PipelineRunner.ReviewOnce | src/pipeline/runner.ts:330-397 | One review and fix iteration with all its exits |
| PipelineRunner.EditVerifyReview | src/pipeline/runner.ts:211-421 | The initial edit followed by the verify loop and the review loop |
| PipelineRunner.Open | src/pipeline/runner.ts:423-459 | Abort and verify checks before the pull request is opened |
| PipelineSafety.PrSafety | src/pipeline/runner.ts:423-459 | When `pr.open` is called the current worktree version is the one last verified green and the one the reviewer approved, the approved diff and plan are the current ones, and the plan was gated and plan-reviewed or skipped; it is called exactly once for `pr_opened` and never otherwise; every veto reason was fed back, and every doctor and reviewer run was shown the current plan and diff |
| PipelineVerdicts.EveryEndingRead | src/pipeline/runner.ts:51-461 | For every oracle: each status is returned if and only if the log ends in what stands behind it, and the failure reason is the one the log shows |
| PipelineVerdicts.AlreadyResolvedIff | src/pipeline/runner.ts:135-257 | A run returns `already_resolved` exactly if the architect signalled it, or the first editor left no diff and said that no changes were needed |
| PipelineLogs.EveryLogTrue | src/pipeline/runner.ts:82-459 | Each line of a run's log is what the collaborator answered then, the plan-reviewer judges the architect's newest plan with that run's cost and before any edit if and only if there is one, nobody is asked where a raised abort signal stops the run, and exactly the notices that are owed are sent, each right after what calls for it |
| PipelineLogs.TokensReported | src/pipeline/runner.ts:450-459 | The total of a result is the sum of the tokens that the runs in its log reported, and missing if that is zero or the run waits for answers |
| PipelineBounds.RunBounded | src/pipeline/runner.ts:82-421 | Retry bounds for every worker, the editor count of a `pr_opened` result, what `blocked_by_reviewer` says about rejections and its event, and that `attempts` lists every finished worker run once and in order |
| PipelineBounds.NoPlanExit | src/pipeline/runner.ts:211-216 | The exit without a plan is reached exactly when the veto cap is 0 and the run gets there |
| PipelineBounds.BoundsAreTight | src/pipeline/runner.ts:268-421 | Some run attains all the bounds at once |
| PlanReviewer.ParsePlanReview | src/pipeline/plan-reviewer.ts:405-477 | Slices and decodes the text; approves only on an explicit approve, and every veto carries a reason |
| PlanReviewer.PrintedReview | src/pipeline/plan-reviewer.ts:405-477 | A review printed after prose without an opening brace is read as it was meant exactly when no closing brace follows, and counts as malformed otherwise |
| PlanReviewer.VetoBack | src/pipeline/plan-reviewer.ts:420-451 | Round trip: a veto with its reasons in the reviewer's format is read as that veto |
| PlanReviewer.ReasonIff | src/pipeline/plan-reviewer.ts:429-446 | An entry is a reason exactly if its kind is a known word and its message and suggested revision are texts |
| PlanReviewer.SkipReasons | src/pipeline/plan-reviewer.ts:209-300 | Which of the skip reasons is given, and what the attempt of a skipped or counted review books |
| PlanReviewer.RunPlanReviewer | src/pipeline/plan-reviewer.ts:185-300 | A review is skipped exactly on worker error, rate limit or cost cap; a veto comes only from a successful worker |
| PipelineBridge.SumAttemptCost | src/orchestrator/pipeline-bridge.ts:263-277 | Sum of the reported costs, kept apart from "nobody reported one" |
| PipelineBridge.ExitZero | src/orchestrator/pipeline-bridge.ts:279-293 | Exit code 0, and no error, exactly for runs that opened their PR or found nothing to do |
| PipelineBridge.ExitCodes | src/orchestrator/pipeline-bridge.ts:279-293 | The exit code of every other ending |
| PipelineBridge.CostIff | src/orchestrator/pipeline-bridge.ts:263-277 | A cost is handed on exactly if some attempt reported one |
| PipelineBridge.ReportedCostOne | src/orchestrator/pipeline-bridge.ts:268-276 | One attempt costs what it reported, or nothing |
| PipelineBridge.ReportedCostAppend | src/orchestrator/pipeline-bridge.ts:268-276 | Costs add up over consecutive attempts |
| PipelineBridge.PrMeansSafe | src/orchestrator/pipeline-bridge.ts:228-260 | A PR URL handed to the manager belongs to a run that exited 0 and whose last act was to open that pull request safely |
| JsonExtractor.ExtractJsonObject | src/pipeline/diff-reviewer.ts:251-276 | The scanning loop computes the extraction |
| JsonExtractor.FindClosing | src/pipeline/diff-reviewer.ts:265-274 | Its loop finds the position after the closing brace, or none |
| JsonExtractor.ExtractPrint | src/pipeline/diff-reviewer.ts:251-276 | Round trip: any JSON object, with any nesting, white space and escapes, is found between prose without an opening brace and any prose at all |
| JsonExtractor.ExtractFirstBalanced | src/pipeline/diff-reviewer.ts:251-276 | What is found starts at the first opening brace and ends where braces outside strings first balance; nothing is found exactly when they never do |
| JsonExtractor.ExtractIdempotent | src/pipeline/diff-reviewer.ts:251-276 | Extracting from an extraction changes nothing |
| JsonExtractor.SlicePrint | src/pipeline/plan-reviewer.ts:472-477 | The plan-reviewer's simpler slice finds the object exactly when no closing brace follows it |
| Labels.ParseLabels | src/queue/labels.ts:27-99 | The loop over the labels gives the hints |
| Labels.ReadLabels | src/queue/labels.ts:38-98 | The loop with its seven locals reads the labels one by one, whatever each means |
| Labels.Winners | src/queue/labels.ts:38-92 | Which label decides each hint, for any labels: the last model, priority and autonomy, the first category and severity, and exactly the verify kinds that some label adds |
| Labels.OwnLabels | src/queue/labels.ts:39-84 | Which texts, lower-cased and trimmed, mean what; every other text means nothing |
| Labels.PrintedIff | src/orchestrator/pipeline-bridge.ts:143-162 | Exactly which labels are printed for which hints |
| Labels.MergeVerify | src/queue/labels.ts:133-139 | Appends the missing kinds in order, without repetition |
| Labels.RoutingHintsToLabels | src/orchestrator/pipeline-bridge.ts:143-162 | The printer's pushes give the printed labels |
| Labels.ParsePrint | src/orchestrator/pipeline-bridge.ts:143-162 | Parsing printed hints restores them, verify as a set, exactly unless they ask for a review with no verification |
| Labels.ParsePrintExact | src/queue/labels.ts:86-92 | The exact hints that come back, order of kinds included |
| Labels.NormalForm | src/queue/labels.ts:27-99 | Printing what any labels mean and parsing again gives the same hints |
| Labels.WordsProper | src/queue/labels.ts:13-18 | The program's label words are plain and distinct, as the round trip needs, with any lower-casing that keeps plain text |
| DriftCompare.CompareDrift | src/agents/drift-detector/compare.ts:45-86 | The grouping loop, classification and final sort compute the comparison |
| DriftCompare.ClassifySymbol | src/agents/drift-detector/compare.ts:88-163 | Both checks of one symbol |
| DriftCompare.ClassifySkew | src/agents/drift-detector/compare.ts:102-121 | Signature skew with majority first and the outliers outside it |
| DriftCompare.BucketBySignature | src/agents/drift-detector/compare.ts:165-184 | The bucketing loop with its key for missing signatures |
| DriftMajority.EveryCandidateTold | src/agents/drift-detector/compare.ts:88-163 | Told from the observations: every candidate names its symbol; a skew lists each signature with its repositories and paths, most repositories first and among equals the signature that ranks least, and as outliers the repositories under some signature but not the first; a rename sets the repositories that have the symbol against the peers that have not, the larger side first, and the other side as outliers |
| DriftMajority.SkewReportedIff | src/agents/drift-detector/compare.ts:62-105 | A skew is reported exactly for a symbol with enough observations of which two different signatures lead their buckets |
| DriftMajority.RenameReportedIff | src/agents/drift-detector/compare.ts:123-131 | A rename is reported exactly for a symbol with enough observations that some peer lacks |
| DriftMajority.PlainSkewIff | src/agents/drift-detector/compare.ts:95-105 | For a symbol that is not ambiguous: a skew is reported exactly if two signatures differ |
| DriftMajority.PlainOutliers | src/agents/drift-detector/compare.ts:106-118 | For such a symbol the outliers are the repositories that have some signature of it, but not the majority's |
| DriftMajority.OutliersExactly | src/agents/drift-detector/compare.ts:106-118 | For any symbol that is the case for a repository exactly unless the bucket that missing signatures share with the internal key misjudges it |
| DriftMajority.ComparedInOrder | src/agents/drift-detector/compare.ts:75-84 | The candidates come by symbol key, and under one key by kind |
| Grouping.GroupBy | src/agents/drift-detector/compare.ts:54-60 | Filling a map of arrays keeps first-seen order and puts every element under its key |
| Ordering.SortUnique | src/agents/drift-detector/compare.ts:80-84 | Sorting forgets the input order when the comparator tells all elements apart |
| Ordering.SortUniqueStable | src/agents/drift-detector/compare.ts:80-84 | Sorting forgets the input order but for the order of elements the comparator holds equal |
| Ordering.StrLeIsUnits | src/agents/drift-detector/compare.ts:186-188 | The order of a sort without comparator is the lexicographic order of the UTF-16 code units, also above U+FFFF |
| DriftInvariance.CompareInvariant | src/agents/drift-detector/compare.ts:45-86 | When no symbol is ambiguous, no two of its signatures tie and no two symbols' candidates tie, the result depends only on the multiset of observations and the set of peers, for any collation |
| DriftOrder.CompareInvariantIff | src/agents/drift-detector/compare.ts:45-184 | For any collation: all orders of the observations give one result if and only if these three conditions hold |
| DriftOrder.GroupTieMatters | src/agents/drift-detector/compare.ts:105-105 | Two signatures of one symbol in equally many repositories and of equal rank make the order matter |
| DriftOrder.SymbolTieMatters | src/agents/drift-detector/compare.ts:80-84 | So do candidates of two symbols of equal rank |
| DriftOrder.OrderFreeIffClean | src/agents/drift-detector/compare.ts:165-178 | When the collation tells the occurring signatures and symbol keys apart, only ambiguous symbols are left |
| DriftOrder.TwoSpellings | src/agents/drift-detector/compare.ts:105-118 | Two observations whose signatures spell one letter in two ways: the one that comes second is the outlier |
| DriftOrder.AmbiguousMatters | src/agents/drift-detector/compare.ts:165-178 | An ambiguous symbol makes the order matter |
| DriftInvariance.KeyInjective | src/agents/drift-detector/compare.ts:56-56 | The symbol key determines kind and name |
| DriftPlan.PlanDriftPrs | src/agents/drift-detector/real-pr.ts:77-111 | The grouping loop and sort compute the plans |
| DriftPlan.ComputeSourceFileSha | src/agents/drift-detector/real-pr.ts:139-158 | The loop over the candidates collects the paths and content lines the key is hashed from |
| DriftPlan.PlansPartition | src/agents/drift-detector/real-pr.ts:77-85 | Every candidate the comparator emits lands in a plan, as often as it occurs, and the sizes add up |
| DriftPlan.OnePlanEach | src/agents/drift-detector/real-pr.ts:67-69 | No candidate is in two plans, and its plan is the one of its own source |
| DriftPlan.SourceLeads | src/agents/drift-detector/real-pr.ts:60-69 | A plan's source is the first repository, by name, of the majority of each of its candidates |
| DriftPlan.SourceIsNoTarget | src/agents/drift-detector/real-pr.ts:88-93 | A plan's source repository is never among its targets |
| DriftPlan.TargetIff | src/agents/drift-detector/real-pr.ts:88-93 | A repository is a target of a plan exactly if it is an outlier of one of its candidates |
| DriftPlan.PlanHolds | src/agents/drift-detector/real-pr.ts:77-85 | A plan holds exactly the candidates of its source |
| DriftPlan.PlansInOrder | src/agents/drift-detector/real-pr.ts:86-111 | The plans come by source, one for each |
| DriftKeys.KeyIff | src/agents/drift-detector/real-pr.ts:139-193 | With a hash without collisions and names without tabs and line breaks: plans have one idempotency key if and only if they have one source, the same symbols with the same drift and majority signature, and the same source files |
| DriftPlan.PlanPermuted | src/agents/drift-detector/real-pr.ts:139-193 | Idempotency key and targets do not depend on the order of the candidates, whatever the hash |
| CircuitBreaker.Breaker.RecordOutcome | src/agents/bandit/circuit-breaker.ts:158-196 | One outcome on one arm's row |
| CircuitBreaker.Breaker.OnAssignment | src/agents/bandit/circuit-breaker.ts:207-223 | The loop drains the cooldown of every known disabled arm |
| CircuitBreaker.Breaker.ResolveRoutingModel | src/agents/bandit/live.ts:65-123 | Eligibility is read before the cooldowns are drained; not live or no record changes no row |
| CircuitBreaker.AlwaysSane | src/agents/bandit/circuit-breaker.ts:158-223 | After every interleaving an arm's counter is its failure run, an active arm is below the threshold, and an arm is disabled exactly while 1 to `cooldown` assignments remain |
| CircuitBreaker.TripsExactly | src/agents/bandit/circuit-breaker.ts:185-191 | An active arm trips exactly on the failure that completes a run of `threshold` |
| CircuitBreaker.CoolsDown | src/agents/bandit/circuit-breaker.ts:207-223 | After a trip the arm stays disabled, whatever outcomes arrive, while fewer than `cooldown` live assignments have named it |
| CircuitBreaker.ThenProbes | src/agents/bandit/circuit-breaker.ts:216-220 | The assignment that completes the cooldown makes it probing |
| CircuitBreaker.ProbeDecides | src/agents/bandit/circuit-breaker.ts:169-184 | Only the probe's outcome moves a probing arm: to a clean active one, or to a whole new cooldown |
| CircuitBreaker.ExactlyCooldownCalls | src/agents/bandit/live.ts:73-104 | Exactly the next `cooldown` live calls find a tripped arm suppressed, and the next one is let through |
| CircuitBreaker.SuppressedRoutesActual | src/agents/bandit/live.ts:96-122 | Suppressed, non-live and unrecorded calls route to the live decision; an override is always an eligible sampled arm |
| CircuitBreaker.DrainsIff | src/agents/bandit/live.ts:65-104 | A routed call changes an arm exactly if it is live and recorded and the arm is a known one in its cooldown |
| ApprovalGate.AlwaysInv | src/orchestrator/approval-gate.ts:30-92 | After every run each waiter was resolved at most once, the unsettled waiters are exactly the pending entries, each the newest of its task, and live timers and listeners belong to them only |
| ApprovalGate.OnlyApproveYieldsTrue | src/orchestrator/approval-gate.ts:53-79 | A waiter becomes true exactly by an approve verdict on the task whose entry it is |
| ApprovalGate.SettledByFirst | src/orchestrator/approval-gate.ts:39-91 | Over every run a waiter is answered by the first event after its registration that concerns it, with that event's verdict, and by no other: a new call or a verdict for its task, its own timer, its own signal, a drain |
| ApprovalGate.RegisteredByCalls | src/orchestrator/approval-gate.ts:44-71 | The only waiters are those of calls whose signal had not been aborted before |
| ApprovalGate.DrainEmpties | src/orchestrator/approval-gate.ts:87-91 | After a drain nothing is pending and every waiter has settled |
| ApprovalGate.ControlPlaneApprovalGate.AwaitApproval | src/orchestrator/approval-gate.ts:39-72 | Refuses an aborted signal, displaces the waiter of the task, registers the new one |
| ApprovalGate.ControlPlaneApprovalGate.SettleWaiter | src/orchestrator/approval-gate.ts:53-60 | The settle closure, which looks the entry up by task |
| ApprovalGate.ControlPlaneApprovalGate.ResolveTask | src/orchestrator/approval-gate.ts:75-79 | Settles the pending waiter of the task, or nothing |
| ApprovalGate.ControlPlaneApprovalGate.TimerFired | src/orchestrator/approval-gate.ts:63-63 | A live timer cancels its own waiter |
| ApprovalGate.ControlPlaneApprovalGate.SignalAborted | src/orchestrator/approval-gate.ts:62-70 | An abort calls the listeners still registered on the signal, in order |
| ApprovalGate.ControlPlaneApprovalGate.Drain | src/orchestrator/approval-gate.ts:87-91 | Cancels every pending awaiter |
| ClosedJsonLock.MutualExclusion | src/audit/closed-json-lock.ts:67-100 | For any number of processes and any interleaving, at most one is inside `fn` as long as no lock directory has outlived the stale age |
| ClosedJsonLock.OnlyHolderRemoves | src/audit/closed-json-lock.ts:90-100 | In such a run only the process that made the directory removes it, on leaving; a waiter that times out never does |
| ClosedJsonLock.HandsOver | src/audit/closed-json-lock.ts:67-100 | In such a run whoever tries while another is inside goes on to check the directory, and whoever tries next after the holder has left gets inside |
| ClosedJsonLock.OverstayAdmitsTwo | src/audit/closed-json-lock.ts:73-80 | As soon as a holder has overstayed, another process can be inside with it |
| ClosedJsonLock.LeftoverAdmitsTwo | src/audit/closed-json-lock.ts:73-80 | A directory left behind by a crash lets two waiters in together |
| ClosedJsonLock.OverstayRun | src/audit/closed-json-lock.ts:67-100 | For any stale age, a run from the start in which one process overstays and a second one is inside with it |
| ClosedJsonLock.LeftoverRun | src/audit/closed-json-lock.ts:67-100 | For any stale age, a run from the start in which one process crashes and two others are inside together |
| ClosedJsonLock.WaitBounded | src/audit/closed-json-lock.ts:64-88 | Over every run a process sleeps at most as many poll intervals as fit into its timeout, rounded up |
| ClosedJsonLock.DeadlineEnds | src/audit/closed-json-lock.ts:81-86 | At or past its deadline a waiter gives up and leaves the directory alone, before it sleeps on |
| ClosedJsonLock.TriesBounded | src/audit/closed-json-lock.ts:67-88 | In such a run without stale directories a process removes nothing and tries `mkdir` at most once more than the poll intervals that fit into its timeout, rounded up |
| ClosedJsonLock.WaiterTries | src/audit/closed-json-lock.ts:67-88 | Over every run a waiting process has tried at most as often plus once per removal, and its removals but the first took a stale age each |
| ClosedJsonLock.RemovalsSpaced | src/audit/closed-json-lock.ts:73-80 | Over every run two removals by one waiting process are more than a stale age apart |
| ClosedJsonLock.TimeoutOverrun | src/audit/closed-json-lock.ts:73-77 | For any number of rounds there is a run in which a process has removed that many stale directories, never looked at its deadline and is still trying |
| ClosedJsonLock.Acquire | src/audit/closed-json-lock.ts:64-88 | The acquire loop with its branch for stale directories ends when they do: it succeeds at the first free try, or gives up at the first check past the deadline, within the same bound on its tries |

## Left out

Assumptions of the scheduler model:

- Store writes, `emit` and the pause callbacks do not throw (what a late throw would do is `LateThrow`).
- The clock is read once per piece, and once per tick at Level B; costs are not negative where a theorem says so.
- The registry's configuration is fixed during a run (no hot reload).
- SingleStart.SingleDispatchIff: assumes that `resumeAbandoned` runs before the process starts any task, as the orchestrator's constructor has it; `SingleThroughoutIff` does not.
- Sprint and task ids are fresh; `startSprint` with existing task ids is not modelled.
- The state `planning` exists in the table but nothing enters it.
- The budget guard is stated for a positive limit and a registry with an API worker; without one the program skips the guard by design.

Not modelled:

- Informational events (`budget_skipped`, `budget_paused`, `rate_paused`), trace ids, error texts and `updatedAt` columns.
- Rows that cannot be parsed: a missing task is modelled, a corrupt one is not told apart from it.
- The kill switch, timers, Discord, the outbox and cron of the orchestrator, and what it ticks after a restart.
- Token totals of a settled handle, teardown of a pipeline run, and an aggregate cost on a pipeline result, which the runner never sets.
- Texts: plans and diffs are told apart only as blank, the resolved signal, or other; the no-changes pattern, prompts, summaries and audit bookkeeping are left out.
- The discarded first attempt of the reviewer's small-model gate, and everything inside `runArchitect`, `runEditor`, `runDoctor` and `runReviewer`.
- PipelineRunner.Run: workers, verifier, git and PR opener are an oracle; an abort signal may flip back, which only allows more behaviours.
- PlanReviewer.ParsePlanReview: `JSON.parse` is any function from texts to values.
- Labels.ParseLabels: the words and `toLowerCase` are parameters; the round trip asks of the latter only that it keeps lower-case letters and colons.
- DriftInvariance.CompareInvariant: `localeCompare` is any ranking of strings by a real number.
- Ordering.StrLeIsUnits: strings have no lone surrogates.
- DriftPlan.PlanDriftPrs: titles, bodies and labels of plans are text made from the modelled fields; the hash is an arbitrary function.
- CircuitBreaker.Breaker.ResolveRoutingModel: the sampler's choice is an input, and reads and writes of the table do not fail.
- ApprovalGate.ControlPlaneApprovalGate.AwaitApproval: durations are not modelled; a live timer may fire at any time.
- ClosedJsonLock.MutualExclusion: one clock for all processes and the file system; `mkdir` fails only because the directory exists.
- Floating point: pressures, costs and rankings are real numbers.
- Git, worktrees, child processes, HTTP, Postgres and SQLite mechanics, file watchers, dashboards, evaluation scripts.
- Retry caps in `src/queue/github.ts`, the dispatcher lock in `scripts/dispatcher-lock.ts`, sampling, embeddings, posterior counting and canary alternation.
