/** What a completed sprint stands for, over every Level B run. */
module SprintCompletion {
  import opened Prelude
  import Pipeline
  import PipelineRunner
  import PipelineSafety
  import PipelineVerdicts
  import opened PipelineBridge
  import opened Scheduler
  import opened Interleaving
  import opened SprintHistory
  import opened SprintTicks
  import opened SprintInvariants
  import opened SprintEvents

  /** The newest run of the task opened its pull request or found nothing to do. */
  predicate Achieved(work: History<Work>, t: TaskId) {
    Verdict(work, t).Some? && Verdict(work, t).value.Ran? && Succeeded(Verdict(work, t).value.out)
  }

  /** The PR the newest run of the task reported. */
  function ReportedPr(work: History<Work>, t: TaskId): seq<string> {
    var v := Verdict(work, t);
    if v.Some? && v.value.Ran? && Execute(v.value.out).pr.Some? then [Execute(v.value.out).pr.value] else []
  }

  function ReportedPrs(work: History<Work>, ts: seq<TaskId>): seq<string> {
    if ts == [] then [] else ReportedPr(work, ts[0]) + ReportedPrs(work, ts[1..])
  }

  lemma DoneAchieved(s: State, t: TaskId)
    requires t in s.tasks && TaskOk(s, t) && s.tasks[t].state.Done?
    ensures Achieved(s.work, t)
    ensures var pr := s.tasks[t].state.pr;
            ReportedPr(s.work, t) == if pr.Some? && pr.value != "" then [pr.value] else []
  {
    ExitZero(Verdict(s.work, t).value.out);
  }

  lemma {:induction false} PrsReported(s: State, ts: seq<TaskId>)
    requires Inv(s) && AllDone(s, ts)
    ensures Prs(s, ts) == ReportedPrs(s.work, ts)
  {
    if ts != [] {
      assert ts[0] in ts && forall t :: t in ts[1..] ==> t in ts;
      assert TaskOk(s, ts[0]);
      DoneAchieved(s, ts[0]);
      PrsReported(s, ts[1..]);
    }
  }

  /** No handle of the sprint is live. */
  ghost predicate Quiet(s: State, id: SprintId) {
    !HasRunning(s, id) && forall a :: a in s.acts ==> s.acts[a].Awaiting? && s.acts[a].sprint != id
  }

  predicate Completion(s: State, id: SprintId) {
    id in s.sprints && s.sprints[id].state.Completed?
  }

  lemma CompletedQuiet(s: State, id: SprintId)
    requires Inv(s) && Completion(s, id)
    ensures Quiet(s, id)
  {
    assert StateOk(s, id);
    forall t | t in s.running ensures s.running[t].sprint != id {
      assert TaskOk(s, t) && Listed(s, t);
    }
    forall a | a in s.acts ensures s.acts[a].Awaiting? && s.acts[a].sprint != id {
      assert ActOk(s, a);
      assert Listed(s, s.acts[a].task);
    }
  }

  /** A completed sprint: each task's newest run opened its pull request or found the
      work already done, the stored PR list is what those runs reported, in task
      order, and no handle of the sprint is live. If the handles stood for pipeline runs,
      each of those runs opened its pull request safely, or nothing was to be done. */
  lemma CompletionSound(c: Config, es: seq<Event>, id: SprintId)
    requires Completion(Run(c, es), id)
    ensures var s := Run(c, es);
            && (forall t :: t in s.sprints[id].tasks ==> t in s.tasks && s.tasks[t].state.Done? && Achieved(s.work, t))
            && s.sprints[id].state.prs == ReportedPrs(s.work, s.sprints[id].tasks)
            && Quiet(s, id)
            && (Piped(s.work) ==>
                 forall t :: t in s.sprints[id].tasks ==> Earned(Verdict(s.work, t).value.out))
  {
    var s := Run(c, es);
    AlwaysInv(c, es);
    assert StateOk(s, id);
    PrsReported(s, s.sprints[id].tasks);
    forall t | t in s.sprints[id].tasks ensures t in s.tasks && s.tasks[t].state.Done? && Achieved(s.work, t) {
      assert TaskOk(s, t);
      DoneAchieved(s, t);
    }
    CompletedQuiet(s, id);
    if Piped(s.work) {
      forall t | t in s.sprints[id].tasks ensures Earned(Verdict(s.work, t).value.out) { AchievedIsEarned(s.work, t); }
    }
  }

  /** A pipeline run at whose end a pull request was opened safely, or whose log ends with
      the architect or the first editor finding that nothing is to be done. */
  ghost predicate Earned(out: Pipeline.Outcome) {
    exists pc, o :: PipelineRunner.RunSpec(pc, o).0 == out && WellEnded(pc, PipelineRunner.RunSpec(pc, o).1)
  }

  predicate WellEnded(pc: PipelineRunner.Config, log: PipelineRunner.Log) {
    || (log.Then? && log.event.CalledPrOpen? && log.event.url.Some? && PipelineSafety.SafeToOpen(pc, log.past))
    || PipelineVerdicts.NothingToDo(log)
  }

  lemma SuccessIsEarned(pc: PipelineRunner.Config, o: PipelineRunner.Oracle)
    requires Succeeded(PipelineRunner.RunSpec(pc, o).0)
    ensures WellEnded(pc, PipelineRunner.RunSpec(pc, o).1)
  {
    PipelineSafety.PrSafety(pc, o);
    PipelineVerdicts.EveryEndingRead(pc, o);
  }

  lemma AchievedIsEarned(work: History<Work>, t: TaskId)
    requires Piped(work) && Achieved(work, t)
    ensures Earned(Verdict(work, t).value.out)
  {
    VerdictPiped(work, t);
    var out := Verdict(work, t).value.out;
    var pc, o :| PipelineRunner.RunSpec(pc, o).0 == out;
    SuccessIsEarned(pc, o);
  }

  // ----- nothing changes any more -----

  /** The task is settled and its record is `rec`. */
  predicate Final(s: State, t: TaskId, rec: Task) {
    t in s.tasks && s.tasks[t] == rec && rec.state.Settled()
  }

  lemma {:induction false} DispatchAllFinal(c: Config, s: State, id: SprintId, ts: seq<TaskId>, snap: map<TaskId, Task>,
                                            w: WorkerId, env: TaskId -> Choice, now: Time, u: TaskId, rec: Task)
    requires Inv(s) && Current(s, id, ts, snap) && Final(s, u, rec)
    ensures Final(DispatchAll(c, s, ts, snap, w, env, now), u, rec)
    decreases |ts|
  {
    if ts != [] {
      var t := ts[0];
      if !snap[t].state.Pending? {
        CurrentRest(s, s, id, ts, snap);
        DispatchAllFinal(c, s, id, ts[1..], snap, w, env, now, u, rec);
      } else if Missing(c, snap[t]) {
        var s1 := BlockTask(s, t, snap[t], now);
        BlockRefuses(s, t, now, w);
        RefusedKeeps(s, s1, t, w);
        CurrentRest(s, s1, id, ts, snap);
        DispatchAllFinal(c, s1, id, ts[1..], snap, w, env, now, u, rec);
      } else {
        var s1 := Dispatch(c, s, t, snap[t], w, env(t), now);
        var next := PickWorker(c, s1, now);
        DispatchKeeps(c, s, t, w, env(t), now);
        if next.Some? {
          CurrentRest(s, s1, id, ts, snap);
          DispatchAllFinal(c, s1, id, ts[1..], snap, next.value, env, now, u, rec);
        }
      }
    }
  }

  lemma TickFinal(c: Config, s: State, id: SprintId, env: TaskId -> Choice, now: Time, u: TaskId, rec: Task)
    requires Inv(s) && Final(s, u, rec)
    ensures Final(Tick(c, s, id, env, now).1, u, rec)
  {
    var (head, s1) := TickHead(s, id, now);
    HeadKeeps(s, id, now);
    HeadRuns(s, id, now);
    assert SameTaskData(s, s1);
    if head.GoesOn? {
      StartsCurrent(s1, id);
      var w := PickWorker(c, s1, now);
      if w.Some? {
        DispatchAllFinal(c, s1, id, s1.sprints[id].tasks, s1.tasks, w.value, env, now, u, rec);
      }
      assert SameTaskData(TickBody(c, s1, id, env, now), TickTail(c, TickBody(c, s1, id, env, now), id, now).1);
    }
  }

  lemma HandleFinal(c: Config, s: State, a: ActId, outcome: HandleOutcome, now: Time, u: TaskId, rec: Task)
    requires Inv(s) && Final(s, u, rec)
    ensures Final(HandleSettled(c, s, a, outcome, now), u, rec)
  {
    if a in s.acts {
      assert ActOk(s, a);
      var t, s1 := s.acts[a].task, Drop(s, a);
      var sid, s2 := s1.tasks[t].sprint, Settle(s1, t, outcome, now);
      SettleFinishes(s, a, outcome, now);
      assert Final(s2, u, rec);
      assert SameTaskData(s2, CheckBudget(c, s2, sid, SpendOf(s2, sid), now));
    }
  }

  lemma {:induction false} ResetTasksFinal(s: State, ts: seq<TaskId>, u: TaskId, rec: Task)
    requires Final(s, u, rec)
    ensures Final(ResetTasks(s, ts), u, rec)
    decreases |ts|
  {
    if ts != [] {
      assert Final(ResetTask(s, ts[0]), u, rec);
      ResetTasksFinal(ResetTask(s, ts[0]), ts[1..], u, rec);
    }
  }

  lemma {:induction false} BootFinal(s: State, ids: seq<SprintId>, u: TaskId, rec: Task)
    requires Final(s, u, rec)
    ensures Final(ResumeAbandoned(s, ids), u, rec)
    decreases |ids|
  {
    if ids != [] {
      if Abandoned(s, ids[0]) {
        ResetTasksFinal(s, s.sprints[ids[0]].tasks, u, rec);
        BootFinal(ResetTasks(s, s.sprints[ids[0]].tasks), ids[1..], u, rec);
      } else {
        BootFinal(s, ids[1..], u, rec);
      }
    }
  }

  lemma SubmitFinal(s: State, id: SprintId, ts: seq<TaskId>, briefs: TaskId -> string,
                    required: TaskId -> seq<string>, u: TaskId, rec: Task)
    requires Final(s, u, rec)
    ensures Final(Submit(s, id, ts, briefs, required), u, rec)
  {
    AddTasksAdds(s, id, ts, briefs, required);
  }

  /** A settled task is never written again. */
  lemma DoFinal(c: Config, s: State, e: Event, u: TaskId, rec: Task)
    requires Inv(s) && Final(s, u, rec)
    ensures Final(Do(c, s, e), u, rec)
  {
    match e
    case Submitting(id, ts, briefs, required) => SubmitFinal(s, id, ts, briefs, required, u, rec);
    case Ticking(id, env, now) => TickFinal(c, s, id, env, now, u, rec);
    case Settling(a, outcome, now) => HandleFinal(c, s, a, outcome, now, u, rec);
    case Resuming(_, _) =>
    case Cancelling(_, _) =>
    case Observing(_, _) =>
    case Restarting =>
    case Booting(ids) => BootFinal(s, ids, u, rec);
  }

  lemma {:induction false} FromEnded(c: Config, s: State, ps: seq<Piece>, id: SprintId, rec: Sprint)
    requires Ended(s, id, rec)
    ensures Ended(From(c, s, ps), id, rec)
    decreases |ps|
  {
    if ps != [] {
      ApplyEnded(c, s, ps[0], id, rec);
      FromEnded(c, Apply(c, s, ps[0]), ps[1..], id, rec);
    }
  }

  lemma DoEnded(c: Config, s: State, e: Event, id: SprintId, rec: Sprint)
    requires Ended(s, id, rec)
    ensures Ended(Do(c, s, e), id, rec)
  {
    FromEnded(c, s, Pieces(c, s, e), id, rec);
    DoFrom(c, s, e);
  }

  lemma {:induction false} RunKeeps(c: Config, es: seq<Event>, more: seq<Event>, id: SprintId, rec: Sprint, t: TaskId,
                                    task: Task)
    requires Ended(Run(c, es), id, rec) && Final(Run(c, es), t, task)
    ensures Ended(Run(c, es + more), id, rec) && Final(Run(c, es + more), t, task)
  {
    if more == [] {
      assert es + more == es;
    } else {
      var n := |more| - 1;
      RunKeeps(c, es, more[..n], id, rec, t, task);
      RunSnoc(c, es, more);
      var s := Run(c, es + more[..n]);
      AlwaysInv(c, es + more[..n]);
      DoFinal(c, s, more[n], t, task);
      DoEnded(c, s, more[n], id, rec);
    }
  }

  /** Once a sprint is completed, whatever happens later its record and the records
      of its tasks stay as they are. */
  lemma CompletionIsFinal(c: Config, es: seq<Event>, more: seq<Event>, id: SprintId, t: TaskId)
    requires Completion(Run(c, es), id) && t in Run(c, es).sprints[id].tasks
    ensures var s, s' := Run(c, es), Run(c, es + more);
            t in s.tasks && Ended(s', id, s.sprints[id]) && Final(s', t, s.tasks[t])
  {
    var s := Run(c, es);
    AlwaysInv(c, es);
    assert StateOk(s, id);
    RunKeeps(c, es, more, id, s.sprints[id], t, s.tasks[t]);
  }

  // ----- down to the pipeline -----

  /** Some run of the pipeline, with some configuration and workers, ended this way. */
  ghost predicate OfPipeline(out: Pipeline.Outcome) {
    exists pc, o :: PipelineRunner.RunSpec(pc, o).0 == out
  }

  /** Every handle that resolved stood for a pipeline run. */
  ghost predicate Piped(work: History<Work>) {
    match work
    case Start => true
    case Then(past, e) => Piped(past) && (e.Returned? && e.outcome.Ran? ==> OfPipeline(e.outcome.out))
  }

  lemma {:induction false} VerdictPiped(work: History<Work>, t: TaskId)
    requires Piped(work) && Verdict(work, t).Some? && Verdict(work, t).value.Ran?
    ensures OfPipeline(Verdict(work, t).value.out)
  {
    if work.event.task != t {
      VerdictPiped(work.past, t);
    }
  }

  /** A pipeline run whose last act was to open the pull request `url`, safely. */
  ghost predicate SafelyOpened(url: string) {
    exists pc, o, log :: log == PipelineRunner.RunSpec(pc, o).1
      && log.Then? && log.event == PipelineRunner.CalledPrOpen(Some(url)) && PipelineSafety.SafeToOpen(pc, log.past)
  }

  lemma {:induction false} ReportedSafe(work: History<Work>, ts: seq<TaskId>, url: string)
    requires Piped(work) && url in ReportedPrs(work, ts)
    ensures SafelyOpened(url)
  {
    if url in ReportedPr(work, ts[0]) {
      VerdictPiped(work, ts[0]);
      var out := Verdict(work, ts[0]).value.out;
      var pc, o :| PipelineRunner.RunSpec(pc, o).0 == out;
      PrMeansSafe(pc, o);
    } else {
      ReportedSafe(work, ts[1..], url);
    }
  }

  /** End to end: every PR a completed sprint lists was opened as the last act of a
      pipeline run, on the very version of the worktree that was verified and
      approved, from a plan that had been cleared. */
  lemma EveryListedPrIsSafe(c: Config, es: seq<Event>, id: SprintId, url: string)
    requires Completion(Run(c, es), id) && Piped(Run(c, es).work) && url in Run(c, es).sprints[id].state.prs
    ensures SafelyOpened(url)
  {
    CompletionSound(c, es, id);
    ReportedSafe(Run(c, es).work, Run(c, es).sprints[id].tasks, url);
  }
}
