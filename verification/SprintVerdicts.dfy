/** How a settled handle is recorded, told by how the run ended. */
module SprintVerdicts {
  import opened Prelude
  import opened Pipeline
  import opened PipelineBridge
  import opened Scheduler
  import opened SprintTicks
  import opened SprintInvariants
  import opened SprintEvents

  /** The run returned with this status. */
  predicate EndedAs(outcome: HandleOutcome, status: Status) {
    outcome.Ran? && outcome.out.Returned? && outcome.out.result.status == status
  }

  predicate Achieved(outcome: HandleOutcome) {
    EndedAs(outcome, PrOpened) || EndedAs(outcome, AlreadyResolved)
  }

  /** The handle was rejected, the run threw, or it ended without success. */
  predicate Missed(outcome: HandleOutcome) {
    || outcome.Rejected?
    || outcome.out.Threw?
    || EndedAs(outcome, Status.Failed) || EndedAs(outcome, BlockedByReviewer) || EndedAs(outcome, AwaitingInterview)
  }

  /** What a task's state says about how its run ended; the PR is the run's, unless empty. */
  predicate Records(state: TaskState, outcome: HandleOutcome) {
    && (state.Done? <==> Achieved(outcome))
    && (state.TaskCancelled? <==> EndedAs(outcome, Status.Cancelled))
    && (state.TaskFailed? <==> Missed(outcome))
    && (state.Done? ==>
         state.pr == if outcome.out.result.prUrl == Some("") then None else outcome.out.result.prUrl)
  }

  lemma OutcomeRecorded(outcome: HandleOutcome, now: Time)
    ensures Records(OutcomeState(outcome, now), outcome)
  {
    if outcome.Ran? { ExitZero(outcome.out); }
  }

  /** A settled handle is recorded by the status of its run: done if it opened its PR or
      found nothing to do, cancelled if the run was cancelled, failed otherwise. */
  lemma HandleRecords(c: Config, s: State, a: ActId, outcome: HandleOutcome, now: Time)
    requires a in s.acts && s.acts[a].Awaiting? && s.acts[a].task in s.tasks
    ensures var t, s' := s.acts[a].task, HandleSettled(c, s, a, outcome, now);
            && t in s'.tasks && Records(s'.tasks[t].state, outcome)
            && s'.tasks == s.tasks[t := s.tasks[t].(state := s'.tasks[t].state)]
  {
    var t, s2 := s.acts[a].task, SettleAct(s, a, outcome, now);
    SettleFinishes(s, a, outcome, now);
    OutcomeRecorded(outcome, now);
    var sid := s.tasks[t].sprint;
    assert SameTaskData(s2, CheckBudget(c, s2, sid, SpendOf(s2, sid), now));
  }

  /** Over every run: a task is done or cancelled only if its newest event is the return of
      a run, and whenever that is its newest event its state is what the run's status says. */
  lemma VerdictsRecorded(c: Config, es: seq<Event>, t: TaskId)
    requires t in Run(c, es).tasks
    ensures var s := Run(c, es);
            var state, v := s.tasks[t].state, Verdict(s.work, t);
            && (state.Done? || state.TaskCancelled? ==> v.Some?)
            && (v.Some? ==> Records(state, v.value))
  {
    var s := Run(c, es);
    AlwaysInv(c, es);
    assert TaskOk(s, t);
    if Verdict(s.work, t).Some? { OutcomeRecorded(Verdict(s.work, t).value, s.tasks[t].state.at); }
  }

  /** A handle brings a cost exactly if its run returned and one of its attempts reported one,
      and then it is the sum of what they reported. */
  lemma CostIs(outcome: HandleOutcome)
    ensures OutcomeCost(outcome).Some? <==>
      outcome.Ran? && outcome.out.Returned? && exists a :: a in Items(outcome.out.result.attempts) && a.cost.Some?
    ensures OutcomeCost(outcome).Some? ==>
      OutcomeCost(outcome).value == ReportedCost(Items(outcome.out.result.attempts))
  {
    if outcome.Ran? { CostIff(outcome.out); }
  }
}
