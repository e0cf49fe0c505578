/** When a sprint may be paused for its budget, over every interleaving. */
module BudgetPauses {
  import opened Prelude
  import opened Scheduler
  import opened Interleaving
  import opened SprintHistory

  /** A budget pause names the configured limit and a spend that reaches it, and some
      worker is billed by the call. */
  predicate Earned(c: Config, state: SprintState) {
    state.Paused? && state.reason.OverBudget? ==>
      && c.limit == Some(state.reason.limit) && state.reason.spent >= state.reason.limit
      && exists w :: w in c.workers && w.api
  }

  predicate AllEarned(c: Config, s: State) {
    forall i :: i in s.sprints ==> Earned(c, s.sprints[i].state)
  }

  lemma TransitionEarned(c: Config, s: State, id: SprintId, next: SprintState, now: Time)
    requires AllEarned(c, s) && Earned(c, next)
    ensures AllEarned(c, Transition(s, id, next, now).1)
  {}

  lemma ResumeEarned(c: Config, s: State, id: SprintId, byTick: bool, now: Time)
    requires AllEarned(c, s)
    ensures AllEarned(c, Resume(s, id, byTick, now).1)
  {
    if id in s.sprints && s.sprints[id].state.Paused? {
      TransitionEarned(c, s, id, Running(now, s.sprints[id].state.elapsed), now);
    }
  }

  lemma HeadEarned(c: Config, s: State, id: SprintId, now: Time)
    requires AllEarned(c, s)
    ensures AllEarned(c, TickHead(s, id, now).1)
  {
    if id in s.sprints && s.sprints[id].state.Paused? && id in s.resets {
      ResumeEarned(c, s.(resets := s.resets - {id}, runtime := SaveReset(s.runtime, id, None)), id, true, now);
    } else {
      TransitionEarned(c, s, id, Running(now, 0), now);
    }
  }

  lemma RateEarned(c: Config, s: State, id: SprintId, now: Time)
    requires AllEarned(c, s)
    ensures AllEarned(c, CheckRate(c, s, id, now))
  {}

  lemma TailEarned(c: Config, s: State, id: SprintId, now: Time)
    requires AllEarned(c, s)
    ensures AllEarned(c, TickTail(c, s, id, now).1)
  {
    var s' := TickTail(c, s, id, now).1;
    if id in s.sprints && s' != s {
      var prs := Prs(s, s.sprints[id].tasks);
      TransitionEarned(c, s, id, Failed(now), now);
      TransitionEarned(c, s, id, Completed(now, prs), now);
      RateEarned(c, s, id, now);
      assert s' == CheckRate(c, s, id, now) || s' == Transition(s, id, Failed(now), now).1
        || s' == Transition(s, id, Completed(now, prs), now).1;
    }
  }

  lemma BudgetEarned(c: Config, s: State, id: SprintId, spent: real, now: Time)
    requires AllEarned(c, s)
    ensures AllEarned(c, CheckBudget(c, s, id, spent, now))
  {}

  lemma HandleEarned(c: Config, s: State, a: ActId, outcome: HandleOutcome, now: Time)
    requires AllEarned(c, s)
    ensures AllEarned(c, HandleSettled(c, s, a, outcome, now))
  {
    if a in s.acts && s.acts[a].Awaiting? && s.acts[a].task in s.tasks {
      var sid, s2 := s.tasks[s.acts[a].task].sprint, SettleAct(s, a, outcome, now);
      BudgetEarned(c, s2, sid, SpendOf(s2, sid), now);
    }
  }

  lemma ApplyEarned(c: Config, s: State, p: Piece)
    requires AllEarned(c, s)
    ensures AllEarned(c, Apply(c, s, p))
  {
    if LeavesSprints(p) {
      LeavesSprintsSame(c, s, p);
    } else {
      match p
      case SubmitSprint(id, tasks, briefs, required) =>
      case StartTick(id, now) => HeadEarned(c, s, id, now);
      case EndTick(id, now) => TailEarned(c, s, id, now);
      case SettleHandle(a, outcome, now) => HandleEarned(c, s, a, outcome, now);
      case OperatorResume(id, now) => ResumeEarned(c, s, id, false, now);
      case EndCancel(id, now) => TransitionEarned(c, s, id, Cancelled(now), now);
    }
  }

  lemma {:induction false} AlwaysEarned(c: Config, run: seq<Piece>)
    ensures AllEarned(c, After(c, run))
  {
    if run != [] {
      AlwaysEarned(c, run[..|run| - 1]);
      ApplyEarned(c, After(c, run[..|run| - 1]), run[|run| - 1]);
    }
  }

  /** Over every interleaving: where no worker is billed by the call, or no limit is set, no
      sprint is ever paused for its budget. */
  lemma NeverForTheBudget(c: Config, run: seq<Piece>, id: SprintId)
    requires c.limit.None? || forall w :: w in c.workers ==> !w.api
    requires id in After(c, run).sprints
    ensures var state := After(c, run).sprints[id].state; state.Paused? ==> state.reason.RateCapped?
  {
    AlwaysEarned(c, run);
  }
}
