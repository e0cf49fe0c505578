/** Sprint moves over every interleaving: states follow the transition table,
    terminal states are final, and time in `running` is accounted for exactly. */
module SprintHistory {
  import opened Prelude
  import opened Scheduler
  import opened Interleaving

  /** The state the history of moves leads to; None when the sprint was never
      created or some move does not continue the previous one along the table. */
  function Replay(moves: History<Move>, id: SprintId): Option<SprintState> {
    match moves
    case Start => None
    case Then(past, Created(i)) =>
      if i != id then Replay(past, id) else if Replay(past, id).None? then Some(Queued) else None
    case Then(past, Moved(i, _, from, to, _)) =>
      if i != id then Replay(past, id)
      else if Replay(past, id) == Some(from) && CanTransition(from, to) then Some(to) else None
    case Then(past, Resumed(_, _)) => Replay(past, id)
  }

  /** A stopwatch over the moves: total time between entering and leaving
      `running`, and when the current stretch began. */
  datatype Clock = Clock(total: int, since: Option<Time>)

  function RunningTime(moves: History<Move>, id: SprintId): Clock {
    match moves
    case Start => Clock(0, None)
    case Then(past, Moved(i, at, _, to, _)) =>
      var was := RunningTime(past, id);
      if i != id then was
      else Clock(was.total + (if was.since.Some? then at - was.since.value else 0),
                 if to.Running? then Some(at) else None)
    case Then(past, _) => RunningTime(past, id)
  }

  /** Every `sprint.completed` of the sprint reported the time the stopwatch shows. */
  predicate DurationsTrue(moves: History<Move>, id: SprintId) {
    match moves
    case Start => true
    case Then(past, e) =>
      DurationsTrue(past, id)
      && (e.Moved? && e.id == id && e.to.Completed? ==> e.durationMs == RunningTime(moves, id).total)
  }

  /** The stored state agrees with the stopwatch. */
  predicate Clocked(state: SprintState, clock: Clock) {
    match state
    case Running(startedAt, elapsed) => clock == Clock(elapsed, Some(startedAt))
    case Paused(_, _, elapsed, _) => clock == Clock(elapsed, None)
    case _ => clock.since.None? && (state.Queued? || state.Planning? ==> clock.total == 0)
  }

  /** The stored state of a sprint is where its moves lead, and its books are exact. */
  predicate Told(s: State, id: SprintId) {
    && Replay(s.moves, id) == (if id in s.sprints then Some(s.sprints[id].state) else None)
    && (id in s.sprints ==> Clocked(s.sprints[id].state, RunningTime(s.moves, id)))
    && (id !in s.sprints ==> RunningTime(s.moves, id) == Clock(0, None))
    && DurationsTrue(s.moves, id)
  }

  /** The elapsed time the program writes into the next state. */
  predicate Carries(from: SprintState, next: SprintState, now: Time) {
    && (next.Running? ==> next.startedAt == now && next.elapsed == if from.Paused? then from.elapsed else 0)
    && (next.Paused? ==> from.Running? ==> next.elapsed == from.elapsed + (now - from.startedAt))
  }

  /** `s'` is `s` with sprint `id` moved to `next`. */
  predicate Shifted(s: State, s': State, id: SprintId, next: SprintState) {
    && id in s.sprints
    && s'.spend == s.spend && s'.resets == s.resets
    && s'.sprints == s.sprints[id := s.sprints[id].(state := next)]
    && s'.moves.Then? && s'.moves.past == s.moves
    && s'.moves.event.Moved? && s'.moves.event.id == id
    && s'.moves.event.from == s.sprints[id].state && s'.moves.event.to == next
  }

  lemma TransitionShifts(s: State, id: SprintId, next: SprintState, now: Time)
    ensures var s' := Transition(s, id, next, now).1; s' == s || Shifted(s, s', id, next)
    ensures id in s.sprints && CanTransition(s.sprints[id].state, next)
      ==> Shifted(s, Transition(s, id, next, now).1, id, next)
  {}

  // In the lemmas below `i` is the sprint watched and `id` the sprint acted on.

  lemma TransitionTold(s: State, id: SprintId, next: SprintState, now: Time, i: SprintId)
    requires Told(s, i) && (id in s.sprints ==> Carries(s.sprints[id].state, next, now))
    ensures Told(Transition(s, id, next, now).1, i)
  {}

  lemma ResumeTold(s: State, id: SprintId, byTick: bool, now: Time, i: SprintId)
    requires Told(s, i)
    ensures Told(Resume(s, id, byTick, now).1, i)
  {
    if id in s.sprints && s.sprints[id].state.Paused? {
      var next := Running(now, s.sprints[id].state.elapsed);
      TransitionTold(s, id, next, now, i);
    }
  }

  lemma SubmitTold(s: State, id: SprintId, tasks: seq<TaskId>, briefs: TaskId -> string,
                   required: TaskId -> seq<string>, i: SprintId)
    requires Told(s, i)
    ensures Told(Submit(s, id, tasks, briefs, required), i)
  {}

  lemma BudgetTold(c: Config, s: State, id: SprintId, spent: real, now: Time, i: SprintId)
    requires Told(s, i)
    ensures Told(CheckBudget(c, s, id, spent, now), i)
  {
    var s' := CheckBudget(c, s, id, spent, now);
    if c.limit.Some? && id in s.sprints && s.sprints[id].state.Running? {
      var st := s.sprints[id].state;
      var next := Paused(now, st.startedAt, st.elapsed + (now - st.startedAt), OverBudget(spent, c.limit.value));
      TransitionTold(s, id, next, now, i);
      assert s' == s || s' == Transition(s, id, next, now).1;
    } else {
      assert s' == s;
    }
  }

  lemma RateTold(s: State, id: SprintId, resetAt: Time, now: Time, i: SprintId)
    requires Told(s, i) && id in s.sprints && s.sprints[id].state.Running?
    ensures Told(PauseUntil(s, id, resetAt, now), i)
  {
    var st := s.sprints[id].state;
    var s1 := s.(resets := s.resets[id := resetAt], runtime := SaveReset(s.runtime, id, Some(resetAt)));
    var next := Paused(now, st.startedAt, st.elapsed + (now - st.startedAt), RateCapped(resetAt));
    assert Told(s1, i);
    TransitionTold(s1, id, next, now, i);
    assert PauseUntil(s, id, resetAt, now) == Transition(s1, id, next, now).1;
  }

  lemma HeadTold(s: State, id: SprintId, now: Time, i: SprintId)
    requires Told(s, i)
    ensures Told(TickHead(s, id, now).1, i)
  {
    if id in s.sprints && s.sprints[id].state.Paused? && id in s.resets {
      ResumeTold(s.(resets := s.resets - {id}, runtime := SaveReset(s.runtime, id, None)), id, true, now, i);
    } else if id in s.sprints && s.sprints[id].state.Queued? {
      TransitionTold(s, id, Running(now, 0), now, i);
    }
  }

  lemma TailTold(c: Config, s: State, id: SprintId, now: Time, i: SprintId)
    requires Told(s, i)
    ensures Told(TickTail(c, s, id, now).1, i)
  {
    var s' := TickTail(c, s, id, now).1;
    if id in s.sprints && s' != s {
      var prs := Prs(s, s.sprints[id].tasks);
      TransitionTold(s, id, Failed(now), now, i);
      TransitionTold(s, id, Completed(now, prs), now, i);
      CheckRateTold(c, s, id, now, i);
      assert s' == CheckRate(c, s, id, now) || s' == Transition(s, id, Failed(now), now).1
        || s' == Transition(s, id, Completed(now, prs), now).1;
    }
  }

  lemma CheckRateTold(c: Config, s: State, id: SprintId, now: Time, i: SprintId)
    requires Told(s, i)
    ensures Told(CheckRate(c, s, id, now), i)
  {
    var slots := FutureSlots(c.workers, s.snapshots, now);
    if slots != [] && id in s.sprints && s.sprints[id].state.Running? {
      RateTold(s, id, MinOf(slots), now, i);
    }
  }

  lemma SameTold(s: State, s': State, i: SprintId)
    requires Told(s, i) && SameSprints(s, s')
    ensures Told(s', i)
  {}

  lemma DropTold(s: State, a: ActId, i: SprintId)
    requires Told(s, i) && a in s.acts
    ensures Told(Drop(s, a), i)
  {
    SameTold(s, Drop(s, a), i);
  }

  lemma SettleActTold(s: State, a: ActId, outcome: HandleOutcome, now: Time, i: SprintId)
    requires Told(s, i) && a in s.acts && s.acts[a].task in s.tasks
    ensures Told(SettleAct(s, a, outcome, now), i)
  {
    SameTold(s, SettleAct(s, a, outcome, now), i);
  }

  lemma SettleTold(c: Config, s: State, a: ActId, outcome: HandleOutcome, now: Time, i: SprintId)
    requires Told(s, i)
    ensures Told(HandleSettled(c, s, a, outcome, now), i)
  {
    if a in s.acts && s.acts[a].Awaiting? {
      if s.acts[a].task in s.tasks {
        var sid, s2 := s.tasks[s.acts[a].task].sprint, SettleAct(s, a, outcome, now);
        SettleActTold(s, a, outcome, now, i);
        BudgetTold(c, s2, sid, SpendOf(s2, sid), now, i);
      } else {
        DropTold(s, a, i);
      }
    }
  }

  /** Pieces that touch no sprint. */
  predicate LeavesSprints(p: Piece) {
    || p.FailTask? || p.StartDispatch? || p.DeliverBrief? || p.DeliverSpawn? || p.ObserveHeaders?
    || p.RestartProcess? || p.ResumeOnBoot? || p.StartCancel?
  }

  lemma LeavesSprintsSame(c: Config, s: State, p: Piece)
    requires LeavesSprints(p)
    ensures SameSprints(s, Apply(c, s, p))
  {}

  lemma ApplyTold(c: Config, s: State, p: Piece, i: SprintId)
    requires Told(s, i)
    ensures Told(Apply(c, s, p), i)
  {
    if LeavesSprints(p) {
      LeavesSprintsSame(c, s, p);
    } else {
      match p
      case SubmitSprint(id, tasks, briefs, required) => SubmitTold(s, id, tasks, briefs, required, i);
      case StartTick(id, now) => HeadTold(s, id, now, i);
      case EndTick(id, now) => TailTold(c, s, id, now, i);
      case SettleHandle(a, outcome, now) => SettleTold(c, s, a, outcome, now, i);
      case OperatorResume(id, now) => ResumeTold(s, id, false, now, i);
      case EndCancel(id, now) => TransitionTold(s, id, Cancelled(now), now, i);
    }
  }

  /** Over every run, the stored state of every sprint is what its moves lead to
      along the table, and every reported `durationMs` is the time the sprint spent
      in `running`, pauses excluded. */
  lemma {:induction false} AlwaysTold(c: Config, run: seq<Piece>, i: SprintId)
    ensures Told(After(c, run), i)
  {
    if run != [] {
      AlwaysTold(c, run[..|run| - 1], i);
      ApplyTold(c, After(c, run[..|run| - 1]), run[|run| - 1], i);
    }
  }

  /** The sprint is terminal and its record is `rec`. */
  predicate Ended(s: State, id: SprintId, rec: Sprint) {
    id in s.sprints && s.sprints[id] == rec && rec.state.Terminal()
  }

  lemma TransitionEnded(s: State, i: SprintId, next: SprintState, now: Time, id: SprintId, rec: Sprint)
    requires Ended(s, id, rec)
    ensures Ended(Transition(s, i, next, now).1, id, rec)
  {}

  lemma ResumeEnded(s: State, i: SprintId, byTick: bool, now: Time, id: SprintId, rec: Sprint)
    requires Ended(s, id, rec)
    ensures Ended(Resume(s, i, byTick, now).1, id, rec)
  {}

  lemma HeadEnded(s: State, i: SprintId, now: Time, id: SprintId, rec: Sprint)
    requires Ended(s, id, rec)
    ensures Ended(TickHead(s, i, now).1, id, rec)
  {
    ResumeEnded(s.(resets := s.resets - {i}, runtime := SaveReset(s.runtime, i, None)), i, true, now, id, rec);
    TransitionEnded(s, i, Running(now, 0), now, id, rec);
  }

  lemma BudgetEnded(c: Config, s: State, i: SprintId, spent: real, now: Time, id: SprintId, rec: Sprint)
    requires Ended(s, id, rec)
    ensures Ended(CheckBudget(c, s, i, spent, now), id, rec)
  {}

  lemma RateEnded(c: Config, s: State, i: SprintId, now: Time, id: SprintId, rec: Sprint)
    requires Ended(s, id, rec)
    ensures Ended(CheckRate(c, s, i, now), id, rec)
  {}

  lemma TailEnded(c: Config, s: State, i: SprintId, now: Time, id: SprintId, rec: Sprint)
    requires Ended(s, id, rec)
    ensures Ended(TickTail(c, s, i, now).1, id, rec)
  {
    RateEnded(c, s, i, now, id, rec);
    if i in s.sprints {
      TransitionEnded(s, i, Failed(now), now, id, rec);
      TransitionEnded(s, i, Completed(now, Prs(s, s.sprints[i].tasks)), now, id, rec);
    }
  }

  lemma SettleEnded(c: Config, s: State, a: ActId, outcome: HandleOutcome, now: Time, id: SprintId, rec: Sprint)
    requires Ended(s, id, rec)
    ensures Ended(HandleSettled(c, s, a, outcome, now), id, rec)
  {
    if a in s.acts && s.acts[a].Awaiting? && s.acts[a].task in s.tasks {
      var sid, s2 := s.tasks[s.acts[a].task].sprint, SettleAct(s, a, outcome, now);
      assert SameSprints(s, s2);
      BudgetEnded(c, s2, sid, SpendOf(s2, sid), now, id, rec);
    }
  }

  lemma ApplyEnded(c: Config, s: State, p: Piece, id: SprintId, rec: Sprint)
    requires Ended(s, id, rec)
    ensures Ended(Apply(c, s, p), id, rec)
  {
    if LeavesSprints(p) {
      LeavesSprintsSame(c, s, p);
    } else {
      match p
      case SubmitSprint(_, _, _, _) =>
      case StartTick(i, now) => HeadEnded(s, i, now, id, rec);
      case EndTick(i, now) => TailEnded(c, s, i, now, id, rec);
      case SettleHandle(a, outcome, now) => SettleEnded(c, s, a, outcome, now, id, rec);
      case OperatorResume(i, now) => ResumeEnded(s, i, false, now, id, rec);
      case EndCancel(i, now) => TransitionEnded(s, i, Cancelled(now), now, id, rec);
    }
  }

  /** A terminal sprint record is never written again, whatever happens. */
  lemma {:induction false} TerminalAbsorbs(c: Config, run: seq<Piece>, more: seq<Piece>, id: SprintId, rec: Sprint)
    requires Ended(After(c, run), id, rec)
    ensures Ended(After(c, run + more), id, rec)
  {
    if more == [] {
      assert run + more == run;
    } else {
      var all := run + more;
      assert all[..|all| - 1] == run + more[..|more| - 1];
      TerminalAbsorbs(c, run, more[..|more| - 1], id, rec);
      ApplyEnded(c, After(c, all[..|all| - 1]), all[|all| - 1], id, rec);
    }
  }

  /** Cancelling a known sprint leaves it terminal, whether it returns at once, returns
      after its wait, or throws then; it throws exactly when somebody else ended the
      sprint during the wait. */
  lemma CancelEnds(s: State, s': State, id: SprintId, now: Time)
    requires id in s.sprints && id in s'.sprints && !s.sprints[id].state.Terminal()
    ensures BeginCancel(s, id).Stopping?
    ensures var (ok, end) := FinishCancel(s', id, now);
            && Ended(end, id, end.sprints[id])
            && (!ok <==> s'.sprints[id].state.Terminal())
            && (ok ==> end.sprints[id].state == Cancelled(now))
            && (!ok ==> end == s')
  {
    assert FinishCancel(s', id, now) == Transition(s', id, Cancelled(now), now);
  }

  /** On a sprint that is over already it returns at once; it throws there only on an
      unknown sprint. */
  lemma CancelBegins(s: State, id: SprintId)
    ensures BeginCancel(s, id).AlreadyOver? <==> id in s.sprints && s.sprints[id].state.Terminal()
    ensures BeginCancel(s, id).Unknown? <==> id !in s.sprints
  {}

  // ----- the moves a run can make -----

  /** The new state shows the moment of the move, and a pause also when the sprint last ran. */
  predicate Stamped(from: SprintState, to: SprintState, at: Time) {
    match to
    case Running(startedAt, _) => startedAt == at
    case Paused(pausedAt, startedAt, _, _) => pausedAt == at && from.Running? && startedAt == from.startedAt
    case Cancelled(ended) => ended == at
    case Completed(ended, _) => ended == at
    case Failed(ended) => ended == at
    case _ => true
  }

  /** A sprint starts only from the queue or a pause, pauses and completes only while it runs,
      and leaves no ended state. */
  predicate Lawful(e: Move) {
    e.Moved? ==>
      && !e.from.Terminal() && !e.from.Planning? && !e.to.Planning? && !e.to.Queued?
      && (e.to.Running? ==> e.from.Queued? || e.from.Paused?)
      && (e.to.Paused? || e.to.Completed? ==> e.from.Running?)
      && Stamped(e.from, e.to, e.at)
  }

  predicate AllLawful(moves: History<Move>) {
    match moves
    case Start => true
    case Then(past, e) => AllLawful(past) && Lawful(e)
  }

  /** No sprint is in planning. */
  predicate NonePlanned(s: State) {
    forall i :: i in s.sprints ==> !s.sprints[i].state.Planning?
  }

  predicate Orderly(s: State) {
    AllLawful(s.moves) && NonePlanned(s)
  }

  lemma TransitionLawful(s: State, id: SprintId, next: SprintState, now: Time)
    requires Orderly(s) && !next.Planning? && !next.Queued?
    requires id in s.sprints && CanTransition(s.sprints[id].state, next) ==> Stamped(s.sprints[id].state, next, now)
    ensures Orderly(Transition(s, id, next, now).1)
  {}

  lemma ResumeLawful(s: State, id: SprintId, byTick: bool, now: Time)
    requires Orderly(s)
    ensures Orderly(Resume(s, id, byTick, now).1)
  {
    if id in s.sprints && s.sprints[id].state.Paused? {
      TransitionLawful(s, id, Running(now, s.sprints[id].state.elapsed), now);
    }
  }

  lemma HeadLawful(s: State, id: SprintId, now: Time)
    requires Orderly(s)
    ensures Orderly(TickHead(s, id, now).1)
  {
    if id in s.sprints && s.sprints[id].state.Paused? && id in s.resets {
      ResumeLawful(s.(resets := s.resets - {id}, runtime := SaveReset(s.runtime, id, None)), id, true, now);
    } else {
      TransitionLawful(s, id, Running(now, 0), now);
    }
  }

  lemma RateLawful(c: Config, s: State, id: SprintId, now: Time)
    requires Orderly(s)
    ensures Orderly(CheckRate(c, s, id, now))
  {}

  lemma TailLawful(c: Config, s: State, id: SprintId, now: Time)
    requires Orderly(s)
    ensures Orderly(TickTail(c, s, id, now).1)
  {
    var s' := TickTail(c, s, id, now).1;
    if id in s.sprints && s' != s {
      var prs := Prs(s, s.sprints[id].tasks);
      TransitionLawful(s, id, Failed(now), now);
      TransitionLawful(s, id, Completed(now, prs), now);
      RateLawful(c, s, id, now);
      assert s' == CheckRate(c, s, id, now) || s' == Transition(s, id, Failed(now), now).1
        || s' == Transition(s, id, Completed(now, prs), now).1;
    }
  }

  lemma BudgetLawful(c: Config, s: State, id: SprintId, spent: real, now: Time)
    requires Orderly(s)
    ensures Orderly(CheckBudget(c, s, id, spent, now))
  {}

  lemma HandleLawful(c: Config, s: State, a: ActId, outcome: HandleOutcome, now: Time)
    requires Orderly(s)
    ensures Orderly(HandleSettled(c, s, a, outcome, now))
  {
    if a in s.acts && s.acts[a].Awaiting? && s.acts[a].task in s.tasks {
      var sid, s2 := s.tasks[s.acts[a].task].sprint, SettleAct(s, a, outcome, now);
      BudgetLawful(c, s2, sid, SpendOf(s2, sid), now);
    }
  }

  lemma ApplyLawful(c: Config, s: State, p: Piece)
    requires Orderly(s)
    ensures Orderly(Apply(c, s, p))
  {
    if LeavesSprints(p) {
      LeavesSprintsSame(c, s, p);
    } else {
      match p
      case SubmitSprint(id, tasks, briefs, required) =>
      case StartTick(id, now) => HeadLawful(s, id, now);
      case EndTick(id, now) => TailLawful(c, s, id, now);
      case SettleHandle(a, outcome, now) => HandleLawful(c, s, a, outcome, now);
      case OperatorResume(id, now) => ResumeLawful(s, id, false, now);
      case EndCancel(id, now) => TransitionLawful(s, id, Cancelled(now), now);
    }
  }

  /** Over every interleaving all moves are lawful. */
  lemma {:induction false} AlwaysLawful(c: Config, run: seq<Piece>)
    ensures Orderly(After(c, run))
  {
    if run != [] {
      AlwaysLawful(c, run[..|run| - 1]);
      ApplyLawful(c, After(c, run[..|run| - 1]), run[|run| - 1]);
    }
  }
}
