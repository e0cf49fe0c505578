/** The budget guard over whole Level B runs and restarts, for a positive limit and
    a registry with an API worker. */
module SprintBudget {
  import opened Prelude
  import opened Scheduler
  import opened RuntimeRecords
  import opened SprintHistory
  import opened SprintTicks
  import opened SprintInvariants
  import opened SprintEvents
  import opened SprintSleep

  predicate BudgetPause(e: Move, id: SprintId) {
    e.Moved? && e.id == id && e.to.Paused? && e.to.reason.OverBudget?
  }

  /** What became of the last budget pause: it holds, the operator resumed the
      sprint, or a tick did. */
  datatype Era = Untouched | Held | Overridden | Leaked

  function BudgetEra(moves: History<Move>, id: SprintId): Era {
    match moves
    case Start => Untouched
    case Then(past, e) =>
      if BudgetPause(e, id) then Held
      else if e == Resumed(id, false) && BudgetEra(past, id).Held? then Overridden
      else if e == Resumed(id, true) && BudgetEra(past, id).Held? then Leaked
      else BudgetEra(past, id)
  }

  /** The operator never resumed the sprint from a rate pause. */
  predicate NoSkips(moves: History<Move>, id: SprintId) {
    match moves
    case Start => true
    case Then(past, e) =>
      NoSkips(past, id) && !(e == Resumed(id, false) && past.Then? && LeavesRatePause(past.event, id))
  }

  predicate LeavesRatePause(e: Move, id: SprintId) {
    e.Moved? && e.id == id && e.from.Paused? && e.from.reason.RateCapped?
  }

  predicate Enforced(c: Config) {
    c.limit.Some? && c.limit.value > 0.0 && HasApiWorker(c)
  }

  /** The sprint works, or sleeps until it may work again. */
  predicate Active(state: SprintState) {
    state.Running? || (state.Paused? && state.reason.RateCapped?)
  }

  predicate EraOk(c: Config, state: SprintState, spent: real, era: Era) {
    && (state.Queued? ==> spent == 0.0)
    && (Active(state) && c.limit.Some? && spent >= c.limit.value ==> era.Overridden? || era.Leaked?)
    && (state.Paused? && state.reason.OverBudget? ==> era.Held?)
    && (state.Queued? || Active(state) ==> !era.Held?)
  }

  /** Without operator skips there is a reset entry only while the sprint sleeps, or
      after it was ended in its sleep. */
  predicate NoStale(s: State, id: SprintId) {
    NoSkips(s.moves, id) ==>
      && !BudgetEra(s.moves, id).Leaked?
      && (id in s.resets ==> id in s.sprints && (s.sprints[id].state.Terminal() || Sleeping(s.sprints[id].state)))
  }

  predicate Sleeping(state: SprintState) {
    state.Paused? && state.reason.RateCapped?
  }

  predicate Guarded(c: Config, s: State, id: SprintId) {
    && (id !in s.sprints ==> SpendOf(s, id) == 0.0 && !BudgetEra(s.moves, id).Held?)
    && (id in s.sprints ==> EraOk(c, s.sprints[id].state, SpendOf(s, id), BudgetEra(s.moves, id)))
    && NoStale(s, id)
  }

  /** Nothing the guard looks at has changed for sprint `id`. */
  predicate SameGuard(s: State, s': State, id: SprintId) {
    && (id in s'.sprints <==> id in s.sprints)
    && (id in s.sprints ==> s'.sprints[id].state == s.sprints[id].state)
    && SpendOf(s', id) == SpendOf(s, id)
    && (id in s'.resets <==> id in s.resets)
    && BudgetEra(s'.moves, id) == BudgetEra(s.moves, id)
    && (NoSkips(s'.moves, id) <==> NoSkips(s.moves, id))
  }

  // ----- one sprint moves: `i` is watched, `id` moves -----

  lemma MovedEra(moves: History<Move>, e: Move, i: SprintId)
    requires e.Moved?
    ensures BudgetEra(Then(moves, e), i) == if BudgetPause(e, i) then Held else BudgetEra(moves, i)
    ensures NoSkips(Then(moves, e), i) <==> NoSkips(moves, i)
  {}

  lemma ShiftedElsewhere(s: State, s': State, id: SprintId, next: SprintState, i: SprintId)
    requires Shifted(s, s', id, next) && i != id
    ensures SameGuard(s, s', i)
  {
    MovedEra(s.moves, s'.moves.event, i);
  }

  /** A sprint ended. */
  lemma EndGuards(c: Config, s: State, s': State, id: SprintId, next: SprintState, i: SprintId)
    requires Guarded(c, s, i) && Shifted(s, s', id, next) && next.Terminal()
    ensures Guarded(c, s', i)
  {
    MovedEra(s.moves, s'.moves.event, i);
    if i != id {
      ShiftedElsewhere(s, s', id, next, i);
    }
  }

  /** A sprint over its budget paused. */
  lemma PauseGuards(c: Config, s: State, s': State, id: SprintId, next: SprintState, i: SprintId)
    requires Shifted(s, s', id, next) && next.Paused? && next.reason.OverBudget? && s.sprints[id].state.Running?
    requires if i == id then NoStale(s, i) else Guarded(c, s, i)
    ensures Guarded(c, s', i)
  {
    MovedEra(s.moves, s'.moves.event, i);
    if i != id {
      ShiftedElsewhere(s, s', id, next, i);
    }
  }

  /** A queued sprint started. */
  lemma StartGuards(c: Config, s: State, s': State, id: SprintId, next: SprintState, i: SprintId)
    requires Guarded(c, s, i) && Shifted(s, s', id, next) && next.Running? && s.sprints[id].state.Queued? && Enforced(c)
    ensures Guarded(c, s', i)
  {
    MovedEra(s.moves, s'.moves.event, i);
    if i != id {
      ShiftedElsewhere(s, s', id, next, i);
    }
  }

  /** A sprint fell asleep, with a new reset entry. */
  lemma SleepGuards(c: Config, s: State, resetAt: Time, s': State, id: SprintId, next: SprintState, i: SprintId)
    requires Guarded(c, s, i) && Sleeping(next) && id in s.sprints && s.sprints[id].state.Running?
    requires Shifted(s.(resets := s.resets[id := resetAt]), s', id, next)
    ensures Guarded(c, s', i)
  {
    MovedEra(s.moves, s'.moves.event, i);
    if i != id {
      assert SameGuard(s, s', i);
    }
  }

  lemma ResumedEra(moves: History<Move>, e: Move, byTick: bool, i: SprintId)
    requires e.Moved? && e.to.Running?
    ensures var after := Then(Then(moves, e), Resumed(e.id, byTick));
            && BudgetEra(after, i) ==
              (if i == e.id && BudgetEra(moves, i).Held? then (if byTick then Leaked else Overridden)
                                       else BudgetEra(moves, i))
            && (NoSkips(after, i) <==> NoSkips(moves, i) && !(!byTick && LeavesRatePause(e, i)))
  {
    MovedEra(moves, e, i);
  }

  /** The operator resumed the sprint. */
  lemma OperatorGuards(c: Config, s: State, id: SprintId, now: Time, i: SprintId)
    requires Guarded(c, s, i)
    ensures Guarded(c, Resume(s, id, false, now).1, i)
  {
    if id in s.sprints && s.sprints[id].state.Paused? {
      var next := Running(now, s.sprints[id].state.elapsed);
      var s1, s2 := Transition(s, id, next, now).1, Resume(s, id, false, now).1;
      TransitionShifts(s, id, next, now);
      ResumedEra(s.moves, s1.moves.event, false, i);
      assert s2 == s1.(moves := Then(s1.moves, Resumed(id, false)));
      if i != id {
        assert SameGuard(s, s2, i);
      }
    }
  }

  /** A tick found a reset entry that is due. */
  lemma LiftGuards(c: Config, s: State, id: SprintId, now: Time, i: SprintId)
    requires Guarded(c, s, i) && id in s.sprints && s.sprints[id].state.Paused? && id in s.resets && now >= s.resets[id]
    ensures Guarded(c, TickHead(s, id, now).1, i)
  {
    var s0 := s.(resets := s.resets - {id}, runtime := SaveReset(s.runtime, id, None));
    var next := Running(now, s.sprints[id].state.elapsed);
    var s1 := Transition(s0, id, next, now).1;
    var s2 := s1.(moves := Then(s1.moves, Resumed(id, true)));
    TransitionShifts(s0, id, next, now);
    ResumedEra(s.moves, s1.moves.event, true, i);
    assert TickHead(s, id, now).1 == s2;
    if i != id {
      assert SameGuard(s, s2, i);
    }
  }

  lemma HeadGuards(c: Config, s: State, id: SprintId, now: Time, i: SprintId)
    requires Guarded(c, s, i) && Enforced(c)
    ensures Guarded(c, TickHead(s, id, now).1, i)
  {
    if id in s.sprints && s.sprints[id].state.Paused? {
      if id in s.resets && now >= s.resets[id] {
        LiftGuards(c, s, id, now, i);
      }
    } else if id in s.sprints && s.sprints[id].state.Queued? {
      TransitionShifts(s, id, Running(now, 0), now);
      StartGuards(c, s, Transition(s, id, Running(now, 0), now).1, id, Running(now, 0), i);
    }
  }

  lemma EndingGuards(c: Config, s: State, id: SprintId, next: SprintState, now: Time, i: SprintId)
    requires Guarded(c, s, i) && next.Terminal()
    ensures Guarded(c, Transition(s, id, next, now).1, i)
  {
    TransitionShifts(s, id, next, now);
    if Shifted(s, Transition(s, id, next, now).1, id, next) {
      EndGuards(c, s, Transition(s, id, next, now).1, id, next, i);
    }
  }

  lemma UntilGuards(c: Config, s: State, id: SprintId, resetAt: Time, now: Time, i: SprintId)
    requires Guarded(c, s, i) && RunningState(s, id)
    ensures Guarded(c, PauseUntil(s, id, resetAt, now), i)
  {
    var st := s.sprints[id].state;
    var next := Paused(now, st.startedAt, st.elapsed + (now - st.startedAt), RateCapped(resetAt));
    var s0 := s.(resets := s.resets[id := resetAt]);
    var s1 := s0.(runtime := SaveReset(s.runtime, id, Some(resetAt)));
    TransitionShifts(s1, id, next, now);
    assert PauseUntil(s, id, resetAt, now) == Transition(s1, id, next, now).1;
    SleepGuards(c, s, resetAt, Transition(s1, id, next, now).1, id, next, i);
  }

  lemma TailGuards(c: Config, s: State, id: SprintId, now: Time, i: SprintId)
    requires Guarded(c, s, i)
    ensures Guarded(c, TickTail(c, s, id, now).1, i)
  {
    if id in s.sprints {
      EndingGuards(c, s, id, Failed(now), now, i);
      EndingGuards(c, s, id, Completed(now, Prs(s, s.sprints[id].tasks)), now, i);
      var slots := FutureSlots(c.workers, s.snapshots, now);
      if slots != [] && s.sprints[id].state.Running? {
        UntilGuards(c, s, id, MinOf(slots), now, i);
      }
    }
  }

  lemma TickGuards(c: Config, s: State, id: SprintId, env: TaskId -> Choice, now: Time, i: SprintId)
    requires Guarded(c, s, i) && Enforced(c)
    ensures Guarded(c, Tick(c, s, id, env, now).1, i)
  {
    var s1 := TickHead(s, id, now).1;
    HeadGuards(c, s, id, now, i);
    BodySame(c, s1, id, env, now);
    var s2 := TickBody(c, s1, id, env, now);
    assert SameGuard(s1, s2, i);
    TailGuards(c, s2, id, now, i);
  }

  // ----- a handle settled -----

  /** Charging the sprint of a live task, and checking its budget right after. */
  lemma ChargedGuards(c: Config, s: State, s': State, id: SprintId, now: Time)
    requires Enforced(c) && Guarded(c, s, id)
    requires id in s.sprints && !s.sprints[id].state.Queued? && !Sleeping(s.sprints[id].state)
    requires s'.sprints == s.sprints && s'.moves == s.moves && s'.resets == s.resets
    ensures Guarded(c, CheckBudget(c, s', id, SpendOf(s', id), now), id)
  {
    var spent := SpendOf(s', id);
    assert NoStale(s', id);
    if spent >= c.limit.value && s.sprints[id].state.Running? {
      var st := s.sprints[id].state;
      var next := Paused(now, st.startedAt, st.elapsed + (now - st.startedAt), OverBudget(spent, c.limit.value));
      TransitionShifts(s', id, next, now);
      assert CheckBudget(c, s', id, spent, now) == Transition(s', id, next, now).1;
      PauseGuards(c, s', Transition(s', id, next, now).1, id, next, id);
    }
  }

  lemma BudgetElsewhere(c: Config, s: State, id: SprintId, spent: real, now: Time, i: SprintId)
    requires i != id
    ensures SameGuard(s, CheckBudget(c, s, id, spent, now), i)
  {
    if c.limit.Some? && RunningState(s, id) {
      var st := s.sprints[id].state;
      var next := Paused(now, st.startedAt, st.elapsed + (now - st.startedAt), OverBudget(spent, c.limit.value));
      TransitionShifts(s, id, next, now);
      ShiftedElsewhere(s, Transition(s, id, next, now).1, id, next, i);
      var s' := CheckBudget(c, s, id, spent, now);
      assert s' == s || s' == Transition(s, id, next, now).1;
    }
  }

  /** The sprint of a live task is neither queued nor asleep. */
  lemma LiveSprint(s: State, a: ActId)
    requires Inv(s) && a in s.acts
    ensures s.acts[a].Awaiting? && s.acts[a].task in s.tasks
    ensures var id := s.tasks[s.acts[a].task].sprint;
            id in s.sprints && !s.sprints[id].state.Queued? && !Sleeping(s.sprints[id].state)
  {
    assert ActOk(s, a) && Listed(s, s.acts[a].task) && StateOk(s, s.tasks[s.acts[a].task].sprint);
  }

  lemma SettleElsewhere(s: State, t: TaskId, outcome: HandleOutcome, now: Time, i: SprintId)
    requires t in s.tasks && (i != s.tasks[t].sprint || outcome.Rejected?)
    ensures SameGuard(s, Settle(s, t, outcome, now), i)
  {}

  lemma HandleGuards(c: Config, s: State, a: ActId, outcome: HandleOutcome, now: Time, i: SprintId)
    requires Inv(s) && Guarded(c, s, i) && Enforced(c)
    ensures Guarded(c, HandleSettled(c, s, a, outcome, now), i)
  {
    if a in s.acts {
      LiveSprint(s, a);
      var t, s1 := s.acts[a].task, Drop(s, a);
      var sid, s2 := s1.tasks[t].sprint, Settle(s1, t, outcome, now);
      assert SameGuard(s, s1, i);
      if i != sid || outcome.Rejected? {
        SettleElsewhere(s1, t, outcome, now, i);
        if i != sid {
          BudgetElsewhere(c, s2, sid, SpendOf(s2, sid), now, i);
        }
      } else {
        ChargedGuards(c, s1, s2, sid, now);
      }
    }
  }

  // ----- all events -----

  lemma SubmitGuards(c: Config, s: State, id: SprintId, ts: seq<TaskId>, briefs: TaskId -> string,
                     required: TaskId -> seq<string>, i: SprintId)
    requires Guarded(c, s, i)
    ensures Guarded(c, Submit(s, id, ts, briefs, required), i)
  {
    var s' := Submit(s, id, ts, briefs, required);
    if FreshIds(s, id, ts) {
      assert s'.moves == Then(s.moves, Created(id));
      assert s'.sprints == s.sprints[id := Sprint(ts, Queued)];
      assert SameMoney(s, s');
    }
  }

  lemma RestartGuards(c: Config, s: State, i: SprintId)
    requires Guarded(c, s, i) && Recorded(s, i)
    ensures Guarded(c, Restart(s), i)
  {
    RestartRecorded(s, i);
    assert ResetOf(Restart(s), i) == ResetOf(s, i);
    assert SameGuard(s, Restart(s), i);
  }

  lemma DoGuards(c: Config, s: State, e: Event, i: SprintId)
    requires Inv(s) && Recorded(s, i) && Guarded(c, s, i) && Enforced(c)
    ensures Guarded(c, Do(c, s, e), i)
  {
    match e
    case Submitting(id, ts, briefs, required) => SubmitGuards(c, s, id, ts, briefs, required, i);
    case Ticking(id, env, now) => TickGuards(c, s, id, env, now, i);
    case Settling(a, outcome, now) => HandleGuards(c, s, a, outcome, now, i);
    case Resuming(id, now) => OperatorGuards(c, s, id, now, i);
    case Cancelling(id, now) => EndingGuards(c, s, id, Cancelled(now), now, i);
    case Observing(w, snap) => assert SameGuard(s, Observe(s, w, snap), i);
    case Restarting => RestartGuards(c, s, i);
    case Booting(ids) => assert SameGuard(s, ResumeAbandoned(s, ids), i);
  }

  lemma {:induction false} AlwaysGuarded(c: Config, es: seq<Event>, i: SprintId)
    requires Enforced(c) && FairEvents(es)
    ensures Guarded(c, Run(c, es), i)
  {
    if es != [] {
      var before := es[..|es| - 1];
      AlwaysGuarded(c, before, i);
      AlwaysInv(c, before);
      InterleavingFacts(c, before, i);
      DoGuards(c, Run(c, before), es[|es| - 1], i);
    }
  }

  // ----- the guard -----

  /** A running sprint at or above the limit has been resumed since its last budget
      pause: by the operator, or by a tick, and the latter only if the operator once
      resumed it from a rate pause. */
  lemma BudgetGuard(c: Config, es: seq<Event>, id: SprintId)
    requires Enforced(c) && FairEvents(es)
    requires var s := Run(c, es); RunningState(s, id) && SpendOf(s, id) >= c.limit.value
    ensures var era := BudgetEra(Run(c, es).moves, id);
            era.Overridden? || (era.Leaked? && !NoSkips(Run(c, es).moves, id))
  {
    AlwaysGuarded(c, es, id);
  }

  predicate OnBudgetPause(s: State, id: SprintId) {
    id in s.sprints && s.sprints[id].state.Paused? && s.sprints[id].state.reason.OverBudget?
  }

  /** A tick lifts a budget pause exactly when the wake-up time of some rate pause,
      never used by a tick, has come. */
  lemma TickLiftsIff(c: Config, es: seq<Event>, id: SprintId, now: Time)
    requires FairEvents(es) && OnBudgetPause(Run(c, es), id)
    ensures var s := Run(c, es);
            RunningState(TickHead(s, id, now).1, id) <==> WakeUp(s.moves, id).Some? && WakeUp(s.moves, id).value <= now
  {
    InterleavingFacts(c, es, id);
  }

  /** Unless the operator resumed the sprint from a rate pause, no tick does anything
      to a sprint on a budget pause. */
  lemma TickRespectsBudget(c: Config, es: seq<Event>, id: SprintId, env: TaskId -> Choice, now: Time)
    requires Enforced(c) && FairEvents(es) && OnBudgetPause(Run(c, es), id) && NoSkips(Run(c, es).moves, id)
    ensures Tick(c, Run(c, es), id, env, now) == (true, Run(c, es))
  {
    AlwaysGuarded(c, es, id);
  }
}
