/** The set of sprints the orchestrator keeps ticking (src/orchestrator/index.ts). */
module Orchestrator {
  import opened Prelude
  import opened Scheduler
  import S = Scheduler
  import opened Interleaving
  import opened SprintHistory
  import M = SprintManager

  predicate EndsSprint(e: Move) {
    e.Moved? && e.to.Terminal()
  }

  /** `handleEvent`: a sprint that ended leaves the set. */
  function Handle(active: set<SprintId>, e: Move): set<SprintId> {
    if EndsSprint(e) then active - {e.id} else active
  }

  /** The events a piece emits are handled before it returns. A piece emits one move,
      or a move to `running` followed by its `sprint.resumed`, or none. */
  function HandleNew(active: set<SprintId>, s: State, s': State): set<SprintId> {
    if s'.moves.Then? && s'.moves.past == s.moves then Handle(active, s'.moves.event) else active
  }

  /** Sprints that `resumeAbandoned` reports. */
  function Adopted(s: State, ids: seq<SprintId>): set<SprintId> {
    set id | id in ids && Abandoned(s, id)
  }

  /** `activeSprintIds` after a piece: event handling, and what the calling method
      of the orchestrator adds or removes. */
  function Activate(c: Config, s: State, active: set<SprintId>, p: Piece): set<SprintId> {
    var handled := HandleNew(active, s, Apply(c, s, p));
    match p
    case SubmitSprint(id, tasks, _, _) => if FreshIds(s, id, tasks) then handled + {id} else handled
    case OperatorResume(id, now) => if Resume(s, id, false, now).0 then handled + {id} else handled
    case StartCancel(id) => if BeginCancel(s, id).AlreadyOver? then handled - {id} else handled
    case EndCancel(id, now) => if FinishCancel(s, id, now).0 then handled - {id} else handled
    case ResumeOnBoot(ids) => handled + Adopted(s, ids)
    case RestartProcess => {}
    case _ => handled
  }

  function Active(c: Config, run: seq<Piece>): set<SprintId> {
    if run == [] then {}
    else Activate(c, After(c, run[..|run| - 1]), Active(c, run[..|run| - 1]), run[|run| - 1])
  }

  /** Was the sprint submitted or resumed in this process? */
  predicate Joins(s: State, p: Piece, id: SprintId) {
    match p
    case SubmitSprint(i, tasks, _, _) => i == id && FreshIds(s, id, tasks)
    case OperatorResume(i, _) =>
      i == id && id in s.sprints && (s.sprints[id].state.Running? || s.sprints[id].state.Paused?)
    case ResumeOnBoot(ids) => id in ids && Abandoned(s, id)
    case _ => false
  }

  predicate Joined(c: Config, run: seq<Piece>, id: SprintId) {
    run != [] &&
    var before, p := run[..|run| - 1], run[|run| - 1];
    Joins(After(c, before), p, id) || (!p.RestartProcess? && Joined(c, before, id))
  }

  predicate Over(s: State, id: SprintId) {
    id in s.sprints && s.sprints[id].state.Terminal()
  }

  /** The set holds the sprint exactly when it joined and is not over. */
  predicate Right(s: State, active: set<SprintId>, joined: bool, id: SprintId) {
    (joined ==> id in s.sprints) && (id in active <==> joined && !Over(s, id))
  }

  // ----- what pieces do to a sprint and to the handler, `id` being watched -----

  /** The handler removes the sprint exactly when the piece ended it. */
  predicate InStep(s: State, s': State, id: SprintId) {
    && (id in s.sprints ==> id in s'.sprints)
    && (Over(s, id) ==> Over(s', id))
    && (id in s.sprints && !Over(s, id) ==>
          (Over(s', id) <==>
               s'.moves.Then? && s'.moves.past == s.moves && EndsSprint(s'.moves.event) && s'.moves.event.id == id))
  }

  lemma SameInStep(s: State, s': State, id: SprintId)
    requires SameSprints(s, s')
    ensures InStep(s, s', id)
  {}

  lemma ShiftInStep(s: State, s': State, i: SprintId, next: SprintState, id: SprintId)
    requires Shifted(s, s', i, next) && CanTransition(s.sprints[i].state, next)
    ensures InStep(s, s', id)
  {}

  lemma TransitionInStep(s: State, i: SprintId, next: SprintState, now: Time, id: SprintId)
    ensures InStep(s, Transition(s, i, next, now).1, id)
  {
    var s' := Transition(s, i, next, now).1;
    TransitionShifts(s, i, next, now);
    if i in s.sprints && CanTransition(s.sprints[i].state, next) {
      ShiftInStep(s, s', i, next, id);
    } else {
      SameInStep(s, s', id);
    }
  }

  lemma ResumeInStep(s: State, i: SprintId, byTick: bool, now: Time, id: SprintId)
    ensures InStep(s, Resume(s, i, byTick, now).1, id)
  {
    var s' := Resume(s, i, byTick, now).1;
    if i in s.sprints && s.sprints[i].state.Paused? {
      var next := Running(now, s.sprints[i].state.elapsed);
      TransitionShifts(s, i, next, now);
      var s1 := Transition(s, i, next, now).1;
      assert s' == s1.(moves := Then(s1.moves, Resumed(i, byTick)));
      assert s'.sprints == s.sprints[i := s.sprints[i].(state := next)];
    } else {
      SameInStep(s, s', id);
    }
  }

  lemma HeadInStep(s: State, i: SprintId, now: Time, id: SprintId)
    ensures InStep(s, TickHead(s, i, now).1, id)
  {
    if i in s.sprints && s.sprints[i].state.Paused? && i in s.resets && now >= s.resets[i] {
      var s1 := s.(resets := s.resets - {i}, runtime := SaveReset(s.runtime, i, None));
      ResumeInStep(s1, i, true, now, id);
      assert TickHead(s, i, now).1 == Resume(s1, i, true, now).1;
    } else {
      TransitionInStep(s, i, Running(now, 0), now, id);
    }
  }

  lemma UntilInStep(s: State, i: SprintId, resetAt: Time, now: Time, id: SprintId)
    requires i in s.sprints && s.sprints[i].state.Running?
    ensures InStep(s, PauseUntil(s, i, resetAt, now), id)
  {
    var st := s.sprints[i].state;
    var s1 := s.(resets := s.resets[i := resetAt], runtime := SaveReset(s.runtime, i, Some(resetAt)));
    var next := Paused(now, st.startedAt, st.elapsed + (now - st.startedAt), RateCapped(resetAt));
    TransitionInStep(s1, i, next, now, id);
    assert PauseUntil(s, i, resetAt, now) == Transition(s1, i, next, now).1;
  }

  lemma TailInStep(c: Config, s: State, i: SprintId, now: Time, id: SprintId)
    ensures InStep(s, TickTail(c, s, i, now).1, id)
  {
    var s' := TickTail(c, s, i, now).1;
    if i in s.sprints && s' != s {
      var prs := Prs(s, s.sprints[i].tasks);
      TransitionInStep(s, i, Failed(now), now, id);
      TransitionInStep(s, i, Completed(now, prs), now, id);
      RateInStep(c, s, i, now, id);
      assert s' == CheckRate(c, s, i, now) || s' == Transition(s, i, Failed(now), now).1
        || s' == Transition(s, i, Completed(now, prs), now).1;
    }
  }

  lemma RateInStep(c: Config, s: State, i: SprintId, now: Time, id: SprintId)
    ensures InStep(s, CheckRate(c, s, i, now), id)
  {
    var slots := FutureSlots(c.workers, s.snapshots, now);
    if slots != [] && i in s.sprints && s.sprints[i].state.Running? {
      UntilInStep(s, i, MinOf(slots), now, id);
    }
  }

  lemma BudgetInStep(c: Config, s: State, i: SprintId, spent: real, now: Time, id: SprintId)
    ensures InStep(s, CheckBudget(c, s, i, spent, now), id)
  {
    if c.limit.Some? && i in s.sprints && s.sprints[i].state.Running? {
      var st := s.sprints[i].state;
      var next := Paused(now, st.startedAt, st.elapsed + (now - st.startedAt), OverBudget(spent, c.limit.value));
      TransitionInStep(s, i, next, now, id);
      assert CheckBudget(c, s, i, spent, now) == s || CheckBudget(c, s, i, spent, now) == Transition(s, i, next, now).1;
    }
  }

  lemma InStepFrom(s: State, s1: State, s2: State, id: SprintId)
    requires SameSprints(s, s1) && InStep(s1, s2, id)
    ensures InStep(s, s2, id)
  {}

  lemma HandleInStep(c: Config, s: State, a: ActId, outcome: HandleOutcome, now: Time, id: SprintId)
    ensures InStep(s, HandleSettled(c, s, a, outcome, now), id)
  {
    if a in s.acts && s.acts[a].Awaiting? && s.acts[a].task in s.tasks {
      var sid, s2 := s.tasks[s.acts[a].task].sprint, SettleAct(s, a, outcome, now);
      BudgetInStep(c, s2, sid, SpendOf(s2, sid), now, id);
      InStepFrom(s, s2, CheckBudget(c, s2, sid, SpendOf(s2, sid), now), id);
      SameInStep(s, s2, id);
      assert HandleSettled(c, s, a, outcome, now)
        == if outcome.Rejected? then s2 else CheckBudget(c, s2, sid, SpendOf(s2, sid), now);
    } else {
      SameInStep(s, HandleSettled(c, s, a, outcome, now), id);
    }
  }

  lemma SubmitInStep(s: State, i: SprintId, tasks: seq<TaskId>, briefs: TaskId -> string,
                     required: TaskId -> seq<string>, id: SprintId)
    ensures InStep(s, Submit(s, i, tasks, briefs, required), id)
  {
    if FreshIds(s, i, tasks) {
      var s' := Submit(s, i, tasks, briefs, required);
      assert s'.moves == Then(s.moves, Created(i)) && s'.sprints == s.sprints[i := Sprint(tasks, Queued)];
    }
  }

  lemma ApplyInStep(c: Config, s: State, p: Piece, id: SprintId)
    ensures InStep(s, Apply(c, s, p), id)
  {
    if LeavesSprints(p) {
      LeavesSprintsSame(c, s, p);
      SameInStep(s, Apply(c, s, p), id);
    } else {
      match p
      case SubmitSprint(i, tasks, briefs, required) => SubmitInStep(s, i, tasks, briefs, required, id);
      case StartTick(i, now) => HeadInStep(s, i, now, id);
      case EndTick(i, now) => TailInStep(c, s, i, now, id);
      case SettleHandle(a, outcome, now) => HandleInStep(c, s, a, outcome, now, id);
      case OperatorResume(i, now) => ResumeInStep(s, i, false, now, id);
      case EndCancel(i, now) => TransitionInStep(s, i, Cancelled(now), now, id);
    }
  }

  /** A piece that ends no sprint but lets one join. */
  lemma JoinLives(c: Config, s: State, p: Piece, id: SprintId)
    requires Joins(s, p, id)
    ensures id in Apply(c, s, p).sprints && !Over(Apply(c, s, p), id)
  {
    match p
    case SubmitSprint(i, tasks, briefs, required) =>
      assert Submit(s, i, tasks, briefs, required).sprints == s.sprints[i := Sprint(tasks, Queued)];
    case OperatorResume(i, now) =>
      assert Apply(c, s, p) == Resume(s, i, false, now).1;
    case ResumeOnBoot(ids) =>
      assert Apply(c, s, p).sprints == s.sprints;
  }

  lemma HandledIff(active: set<SprintId>, s: State, s': State, id: SprintId)
    ensures id in HandleNew(active, s, s') <==>
      id in active && !(s'.moves.Then? && s'.moves.past == s.moves && EndsSprint(s'.moves.event)
        && s'.moves.event.id == id)
  {}

  lemma ActivateRight(c: Config, s: State, active: set<SprintId>, joined: bool, p: Piece, id: SprintId)
    requires Right(s, active, joined, id)
    ensures Right(Apply(c, s, p), Activate(c, s, active, p), Joins(s, p, id) || (!p.RestartProcess? && joined), id)
  {
    var s' := Apply(c, s, p);
    ApplyInStep(c, s, p, id);
    HandledIff(active, s, s', id);
    if Joins(s, p, id) {
      JoinLives(c, s, p, id);
    }
    if p.EndCancel? && p.id == id {
      CancelOver(s, id, p.now);
    }
  }

  lemma CancelOver(s: State, id: SprintId, now: Time)
    ensures FinishCancel(s, id, now).0 ==> Over(FinishCancel(s, id, now).1, id)
  {}

  /** Within one process, after every interleaving, the orchestrator's active set is
      exactly the submitted or resumed sprints that are not terminal. */
  lemma {:induction false} ActiveExact(c: Config, run: seq<Piece>, id: SprintId)
    ensures id in Active(c, run) <==> Joined(c, run, id) && !Over(After(c, run), id)
    ensures Joined(c, run, id) ==> id in After(c, run).sprints
  {
    if run != [] {
      var before, p := run[..|run| - 1], run[|run| - 1];
      ActiveExact(c, before, id);
      ActivateRight(c, After(c, before), Active(c, before), Joined(c, before, id), p, id);
    }
  }

  /** The object that owns the set. What the manager's `emit` told `handleEvent` during a
      call is what the call added to the event table. */
  class Orchestrator {
    const sprints: M.SprintManager
    var activeSprintIds: set<SprintId>

    constructor (sprints: M.SprintManager)
      ensures this.sprints == sprints && activeSprintIds == {}
    {
      this.sprints, activeSprintIds := sprints, {};
    }

    method HandleEvent(e: Move)
      modifies this
      ensures activeSprintIds == Handle(old(activeSprintIds), e)
    {
      if e.Moved? && (e.to.Completed? || e.to.Cancelled? || e.to.Failed?) {
        activeSprintIds := activeSprintIds - {e.id};
      }
    }

    /** Handle the event added to a table that read `before`. */
    method HandleSince(before: History<Move>, ghost s: State)
      requires before == s.moves
      modifies this
      ensures activeSprintIds == HandleNew(old(activeSprintIds), s, old(sprints.View()))
    {
      var moves := sprints.store.moves;
      if moves.Then? && moves.past == before { HandleEvent(moves.event); }
    }

    method SubmitSprint(id: SprintId, tasks: seq<TaskId>, briefs: TaskId -> string, required: TaskId -> seq<string>)
      requires FreshIds(sprints.View(), id, tasks)
      modifies this, sprints.store
      ensures var p := Piece.SubmitSprint(id, tasks, briefs, required);
              && sprints.View() == Apply(sprints.Settings(), old(sprints.View()), p)
              && activeSprintIds == Activate(sprints.Settings(), old(sprints.View()), old(activeSprintIds), p)
    {
      var before := sprints.store.moves;
      sprints.StartSprint(id, tasks, briefs, required);
      HandleSince(before, old(sprints.View()));
      activeSprintIds := activeSprintIds + {id};
    }

    method ResumeSprint(id: SprintId, now: Time) returns (ok: bool)
      modifies this, sprints.store
      ensures var p := OperatorResume(id, now);
              && ok == Resume(old(sprints.View()), id, false, now).0
              && sprints.View() == Apply(sprints.Settings(), old(sprints.View()), p)
              && activeSprintIds == Activate(sprints.Settings(), old(sprints.View()), old(activeSprintIds), p)
    {
      var before := sprints.store.moves;
      ok := sprints.ResumeSprint(id, false, now);
      HandleSince(before, old(sprints.View()));
      if ok { activeSprintIds := activeSprintIds + {id}; }
    }

    /** `cancelSprint` up to the wait of the manager. */
    method BeginCancel(id: SprintId) returns (entry: Entry)
      modifies this
      ensures entry == S.BeginCancel(sprints.View(), id)
      ensures activeSprintIds == Activate(sprints.Settings(), sprints.View(), old(activeSprintIds), StartCancel(id))
    {
      entry := sprints.BeginCancel(id);
      NotOwnPast(sprints.View().moves);
      if entry.AlreadyOver? { activeSprintIds := activeSprintIds - {id}; }
    }

    /** `cancelSprint` after it; false when it throws, which leaves the set to the event
        that ended the sprint. */
    method FinishCancel(id: SprintId, now: Time) returns (ok: bool)
      modifies this, sprints.store
      ensures var p := EndCancel(id, now);
              && ok == S.FinishCancel(old(sprints.View()), id, now).0
              && sprints.View() == Apply(sprints.Settings(), old(sprints.View()), p)
              && activeSprintIds == Activate(sprints.Settings(), old(sprints.View()), old(activeSprintIds), p)
    {
      var before := sprints.store.moves;
      ok := sprints.FinishCancel(id, now);
      HandleSince(before, old(sprints.View()));
      if ok { activeSprintIds := activeSprintIds - {id}; }
    }

    /** The end of a tick; false when it throws. */
    method EndTick(id: SprintId, now: Time) returns (ok: bool)
      modifies this, sprints, sprints.store
      ensures var p := Piece.EndTick(id, now);
              && sprints.View() == Apply(sprints.Settings(), old(sprints.View()), p)
              && activeSprintIds == Activate(sprints.Settings(), old(sprints.View()), old(activeSprintIds), p)
    {
      var before := sprints.store.moves;
      ok := sprints.TickTail(id, now);
      HandleSince(before, old(sprints.View()));
    }
  }

  lemma {:induction false} NotOwnPast(h: History<Move>)
    ensures h.Then? ==> h.past != h
  {
    if h.Then? { NotOwnPast(h.past); }
  }
}
