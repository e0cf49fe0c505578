/** The runtime counters of a sprint (money spent, rate reset) at every
    interleaving and across restarts: memory agrees with the persisted row, and
    both are what the history says. */
module RuntimeRecords {
  import opened Prelude
  import opened Scheduler
  import opened Interleaving

  /** Sum of the costs that returned runs of the sprint reported. */
  function Billed(work: History<Work>, id: SprintId): real {
    match work
    case Start => 0.0
    case Then(past, e) =>
      Billed(past, id) + if e.Returned? && e.sprint == id then OutcomeCost(e.outcome).GetOr(0.0) else 0.0
  }

  /** Did any run of the sprint report a cost, be it zero? */
  predicate Reported(work: History<Work>, id: SprintId) {
    match work
    case Start => false
    case Then(past, e) => Reported(past, id) || (e.Returned? && e.sprint == id && OutcomeCost(e.outcome).Some?)
  }

  predicate RatePause(e: Move, id: SprintId) {
    e.Moved? && e.id == id && e.to.Paused? && e.to.reason.RateCapped?
  }

  /** Wake-up time of the last rate pause, until a tick lifts a pause. */
  function WakeUp(moves: History<Move>, id: SprintId): Option<Time> {
    match moves
    case Start => None
    case Then(past, e) =>
      if RatePause(e, id) then Some(e.to.reason.resetAt)
      else if e == Resumed(id, true) then None
      else WakeUp(past, id)
  }

  predicate EverCapped(moves: History<Move>, id: SprintId) {
    match moves
    case Start => false
    case Then(past, e) => EverCapped(past, id) || RatePause(e, id)
  }

  function ResetOf(s: State, id: SprintId): Option<Time> {
    if id in s.resets then Some(s.resets[id]) else None
  }

  /** The in-memory copies agree with the row; no row reads as 0 and none. */
  predicate Cached(s: State, id: SprintId) {
    SpendOf(s, id) == RowSpent(s.runtime, id) && ResetOf(s, id) == RowReset(s.runtime, id)
  }

  /** The row holds what the history says, and exists only if there was something to save. */
  predicate Persisted(s: State, id: SprintId) {
    && RowSpent(s.runtime, id) == Billed(s.work, id) >= 0.0
    && RowReset(s.runtime, id) == WakeUp(s.moves, id)
    && (id in s.runtime <==> Reported(s.work, id) || EverCapped(s.moves, id))
  }

  predicate Recorded(s: State, id: SprintId) {
    Cached(s, id) && Persisted(s, id)
  }

  predicate NonNegative(outcome: HandleOutcome) {
    OutcomeCost(outcome).GetOr(0.0) >= 0.0
  }

  predicate FairCosts(run: seq<Piece>) {
    forall k :: 0 <= k < |run| && run[k].SettleHandle? ==> NonNegative(run[k].outcome)
  }

  // ----- pieces that touch neither a counter nor what is said about it -----

  predicate SameRecord(s: State, s': State, i: SprintId) {
    && SameMoney(s, s')
    && Billed(s'.work, i) == Billed(s.work, i) && (Reported(s'.work, i) <==> Reported(s.work, i))
    && WakeUp(s'.moves, i) == WakeUp(s.moves, i) && (EverCapped(s'.moves, i) <==> EverCapped(s.moves, i))
  }

  lemma SameRecordKeeps(s: State, s': State, i: SprintId)
    requires Recorded(s, i) && SameRecord(s, s', i)
    ensures Recorded(s', i)
  {}

  lemma {:induction false} AddTasksSame(s: State, id: SprintId, tasks: seq<TaskId>, briefs: TaskId -> string,
                                        required: TaskId -> seq<string>, i: SprintId)
    ensures SameRecord(s, AddTasks(s, id, tasks, briefs, required), i)
    decreases |tasks|
  {
    if tasks != [] {
      var t := tasks[0];
      var s1 := s.(tasks := s.tasks[t := Task(id, briefs(t), Pending, 0, required(t))],
                 work := Then(s.work, Submitted(t)));
      AddTasksSame(s1, id, tasks[1..], briefs, required, i);
    }
  }

  lemma ResetTaskSame(s: State, t: TaskId, i: SprintId)
    ensures SameRecord(s, ResetTask(s, t), i)
  {}

  lemma {:induction false} ResetTasksSame(s: State, tasks: seq<TaskId>, i: SprintId)
    ensures SameRecord(s, ResetTasks(s, tasks), i)
    decreases |tasks|
  {
    if tasks != [] {
      ResetTaskSame(s, tasks[0], i);
      ResetTasksSame(ResetTask(s, tasks[0]), tasks[1..], i);
    }
  }

  lemma {:induction false} ResumeAbandonedSame(s: State, ids: seq<SprintId>, i: SprintId)
    ensures SameRecord(s, ResumeAbandoned(s, ids), i)
    decreases |ids|
  {
    if ids != [] {
      if Abandoned(s, ids[0]) {
        var ts := s.sprints[ids[0]].tasks;
        ResetTasksSame(s, ts, i);
        ResumeAbandonedSame(ResetTasks(s, ts), ids[1..], i);
      } else {
        ResumeAbandonedSame(s, ids[1..], i);
      }
    }
  }

  lemma SubmitSame(s: State, id: SprintId, tasks: seq<TaskId>, briefs: TaskId -> string,
                   required: TaskId -> seq<string>, i: SprintId)
    ensures SameRecord(s, Submit(s, id, tasks, briefs, required), i)
  {
    AddTasksSame(s, id, tasks, briefs, required, i);
  }

  lemma TransitionSame(s: State, id: SprintId, next: SprintState, now: Time, i: SprintId)
    requires !(next.Paused? && next.reason.RateCapped?)
    ensures SameRecord(s, Transition(s, id, next, now).1, i)
  {}

  lemma OperatorSame(s: State, id: SprintId, now: Time, i: SprintId)
    ensures SameRecord(s, Resume(s, id, false, now).1, i)
  {
    if id in s.sprints && s.sprints[id].state.Paused? {
      var next := Running(now, s.sprints[id].state.elapsed);
      TransitionSame(s, id, next, now, i);
      var s1 := Transition(s, id, next, now).1;
      assert Resume(s, id, false, now).1 == s1.(moves := Then(s1.moves, Resumed(id, false)));
    }
  }

  lemma BudgetSame(c: Config, s: State, id: SprintId, spent: real, now: Time, i: SprintId)
    ensures SameRecord(s, CheckBudget(c, s, id, spent, now), i)
  {}

  lemma AssignSame(s: State, a: ActId, t: TaskId, rec: Task, w: WorkerId, now: Time, i: SprintId)
    ensures SameRecord(s, Assign(s, a, t, rec, w, now), i)
  {}

  lemma DispatchSame(c: Config, s: State, t: TaskId, rec: Task, w: WorkerId, now: Time, i: SprintId)
    ensures SameRecord(s, BeginDispatch(c, s, t, rec, w, now), i)
  {
    AssignSame(Take(s, Briefing(t, rec, w)), s.nextAct, t, rec, w, now, i);
  }

  /** At most one event was added, and no handle came back. */
  predicate NoReturn(s: State, s': State) {
    && s'.moves == s.moves
    && (s'.work == s.work || (s'.work.Then? && s'.work.past == s.work && !s'.work.event.Returned?))
  }

  lemma NoReturnSame(s: State, s': State, i: SprintId)
    requires SameMoney(s, s') && NoReturn(s, s')
    ensures SameRecord(s, s', i)
  {}

  lemma BriefReturns(s: State, a: ActId, brief: Option<string>, now: Time)
    ensures NoReturn(s, BriefLoaded(s, a, brief, now))
  {}

  lemma BriefSame(s: State, a: ActId, brief: Option<string>, now: Time, i: SprintId)
    ensures SameRecord(s, BriefLoaded(s, a, brief, now), i)
  {
    BriefReturns(s, a, brief, now);
    NoReturnSame(s, BriefLoaded(s, a, brief, now), i);
  }

  lemma SpawnSame(s: State, a: ActId, ok: bool, now: Time, i: SprintId)
    ensures SameRecord(s, Spawned(s, a, ok, now), i)
  {}

  // ----- the three writers -----

  lemma LiftRecorded(s: State, id: SprintId, now: Time, i: SprintId)
    requires Recorded(s, i) && id in s.sprints && s.sprints[id].state.Paused? && id in s.resets && now >= s.resets[id]
    ensures Recorded(TickHead(s, id, now).1, i)
  {
    var s1 := s.(resets := s.resets - {id}, runtime := SaveReset(s.runtime, id, None));
    var next := Running(now, s.sprints[id].state.elapsed);
    var s2 := Transition(s1, id, next, now).1;
    assert i == id ==> id in s.runtime;
    TransitionSame(s1, id, next, now, i);
    var s3 := s2.(moves := Then(s2.moves, Resumed(id, true)));
    assert WakeUp(s3.moves, i) == if i == id then None else WakeUp(s.moves, i);
    assert Persisted(s3, i);
    assert Cached(s3, i);
    assert TickHead(s, id, now).1 == s3;
  }

  lemma HeadRecorded(s: State, id: SprintId, now: Time, i: SprintId)
    requires Recorded(s, i)
    ensures Recorded(TickHead(s, id, now).1, i)
  {
    if id in s.sprints && s.sprints[id].state.Paused? && id in s.resets && now >= s.resets[id] {
      LiftRecorded(s, id, now, i);
    } else {
      TransitionSame(s, id, Running(now, 0), now, i);
      SameRecordKeeps(s, TickHead(s, id, now).1, i);
    }
  }

  lemma PauseRecorded(s: State, id: SprintId, resetAt: Time, now: Time, i: SprintId)
    requires Recorded(s, i) && id in s.sprints && s.sprints[id].state.Running?
    ensures Recorded(PauseUntil(s, id, resetAt, now), i)
  {
    var s' := PauseUntil(s, id, resetAt, now);
    assert s'.moves.Then? && s'.moves.past == s.moves && RatePause(s'.moves.event, id);
    assert Cached(s', i);
  }

  lemma RateRecorded(c: Config, s: State, id: SprintId, now: Time, i: SprintId)
    requires Recorded(s, i)
    ensures Recorded(CheckRate(c, s, id, now), i)
  {
    var slots := FutureSlots(c.workers, s.snapshots, now);
    if slots != [] && id in s.sprints && s.sprints[id].state.Running? {
      PauseRecorded(s, id, MinOf(slots), now, i);
    }
  }

  lemma TailRecorded(c: Config, s: State, id: SprintId, now: Time, i: SprintId)
    requires Recorded(s, i)
    ensures Recorded(TickTail(c, s, id, now).1, i)
  {
    var s' := TickTail(c, s, id, now).1;
    if id in s.sprints && s' != s {
      var prs := Prs(s, s.sprints[id].tasks);
      RateRecorded(c, s, id, now, i);
      TransitionSame(s, id, Failed(now), now, i);
      TransitionSame(s, id, Completed(now, prs), now, i);
      assert s' == CheckRate(c, s, id, now) || s' == Transition(s, id, Failed(now), now).1
        || s' == Transition(s, id, Completed(now, prs), now).1;
    }
  }

  lemma ChargeCached(s: State, sid: SprintId, cost: Option<real>, i: SprintId)
    requires Cached(s, i)
    ensures var s' := Charge(s, sid, cost);
            && Cached(s', i)
            && RowSpent(s'.runtime, i) == RowSpent(s.runtime, i) + (if i == sid then cost.GetOr(0.0) else 0.0)
            && RowReset(s'.runtime, i) == RowReset(s.runtime, i)
            && (i in s'.runtime <==> i in s.runtime || (i == sid && cost.Some?))
  {}

  lemma LedgerGrows(work: History<Work>, t: TaskId, sid: SprintId, outcome: HandleOutcome, i: SprintId)
    ensures var cost, work' := OutcomeCost(outcome), Then(work, Returned(t, sid, outcome));
            && Billed(work', i) == Billed(work, i) + (if i == sid then cost.GetOr(0.0) else 0.0)
            && (Reported(work', i) <==> Reported(work, i) || (i == sid && cost.Some?))
  {}

  lemma ChargeRecorded(s: State, t: TaskId, sid: SprintId, outcome: HandleOutcome, i: SprintId)
    requires Recorded(s, i) && NonNegative(outcome)
    ensures Recorded(Charge(s, sid, OutcomeCost(outcome)).(work := Then(s.work, Returned(t, sid, outcome))), i)
  {
    var cost, work' := OutcomeCost(outcome), Then(s.work, Returned(t, sid, outcome));
    LedgerGrows(s.work, t, sid, outcome, i);
    ChargeCached(s, sid, cost, i);
    var s' := Charge(s, sid, cost).(work := work');
    assert s'.moves == s.moves;
    assert Cached(s', i);
    assert Persisted(s', i);
  }

  lemma SettleRecorded(s: State, t: TaskId, outcome: HandleOutcome, now: Time, i: SprintId)
    requires Recorded(s, i) && t in s.tasks && NonNegative(outcome)
    ensures Recorded(Settle(s, t, outcome, now), i)
  {
    var sid := s.tasks[t].sprint;
    var s1 := s.(running := s.running - {t});
    assert Recorded(s1, i);
    ChargeRecorded(s1, t, sid, outcome, i);
    var s2 := Charge(s1, sid, OutcomeCost(outcome)).(work := Then(s.work, Returned(t, sid, outcome)));
    var s' := Settle(s, t, outcome, now);
    assert SameMoney(s2, s') && s'.work == s2.work && s'.moves == s2.moves;
    SameRecordKeeps(s2, s', i);
  }

  lemma HandleRecorded(c: Config, s: State, a: ActId, outcome: HandleOutcome, now: Time, i: SprintId)
    requires Recorded(s, i) && NonNegative(outcome)
    ensures Recorded(HandleSettled(c, s, a, outcome, now), i)
  {
    if a in s.acts && s.acts[a].Awaiting? {
      var t, s1 := s.acts[a].task, Drop(s, a);
      assert Recorded(s1, i);
      if t in s1.tasks {
        var sid, s2 := s1.tasks[t].sprint, Settle(s1, t, outcome, now);
        SettleRecorded(s1, t, outcome, now, i);
        BudgetSame(c, s2, sid, SpendOf(s2, sid), now, i);
        SameRecordKeeps(s2, CheckBudget(c, s2, sid, SpendOf(s2, sid), now), i);
      }
    }
  }

  /** Rehydration reproduces the in-memory copies exactly. */
  lemma RestartRecorded(s: State, i: SprintId)
    requires Persisted(s, i)
    ensures Recorded(Restart(s), i)
  {}

  predicate WritesRecords(p: Piece) {
    p.StartTick? || p.EndTick? || p.SettleHandle? || p.RestartProcess?
  }

  lemma ApplySame(c: Config, s: State, p: Piece, i: SprintId)
    requires !WritesRecords(p)
    ensures SameRecord(s, Apply(c, s, p), i)
  {
    match p
    case SubmitSprint(id, tasks, briefs, required) => SubmitSame(s, id, tasks, briefs, required, i);
    case FailTask(_, _, _) =>
    case StartDispatch(t, rec, w, now) => DispatchSame(c, s, t, rec, w, now, i);
    case DeliverBrief(a, brief, now) => BriefSame(s, a, brief, now, i);
    case DeliverSpawn(a, ok, now) => SpawnSame(s, a, ok, now, i);
    case OperatorResume(id, now) => OperatorSame(s, id, now, i);
    case StartCancel(_) =>
    case EndCancel(id, now) => TransitionSame(s, id, Cancelled(now), now, i);
    case ObserveHeaders(_, _) =>
    case ResumeOnBoot(ids) => ResumeAbandonedSame(s, ids, i);
  }

  lemma ApplyRecorded(c: Config, s: State, p: Piece, i: SprintId)
    requires Recorded(s, i) && (p.SettleHandle? ==> NonNegative(p.outcome))
    ensures Recorded(Apply(c, s, p), i)
  {
    if !WritesRecords(p) {
      ApplySame(c, s, p, i);
      SameRecordKeeps(s, Apply(c, s, p), i);
    } else {
      match p
      case StartTick(id, now) => HeadRecorded(s, id, now, i);
      case EndTick(id, now) => TailRecorded(c, s, id, now, i);
      case SettleHandle(a, outcome, now) => HandleRecorded(c, s, a, outcome, now, i);
      case RestartProcess => RestartRecorded(s, i);
    }
  }

  /** After every operation of every run the counters in memory equal the row, the
      spend is the sum of all reported costs, the reset is the last wake-up time no
      tick has used, and a row that exists is the mark that something was reported. */
  lemma {:induction false} AlwaysRecorded(c: Config, run: seq<Piece>, i: SprintId)
    requires FairCosts(run)
    ensures Recorded(After(c, run), i)
  {
    if run != [] {
      var before, p := run[..|run| - 1], run[|run| - 1];
      AlwaysRecorded(c, before, i);
      ApplyRecorded(c, After(c, before), p, i);
    }
  }

  /** What the assumption on costs is for: rehydration skips a negative total, so a
      restart keeps the copy equal to the row exactly when the total is not negative. */
  lemma RestartAgrees(s: State, i: SprintId)
    ensures Cached(Restart(s), i) <==> RowSpent(s.runtime, i) >= 0.0
  {}

  /** The two upserts commute and leave each other's column alone. */
  lemma UpsertsIndependent(m: map<SprintId, RuntimeRow>, i: SprintId, j: SprintId, spent: real, resetAt: Option<Time>)
    ensures RowReset(SaveSpend(m, i, spent), j) == RowReset(m, j)
    ensures RowSpent(SaveReset(m, i, resetAt), j) == RowSpent(m, j)
    ensures SaveSpend(SaveReset(m, i, resetAt), i, spent) == SaveReset(SaveSpend(m, i, spent), i, resetAt)
  {}
}
