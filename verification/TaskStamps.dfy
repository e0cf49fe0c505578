/** What a changed task record says: when it changed, and which worker has the task. */
module TaskStamps {
  import opened Prelude
  import opened Scheduler
  import opened Interleaving
  import opened SprintSteps

  /** The moment of a piece; None for those that read no clock. */
  function TimeOf(p: Piece): Option<Time> {
    match p
    case StartTick(_, now) => Some(now)
    case FailTask(_, _, now) => Some(now)
    case StartDispatch(_, _, _, now) => Some(now)
    case DeliverBrief(_, _, now) => Some(now)
    case DeliverSpawn(_, _, now) => Some(now)
    case EndTick(_, now) => Some(now)
    case SettleHandle(_, _, now) => Some(now)
    case OperatorResume(_, now) => Some(now)
    case EndCancel(_, now) => Some(now)
    case _ => None
  }

  predicate SpawnsOn(s: State, t: TaskId, w: WorkerId) {
    exists a :: a in s.acts && s.acts[a].Spawning? && s.acts[a].task == t && s.acts[a].worker == w
  }

  predicate AwaitsOn(s: State, t: TaskId, w: WorkerId) {
    exists a :: a in s.acts && s.acts[a].Awaiting? && s.acts[a].task == t && s.acts[a].worker == w
  }

  /** The record of `t` shows this moment, and the worker whose slot the task has. */
  predicate Stamped(s: State, t: TaskId, now: Time) {
    t in s.tasks && match s.tasks[t].state
      case Pending => false
      case Assigned(w, at) => at == now && SpawnsOn(s, t, w)
      case InProgress(w, at) => at == now && AwaitsOn(s, t, w) && t in s.running && s.running[t].worker == w
      case Done(at, _) => at == now
      case TaskCancelled(at) => at == now
      case TaskFailed(at) => at == now
  }

  /** At most `u` has a new state, and that one is stamped. */
  predicate OnlyStamps(s: State, s': State, u: TaskId, t: TaskId, now: Time) {
    t in s.tasks ==> t in s'.tasks && (s'.tasks[t].state != s.tasks[t].state ==> t == u && Stamped(s', t, now))
  }

  lemma AssignStamps(s: State, a: ActId, u: TaskId, rec: Task, w: WorkerId, now: Time, t: TaskId)
    ensures OnlyStamps(s, Assign(s, a, u, rec, w, now), u, t, now)
  {
    var s' := Assign(s, a, u, rec, w, now);
    assert a in s'.acts && s'.acts[a].Spawning? && s'.acts[a].task == u && s'.acts[a].worker == w;
  }

  lemma DispatchStamps(c: Config, s: State, u: TaskId, rec: Task, w: WorkerId, now: Time, t: TaskId)
    ensures OnlyStamps(s, BeginDispatch(c, s, u, rec, w, now), u, t, now)
  {
    AssignStamps(Take(s, Briefing(u, rec, w)), s.nextAct, u, rec, w, now, t);
  }

  lemma BriefStamps(s: State, a: ActId, brief: Option<string>, now: Time, t: TaskId)
    requires a in s.acts && s.acts[a].Briefing?
    ensures OnlyStamps(s, BriefLoaded(s, a, brief, now), s.acts[a].task, t, now)
  {
    var u := s.acts[a].task;
    if brief.Some? && u in s.tasks {
      AssignStamps(s, a, u, s.tasks[u].(brief := brief.value), s.acts[a].worker, now, t);
    }
  }

  lemma SpawnStamps(s: State, a: ActId, ok: bool, now: Time, t: TaskId)
    requires a in s.acts && s.acts[a].Spawning?
    ensures OnlyStamps(s, Spawned(s, a, ok, now), s.acts[a].task, t, now)
  {
    var s' := Spawned(s, a, ok, now);
    if ok {
      assert a in s'.acts && s'.acts[a].Awaiting? && s'.acts[a].task == s.acts[a].task;
    }
  }

  lemma HandleStamps(c: Config, s: State, a: ActId, outcome: HandleOutcome, now: Time, t: TaskId)
    requires a in s.acts && s.acts[a].Awaiting?
    ensures OnlyStamps(s, HandleSettled(c, s, a, outcome, now), s.acts[a].task, t, now)
  {
    var u := s.acts[a].task;
    HandleWrites(c, s, a, outcome, now);
    if u in s.tasks { StateOfOutcome(outcome, now); }
  }

  /** Settling writes only the state of its own task. */
  lemma HandleWrites(c: Config, s: State, a: ActId, outcome: HandleOutcome, now: Time)
    requires a in s.acts && s.acts[a].Awaiting?
    ensures var u, s' := s.acts[a].task, HandleSettled(c, s, a, outcome, now);
            s'.tasks == if u in s.tasks then s.tasks[u := s.tasks[u].(state := OutcomeState(outcome, now))] else s.tasks
  {
    var u := s.acts[a].task;
    if u in s.tasks {
      SettleWrites(Drop(s, a), u, outcome, now);
      var s2 := SettleAct(s, a, outcome, now);
      assert HandleSettled(c, s, a, outcome, now).tasks == s2.tasks;
    }
  }

  lemma SettleWrites(s: State, u: TaskId, outcome: HandleOutcome, now: Time)
    requires u in s.tasks
    ensures Settle(s, u, outcome, now).tasks == s.tasks[u := s.tasks[u].(state := OutcomeState(outcome, now))]
  {}

  lemma StateOfOutcome(outcome: HandleOutcome, now: Time)
    ensures match OutcomeState(outcome, now)
            case Done(at, _) => at == now
            case TaskCancelled(at) => at == now
            case TaskFailed(at) => at == now
            case _ => false
  {}

  lemma SubmitLeaves(s: State, id: SprintId, tasks: seq<TaskId>, briefs: TaskId -> string,
                     required: TaskId -> seq<string>, t: TaskId)
    requires t in s.tasks
    ensures var s' := Submit(s, id, tasks, briefs, required); t in s'.tasks && s'.tasks[t] == s.tasks[t]
  {
    if FreshIds(s, id, tasks) { AddTasksRecords(s, id, tasks, briefs, required, t); }
  }

  /** In every interleaving a piece that changes the state of a stored task stamps it with its
      moment and, while the task is under way, with the worker whose slot it has; only the
      resume on boot takes a task back to pending, and only one under way. */
  lemma ChangesAreStamped(c: Config, s: State, p: Piece, t: TaskId)
    requires t in s.tasks
    ensures var s' := Apply(c, s, p);
            && t in s'.tasks
            && (s'.tasks[t].state != s.tasks[t].state ==>
                 if p.ResumeOnBoot? then UnderWay(s.tasks[t]) && s'.tasks[t].state.Pending?
                 else TimeOf(p).Some? && Stamped(s', t, TimeOf(p).value))
  {
    match p
    case SubmitSprint(id, tasks, briefs, required) => SubmitLeaves(s, id, tasks, briefs, required, t);
    case StartDispatch(u, rec, w, now) => DispatchStamps(c, s, u, rec, w, now, t);
    case DeliverBrief(a, brief, now) => if a in s.acts && s.acts[a].Briefing? { BriefStamps(s, a, brief, now, t); }
    case DeliverSpawn(a, ok, now) => if a in s.acts && s.acts[a].Spawning? { SpawnStamps(s, a, ok, now, t); }
    case SettleHandle(a, outcome, now) =>
      if a in s.acts && s.acts[a].Awaiting? { HandleStamps(c, s, a, outcome, now, t); }
    case ResumeOnBoot(ids) => BootResets(s, ids, t);
    case _ =>
  }
}
