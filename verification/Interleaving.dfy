/** Level A: any number of ticks, spawns, handle completions, cancels, resumes and
    restarts, interleaved at every `await`. A run is any sequence of synchronous
    pieces; this includes every order in which the event loop can resume them. */
module Interleaving {
  import opened Prelude
  import opened Scheduler

  datatype Piece =
    | SubmitSprint(id: SprintId, tasks: seq<TaskId>, briefs: TaskId -> string, required: TaskId -> seq<string>)
    | StartTick(id: SprintId, now: Time)
    | FailTask(task: TaskId, record: Task, now: Time)
    | StartDispatch(task: TaskId, record: Task, worker: WorkerId, now: Time)
    | DeliverBrief(act: ActId, brief: Option<string>, now: Time)
    | DeliverSpawn(act: ActId, ok: bool, now: Time)
    | EndTick(id: SprintId, now: Time)
    | SettleHandle(act: ActId, outcome: HandleOutcome, now: Time)
    | OperatorResume(id: SprintId, now: Time)
    | StartCancel(id: SprintId)
    | EndCancel(id: SprintId, now: Time)
    | ObserveHeaders(worker: WorkerId, snapshot: Snapshot)
    | RestartProcess
    | ResumeOnBoot(ids: seq<SprintId>)

  function Apply(c: Config, s: State, p: Piece): State {
    match p
    case SubmitSprint(id, tasks, briefs, required) => Submit(s, id, tasks, briefs, required)
    case StartTick(id, now) => TickHead(s, id, now).1
    case FailTask(t, rec, now) => BlockTask(s, t, rec, now)
    case StartDispatch(t, rec, w, now) => BeginDispatch(c, s, t, rec, w, now)
    case DeliverBrief(a, brief, now) => BriefLoaded(s, a, brief, now)
    case DeliverSpawn(a, ok, now) => Spawned(s, a, ok, now)
    case EndTick(id, now) => TickTail(c, s, id, now).1
    case SettleHandle(a, outcome, now) => HandleSettled(c, s, a, outcome, now)
    case OperatorResume(id, now) => Resume(s, id, false, now).1
    case StartCancel(id) => s
    case EndCancel(id, now) => FinishCancel(s, id, now).1
    case ObserveHeaders(w, snap) => Observe(s, w, snap)
    case RestartProcess => Restart(s)
    case ResumeOnBoot(ids) => ResumeAbandoned(s, ids)
  }

  /** The state after a run from an empty database. */
  function After(c: Config, run: seq<Piece>): State {
    if run == [] then EMPTY else Apply(c, After(c, run[..|run| - 1]), run[|run| - 1])
  }
}
