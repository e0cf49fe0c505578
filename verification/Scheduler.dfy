/** The sprint scheduler as functions on one state: the persisted tables, the
    registry, the pressure snapshots, the manager's maps, the suspended
    continuations, and three histories (slots, sprint moves, task work).

    Each function below is one synchronous piece of the program, from one `await`
    to the next. Between pieces anything else may run; a continuation that waits
    is an entry of `acts`. */
module Scheduler {
  import opened Prelude
  import Pipeline
  import opened PipelineBridge

  type SprintId = nat
  type TaskId = nat
  type WorkerId = nat
  type ActId = nat
  type Time = int

  // ----- configuration -----

  datatype Worker = Worker(id: WorkerId, maxConcurrent: nat, api: bool)

  datatype Config = Config(workers: seq<Worker>, limit: Option<real>, capabilities: Option<set<string>>)

  predicate DistinctWorkers(c: Config) {
    forall i, j :: 0 <= i < j < |c.workers| ==> c.workers[i].id != c.workers[j].id
  }

  predicate HasApiWorker(c: Config) {
    exists w :: w in c.workers && w.api
  }

  // ----- records -----

  datatype PauseReason = OverBudget(spent: real, limit: real) | RateCapped(resetAt: Time)

  datatype SprintState =
    | Queued
    | Planning
    | Running(startedAt: Time, elapsed: int)
    | Paused(at: Time, startedAt: Time, elapsed: int, reason: PauseReason)
    | Cancelled(at: Time)
    | Completed(at: Time, prs: seq<string>)
    | Failed(at: Time)
  {
    predicate Terminal() {
      Cancelled? || Completed? || Failed?
    }
  }

  /** `VALID_SPRINT_TRANSITIONS`. */
  predicate CanTransition(from: SprintState, to: SprintState) {
    match from
    case Queued => to.Planning? || to.Running? || to.Cancelled? || to.Failed?
    case Planning => to.Running? || to.Cancelled? || to.Failed?
    case Running(_, _) => to.Completed? || to.Cancelled? || to.Failed? || to.Paused?
    case Paused(_, _, _, _) => to.Running? || to.Cancelled? || to.Failed?
    case _ => false
  }

  datatype Sprint = Sprint(tasks: seq<TaskId>, state: SprintState)

  datatype TaskState =
    | Pending
    | Assigned(worker: WorkerId, at: Time)
    | InProgress(worker: WorkerId, startedAt: Time)
    | Done(at: Time, pr: Option<string>)
    | TaskCancelled(at: Time)
    | TaskFailed(at: Time)
  {
    predicate Settled() {
      Done? || TaskCancelled? || TaskFailed?
    }
  }

  /** An empty brief means it has to be loaded first. */
  datatype Task = Task(sprint: SprintId, brief: string, state: TaskState, attempts: nat, required: seq<string>)

  datatype RuntimeRow = RuntimeRow(spent: real, resetAt: Option<Time>)

  datatype Snapshot = Snapshot(resetAt: Time, pressure: real)

  datatype RunningTask = RunningTask(sprint: SprintId, worker: WorkerId)

  /** A continuation that holds a worker slot: waiting for the brief, for the spawn,
      or for the handle of the running task. */
  datatype Act =
    | Briefing(task: TaskId, record: Task, worker: WorkerId)
    | Spawning(task: TaskId, record: Task, worker: WorkerId)
    | Awaiting(task: TaskId, sprint: SprintId, worker: WorkerId)

  /** How the handle of a task settles. */
  datatype HandleOutcome = Ran(out: Pipeline.Outcome) | Rejected

  // ----- histories -----

  datatype SlotEvent =
    | Acquired(act: ActId, worker: WorkerId)
    | Released(act: ActId, worker: WorkerId)
    | SlotsLost                                   // process restart

  datatype Move =
    | Created(id: SprintId)
    | Moved(id: SprintId, at: Time, from: SprintState, to: SprintState, durationMs: int)
    | Resumed(id: SprintId, byTick: bool)

  datatype Work =
    | Submitted(task: TaskId)
    | TaskAssigned(task: TaskId, worker: WorkerId, attempt: nat)
    | Returned(task: TaskId, sprint: SprintId, outcome: HandleOutcome)
    | Reset(task: TaskId)

  datatype State = State(
    // persisted
    sprints: map<SprintId, Sprint>,
    tasks: map<TaskId, Task>,
    runtime: map<SprintId, RuntimeRow>,
    // registry and pressure tracker
    inFlight: map<WorkerId, nat>,
    snapshots: map<WorkerId, Snapshot>,
    // manager memory
    running: map<TaskId, RunningTask>,
    spend: map<SprintId, real>,
    resets: map<SprintId, Time>,
    acts: map<ActId, Act>,
    nextAct: ActId,
    // histories
    slots: History<SlotEvent>,
    moves: History<Move>,
    work: History<Work>)

  const EMPTY := State(map[], map[], map[], map[], map[], map[], map[], map[], map[], 0, Start, Start, Start)

  /** Registry counters, continuations and slot history are untouched. */
  predicate SameSlots(s: State, s': State) {
    s'.inFlight == s.inFlight && s'.acts == s.acts && s'.nextAct == s.nextAct && s'.slots == s.slots
  }

  /** Sprints and their moves are untouched. */
  predicate SameSprints(s: State, s': State) {
    s'.sprints == s.sprints && s'.moves == s.moves
  }

  /** Runtime rows and their in-memory copies are untouched. */
  predicate SameMoney(s: State, s': State) {
    s'.runtime == s.runtime && s'.spend == s.spend && s'.resets == s.resets
  }

  /** Tasks, running tasks, their history and the pressure snapshots are untouched. */
  predicate SameTaskData(s: State, s': State) {
    s'.tasks == s.tasks && s'.running == s.running && s'.work == s.work && s'.snapshots == s.snapshots
  }

  // ----- registry -----

  function InFlight(m: map<WorkerId, nat>, w: WorkerId): nat {
    if w in m then m[w] else 0
  }

  function ById(ws: seq<Worker>, id: WorkerId): (r: Option<Worker>)
    ensures r.Some? ==> r.value in ws && r.value.id == id
    ensures r.None? ==> forall w :: w in ws ==> w.id != id
  {
    if ws == [] then None else if ws[0].id == id then Some(ws[0]) else ById(ws[1..], id)
  }

  predicate HasCapacity(ws: seq<Worker>, m: map<WorkerId, nat>, id: WorkerId) {
    var cfg := ById(ws, id);
    cfg.Some? && InFlight(m, id) < cfg.value.maxConcurrent
  }

  function Release(m: map<WorkerId, nat>, id: WorkerId): map<WorkerId, nat> {
    if InFlight(m, id) == 0 then m else m[id := InFlight(m, id) - 1]
  }

  function Available(ws: seq<Worker>, m: map<WorkerId, nat>): seq<WorkerId> {
    if ws == [] then []
    else (if InFlight(m, ws[0].id) < ws[0].maxConcurrent then [ws[0].id] else []) + Available(ws[1..], m)
  }

  lemma {:induction false} AvailableIff(ws: seq<Worker>, m: map<WorkerId, nat>, id: WorkerId)
    ensures id in Available(ws, m) <==> exists w :: w in ws && w.id == id && InFlight(m, id) < w.maxConcurrent
  {
    if ws != [] {
      AvailableIff(ws[1..], m, id);
      assert ws == [ws[0]] + ws[1..];
    }
  }

  // ----- pressure -----

  const BLOCK_THRESHOLD := 0.85

  function ComputePressure(tokensRemaining: real, tokensLimit: real): (p: real)
    ensures 0.0 <= p <= 1.0
    ensures p >= BLOCK_THRESHOLD <==> tokensLimit <= 0.0 || tokensRemaining <= 0.15 * tokensLimit
  {
    if tokensLimit <= 0.0 then 1.0
    else
      var raw := (tokensLimit - tokensRemaining) / tokensLimit;
      assert raw * tokensLimit == tokensLimit - tokensRemaining;
      assert raw >= 0.85 <==> raw * tokensLimit >= 0.85 * tokensLimit;
      if raw < 0.0 then 0.0 else if raw > 1.0 then 1.0 else raw
  }

  function PressureFor(p: map<WorkerId, Snapshot>, w: WorkerId, now: Time): real {
    if w !in p || p[w].resetAt <= now then 0.0 else p[w].pressure
  }

  predicate ShouldDispatch(p: map<WorkerId, Snapshot>, w: WorkerId, now: Time) {
    PressureFor(p, w, now) < BLOCK_THRESHOLD
  }

  function NextAvailableSlot(p: map<WorkerId, Snapshot>, w: WorkerId, now: Time): Time {
    if w !in p || p[w].pressure < BLOCK_THRESHOLD || p[w].resetAt <= now then now else p[w].resetAt
  }

  function FirstDispatchable(ids: seq<WorkerId>, p: map<WorkerId, Snapshot>, now: Time): (r: Option<WorkerId>)
    ensures r.Some? ==> r.value in ids && ShouldDispatch(p, r.value, now)
    ensures r.None? ==> forall id :: id in ids ==> !ShouldDispatch(p, id, now)
  {
    if ids == [] then None
    else if ShouldDispatch(p, ids[0], now) then Some(ids[0])
    else FirstDispatchable(ids[1..], p, now)
  }

  function PickWorker(c: Config, s: State, now: Time): Option<WorkerId> {
    FirstDispatchable(Available(c.workers, s.inFlight), s.snapshots, now)
  }

  // ----- slots: a continuation takes one, changes what it waits for, gives it back -----

  function Take(s: State, act: Act): State {
    s.(inFlight := s.inFlight[act.worker := InFlight(s.inFlight, act.worker) + 1],
       acts := s.acts[s.nextAct := act],
       nextAct := s.nextAct + 1,
       slots := Then(s.slots, Acquired(s.nextAct, act.worker)))
  }

  function Continue(s: State, a: ActId, act: Act): State {
    s.(acts := s.acts[a := act])
  }

  function Drop(s: State, a: ActId): (s': State)
    requires a in s.acts
    ensures SameSprints(s, s') && SameMoney(s, s') && SameTaskData(s, s')
  {
    s.(inFlight := Release(s.inFlight, s.acts[a].worker),
       acts := s.acts - {a},
       slots := Then(s.slots, Released(a, s.acts[a].worker)))
  }

  /** The second `release` of a handle continuation, reached when something throws
      after the first. */
  function ReleaseAgain(s: State, a: ActId, w: WorkerId): State {
    s.(inFlight := Release(s.inFlight, w), slots := Then(s.slots, Released(a, w)))
  }

  // ----- sprints -----

  function DurationOf(from: SprintState, to: SprintState, now: Time): int {
    if to.Completed? && from.Running? then from.elapsed + (now - from.startedAt) else 0
  }

  /** `transition`; false when it throws. */
  function Transition(s: State, id: SprintId, next: SprintState, now: Time): (r: (bool, State))
    ensures SameMoney(s, r.1)
    ensures SameSlots(s, r.1)
    ensures SameTaskData(s, r.1)
  {
    if id !in s.sprints || !CanTransition(s.sprints[id].state, next) then (false, s)
    else
      var from := s.sprints[id].state;
      (true, s.(sprints := s.sprints[id := s.sprints[id].(state := next)],
                moves := Then(s.moves, Moved(id, now, from, next, DurationOf(from, next, now)))))
  }

  /** `resumeSprint`; false when it throws. */
  function Resume(s: State, id: SprintId, byTick: bool, now: Time): (r: (bool, State))
    ensures SameMoney(s, r.1)
    ensures SameSlots(s, r.1)
    ensures SameTaskData(s, r.1)
  {
    if id !in s.sprints then (false, s)
    else
      var state := s.sprints[id].state;
      if state.Running? then (true, s)
      else if !state.Paused? then (false, s)
      else
        var (_, s') := Transition(s, id, Running(now, state.elapsed), now);
        (true, s'.(moves := Then(s'.moves, Resumed(id, byTick))))
  }

  /** How `cancelSprint` begins: it throws, returns at once, or waits for the handles
      it has told to stop. */
  datatype Entry = Unknown | AlreadyOver | Stopping(told: set<TaskId>)

  function BeginCancel(s: State, id: SprintId): Entry {
    if id !in s.sprints then Unknown
    else if s.sprints[id].state.Terminal() then AlreadyOver
    else Stopping(set t | t in s.running && s.running[t].sprint == id)
  }

  /** `cancelSprint` after that wait; false when the transition throws. */
  function FinishCancel(s: State, id: SprintId, now: Time): (r: (bool, State))
    ensures SameMoney(s, r.1)
    ensures SameSlots(s, r.1)
    ensures SameTaskData(s, r.1)
  {
    Transition(s, id, Cancelled(now), now)
  }

  // ----- runtime rows -----

  function RowSpent(m: map<SprintId, RuntimeRow>, id: SprintId): real {
    if id in m then m[id].spent else 0.0
  }

  function RowReset(m: map<SprintId, RuntimeRow>, id: SprintId): Option<Time> {
    if id in m then m[id].resetAt else None
  }

  /** `saveSprintSpend`: inserts with no reset, or updates the spend column. */
  function SaveSpend(m: map<SprintId, RuntimeRow>, id: SprintId, spent: real): map<SprintId, RuntimeRow> {
    m[id := if id in m then m[id].(spent := spent) else RuntimeRow(spent, None)]
  }

  /** `saveSprintRateReset`: inserts with no spend, or updates the reset column. */
  function SaveReset(m: map<SprintId, RuntimeRow>, id: SprintId, resetAt: Option<Time>): map<SprintId, RuntimeRow> {
    m[id := if id in m then m[id].(resetAt := resetAt) else RuntimeRow(0.0, resetAt)]
  }

  function SpendOf(s: State, id: SprintId): real {
    if id in s.spend then s.spend[id] else 0.0
  }

  /** `accumulateCost`: an unreported cost changes nothing. */
  function Charge(s: State, id: SprintId, cost: Option<real>): (s': State)
    ensures SameSprints(s, s') && s'.snapshots == s.snapshots
    ensures SameSlots(s, s')
  {
    if cost.None? then s
    else
      var next := SpendOf(s, id) + cost.value;
      s.(spend := s.spend[id := next], runtime := SaveSpend(s.runtime, id, next))
  }

  /** `checkBudget`. */
  function CheckBudget(c: Config, s: State, id: SprintId, spent: real, now: Time): (s': State)
    ensures SameMoney(s, s')
    ensures SameSlots(s, s')
    ensures SameTaskData(s, s')
  {
    if c.limit.None? || spent < c.limit.value || !HasApiWorker(c) then s
    else if id !in s.sprints || !s.sprints[id].state.Running? then s
    else
      var state := s.sprints[id].state;
      Transition(s, id, Paused(now, state.startedAt, state.elapsed + (now - state.startedAt),
                               OverBudget(spent, c.limit.value)), now).1
  }

  function MinOf(ts: seq<Time>): (m: Time)
    requires ts != []
    ensures m in ts && forall t :: t in ts ==> m <= t
  {
    if |ts| == 1 then ts[0]
    else
      assert ts == [ts[0]] + ts[1..];
      var rest := MinOf(ts[1..]);
      if ts[0] < rest then ts[0] else rest
  }

  /** Reset times that still lie ahead, worker by worker. */
  function FutureSlots(ws: seq<Worker>, p: map<WorkerId, Snapshot>, now: Time): (ts: seq<Time>)
    ensures forall t :: t in ts <==> t > now && exists w :: w in ws && NextAvailableSlot(p, w.id, now) == t
  {
    if ws == [] then []
    else
      assert ws == [ws[0]] + ws[1..];
      var t := NextAvailableSlot(p, ws[0].id, now);
      (if t > now then [t] else []) + FutureSlots(ws[1..], p, now)
  }

  predicate AllBlocked(ws: seq<Worker>, p: map<WorkerId, Snapshot>, now: Time) {
    forall w :: w in ws ==> !ShouldDispatch(p, w.id, now)
  }

  /** `checkRateLimit`. */
  function CheckRate(c: Config, s: State, id: SprintId, now: Time): (s': State)
    ensures SameSlots(s, s')
    ensures SameTaskData(s, s')
  {
    if id !in s.sprints || !s.sprints[id].state.Running? || c.workers == [] then s
    else if !AllBlocked(c.workers, s.snapshots, now) then s
    else
      var slots := FutureSlots(c.workers, s.snapshots, now);
      if slots == [] then s else PauseUntil(s, id, MinOf(slots), now)
  }

  /** Pause a running sprint until `resetAt`, remembered in memory and on disk. */
  function PauseUntil(s: State, id: SprintId, resetAt: Time, now: Time): (s': State)
    requires id in s.sprints && s.sprints[id].state.Running?
    ensures SameSlots(s, s')
    ensures SameTaskData(s, s')
  {
    var state := s.sprints[id].state;
    var s1 := s.(resets := s.resets[id := resetAt], runtime := SaveReset(s.runtime, id, Some(resetAt)));
    var elapsed := state.elapsed + (now - state.startedAt);
    Transition(s1, id, Paused(now, state.startedAt, elapsed, RateCapped(resetAt)), now).1
  }

  // ----- submitting -----

  predicate FreshIds(s: State, id: SprintId, tasks: seq<TaskId>) {
    && id !in s.sprints && id !in s.runtime && id !in s.spend && id !in s.resets
    && (forall t :: t in tasks ==> t !in s.tasks)
    && NoRepeat(tasks)
  }

  function AddTasks(s: State, id: SprintId, tasks: seq<TaskId>, briefs: TaskId -> string,
                    required: TaskId -> seq<string>): (s': State)
    ensures SameSprints(s, s') && SameMoney(s, s') && s'.snapshots == s.snapshots
    ensures SameSlots(s, s')
    decreases |tasks|
  {
    if tasks == [] then s
    else
      var t := tasks[0];
      AddTasks(s.(tasks := s.tasks[t := Task(id, briefs(t), Pending, 0, required(t))],
                 work := Then(s.work, Submitted(t))),
               id, tasks[1..], briefs, required)
  }

  /** `startSprint`. New ids are fresh; anything else is not a submission. */
  function Submit(s: State, id: SprintId, tasks: seq<TaskId>, briefs: TaskId -> string,
                  required: TaskId -> seq<string>): (s': State)
    ensures SameSlots(s, s') && s'.snapshots == s.snapshots
  {
    if !FreshIds(s, id, tasks) then s
    else
      var s1 := AddTasks(s, id, tasks, briefs, required);
      s1.(sprints := s1.sprints[id := Sprint(tasks, Queued)], moves := Then(s1.moves, Created(id)))
  }

  // ----- tick -----

  /** How `tick` leaves its first lines: it returns, reaches the dispatches, or throws. */
  datatype Head = Stops | GoesOn | Throws

  function HeadOf(ok: bool): Head {
    if ok then GoesOn else Throws
  }

  /** `tick` up to the first dispatch. */
  function TickHead(s: State, id: SprintId, now: Time): (r: (Head, State))
    ensures SameSlots(s, r.1)
    ensures SameTaskData(s, r.1)
  {
    if id !in s.sprints || s.sprints[id].state.Terminal() then (Stops, s)
    else if s.sprints[id].state.Paused? then
      if id in s.resets && now >= s.resets[id] then
        var s1 := s.(resets := s.resets - {id}, runtime := SaveReset(s.runtime, id, None));
        var (ok, s2) := Resume(s1, id, true, now);
        (HeadOf(ok), s2)
      else (Stops, s)
    else if s.sprints[id].state.Queued? then
      var (ok, s1) := Transition(s, id, Running(now, 0), now);
      (HeadOf(ok), s1)
    else (GoesOn, s)
  }

  predicate Missing(c: Config, t: Task) {
    c.capabilities.Some? && exists r :: r in t.required && r !in c.capabilities.value
  }

  function SaveTask(s: State, t: TaskId, rec: Task): (s': State)
    ensures SameSprints(s, s') && SameMoney(s, s') && SameSlots(s, s') && s'.snapshots == s.snapshots
  {
    s.(tasks := s.tasks[t := rec])
  }

  /** A pending task whose capabilities are missing fails without a slot. */
  function BlockTask(s: State, t: TaskId, rec: Task, now: Time): (s': State)
    ensures SameSprints(s, s') && SameMoney(s, s') && s'.snapshots == s.snapshots
  {
    SaveTask(s, t, rec.(state := TaskFailed(now)))
  }

  function Assign(s: State, a: ActId, t: TaskId, rec: Task, w: WorkerId, now: Time): (s': State)
    ensures SameSprints(s, s') && SameMoney(s, s') && s'.snapshots == s.snapshots
  {
    var rec' := rec.(state := Assigned(w, now), attempts := rec.attempts + 1);
    var s1 := SaveTask(s, t, rec').(work := Then(s.work, TaskAssigned(t, w, rec.attempts + 1)));
    Continue(s1, a, Spawning(t, rec', w))
  }

  /** `dispatch` up to its first `await`. `rec` is the tick's snapshot of the task,
      which may be stale. */
  function BeginDispatch(c: Config, s: State, t: TaskId, rec: Task, w: WorkerId, now: Time): (s': State)
    ensures SameSprints(s, s') && SameMoney(s, s') && s'.snapshots == s.snapshots
  {
    if !HasCapacity(c.workers, s.inFlight, w) then s
    else
      var a, s1 := s.nextAct, Take(s, Briefing(t, rec, w));
      if rec.brief == "" then s1 else Assign(s1, a, t, rec, w, now)
  }

  /** The brief arrived (Some) or could not be loaded (None). */
  function BriefLoaded(s: State, a: ActId, brief: Option<string>, now: Time): (s': State)
    ensures SameSprints(s, s') && SameMoney(s, s') && s'.snapshots == s.snapshots
  {
    if a !in s.acts || !s.acts[a].Briefing? then s
    else
      var Briefing(t, rec, w) := s.acts[a];
      if brief.None? then SaveTask(Drop(s, a), t, rec.(state := TaskFailed(now)))
      else if t !in s.tasks || !s.tasks[t].state.Pending? then Drop(s, a)
      else Assign(s, a, t, s.tasks[t].(brief := brief.value), w, now)
  }

  /** The task runs; its continuation now waits for the handle. */
  function Launch(s: State, a: ActId, t: TaskId, rec: Task, w: WorkerId, now: Time): (s': State)
    ensures SameSprints(s, s') && SameMoney(s, s') && s'.snapshots == s.snapshots
  {
    var s1 := SaveTask(s, t, rec.(state := InProgress(w, now)));
    Continue(s1.(running := s1.running[t := RunningTask(rec.sprint, w)]), a, Awaiting(t, rec.sprint, w))
  }

  /** The spawn resolved or threw. */
  function Spawned(s: State, a: ActId, ok: bool, now: Time): (s': State)
    ensures SameSprints(s, s') && SameMoney(s, s') && s'.snapshots == s.snapshots
  {
    if a !in s.acts || !s.acts[a].Spawning? then s
    else
      var Spawning(t, rec, w) := s.acts[a];
      if ok then Launch(s, a, t, rec, w, now)
      else SaveTask(Drop(s, a), t, rec.(state := TaskFailed(now)))
  }

  predicate HasRunning(s: State, id: SprintId) {
    exists t :: t in s.running && s.running[t].sprint == id
  }

  function Prs(s: State, tasks: seq<TaskId>): seq<string> {
    if tasks == [] then []
    else
      var t := tasks[0];
      (if t in s.tasks && s.tasks[t].state.Done? && s.tasks[t].state.pr.Some? && s.tasks[t].state.pr.value != ""
       then [s.tasks[t].state.pr.value] else [])
      + Prs(s, tasks[1..])
  }

  /** `tick` after the last dispatch; false when a transition throws. */
  function TickTail(c: Config, s: State, id: SprintId, now: Time): (r: (bool, State))
    ensures SameSlots(s, r.1)
    ensures SameTaskData(s, r.1)
  {
    if id !in s.sprints then (true, s)
    else
      var ts := s.sprints[id].tasks;
      if exists t :: t in ts && t !in s.tasks then (true, s)
      else if ts != [] && (forall t :: t in ts ==> s.tasks[t].state.Settled()) && !HasRunning(s, id) then
        if exists t :: t in ts && !s.tasks[t].state.Done? then Transition(s, id, Failed(now), now)
        else Transition(s, id, Completed(now, Prs(s, ts)), now)
      else if (exists t :: t in ts && s.tasks[t].state.Pending?) && !HasRunning(s, id)
        && PickWorker(c, s, now).None? then
        (true, CheckRate(c, s, id, now))
      else (true, s)
  }

  // ----- handles -----

  function OutcomeState(outcome: HandleOutcome, now: Time): TaskState {
    match outcome
    case Rejected => TaskFailed(now)
    case Ran(out) =>
      var r := Execute(out);
      if r.exitCode == 0 then Done(now, r.pr)
      else if r.exitCode == 2 then TaskCancelled(now)
      else TaskFailed(now)
  }

  function OutcomeCost(outcome: HandleOutcome): Option<real> {
    match outcome
    case Rejected => None
    case Ran(out) => Execute(out).cost
  }

  /** Forget the running task, book its cost and record how it ended. */
  function Settle(s: State, t: TaskId, outcome: HandleOutcome, now: Time): (s': State)
    requires t in s.tasks
    ensures SameSprints(s, s') && SameSlots(s, s') && s'.snapshots == s.snapshots
  {
    var rec := s.tasks[t];
    var s1 := Charge(s.(running := s.running - {t}), rec.sprint, OutcomeCost(outcome));
    SaveTask(s1, t, rec.(state := OutcomeState(outcome, now))).(work := Then(s1.work, Returned(t, rec.sprint, outcome)))
  }

  /** `awaitHandle` up to the budget check: the slot is given back, then the task settles. */
  function SettleAct(s: State, a: ActId, outcome: HandleOutcome, now: Time): (s': State)
    requires a in s.acts && s.acts[a].task in s.tasks
    ensures SameSprints(s, s') && SameSlots(Drop(s, a), s') && s'.snapshots == s.snapshots
  {
    Settle(Drop(s, a), s.acts[a].task, outcome, now)
  }

  /** `awaitHandle` once the handle has settled. */
  function HandleSettled(c: Config, s: State, a: ActId, outcome: HandleOutcome, now: Time): State {
    if a !in s.acts || !s.acts[a].Awaiting? then s
    else
      var t := s.acts[a].task;
      if t !in s.tasks then Drop(s, a).(running := s.running - {t})
      else
        var sid, s2 := s.tasks[t].sprint, SettleAct(s, a, outcome, now);
        if outcome.Rejected? then s2 else CheckBudget(c, s2, sid, SpendOf(s2, sid), now)
  }

  // ----- pressure headers, restart -----

  function Observe(s: State, w: WorkerId, snap: Snapshot): State {
    s.(snapshots := s.snapshots[w := snap])
  }

  /** A new process over the same tables: slots, snapshots, handles and continuations
      are gone, the runtime counters are rehydrated. */
  function Restart(s: State): State {
    s.(inFlight := map[], snapshots := map[], running := map[], acts := map[],
       spend := map id | id in s.runtime && s.runtime[id].spent > 0.0 :: s.runtime[id].spent,
       resets := map id | id in s.runtime && s.runtime[id].resetAt.Some? :: s.runtime[id].resetAt.value,
       slots := Then(s.slots, SlotsLost))
  }

  /** A task that was under way before the restart is pending again. */
  function ResetTask(s: State, t: TaskId): (s': State)
    ensures SameSprints(s, s') && SameMoney(s, s') && s'.snapshots == s.snapshots
    ensures SameSlots(s, s')
  {
    if t in s.tasks && (s.tasks[t].state.InProgress? || s.tasks[t].state.Assigned?) then
      var tasks := s.tasks[t := s.tasks[t].(state := Pending)];
      s.(tasks := tasks, work := Then(s.work, Reset(t)))
    else s
  }

  function ResetTasks(s: State, tasks: seq<TaskId>): (s': State)
    ensures SameSprints(s, s') && SameMoney(s, s') && s'.snapshots == s.snapshots
    ensures SameSlots(s, s')
    decreases |tasks|
  {
    if tasks == [] then s else ResetTasks(ResetTask(s, tasks[0]), tasks[1..])
  }

  /** `resumeAbandoned` over the sprints `ids`, which the store lists. */
  function ResumeAbandoned(s: State, ids: seq<SprintId>): (s': State)
    ensures SameSprints(s, s') && SameMoney(s, s') && s'.snapshots == s.snapshots
    ensures SameSlots(s, s')
    decreases |ids|
  {
    if ids == [] then s
    else
      var id := ids[0];
      ResumeAbandoned(if Abandoned(s, id) then ResetTasks(s, s.sprints[id].tasks) else s, ids[1..])
  }

  predicate Abandoned(s: State, id: SprintId) {
    id in s.sprints && s.sprints[id].state.Running? && !HasRunning(s, id)
  }
}
