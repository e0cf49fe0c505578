/** The sprint scheduler in the form the program has: a store, a worker registry and
    a pressure tracker shared by a `SprintManager`, whose methods change them step by
    step. Each method is proved to do to `View()` what the function of the same piece
    does to a `Scheduler.State`, so every lemma about those functions speaks of it.

    `async` methods are cut at their `await`s: a method that goes on after one is
    given the continuation it belongs to. */
module SprintManager {
  import opened Prelude
  import S = Scheduler
  import T = SprintTicks
  import opened PipelineBridge

  /** The tables, and the histories that the event table keeps. */
  class StateStore {
    var sprints: map<S.SprintId, S.Sprint>
    var tasks: map<S.TaskId, S.Task>
    var runtime: map<S.SprintId, S.RuntimeRow>
    var nextAct: S.ActId                  // numbers for continuations, never reused
    ghost var slots: History<S.SlotEvent>
    var moves: History<S.Move>           // the sprint rows of the event table
    ghost var work: History<S.Work>

    constructor ()
      ensures sprints == map[] && tasks == map[] && runtime == map[] && nextAct == 0
      ensures slots == Start && moves == Start && work == Start
    {
      sprints, tasks, runtime, nextAct := map[], map[], map[], 0;
      slots, moves, work := Start, Start, Start;
    }

    method SaveSprint(id: S.SprintId, record: S.Sprint)
      modifies this`sprints
      ensures sprints == old(sprints)[id := record]
    {
      sprints := sprints[id := record];
    }

    method SaveTask(id: S.TaskId, record: S.Task)
      modifies this`tasks
      ensures tasks == old(tasks)[id := record]
    {
      tasks := tasks[id := record];
    }

    method SaveSprintSpend(id: S.SprintId, spent: real)
      modifies this`runtime
      ensures runtime == S.SaveSpend(old(runtime), id, spent)
    {
      if id in runtime {
        runtime := runtime[id := S.RuntimeRow(spent, runtime[id].resetAt)];
      } else {
        runtime := runtime[id := S.RuntimeRow(spent, None)];
      }
    }

    method SaveSprintRateReset(id: S.SprintId, resetAt: Option<S.Time>)
      modifies this`runtime
      ensures runtime == S.SaveReset(old(runtime), id, resetAt)
    {
      if id in runtime {
        runtime := runtime[id := S.RuntimeRow(runtime[id].spent, resetAt)];
      } else {
        runtime := runtime[id := S.RuntimeRow(0.0, resetAt)];
      }
    }
  }

  lemma AvailableNext(ws: seq<S.Worker>, m: map<S.WorkerId, nat>, i: nat)
    requires i < |ws|
    ensures S.Available(ws[i..], m)
         == (if S.InFlight(m, ws[i].id) < ws[i].maxConcurrent then [ws[i].id] else []) + S.Available(ws[i + 1..], m)
  {
    assert ws[i..][1..] == ws[i + 1..];
  }

  class WorkerRegistry {
    const workers: seq<S.Worker>
    var inFlight: map<S.WorkerId, nat>

    constructor (workers: seq<S.Worker>)
      ensures this.workers == workers && inFlight == map[]
    {
      this.workers, inFlight := workers, map[];
    }

    function InFlightFor(id: S.WorkerId): (n: nat)
      reads this
      ensures n == S.InFlight(inFlight, id)
    {
      if id in inFlight then inFlight[id] else 0
    }

    method AvailableWorkers() returns (ids: seq<S.WorkerId>)
      ensures ids == S.Available(workers, inFlight)
    {
      ids := [];
      var i := 0;
      assert workers[0..] == workers;
      while i < |workers|
        invariant 0 <= i <= |workers|
        invariant ids + S.Available(workers[i..], inFlight) == S.Available(workers, inFlight)
      {
        var w := workers[i];
        ghost var was := ids;
        AvailableNext(workers, inFlight, i);
        if InFlightFor(w.id) < w.maxConcurrent { ids := ids + [w.id]; }
        assert ids + S.Available(workers[i + 1..], inFlight) == was + S.Available(workers[i..], inFlight);
        i := i + 1;
      }
    }

    method Acquire(id: S.WorkerId) returns (ok: bool)
      modifies this`inFlight
      ensures ok == S.HasCapacity(workers, old(inFlight), id)
      ensures inFlight == if ok then old(inFlight)[id := S.InFlight(old(inFlight), id) + 1] else old(inFlight)
    {
      var cfg := S.ById(workers, id);
      if cfg.None? || InFlightFor(id) >= cfg.value.maxConcurrent { return false; }
      inFlight := inFlight[id := InFlightFor(id) + 1];
      ok := true;
    }

    method Release(id: S.WorkerId)
      modifies this`inFlight
      ensures inFlight == S.Release(old(inFlight), id)
    {
      var current := InFlightFor(id);
      if current <= 0 { return; }
      inFlight := inFlight[id := current - 1];
    }
  }

  class PressureTracker {
    var snapshots: map<S.WorkerId, S.Snapshot>

    constructor ()
      ensures snapshots == map[]
    {
      snapshots := map[];
    }

    method RecordHeaders(worker: S.WorkerId, tokensRemaining: real, tokensLimit: real, resetAt: S.Time)
      modifies this
      ensures snapshots == old(snapshots)[worker :=
          S.Snapshot(resetAt, S.ComputePressure(tokensRemaining, tokensLimit))]
    {
      var pressure := S.ComputePressure(tokensRemaining, tokensLimit);
      snapshots := snapshots[worker := S.Snapshot(resetAt, pressure)];
    }
  }

  /** Counters read back from the runtime rows: no entry for a zero spend or a null reset. */
  method Rehydrate(runtime: map<S.SprintId, S.RuntimeRow>)
    returns (spend: map<S.SprintId, real>, resets: map<S.SprintId, S.Time>)
    ensures spend == map id | id in runtime && runtime[id].spent > 0.0 :: runtime[id].spent
    ensures resets == map id | id in runtime && runtime[id].resetAt.Some? :: runtime[id].resetAt.value
  {
    spend, resets := map[], map[];
    var left := runtime.Keys;
    while left != {}
      invariant left <= runtime.Keys
      invariant spend == map id | id in runtime && id !in left && runtime[id].spent > 0.0 :: runtime[id].spent
      invariant resets == map id | id in runtime && id !in left && runtime[id].resetAt.Some?
        :: runtime[id].resetAt.value
      decreases |left|
    {
      var id :| id in left;
      left := left - {id};
      if runtime[id].spent > 0.0 { spend := spend[id := runtime[id].spent]; }
      if runtime[id].resetAt.Some? { resets := resets[id := runtime[id].resetAt.value]; }
    }
  }

  class SprintManager {
    const store: StateStore
    const registry: WorkerRegistry
    const pressure: PressureTracker
    const limit: Option<real>
    const capabilities: Option<set<string>>
    var running: map<S.TaskId, S.RunningTask>
    var sprintSpend: map<S.SprintId, real>
    var rateLimitResetAt: map<S.SprintId, S.Time>
    var acts: map<S.ActId, S.Act>       // suspended dispatches and handle waits

    function Settings(): S.Config {
      S.Config(registry.workers, limit, capabilities)
    }

    ghost function View(): S.State
      reads this, store, registry, pressure
    {
      S.State(store.sprints, store.tasks, store.runtime, registry.inFlight, pressure.snapshots,
              running, sprintSpend, rateLimitResetAt, acts, store.nextAct, store.slots, store.moves, store.work)
    }

    /** A new process: the runtime counters are read back from the store. */
    constructor (store: StateStore, registry: WorkerRegistry, pressure: PressureTracker,
                 limit: Option<real>, capabilities: Option<set<string>>, ghost past: S.State)
      requires registry.inFlight == map[] && pressure.snapshots == map[]
      requires past.sprints == store.sprints && past.tasks == store.tasks && past.runtime == store.runtime
      requires past.slots == store.slots && past.moves == store.moves
      requires past.work == store.work && past.nextAct == store.nextAct
      modifies store`slots
      ensures View() == S.Restart(past)
      ensures this.store == store && this.registry == registry && this.pressure == pressure
      ensures this.limit == limit && this.capabilities == capabilities
    {
      this.store, this.registry, this.pressure := store, registry, pressure;
      this.limit, this.capabilities := limit, capabilities;
      running, acts := map[], map[];
      var spend, resets := Rehydrate(store.runtime);
      sprintSpend, rateLimitResetAt := spend, resets;
      new;
      store.slots := Then(store.slots, S.SlotsLost);
    }

    method Transition(id: S.SprintId, next: S.SprintState, now: S.Time) returns (ok: bool)
      modifies store`sprints, store`moves
      ensures (ok, View()) == S.Transition(old(View()), id, next, now)
    {
      if id !in store.sprints { return false; }
      var current := store.sprints[id];
      if !S.CanTransition(current.state, next) { return false; }
      store.SaveSprint(id, current.(state := next));
      var durationMs :=
        if next.Completed? && current.state.Running? then current.state.elapsed + (now - current.state.startedAt)
        else 0;
      store.moves := Then(store.moves, S.Moved(id, now, current.state, next, durationMs));
      ok := true;
    }

    method ResumeSprint(id: S.SprintId, byTick: bool, now: S.Time) returns (ok: bool)
      modifies store`sprints, store`moves
      ensures (ok, View()) == S.Resume(old(View()), id, byTick, now)
    {
      if id !in store.sprints { return false; }
      var sprint := store.sprints[id];
      if sprint.state.Running? { return true; }
      if !sprint.state.Paused? { return false; }
      ok := Transition(id, S.Running(now, sprint.state.elapsed), now);
      store.moves := Then(store.moves, S.Resumed(id, byTick));
    }

    /** `cancelSprint` up to its `await`: which tasks are told to stop. */
    method BeginCancel(id: S.SprintId) returns (entry: S.Entry)
      ensures entry == S.BeginCancel(View(), id)
    {
      if id !in store.sprints { return S.Unknown; }
      if store.sprints[id].state.Terminal() { return S.AlreadyOver; }
      var told: set<S.TaskId>, left := {}, running.Keys;
      while left != {}
        invariant left <= running.Keys
        invariant told == set t | t in running && t !in left && running[t].sprint == id
        decreases |left|
      {
        var t :| t in left;
        left := left - {t};
        if running[t].sprint != id { continue; }
        told := told + {t};
      }
      entry := S.Stopping(told);
    }

    /** `cancelSprint` after those handles are done; false when it throws. */
    method FinishCancel(id: S.SprintId, now: S.Time) returns (ok: bool)
      modifies store`sprints, store`moves
      ensures (ok, View()) == S.FinishCancel(old(View()), id, now)
    {
      ok := Transition(id, S.Cancelled(now), now);
    }

    method AccumulateCost(id: S.SprintId, cost: Option<real>) returns (spent: real)
      modifies this`sprintSpend, store`runtime
      ensures View() == S.Charge(old(View()), id, cost)
      ensures spent == S.SpendOf(View(), id)
    {
      var prev := if id in sprintSpend then sprintSpend[id] else 0.0;
      if cost.None? { return prev; }
      spent := prev + cost.value;
      sprintSpend := sprintSpend[id := spent];
      store.SaveSprintSpend(id, spent);
    }

    method CheckBudget(id: S.SprintId, spent: real, now: S.Time)
      modifies store`sprints, store`moves
      ensures View() == S.CheckBudget(Settings(), old(View()), id, spent, now)
    {
      if limit.None? || spent < limit.value { return; }
      if !exists w :: w in registry.workers && w.api { return; }
      if id !in store.sprints || !store.sprints[id].state.Running? { return; }
      var state := store.sprints[id].state;
      var _ := Transition(id, S.Paused(now, state.startedAt, state.elapsed + (now - state.startedAt),
                                       S.OverBudget(spent, limit.value)), now);
    }

    method CheckRateLimit(id: S.SprintId, now: S.Time)
      modifies this`rateLimitResetAt, store`sprints, store`moves, store`runtime
      ensures View() == S.CheckRate(Settings(), old(View()), id, now)
    {
      if id !in store.sprints || !store.sprints[id].state.Running? { return; }
      if registry.workers == [] { return; }
      if !S.AllBlocked(registry.workers, pressure.snapshots, now) { return; }
      var futureSlots := S.FutureSlots(registry.workers, pressure.snapshots, now);
      if futureSlots == [] { return; }
      var resetAt, state := S.MinOf(futureSlots), store.sprints[id].state;
      rateLimitResetAt := rateLimitResetAt[id := resetAt];
      store.SaveSprintRateReset(id, Some(resetAt));
      var _ := Transition(id, S.Paused(now, state.startedAt, state.elapsed + (now - state.startedAt),
                                       S.RateCapped(resetAt)), now);
    }

    // ----- dispatch -----

    method PickWorker(now: S.Time) returns (r: Option<S.WorkerId>)
      ensures r == S.PickWorker(Settings(), View(), now)
    {
      var available := registry.AvailableWorkers();
      var i := 0;
      assert available[0..] == available;
      while i < |available|
        invariant 0 <= i <= |available|
        invariant S.FirstDispatchable(available[i..], pressure.snapshots, now)
          == S.FirstDispatchable(available, pressure.snapshots, now)
      {
        if S.ShouldDispatch(pressure.snapshots, available[i], now) { return Some(available[i]); }
        assert available[i..][1..] == available[i + 1..];
        i := i + 1;
      }
      r := None;
    }

    /** The task is recorded as assigned and its spawn begins. */
    method BeginSpawn(a: S.ActId, t: S.TaskId, rec: S.Task, w: S.WorkerId, now: S.Time)
      modifies this`acts, store`tasks, store`work
      ensures View() == S.Assign(old(View()), a, t, rec, w, now)
    {
      var newAttempts := rec.attempts + 1;
      var next := rec.(state := S.Assigned(w, now), attempts := newAttempts);
      store.SaveTask(t, next);
      store.work := Then(store.work, S.TaskAssigned(t, w, newAttempts));
      acts := acts[a := S.Spawning(t, next, w)];
    }

    /** `dispatch` up to its first `await`. */
    method BeginDispatch(t: S.TaskId, rec: S.Task, w: S.WorkerId, now: S.Time)
      modifies this`acts, registry`inFlight, store`tasks, store`work, store`slots, store`nextAct
      ensures View() == S.BeginDispatch(Settings(), old(View()), t, rec, w, now)
    {
      var ok := registry.Acquire(w);
      if !ok { return; }
      var a := store.nextAct;
      acts := acts[a := S.Briefing(t, rec, w)];
      store.nextAct := a + 1;
      store.slots := Then(store.slots, S.Acquired(a, w));
      assert View() == S.Take(old(View()), S.Briefing(t, rec, w));
      if rec.brief != "" { BeginSpawn(a, t, rec, w, now); }
    }

    /** The continuation gives its slot back and is over. */
    method ReleaseSlot(a: S.ActId)
      requires a in acts
      modifies this`acts, registry`inFlight, store`slots
      ensures View() == S.Drop(old(View()), a)
    {
      registry.Release(acts[a].worker);
      store.slots := Then(store.slots, S.Released(a, acts[a].worker));
      acts := acts - {a};
    }

    /** `dispatch` after `loadBrief`: None when it threw. */
    method BriefLoaded(a: S.ActId, brief: Option<string>, now: S.Time)
      modifies this`acts, registry`inFlight, store`tasks, store`work, store`slots
      ensures View() == S.BriefLoaded(old(View()), a, brief, now)
    {
      if a !in acts || !acts[a].Briefing? { return; }
      var t, rec, w := acts[a].task, acts[a].record, acts[a].worker;
      if brief.None? {
        ReleaseSlot(a);
        store.SaveTask(t, rec.(state := S.TaskFailed(now)));
        return;
      }
      if t !in store.tasks || !store.tasks[t].state.Pending? {
        ReleaseSlot(a);
        return;
      }
      BeginSpawn(a, t, store.tasks[t].(brief := brief.value), w, now);
    }

    /** `dispatch` after `adapter.spawn`: false when it threw. */
    method Spawned(a: S.ActId, ok: bool, now: S.Time)
      modifies this`acts, this`running, registry`inFlight, store`tasks, store`slots
      ensures View() == S.Spawned(old(View()), a, ok, now)
    {
      if a !in acts || !acts[a].Spawning? { return; }
      var t, rec, w := acts[a].task, acts[a].record, acts[a].worker;
      if ok {
        store.SaveTask(t, rec.(state := S.InProgress(w, now)));
        running := running[t := S.RunningTask(rec.sprint, w)];
        acts := acts[a := S.Awaiting(t, rec.sprint, w)];
      } else {
        ReleaseSlot(a);
        store.SaveTask(t, rec.(state := S.TaskFailed(now)));
      }
    }

    /** `dispatch` when nothing else runs meanwhile. */
    method Dispatch(t: S.TaskId, rec: S.Task, w: S.WorkerId, ch: T.Choice, now: S.Time)
      modifies this`acts, this`running, registry`inFlight, store`tasks, store`work, store`slots, store`nextAct
      ensures View() == T.Dispatch(Settings(), old(View()), t, rec, w, ch, now)
    {
      var a := store.nextAct;
      BeginDispatch(t, rec, w, now);
      BriefLoaded(a, ch.brief, now);
      Spawned(a, ch.spawned, now);
    }

    // ----- awaitHandle -----

    /** `awaitHandle` once the handle of continuation `a` has settled. */
    method HandleSettled(a: S.ActId, outcome: S.HandleOutcome, now: S.Time)
      modifies this`acts, this`running, this`sprintSpend, registry`inFlight
      modifies store`tasks, store`work, store`slots, store`runtime, store`sprints, store`moves
      ensures View() == S.HandleSettled(Settings(), old(View()), a, outcome, now)
    {
      if a !in acts || !acts[a].Awaiting? { return; }
      var t := acts[a].task;
      ReleaseSlot(a);
      running := running - {t};
      if t !in store.tasks { return; }
      var task := store.tasks[t];
      if outcome.Rejected? {
        store.SaveTask(t, task.(state := S.TaskFailed(now)));
        store.work := Then(store.work, S.Returned(t, task.sprint, outcome));
      } else {
        var result := Execute(outcome.out);
        var spent := AccumulateCost(task.sprint, result.cost);
        var state := match result.exitCode
          case 0 => S.Done(now, result.pr)
          case 2 => S.TaskCancelled(now)
          case _ => S.TaskFailed(now);
        store.SaveTask(t, task.(state := state));
        store.work := Then(store.work, S.Returned(t, task.sprint, outcome));
        CheckBudget(task.sprint, spent, now);
      }
    }

    // ----- tick -----

    method TickHead(id: S.SprintId, now: S.Time) returns (head: S.Head)
      modifies this`rateLimitResetAt, store`sprints, store`moves, store`runtime
      ensures (head, View()) == S.TickHead(old(View()), id, now)
    {
      if id !in store.sprints || store.sprints[id].state.Terminal() { return S.Stops; }
      if store.sprints[id].state.Paused? {
        if id !in rateLimitResetAt || now < rateLimitResetAt[id] { return S.Stops; }
        rateLimitResetAt := rateLimitResetAt - {id};
        store.SaveSprintRateReset(id, None);
        var resumed := ResumeSprint(id, true, now);
        return if resumed then S.GoesOn else S.Throws;
      }
      if store.sprints[id].state.Queued? {
        var started := Transition(id, S.Running(now, 0), now);
        if !started { return S.Throws; }
      }
      head := S.GoesOn;
    }

    method TickTail(id: S.SprintId, now: S.Time) returns (ok: bool)
      modifies this`rateLimitResetAt, store`sprints, store`moves, store`runtime
      ensures (ok, View()) == S.TickTail(Settings(), old(View()), id, now)
    {
      if id !in store.sprints { return true; }
      var ts := store.sprints[id].tasks;
      if exists t :: t in ts && t !in store.tasks { return true; }
      var allTerminal := forall t :: t in ts ==> store.tasks[t].state.Settled();
      var hasRunning := exists t :: t in running && running[t].sprint == id;
      if ts != [] && allTerminal && !hasRunning {
        ok := Conclude(id, ts, now);
        return;
      }
      var pending := exists t :: t in ts && store.tasks[t].state.Pending?;
      if pending && !hasRunning { PauseIfBlocked(id, now); }
      ok := true;
    }

    /** The rate limit is looked at only when no worker can be picked. */
    method PauseIfBlocked(id: S.SprintId, now: S.Time)
      modifies this`rateLimitResetAt, store`sprints, store`moves, store`runtime
      ensures View() == if S.PickWorker(Settings(), old(View()), now).None?
                        then S.CheckRate(Settings(), old(View()), id, now) else old(View())
    {
      var worker := PickWorker(now);
      if worker.None? { CheckRateLimit(id, now); }
    }

    /** All tasks have settled: the sprint completes if all are done, else it fails. */
    method Conclude(id: S.SprintId, ts: seq<S.TaskId>, now: S.Time) returns (ok: bool)
      requires forall t :: t in ts ==> t in store.tasks
      modifies store`sprints, store`moves
      ensures (ok, View()) == S.Transition(old(View()), id,
        if exists t :: t in ts && !old(store.tasks)[t].state.Done? then S.Failed(now)
        else S.Completed(now, S.Prs(old(View()), ts)), now)
    {
      if exists t :: t in ts && !store.tasks[t].state.Done? {
        ok := Transition(id, S.Failed(now), now);
      } else {
        var prs := CollectPrs(ts);
        ok := Transition(id, S.Completed(now, prs), now);
      }
    }

    method CollectPrs(ts: seq<S.TaskId>) returns (prs: seq<string>)
      ensures prs == S.Prs(View(), ts)
    {
      prs := [];
      var i := 0;
      assert ts[0..] == ts;
      while i < |ts|
        invariant 0 <= i <= |ts|
        invariant prs + S.Prs(View(), ts[i..]) == S.Prs(View(), ts)
      {
        assert ts[i..][1..] == ts[i + 1..];
        var t := ts[i];
        if t in store.tasks && store.tasks[t].state.Done? && store.tasks[t].state.pr.Some?
          && store.tasks[t].state.pr.value != ""
        {
          prs := prs + [store.tasks[t].state.pr.value];
        }
        i := i + 1;
      }
    }

    /** `tick` when nothing else runs meanwhile; false when it throws. */
    method Tick(id: S.SprintId, env: S.TaskId -> T.Choice, now: S.Time) returns (ok: bool)
      modifies this`acts, this`running, this`rateLimitResetAt, registry`inFlight
      modifies store`tasks, store`work, store`slots, store`nextAct, store`sprints, store`moves, store`runtime
      ensures (ok, View()) == T.Tick(Settings(), old(View()), id, env, now)
    {
      var head := TickHead(id, now);
      if !head.GoesOn? { return head.Stops?; }
      DispatchPending(id, env, now);
      ok := TickTail(id, now);
    }

    method DispatchPending(id: S.SprintId, env: S.TaskId -> T.Choice, now: S.Time)
      modifies this`acts, this`running, registry`inFlight, store`tasks, store`work, store`slots, store`nextAct
      ensures View() == T.TickBody(Settings(), old(View()), id, env, now)
    {
      var worker := PickWorker(now);
      if worker.None? || id !in store.sprints { return; }
      var ts, snap := store.sprints[id].tasks, store.tasks;
      var i := 0;
      assert ts[0..] == ts;
      while i < |ts| && worker.Some?
        invariant 0 <= i <= |ts|
        invariant T.TickBody(Settings(), old(View()), id, env, now)
               == if worker.None? then View()
                     else T.DispatchAll(Settings(), View(), ts[i..], snap, worker.value, env, now)
      {
        assert ts[i..][1..] == ts[i + 1..];
        var t := ts[i];
        i := i + 1;
        if t !in snap || !snap[t].state.Pending? { continue; }
        var task := snap[t];
        if capabilities.Some? && exists r :: r in task.required && r !in capabilities.value {
          store.SaveTask(t, task.(state := S.TaskFailed(now)));
          continue;
        }
        Dispatch(t, task, worker.value, env(t), now);
        worker := PickWorker(now);
      }
    }

    // ----- submitting, booting -----

    /** `startSprint` with fresh ids. */
    method StartSprint(id: S.SprintId, ts: seq<S.TaskId>, briefs: S.TaskId -> string, required: S.TaskId -> seq<string>)
      requires S.FreshIds(View(), id, ts)
      modifies store`sprints, store`tasks, store`work, store`moves
      ensures View() == S.Submit(old(View()), id, ts, briefs, required)
    {
      var i := 0;
      assert ts[0..] == ts;
      while i < |ts|
        invariant 0 <= i <= |ts|
        invariant store.sprints == old(store.sprints) && store.moves == old(store.moves)
        invariant S.AddTasks(View(), id, ts[i..], briefs, required) == S.AddTasks(old(View()), id, ts, briefs, required)
      {
        assert ts[i..][1..] == ts[i + 1..];
        store.SaveTask(ts[i], S.Task(id, briefs(ts[i]), S.Pending, 0, required(ts[i])));
        store.work := Then(store.work, S.Submitted(ts[i]));
        i := i + 1;
      }
      store.SaveSprint(id, S.Sprint(ts, S.Queued));
      store.moves := Then(store.moves, S.Created(id));
    }

    /** `resumeAbandoned` over the sprints the store lists as running. */
    method ResumeAbandoned(ids: seq<S.SprintId>)
      modifies store`tasks, store`work
      ensures View() == S.ResumeAbandoned(old(View()), ids)
    {
      var i := 0;
      assert ids[0..] == ids;
      while i < |ids|
        invariant 0 <= i <= |ids|
        invariant S.ResumeAbandoned(View(), ids[i..]) == S.ResumeAbandoned(old(View()), ids)
      {
        assert ids[i..][1..] == ids[i + 1..];
        var id := ids[i];
        i := i + 1;
        if id !in store.sprints || !store.sprints[id].state.Running? { continue; }
        if exists t :: t in running && running[t].sprint == id { continue; }
        ResetTasks(store.sprints[id].tasks);
      }
    }

    method ResetTasks(ts: seq<S.TaskId>)
      modifies store`tasks, store`work
      ensures View() == S.ResetTasks(old(View()), ts)
    {
      var i := 0;
      assert ts[0..] == ts;
      while i < |ts|
        invariant 0 <= i <= |ts|
        invariant S.ResetTasks(View(), ts[i..]) == S.ResetTasks(old(View()), ts)
      {
        assert ts[i..][1..] == ts[i + 1..];
        var t := ts[i];
        if t in store.tasks && (store.tasks[t].state.InProgress? || store.tasks[t].state.Assigned?) {
          store.SaveTask(t, store.tasks[t].(state := S.Pending));
          store.work := Then(store.work, S.Reset(t));
        }
        i := i + 1;
      }
    }
  }
}
