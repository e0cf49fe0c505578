/** A measure of the work left in a sprint: it falls with every dispatch and every
    completion, and only a reset after a restart raises it. */
module SprintMeasure {
  import opened Prelude
  import opened Scheduler
  import opened SprintTicks
  import opened SprintInvariants
  import opened SprintEvents
  import opened SprintProgress

  /** A pending task may still be dispatched and return; one in progress may return. */
  function Weight(rec: Task): nat {
    if rec.state.Pending? then 2 else if rec.state.Settled() then 0 else 1
  }

  function Load(tasks: map<TaskId, Task>, ts: seq<TaskId>): nat {
    if ts == [] then 0 else (if ts[0] in tasks then Weight(tasks[ts[0]]) else 0) + Load(tasks, ts[1..])
  }

  lemma {:induction false} LoadSame(tasks: map<TaskId, Task>, tasks': map<TaskId, Task>, ts: seq<TaskId>)
    requires forall t :: t in ts ==> t in tasks && t in tasks' && tasks'[t] == tasks[t]
    ensures Load(tasks', ts) == Load(tasks, ts)
  {
    if ts != [] {
      assert ts[0] in ts && forall t :: t in ts[1..] ==> t in ts;
      LoadSame(tasks, tasks', ts[1..]);
    }
  }

  lemma DistinctRest(ts: seq<TaskId>)
    requires NoRepeat(ts) && ts != []
    ensures NoRepeat(ts[1..]) && ts[0] !in ts[1..]
  {
    forall k | 0 <= k < |ts| - 1 ensures ts[1..][k] != ts[0] {
      assert ts[1..][k] == ts[k + 1];
    }
  }

  /** One listed task changed: the load changes by the difference of its weights. */
  lemma {:induction false} LoadChange(tasks: map<TaskId, Task>, ts: seq<TaskId>, t: TaskId, rec: Task)
    requires NoRepeat(ts) && t in ts && forall u :: u in ts ==> u in tasks
    ensures Load(tasks[t := rec], ts) + Weight(tasks[t]) == Load(tasks, ts) + Weight(rec)
  {
    DistinctRest(ts);
    assert ts[0] in ts && forall u :: u in ts[1..] ==> u in ts;
    if ts[0] == t {
      LoadSame(tasks, tasks[t := rec], ts[1..]);
    } else {
      assert t in ts[1..] by { assert ts == [ts[0]] + ts[1..]; }
      LoadChange(tasks, ts[1..], t, rec);
    }
  }

  lemma RefusedLoad(s: State, s': State, t: TaskId, w: WorkerId, ts: seq<TaskId>)
    requires Refused(s, s', t, w) && NoRepeat(ts) && t in ts && forall u :: u in ts ==> u in s.tasks
    ensures Load(s'.tasks, ts) == Load(s.tasks, ts) - 2
  {
    LoadChange(s.tasks, ts, t, s'.tasks[t]);
  }

  lemma LaunchedLoad(s: State, s': State, t: TaskId, w: WorkerId, ts: seq<TaskId>)
    requires Launched(s, s', t, w) && NoRepeat(ts) && t in ts && forall u :: u in ts ==> u in s.tasks
    ensures Load(s'.tasks, ts) == Load(s.tasks, ts) - 1
  {
    LoadChange(s.tasks, ts, t, s'.tasks[t]);
  }

  /** The listed tasks are all there. */
  predicate AllIn(s: State, ts: seq<TaskId>) {
    forall t :: t in ts ==> t in s.tasks
  }

  /** The load did not rise, and fell if anything happened. */
  predicate Falls(s: State, s': State, all: seq<TaskId>) {
    AllIn(s', all) && Load(s'.tasks, all) <= Load(s.tasks, all)
    && (s' != s ==> Load(s'.tasks, all) < Load(s.tasks, all))
  }

  lemma BlockLoad(s: State, t: TaskId, now: Time, w: WorkerId, all: seq<TaskId>)
    requires t in s.tasks && s.tasks[t].state.Pending? && NoRepeat(all) && t in all && AllIn(s, all)
    ensures Falls(s, BlockTask(s, t, s.tasks[t], now), all)
  {
    BlockRefuses(s, t, now, w);
    RefusedLoad(s, BlockTask(s, t, s.tasks[t], now), t, w, all);
  }

  lemma DispatchLoad(c: Config, s: State, t: TaskId, w: WorkerId, ch: Choice, now: Time, all: seq<TaskId>)
    requires Inv(s) && t in s.tasks && s.tasks[t].state.Pending? && NoRepeat(all) && t in all && AllIn(s, all)
    ensures Falls(s, Dispatch(c, s, t, s.tasks[t], w, ch, now), all)
  {
    var s' := Dispatch(c, s, t, s.tasks[t], w, ch, now);
    assert ActOk(s, s.nextAct);
    if HasCapacity(c.workers, s.inFlight, w) {
      DispatchCases(c, s, t, w, ch, now);
      if Briefed(s.tasks[t], ch) && ch.spawned {
        LaunchedLoad(s, s', t, w, all);
      } else {
        RefusedLoad(s, s', t, w, all);
      }
    }
  }

  lemma FallsOn(s: State, s1: State, s2: State, all: seq<TaskId>)
    requires Falls(s, s1, all) && Falls(s1, s2, all)
    ensures Falls(s, s2, all)
  {}

  /** The dispatch loop lowers the load with everything it dispatches or blocks. `all`
      is the whole task list, `ts` what the loop has still to visit. */
  lemma {:induction false} DispatchAllLoad(c: Config, s: State, id: SprintId, all: seq<TaskId>, ts: seq<TaskId>,
                                           snap: map<TaskId, Task>,
                                           w: WorkerId, env: TaskId -> Choice, now: Time)
    requires Inv(s) && Current(s, id, ts, snap) && NoRepeat(all) && AllIn(s, all) && forall t :: t in ts ==> t in all
    ensures Falls(s, DispatchAll(c, s, ts, snap, w, env, now), all)
    decreases |ts|
  {
    if ts != [] {
      var t, end := ts[0], DispatchAll(c, s, ts, snap, w, env, now);
      assert t in ts && forall u :: u in ts[1..] ==> u in ts;
      if !snap[t].state.Pending? {
        CurrentRest(s, s, id, ts, snap);
        DispatchAllLoad(c, s, id, all, ts[1..], snap, w, env, now);
      } else if Missing(c, snap[t]) {
        var s1 := BlockTask(s, t, snap[t], now);
        BlockRefuses(s, t, now, w);
        RefusedKeeps(s, s1, t, w);
        BlockLoad(s, t, now, w, all);
        CurrentRest(s, s1, id, ts, snap);
        DispatchAllLoad(c, s1, id, all, ts[1..], snap, w, env, now);
        FallsOn(s, s1, end, all);
      } else {
        var s1 := Dispatch(c, s, t, snap[t], w, env(t), now);
        var next := PickWorker(c, s1, now);
        DispatchKeeps(c, s, t, w, env(t), now);
        DispatchLoad(c, s, t, w, env(t), now, all);
        if next.Some? {
          CurrentRest(s, s1, id, ts, snap);
          DispatchAllLoad(c, s1, id, all, ts[1..], snap, next.value, env, now);
          FallsOn(s, s1, end, all);
        }
      }
    }
  }

  /** The load of a sprint never rises during a tick of it, and falls if the tick
      changed any task. */
  lemma TickLoad(c: Config, s: State, id: SprintId, env: TaskId -> Choice, now: Time)
    requires Inv(s) && id in s.sprints
    ensures var ts, s' := s.sprints[id].tasks, Tick(c, s, id, env, now).1;
            Load(s'.tasks, ts) <= Load(s.tasks, ts) && (s'.tasks != s.tasks ==> Load(s'.tasks, ts) < Load(s.tasks, ts))
  {
    var ts := s.sprints[id].tasks;
    var (head, s1) := TickHead(s, id, now);
    assert SameTaskData(s, s1);
    if head.GoesOn? {
      HeadKeeps(s, id, now);
      HeadRuns(s, id, now);
      HeadLists(s, id, now);
      StartsCurrent(s1, id);
      var w := PickWorker(c, s1, now);
      if w.Some? {
        DispatchAllLoad(c, s1, id, ts, ts, s1.tasks, w.value, env, now);
      }
      assert SameTaskData(TickBody(c, s1, id, env, now), TickTail(c, TickBody(c, s1, id, env, now), id, now).1);
    }
  }

  lemma HeadLists(s: State, id: SprintId, now: Time)
    requires id in s.sprints
    ensures SameList(s, TickHead(s, id, now).1, id)
  {
    if s.sprints[id].state.Paused? && id in s.resets {
      var s1 := s.(resets := s.resets - {id}, runtime := SaveReset(s.runtime, id, None));
      TransitionLists(s1, id, Running(now, s.sprints[id].state.elapsed), now);
    } else {
      TransitionLists(s, id, Running(now, 0), now);
    }
  }

  /** A settled handle lowers the load of its sprint by one. */
  lemma SettleLoad(c: Config, s: State, a: ActId, outcome: HandleOutcome, now: Time)
    requires Inv(s) && a in s.acts
    ensures var t := s.acts[a].task;
            t in s.tasks && s.tasks[t].sprint in s.sprints
            && var ts := s.sprints[s.tasks[t].sprint].tasks;
               Load(HandleSettled(c, s, a, outcome, now).tasks, ts) == Load(s.tasks, ts) - 1
  {
    assert ActOk(s, a);
    var t, s1 := s.acts[a].task, Drop(s, a);
    assert Listed(s, t) && Owns(s, s.tasks[t].sprint);
    var sid, s2 := s1.tasks[t].sprint, Settle(s1, t, outcome, now);
    SettleFinishes(s, a, outcome, now);
    assert SameTaskData(s2, CheckBudget(c, s2, sid, SpendOf(s2, sid), now));
    LoadChange(s.tasks, s.sprints[sid].tasks, t, s2.tasks[t]);
    SettledOutcome(outcome, now);
  }

  lemma SettledOutcome(outcome: HandleOutcome, now: Time)
    ensures OutcomeState(outcome, now).Settled()
  {}

  // ----- what that means over a run -----

  function Returns(work: History<Work>, t: TaskId): nat {
    match work
    case Start => 0
    case Then(past, e) => Returns(past, t) + if e.Returned? && e.task == t then 1 else 0
  }

  /** Each return answers an assignment, and a task in progress has one open. */
  predicate ReturnsOk(s: State, t: TaskId) {
    if t !in s.tasks then Returns(s.work, t) == 0
    else Returns(s.work, t) + (if s.tasks[t].state.InProgress? then 1 else 0) <= Assignments(s.work, t)
  }

  lemma RefusedReturns(s: State, s': State, t: TaskId, w: WorkerId, u: TaskId)
    requires Refused(s, s', t, w) && ReturnsOk(s, u)
    ensures ReturnsOk(s', u)
  {}

  lemma LaunchedReturns(s: State, s': State, t: TaskId, w: WorkerId, u: TaskId)
    requires Launched(s, s', t, w) && ReturnsOk(s, u)
    ensures ReturnsOk(s', u)
  {}

  lemma FinishedReturns(s: State, s': State, a: ActId, t: TaskId, outcome: HandleOutcome, now: Time, u: TaskId)
    requires Finished(s, s', a, t, outcome, now) && ActOk(s, a) && ReturnsOk(s, u)
    ensures ReturnsOk(s', u)
  {
    SettledOutcome(outcome, now);
  }

  lemma DispatchReturns(c: Config, s: State, t: TaskId, w: WorkerId, ch: Choice, now: Time, u: TaskId)
    requires Inv(s) && t in s.tasks && s.tasks[t].state.Pending? && ReturnsOk(s, u)
    ensures ReturnsOk(Dispatch(c, s, t, s.tasks[t], w, ch, now), u)
  {
    var s' := Dispatch(c, s, t, s.tasks[t], w, ch, now);
    assert ActOk(s, s.nextAct);
    if !HasCapacity(c.workers, s.inFlight, w) {
      assert s' == s;
    } else {
      DispatchCases(c, s, t, w, ch, now);
      if Briefed(s.tasks[t], ch) && ch.spawned {
        LaunchedReturns(s, s', t, w, u);
      } else {
        RefusedReturns(s, s', t, w, u);
      }
    }
  }

  lemma {:induction false} DispatchAllReturns(c: Config, s: State, id: SprintId, ts: seq<TaskId>,
                                              snap: map<TaskId, Task>, w: WorkerId, env: TaskId -> Choice,
                                              now: Time, u: TaskId)
    requires Inv(s) && Current(s, id, ts, snap) && ReturnsOk(s, u)
    ensures ReturnsOk(DispatchAll(c, s, ts, snap, w, env, now), u)
    decreases |ts|
  {
    if ts != [] {
      var t := ts[0];
      if !snap[t].state.Pending? {
        CurrentRest(s, s, id, ts, snap);
        DispatchAllReturns(c, s, id, ts[1..], snap, w, env, now, u);
      } else if Missing(c, snap[t]) {
        var s1 := BlockTask(s, t, snap[t], now);
        BlockRefuses(s, t, now, w);
        RefusedKeeps(s, s1, t, w);
        RefusedReturns(s, s1, t, w, u);
        CurrentRest(s, s1, id, ts, snap);
        DispatchAllReturns(c, s1, id, ts[1..], snap, w, env, now, u);
      } else {
        var s1 := Dispatch(c, s, t, snap[t], w, env(t), now);
        var next := PickWorker(c, s1, now);
        DispatchKeeps(c, s, t, w, env(t), now);
        DispatchReturns(c, s, t, w, env(t), now, u);
        if next.Some? {
          CurrentRest(s, s1, id, ts, snap);
          DispatchAllReturns(c, s1, id, ts[1..], snap, next.value, env, now, u);
        }
      }
    }
  }

  lemma TickReturns(c: Config, s: State, id: SprintId, env: TaskId -> Choice, now: Time, u: TaskId)
    requires Inv(s) && ReturnsOk(s, u)
    ensures ReturnsOk(Tick(c, s, id, env, now).1, u)
  {
    var (head, s1) := TickHead(s, id, now);
    HeadKeeps(s, id, now);
    HeadRuns(s, id, now);
    assert SameTaskData(s, s1);
    if head.GoesOn? {
      var s2 := TickBody(c, s1, id, env, now);
      StartsCurrent(s1, id);
      var w := PickWorker(c, s1, now);
      if w.Some? {
        DispatchAllReturns(c, s1, id, s1.sprints[id].tasks, s1.tasks, w.value, env, now, u);
      }
      assert SameTaskData(s2, TickTail(c, s2, id, now).1);
    }
  }

  lemma HandleReturns(c: Config, s: State, a: ActId, outcome: HandleOutcome, now: Time, u: TaskId)
    requires Inv(s) && ReturnsOk(s, u)
    ensures ReturnsOk(HandleSettled(c, s, a, outcome, now), u)
  {
    if a in s.acts {
      assert ActOk(s, a);
      var t := s.acts[a].task;
      var sid, s2 := s.tasks[t].sprint, SettleAct(s, a, outcome, now);
      SettleFinishes(s, a, outcome, now);
      FinishedReturns(s, s2, a, t, outcome, now, u);
      assert SameTaskData(s2, CheckBudget(c, s2, sid, SpendOf(s2, sid), now));
    }
  }

  lemma {:induction false} AddTasksReturns(s: State, id: SprintId, ts: seq<TaskId>, briefs: TaskId -> string,
                                           required: TaskId -> seq<string>, u: TaskId)
    ensures Returns(AddTasks(s, id, ts, briefs, required).work, u) == Returns(s.work, u)
    decreases |ts|
  {
    if ts != [] {
      var t := ts[0];
      var s1 := s.(tasks := s.tasks[t := Task(id, briefs(t), Pending, 0, required(t))],
                   work := Then(s.work, Submitted(t)));
      AddTasksReturns(s1, id, ts[1..], briefs, required, u);
    }
  }

  lemma SubmitReturns(s: State, id: SprintId, ts: seq<TaskId>, briefs: TaskId -> string,
                      required: TaskId -> seq<string>, u: TaskId)
    requires ReturnsOk(s, u)
    ensures ReturnsOk(Submit(s, id, ts, briefs, required), u)
  {
    if FreshIds(s, id, ts) {
      AddTasksAdds(s, id, ts, briefs, required);
      AddTasksBooks(s, id, ts, briefs, required, u);
      AddTasksReturns(s, id, ts, briefs, required, u);
    }
  }

  lemma {:induction false} ResetTasksReturns(s: State, ts: seq<TaskId>, u: TaskId)
    requires ReturnsOk(s, u)
    ensures ReturnsOk(ResetTasks(s, ts), u)
    decreases |ts|
  {
    if ts != [] {
      assert ReturnsOk(ResetTask(s, ts[0]), u);
      ResetTasksReturns(ResetTask(s, ts[0]), ts[1..], u);
    }
  }

  lemma {:induction false} BootReturns(s: State, ids: seq<SprintId>, u: TaskId)
    requires ReturnsOk(s, u)
    ensures ReturnsOk(ResumeAbandoned(s, ids), u)
    decreases |ids|
  {
    if ids != [] {
      if Abandoned(s, ids[0]) {
        ResetTasksReturns(s, s.sprints[ids[0]].tasks, u);
        BootReturns(ResetTasks(s, s.sprints[ids[0]].tasks), ids[1..], u);
      } else {
        BootReturns(s, ids[1..], u);
      }
    }
  }

  lemma DoReturns(c: Config, s: State, e: Event, u: TaskId)
    requires Inv(s) && ReturnsOk(s, u)
    ensures ReturnsOk(Do(c, s, e), u)
  {
    match e
    case Submitting(id, ts, briefs, required) => SubmitReturns(s, id, ts, briefs, required, u);
    case Ticking(id, env, now) => TickReturns(c, s, id, env, now, u);
    case Settling(a, outcome, now) => HandleReturns(c, s, a, outcome, now, u);
    case Resuming(id, now) => assert SameTaskData(s, Do(c, s, e));
    case Cancelling(id, now) => assert SameTaskData(s, Do(c, s, e));
    case Observing(w, snap) =>
    case Restarting =>
    case Booting(ids) => BootReturns(s, ids, u);
  }

  /** Over every run each return answers an assignment. */
  lemma {:induction false} AlwaysReturns(c: Config, es: seq<Event>, u: TaskId)
    ensures ReturnsOk(Run(c, es), u)
  {
    if es != [] {
      var before := es[..|es| - 1];
      AlwaysInv(c, before);
      AlwaysReturns(c, before, u);
      DoReturns(c, Run(c, before), es[|es| - 1], u);
    }
  }

  /** Dispatches and returns of the listed tasks. */
  function Steps(work: History<Work>, ts: seq<TaskId>): nat {
    if ts == [] then 0 else Assignments(work, ts[0]) + Returns(work, ts[0]) + Steps(work, ts[1..])
  }

  function AllResets(work: History<Work>, ts: seq<TaskId>): nat {
    if ts == [] then 0 else Resets(work, ts[0]) + AllResets(work, ts[1..])
  }

  lemma {:induction false} StepsAdd(s: State, ts: seq<TaskId>)
    requires forall t :: t in ts ==> t in s.tasks && TaskOk(s, t) && ReturnsOk(s, t)
    ensures Load(s.tasks, ts) + Steps(s.work, ts) <= 2 * (|ts| + AllResets(s.work, ts))
  {
    if ts != [] {
      var t := ts[0];
      assert t in ts && forall u :: u in ts[1..] ==> u in ts;
      assert Weight(s.tasks[t]) + Assignments(s.work, t) + Returns(s.work, t) <= 2 * (1 + Resets(s.work, t));
      StepsAdd(s, ts[1..]);
    }
  }

  /** Over every run the dispatches and returns of a sprint and the work left in it add up
      to at most two for each of its tasks and two more for each reset. */
  lemma WorkBounded(c: Config, es: seq<Event>, id: SprintId)
    requires id in Run(c, es).sprints
    ensures var s := Run(c, es);
            var ts := s.sprints[id].tasks;
            Load(s.tasks, ts) + Steps(s.work, ts) <= 2 * (|ts| + AllResets(s.work, ts))
  {
    var s := Run(c, es);
    AlwaysInv(c, es);
    assert Owns(s, id);
    forall t | t in s.sprints[id].tasks ensures TaskOk(s, t) && ReturnsOk(s, t) { AlwaysReturns(c, es, t); }
    StepsAdd(s, s.sprints[id].tasks);
  }

  // ----- without a boot there are no resets -----

  /** At most one event was added, which is no reset. */
  predicate NoReset(work: History<Work>, work': History<Work>) {
    work' == work || (work'.Then? && work'.past == work && !work'.event.Reset?)
  }

  lemma BeginNoReset(c: Config, s: State, t: TaskId, rec: Task, w: WorkerId, now: Time)
    ensures NoReset(s.work, BeginDispatch(c, s, t, rec, w, now).work)
  {}

  lemma BriefNoReset(s: State, a: ActId, brief: Option<string>, now: Time)
    ensures NoReset(s.work, BriefLoaded(s, a, brief, now).work)
  {}

  lemma SpawnNoReset(s: State, a: ActId, ok: bool, now: Time)
    ensures Spawned(s, a, ok, now).work == s.work
  {}

  lemma DispatchResets(c: Config, s: State, t: TaskId, rec: Task, w: WorkerId, ch: Choice, now: Time, u: TaskId)
    ensures Resets(Dispatch(c, s, t, rec, w, ch, now).work, u) == Resets(s.work, u)
  {
    var s1 := BeginDispatch(c, s, t, rec, w, now);
    var s2 := BriefLoaded(s1, s.nextAct, ch.brief, now);
    BeginNoReset(c, s, t, rec, w, now);
    BriefNoReset(s1, s.nextAct, ch.brief, now);
    SpawnNoReset(s2, s.nextAct, ch.spawned, now);
  }

  lemma {:induction false} DispatchAllResets(c: Config, s: State, ts: seq<TaskId>, snap: map<TaskId, Task>,
                                             w: WorkerId, env: TaskId -> Choice, now: Time, u: TaskId)
    ensures Resets(DispatchAll(c, s, ts, snap, w, env, now).work, u) == Resets(s.work, u)
    decreases |ts|
  {
    if ts != [] {
      var t := ts[0];
      if t !in snap || !snap[t].state.Pending? {
        DispatchAllResets(c, s, ts[1..], snap, w, env, now, u);
      } else if Missing(c, snap[t]) {
        DispatchAllResets(c, BlockTask(s, t, snap[t], now), ts[1..], snap, w, env, now, u);
      } else {
        var s1 := Dispatch(c, s, t, snap[t], w, env(t), now);
        var next := PickWorker(c, s1, now);
        DispatchResets(c, s, t, snap[t], w, env(t), now, u);
        if next.Some? { DispatchAllResets(c, s1, ts[1..], snap, next.value, env, now, u); }
      }
    }
  }

  lemma TickResets(c: Config, s: State, id: SprintId, env: TaskId -> Choice, now: Time, u: TaskId)
    ensures Resets(Tick(c, s, id, env, now).1.work, u) == Resets(s.work, u)
  {
    var (head, s1) := TickHead(s, id, now);
    assert SameTaskData(s, s1);
    if head.GoesOn? {
      var s2 := TickBody(c, s1, id, env, now);
      var w := PickWorker(c, s1, now);
      if w.Some? && id in s1.sprints {
        DispatchAllResets(c, s1, s1.sprints[id].tasks, s1.tasks, w.value, env, now, u);
      }
      assert SameTaskData(s2, TickTail(c, s2, id, now).1);
    }
  }

  lemma HandleNoReset(c: Config, s: State, a: ActId, outcome: HandleOutcome, now: Time)
    ensures NoReset(s.work, HandleSettled(c, s, a, outcome, now).work)
  {
    var s' := HandleSettled(c, s, a, outcome, now);
    if a in s.acts && s.acts[a].Awaiting? && s.acts[a].task in s.tasks {
      var sid, s2 := s.tasks[s.acts[a].task].sprint, SettleAct(s, a, outcome, now);
      SettleNoReset(s, a, outcome, now);
      assert SameTaskData(s2, CheckBudget(c, s2, sid, SpendOf(s2, sid), now));
      assert s'.work == s2.work;
    } else {
      assert s'.work == s.work;
    }
  }

  lemma SettleNoReset(s: State, a: ActId, outcome: HandleOutcome, now: Time)
    requires a in s.acts && s.acts[a].task in s.tasks
    ensures NoReset(s.work, SettleAct(s, a, outcome, now).work)
  {}

  lemma DoResets(c: Config, s: State, e: Event, u: TaskId)
    requires !e.Booting?
    ensures Resets(Do(c, s, e).work, u) == Resets(s.work, u)
  {
    match e
    case Submitting(id, ts, briefs, required) => AddTasksBooks(s, id, ts, briefs, required, u);
    case Ticking(id, env, now) => TickResets(c, s, id, env, now, u);
    case Settling(a, outcome, now) => HandleNoReset(c, s, a, outcome, now);
    case Resuming(id, now) => assert SameTaskData(s, Do(c, s, e));
    case Cancelling(id, now) => assert SameTaskData(s, Do(c, s, e));
    case Observing(w, snap) =>
    case Restarting =>
  }

  lemma {:induction false} NoBootNoReset(c: Config, es: seq<Event>, u: TaskId)
    requires forall k :: 0 <= k < |es| ==> !es[k].Booting?
    ensures Resets(Run(c, es).work, u) == 0
  {
    if es != [] {
      var before := es[..|es| - 1];
      NoBootNoReset(c, before, u);
      DoResets(c, Run(c, before), es[|es| - 1], u);
    }
  }

  lemma {:induction false} NoResets(work: History<Work>, ts: seq<TaskId>)
    requires forall t :: t in ts ==> Resets(work, t) == 0
    ensures AllResets(work, ts) == 0
  {
    if ts != [] {
      assert ts[0] in ts && forall t :: t in ts[1..] ==> t in ts;
      NoResets(work, ts[1..]);
    }
  }

  /** So, as long as `resumeAbandoned` puts nothing back, a sprint takes at most one
      dispatch and one return for each of its tasks. */
  lemma TwoStepsEach(c: Config, es: seq<Event>, id: SprintId)
    requires id in Run(c, es).sprints && forall k :: 0 <= k < |es| ==> !es[k].Booting?
    ensures var s := Run(c, es); Steps(s.work, s.sprints[id].tasks) <= 2 * |s.sprints[id].tasks|
  {
    var s := Run(c, es);
    forall t | t in s.sprints[id].tasks ensures Resets(s.work, t) == 0 { NoBootNoReset(c, es, t); }
    NoResets(s.work, s.sprints[id].tasks);
    WorkBounded(c, es, id);
  }
}
