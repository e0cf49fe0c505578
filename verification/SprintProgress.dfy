/** What a tick achieves: no pending task is left behind while a worker could take it,
    and no sprint is left running whose tasks have all settled. */
module SprintProgress {
  import opened Prelude
  import opened Scheduler
  import opened SprintTicks
  import opened SprintInvariants
  import opened SprintEvents

  // ----- work conservation -----

  /** No worker has both a free slot and pressure below the threshold. */
  predicate NoneFree(c: Config, s: State, now: Time) {
    forall w :: w in c.workers ==>
      InFlight(s.inFlight, w.id) >= w.maxConcurrent || !ShouldDispatch(s.snapshots, w.id, now)
  }

  lemma PickNone(c: Config, s: State, now: Time)
    ensures PickWorker(c, s, now).None? <==> NoneFree(c, s, now)
  {
    var ids := Available(c.workers, s.inFlight);
    if PickWorker(c, s, now).Some? {
      var id := PickWorker(c, s, now).value;
      AvailableIff(c.workers, s.inFlight, id);
      var w :| w in c.workers && w.id == id && InFlight(s.inFlight, id) < w.maxConcurrent;
      assert ShouldDispatch(s.snapshots, w.id, now);
    } else {
      forall w | w in c.workers
        ensures InFlight(s.inFlight, w.id) >= w.maxConcurrent || !ShouldDispatch(s.snapshots, w.id, now) {
        AvailableIff(c.workers, s.inFlight, w.id);
        assert InFlight(s.inFlight, w.id) < w.maxConcurrent ==> w.id in ids;
      }
    }
  }

  /** The worker has a free slot and pressure below the threshold. */
  predicate Free(w: Worker, m: map<WorkerId, nat>, p: map<WorkerId, Snapshot>, now: Time) {
    InFlight(m, w.id) < w.maxConcurrent && PressureFor(p, w.id, now) < BLOCK_THRESHOLD
  }

  lemma {:induction false} FirstFree(ws: seq<Worker>, m: map<WorkerId, nat>, p: map<WorkerId, Snapshot>, now: Time,
                                     k: nat)
    requires k < |ws| && Free(ws[k], m, p, now) && forall j :: 0 <= j < k ==> !Free(ws[j], m, p, now)
    ensures FirstDispatchable(Available(ws, m), p, now) == Some(ws[k].id)
    decreases k
  {
    if k == 0 {
      assert Available(ws, m) == [ws[0].id] + Available(ws[1..], m);
    } else {
      assert !Free(ws[0], m, p, now);
      assert forall j :: 0 <= j < k - 1 ==> ws[1..][j] == ws[j + 1];
      FirstFree(ws[1..], m, p, now, k - 1);
      if InFlight(m, ws[0].id) < ws[0].maxConcurrent {
        assert Available(ws, m) == [ws[0].id] + Available(ws[1..], m);
        assert Available(ws, m)[1..] == Available(ws[1..], m);
      } else {
        assert Available(ws, m) == Available(ws[1..], m);
      }
    }
  }

  /** The pick is the first free worker in the order of the registry. */
  lemma PickFirst(c: Config, s: State, now: Time, k: nat)
    requires k < |c.workers| && Free(c.workers[k], s.inFlight, s.snapshots, now)
    requires forall j :: 0 <= j < k ==> !Free(c.workers[j], s.inFlight, s.snapshots, now)
    ensures PickWorker(c, s, now) == Some(c.workers[k].id)
  {
    FirstFree(c.workers, s.inFlight, s.snapshots, now, k);
  }

  /** A restart forgets slots and rate limits: the first worker that takes any task is
      picked next. */
  lemma RestartPicks(c: Config, s: State, now: Time, k: nat)
    requires k < |c.workers| && c.workers[k].maxConcurrent > 0
    requires forall j :: 0 <= j < k ==> c.workers[j].maxConcurrent == 0
    ensures PickWorker(c, Restart(s), now) == Some(c.workers[k].id)
  {
    PickFirst(c, Restart(s), now, k);
  }

  /** The worker that is picked cannot be acquired: with a repeated id the pick goes by
      one entry of the registry and `acquire` by the first. */
  predicate Stuck(c: Config, s: State, now: Time) {
    PickWorker(c, s, now).Some? && !HasCapacity(c.workers, s.inFlight, PickWorker(c, s, now).value)
  }

  /** Of the entries with one id, the first has the largest limit. */
  predicate FirstIsLargest(c: Config) {
    forall w :: w in c.workers ==>
      ById(c.workers, w.id).Some? && w.maxConcurrent <= ById(c.workers, w.id).value.maxConcurrent
  }

  lemma PickedHasCapacity(c: Config, s: State, now: Time)
    requires FirstIsLargest(c)
    ensures !Stuck(c, s, now)
  {
    if PickWorker(c, s, now).Some? {
      var id := PickWorker(c, s, now).value;
      AvailableIff(c.workers, s.inFlight, id);
      var w :| w in c.workers && w.id == id && InFlight(s.inFlight, id) < w.maxConcurrent;
      assert w.maxConcurrent <= ById(c.workers, w.id).value.maxConcurrent;
    }
  }

  lemma {:induction false} DistinctIsEnough(ws: seq<Worker>, w: Worker)
    requires w in ws && forall i, j :: 0 <= i < j < |ws| ==> ws[i].id != ws[j].id
    ensures ById(ws, w.id) == Some(w)
  {
    if ws[0] != w {
      var k :| 0 <= k < |ws| && ws[k] == w;
      assert ws[0].id != ws[k].id;
      assert ws[1..][k - 1] == w;
      DistinctIsEnough(ws[1..], w);
    }
  }

  /** Registries without repeated ids are among those. */
  lemma DistinctFirstIsLargest(c: Config)
    requires DistinctWorkers(c)
    ensures FirstIsLargest(c)
  {
    forall w | w in c.workers ensures ById(c.workers, w.id) == Some(w) { DistinctIsEnough(c.workers, w); }
  }

  // ----- when the pick is stuck -----

  lemma StuckDispatch(c: Config, s: State, t: TaskId, rec: Task, w: WorkerId, ch: Choice, now: Time)
    requires !HasCapacity(c.workers, s.inFlight, w) && s.nextAct !in s.acts
    ensures Dispatch(c, s, t, rec, w, ch, now) == s
  {}

  lemma BlockStays(c: Config, s: State, t: TaskId, rec: Task, now: Time, w: WorkerId)
    requires PickWorker(c, s, now) == Some(w) && s.nextAct !in s.acts
    ensures var s' := BlockTask(s, t, rec, now);
            && s'.inFlight == s.inFlight && s'.snapshots == s.snapshots && s'.nextAct !in s'.acts
            && PickWorker(c, s', now) == Some(w)
            && (forall u :: u in s.tasks && u != t ==> u in s'.tasks && s'.tasks[u] == s.tasks[u])
  {}

  /** While the pick is stuck, dispatching changes no slot and no task that is due. */
  lemma {:induction false} StuckStays(c: Config, s: State, ts: seq<TaskId>, snap: map<TaskId, Task>, w: WorkerId,
                                      env: TaskId -> Choice, now: Time, u: TaskId)
    requires PickWorker(c, s, now) == Some(w) && !HasCapacity(c.workers, s.inFlight, w) && s.nextAct !in s.acts
    ensures var s' := DispatchAll(c, s, ts, snap, w, env, now);
            && s'.inFlight == s.inFlight && s'.snapshots == s.snapshots
            && (Due(c, snap, u) && u in s.tasks ==> u in s'.tasks && s'.tasks[u] == s.tasks[u])
    decreases |ts|
  {
    if ts != [] {
      var t := ts[0];
      if t !in snap || !snap[t].state.Pending? {
        StuckStays(c, s, ts[1..], snap, w, env, now, u);
      } else if Missing(c, snap[t]) {
        BlockStays(c, s, t, snap[t], now, w);
        StuckStays(c, BlockTask(s, t, snap[t], now), ts[1..], snap, w, env, now, u);
      } else {
        StuckDispatch(c, s, t, snap[t], w, env(t), now);
        StuckStays(c, s, ts[1..], snap, w, env, now, u);
      }
    }
  }

  lemma {:induction false} DispatchAllFrame(c: Config, s: State, id: SprintId, ts: seq<TaskId>, snap: map<TaskId, Task>,
                                            w: WorkerId, env: TaskId -> Choice, now: Time, u: TaskId)
    requires Inv(s) && Current(s, id, ts, snap) && u in s.tasks && u !in ts
    ensures var s' := DispatchAll(c, s, ts, snap, w, env, now); u in s'.tasks && s'.tasks[u] == s.tasks[u]
    decreases |ts|
  {
    if ts != [] {
      var t := ts[0];
      if !snap[t].state.Pending? {
        CurrentRest(s, s, id, ts, snap);
        DispatchAllFrame(c, s, id, ts[1..], snap, w, env, now, u);
      } else if Missing(c, snap[t]) {
        var s1 := BlockTask(s, t, snap[t], now);
        BlockRefuses(s, t, now, w);
        RefusedKeeps(s, s1, t, w);
        CurrentRest(s, s1, id, ts, snap);
        DispatchAllFrame(c, s1, id, ts[1..], snap, w, env, now, u);
      } else {
        var s1 := Dispatch(c, s, t, snap[t], w, env(t), now);
        var next := PickWorker(c, s1, now);
        DispatchKeeps(c, s, t, w, env(t), now);
        if next.Some? {
          CurrentRest(s, s1, id, ts, snap);
          DispatchAllFrame(c, s1, id, ts[1..], snap, next.value, env, now, u);
        }
      }
    }
  }

  predicate Handled(s: State, t: TaskId) {
    t in s.tasks && !s.tasks[t].state.Pending?
  }

  /** The listed tasks are handled, or nobody can be picked, or the pick is stuck. */
  predicate DealtOut(c: Config, s: State, ts: seq<TaskId>, now: Time) {
    (forall t :: t in ts ==> Handled(s, t)) || PickWorker(c, s, now).None? || Stuck(c, s, now)
  }

  /** A handled head stays handled while the rest of the list is dispatched. */
  lemma HeadHandled(c: Config, s: State, id: SprintId, ts: seq<TaskId>, snap: map<TaskId, Task>, w: WorkerId,
                    env: TaskId -> Choice, now: Time)
    requires ts != [] && NoRepeat(ts) && Inv(s) && Current(s, id, ts[1..], snap) && Handled(s, ts[0])
    requires DealtOut(c, DispatchAll(c, s, ts[1..], snap, w, env, now), ts[1..], now)
    ensures DealtOut(c, DispatchAll(c, s, ts[1..], snap, w, env, now), ts, now)
  {
    assert ts[0] !in ts[1..];
    DispatchAllFrame(c, s, id, ts[1..], snap, w, env, now, ts[0]);
    assert ts == [ts[0]] + ts[1..];
  }

  lemma {:induction false} DispatchAllConserves(c: Config, s: State, id: SprintId, ts: seq<TaskId>,
                                                snap: map<TaskId, Task>, w: WorkerId, env: TaskId -> Choice, now: Time)
    requires Inv(s) && Current(s, id, ts, snap) && PickWorker(c, s, now) == Some(w)
    requires HasCapacity(c.workers, s.inFlight, w)
    ensures DealtOut(c, DispatchAll(c, s, ts, snap, w, env, now), ts, now)
    decreases |ts|
  {
    if ts != [] {
      var t := ts[0];
      if !snap[t].state.Pending? {
        CurrentRest(s, s, id, ts, snap);
        DispatchAllConserves(c, s, id, ts[1..], snap, w, env, now);
        HeadHandled(c, s, id, ts, snap, w, env, now);
      } else if Missing(c, snap[t]) {
        var s1 := BlockTask(s, t, snap[t], now);
        BlockRefuses(s, t, now, w);
        RefusedKeeps(s, s1, t, w);
        CurrentRest(s, s1, id, ts, snap);
        DispatchAllConserves(c, s1, id, ts[1..], snap, w, env, now);
        HeadHandled(c, s1, id, ts, snap, w, env, now);
      } else {
        var s1 := Dispatch(c, s, t, snap[t], w, env(t), now);
        DispatchKeeps(c, s, t, w, env(t), now);
        CurrentRest(s, s1, id, ts, snap);
        NextConserves(c, s1, id, ts, snap, env, now);
      }
    }
  }

  /** The rest of the loop after the head was dispatched. */
  lemma NextConserves(c: Config, s: State, id: SprintId, ts: seq<TaskId>, snap: map<TaskId, Task>,
                      env: TaskId -> Choice, now: Time)
    requires ts != [] && NoRepeat(ts) && Inv(s) && Current(s, id, ts[1..], snap) && Handled(s, ts[0])
    ensures var next := PickWorker(c, s, now);
            DealtOut(c, if next.None? then s else DispatchAll(c, s, ts[1..], snap, next.value, env, now), ts, now)
    decreases |ts|, 0
  {
    var next := PickWorker(c, s, now);
    if next.Some? {
      if Stuck(c, s, now) {
        assert ActOk(s, s.nextAct);
        StuckStays(c, s, ts[1..], snap, next.value, env, now, ts[0]);
      } else {
        DispatchAllConserves(c, s, id, ts[1..], snap, next.value, env, now);
        HeadHandled(c, s, id, ts, snap, next.value, env, now);
      }
    }
  }

  /** No listed task is pending, or nobody is free to take one. */
  predicate NoneLeft(c: Config, s: State, ts: seq<TaskId>, now: Time) {
    (forall t :: t in ts ==> Handled(s, t)) || NoneFree(c, s, now)
  }

  lemma BodyConserves(c: Config, s: State, id: SprintId, env: TaskId -> Choice, now: Time)
    requires Inv(s) && RunningState(s, id)
    ensures var s' := TickBody(c, s, id, env, now); NoneLeft(c, s', s.sprints[id].tasks, now) || Stuck(c, s', now)
  {
    var w := PickWorker(c, s, now);
    if w.Some? {
      StartsCurrent(s, id);
      if Stuck(c, s, now) {
        assert ActOk(s, s.nextAct);
        StuckStays(c, s, s.sprints[id].tasks, s.tasks, w.value, env, now, 0);
      } else {
        DispatchAllConserves(c, s, id, s.sprints[id].tasks, s.tasks, w.value, env, now);
      }
    }
    PickNone(c, TickBody(c, s, id, env, now), now);
  }

  lemma NoneLeftSame(c: Config, s: State, s': State, ts: seq<TaskId>, now: Time)
    requires NoneLeft(c, s, ts, now) || Stuck(c, s, now)
    requires s'.tasks == s.tasks && s'.snapshots == s.snapshots && s'.inFlight == s.inFlight
    ensures NoneLeft(c, s', ts, now) || Stuck(c, s', now)
  {}

  /** Work conservation, for any registry: after any tick that got to dispatching, no
      task of the sprint is pending, or no worker has a free slot and pressure below the
      block threshold, or the pick is stuck. */
  lemma WorkConserved(c: Config, s: State, id: SprintId, env: TaskId -> Choice, now: Time)
    requires Inv(s) && RunningState(TickHead(s, id, now).1, id)
    ensures var s' := Tick(c, s, id, env, now).1;
            NoneLeft(c, s', TickHead(s, id, now).1.sprints[id].tasks, now) || Stuck(c, s', now)
  {
    var s1 := TickHead(s, id, now).1;
    HeadKeeps(s, id, now);
    HeadRuns(s, id, now);
    BodyConserves(c, s1, id, env, now);
    var s2 := TickBody(c, s1, id, env, now);
    var s3 := TickTail(c, s2, id, now).1;
    assert SameTaskData(s2, s3) && SameSlots(s2, s3);
    NoneLeftSame(c, s2, s3, s1.sprints[id].tasks, now);
  }

  /** Over every run: a tick that leaves its sprint running leaves no pending task that
      a worker could take, unless the pick is stuck; it never is when of the entries
      with one id the first has the largest limit. */
  lemma NoTickLeavesWork(c: Config, es: seq<Event>, id: SprintId, env: TaskId -> Choice, now: Time)
    requires RunningState(Tick(c, Run(c, es), id, env, now).1, id)
    ensures var s' := Tick(c, Run(c, es), id, env, now).1;
            && (NoneLeft(c, s', s'.sprints[id].tasks, now) || Stuck(c, s', now))
            && (FirstIsLargest(c) ==> NoneLeft(c, s', s'.sprints[id].tasks, now))
  {
    var s := Run(c, es);
    AlwaysInv(c, es);
    var s1 := TickHead(s, id, now).1;
    HeadKeeps(s, id, now);
    HeadRuns(s, id, now);
    WorkConserved(c, s, id, env, now);
    BodyKeeps(c, s1, id, env, now);
    TailLists(c, TickBody(c, s1, id, env, now), id, now);
    if FirstIsLargest(c) { PickedHasCapacity(c, Tick(c, s, id, env, now).1, now); }
  }

  /** A tick whose pick is stuck from the start hands out none of the tasks that are due. */
  lemma StuckTickServesNobody(c: Config, s: State, id: SprintId, env: TaskId -> Choice, now: Time, t: TaskId)
    requires Inv(s) && RunningState(s, id) && Stuck(c, s, now) && Due(c, s.tasks, t)
    ensures var s' := TickTail(c, TickBody(c, s, id, env, now), id, now).1; t in s'.tasks && s'.tasks[t] == s.tasks[t]
  {
    assert ActOk(s, s.nextAct);
    StuckStays(c, s, s.sprints[id].tasks, s.tasks, PickWorker(c, s, now).value, env, now, t);
  }

  predicate SameList(s: State, s': State, id: SprintId) {
    id in s.sprints && id in s'.sprints && s'.sprints[id].tasks == s.sprints[id].tasks
  }

  lemma RateLists(c: Config, s: State, id: SprintId, now: Time)
    requires id in s.sprints
    ensures SameList(s, CheckRate(c, s, id, now), id)
  {}

  lemma TransitionLists(s: State, id: SprintId, next: SprintState, now: Time)
    requires id in s.sprints
    ensures SameList(s, Transition(s, id, next, now).1, id)
  {}

  lemma TailLists(c: Config, s: State, id: SprintId, now: Time)
    requires id in s.sprints
    ensures SameList(s, TickTail(c, s, id, now).1, id)
  {
    RateLists(c, s, id, now);
    TransitionLists(s, id, Failed(now), now);
    TransitionLists(s, id, Completed(now, Prs(s, s.sprints[id].tasks)), now);
  }

  lemma SettledConcludes(c: Config, s: State, id: SprintId, now: Time)
    requires Inv(s) && RunningState(s, id) && s.sprints[id].tasks != [] && AllSettled(s, s.sprints[id].tasks)
    ensures !RunningState(TickTail(c, s, id, now).1, id)
  {
    assert Owns(s, id);
    NothingRuns(s, id);
    ConcludesNow(c, s, id, now);
  }

  lemma NothingRuns(s: State, id: SprintId)
    requires Inv(s) && id in s.sprints && AllSettled(s, s.sprints[id].tasks)
    ensures !HasRunning(s, id)
  {
    forall t | t in s.running ensures s.running[t].sprint != id { assert TaskOk(s, t) && Listed(s, t); }
  }

  lemma ConcludesNow(c: Config, s: State, id: SprintId, now: Time)
    requires RunningState(s, id) && s.sprints[id].tasks != []
    requires AllSettled(s, s.sprints[id].tasks) && !HasRunning(s, id)
    ensures !RunningState(TickTail(c, s, id, now).1, id)
  {
    assert TickTail(c, s, id, now) == Transition(s, id,
      if exists t :: t in s.sprints[id].tasks && !s.tasks[t].state.Done? then Failed(now)
      else Completed(now, Prs(s, s.sprints[id].tasks)), now);
  }

  /** Over every run: a tick that leaves its sprint running leaves it with work. */
  lemma NoTickLeavesSettled(c: Config, es: seq<Event>, id: SprintId, env: TaskId -> Choice, now: Time)
    requires RunningState(Tick(c, Run(c, es), id, env, now).1, id)
    ensures var s' := Tick(c, Run(c, es), id, env, now).1;
            s'.sprints[id].tasks != [] ==> !AllSettled(s', s'.sprints[id].tasks)
  {
    var s := Run(c, es);
    AlwaysInv(c, es);
    var s1 := TickHead(s, id, now).1;
    HeadKeeps(s, id, now);
    HeadRuns(s, id, now);
    if RunningState(s1, id) {
      BodyKeeps(c, s1, id, env, now);
      var s2 := TickBody(c, s1, id, env, now);
      TailLists(c, s2, id, now);
      assert SameTaskData(s2, TickTail(c, s2, id, now).1);
      if s2.sprints[id].tasks != [] && AllSettled(s2, s2.sprints[id].tasks) {
        SettledConcludes(c, s2, id, now);
      }
    }
  }

  // ----- the first task in line -----

  predicate Due(c: Config, snap: map<TaskId, Task>, t: TaskId) {
    t in snap && snap[t].state.Pending? && !Missing(c, snap[t])
  }

  /** `ts[k]` is the first task in line that can be dispatched. */
  predicate FirstDue(c: Config, snap: map<TaskId, Task>, ts: seq<TaskId>, k: nat) {
    k < |ts| && Due(c, snap, ts[k]) && forall j :: 0 <= j < k ==> !Due(c, snap, ts[j])
  }

  lemma {:induction false} FirstDueDispatched(c: Config, s: State, id: SprintId, ts: seq<TaskId>,
                                              snap: map<TaskId, Task>, w: WorkerId, env: TaskId -> Choice,
                                              now: Time, k: nat)
    requires Inv(s) && Current(s, id, ts, snap) && HasCapacity(c.workers, s.inFlight, w) && FirstDue(c, snap, ts, k)
    ensures DispatchedTo(snap[ts[k]], DispatchAll(c, s, ts, snap, w, env, now), ts[k], w, env(ts[k]))
    decreases k
  {
    var t := ts[0];
    if k > 0 {
      assert !Due(c, snap, t);
      var s1 := if snap[t].state.Pending? then BlockTask(s, t, snap[t], now) else s;
      if snap[t].state.Pending? {
        BlockRefuses(s, t, now, w);
        RefusedKeeps(s, s1, t, w);
      }
      CurrentRest(s, s1, id, ts, snap);
      assert forall j :: 0 <= j < k - 1 ==> ts[1..][j] == ts[j + 1];
      FirstDueDispatched(c, s1, id, ts[1..], snap, w, env, now, k - 1);
    } else {
      var s1 := Dispatch(c, s, t, snap[t], w, env(t), now);
      var next := PickWorker(c, s1, now);
      DispatchKeeps(c, s, t, w, env(t), now);
      if next.Some? {
        CurrentRest(s, s1, id, ts, snap);
        assert t !in ts[1..];
        DispatchAllFrame(c, s1, id, ts[1..], snap, next.value, env, now, t);
      }
    }
  }

  /** When some worker is free, a tick hands the first dispatchable task to it. */
  lemma FirstDueServed(c: Config, s: State, id: SprintId, env: TaskId -> Choice, now: Time, k: nat)
    requires Inv(s) && RunningState(s, id) && !NoneFree(c, s, now) && !Stuck(c, s, now)
    requires FirstDue(c, s.tasks, s.sprints[id].tasks, k)
    ensures var t := s.sprints[id].tasks[k];
            PickWorker(c, s, now).Some?
            && DispatchedTo(s.tasks[t], TickTail(c, TickBody(c, s, id, env, now), id, now).1, t,
                            PickWorker(c, s, now).value, env(t))
  {
    PickNone(c, s, now);
    StartsCurrent(s, id);
    FirstDueDispatched(c, s, id, s.sprints[id].tasks, s.tasks, PickWorker(c, s, now).value, env, now, k);
  }
}
