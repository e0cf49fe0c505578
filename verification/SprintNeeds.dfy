/** Which tasks a tick may hand to a worker, told by what they require and what the
    process offers. */
module SprintNeeds {
  import opened Prelude
  import opened Scheduler
  import opened SprintTicks
  import opened SprintInvariants
  import opened SprintEvents
  import opened SprintProgress
  import opened SprintMeasure

  /** The process does not offer `r`. Without a list of capabilities it offers everything. */
  predicate NotOffered(c: Config, r: string) {
    match c.capabilities
    case None => false
    case Some(offered) => r !in offered
  }

  predicate AllOffered(c: Config, required: seq<string>) {
    forall k :: 0 <= k < |required| ==> !NotOffered(c, required[k])
  }

  // ----- the dispatch loop -----

  /** `u` is there as before and requires the same. */
  predicate SameRequired(s: State, s': State, u: TaskId) {
    && (u in s'.tasks <==> u in s.tasks)
    && (u in s.tasks ==> s'.tasks[u].required == s.tasks[u].required)
  }

  lemma EitherAssigns(s: State, s': State, t: TaskId, w: WorkerId, u: TaskId)
    requires Refused(s, s', t, w) || Launched(s, s', t, w)
    ensures u != t ==> Assignments(s'.work, u) == Assignments(s.work, u)
    ensures SameRequired(s, s', u)
  {}

  lemma DispatchAssigns(c: Config, s: State, t: TaskId, w: WorkerId, ch: Choice, now: Time, u: TaskId)
    requires Inv(s) && t in s.tasks && s.tasks[t].state.Pending?
    ensures var s' := Dispatch(c, s, t, s.tasks[t], w, ch, now);
            (u != t ==> Assignments(s'.work, u) == Assignments(s.work, u)) && SameRequired(s, s', u)
  {
    var s' := Dispatch(c, s, t, s.tasks[t], w, ch, now);
    assert ActOk(s, s.nextAct);
    if !HasCapacity(c.workers, s.inFlight, w) {
      assert s' == s;
    } else {
      DispatchCases(c, s, t, w, ch, now);
      EitherAssigns(s, s', t, w, u);
    }
  }

  lemma BlockAssigns(s: State, t: TaskId, now: Time, w: WorkerId, u: TaskId)
    requires t in s.tasks && s.tasks[t].state.Pending?
    ensures var s' := BlockTask(s, t, s.tasks[t], now);
            Assignments(s'.work, u) == Assignments(s.work, u) && SameRequired(s, s', u)
  {}

  /** The task requires `r`, which is not offered. */
  predicate Lacks(c: Config, rec: Task, r: string) {
    r in rec.required && NotOffered(c, r)
  }

  /** The loop assigns `u` only if all that it requires is offered, and changes nobody's needs. */
  lemma {:induction false} LoopAssigns(c: Config, s: State, id: SprintId, ts: seq<TaskId>, snap: map<TaskId, Task>,
                                       w: WorkerId, env: TaskId -> Choice, now: Time, u: TaskId, r: string)
    requires Inv(s) && Current(s, id, ts, snap)
    ensures var s' := DispatchAll(c, s, ts, snap, w, env, now);
            (u in ts ==> Lacks(c, snap[u], r)) ==> Assignments(s'.work, u) == Assignments(s.work, u)
    ensures SameRequired(s, DispatchAll(c, s, ts, snap, w, env, now), u)
    decreases |ts|
  {
    if ts != [] {
      var t := ts[0];
      if !snap[t].state.Pending? {
        CurrentRest(s, s, id, ts, snap);
        LoopAssigns(c, s, id, ts[1..], snap, w, env, now, u, r);
      } else if Missing(c, snap[t]) {
        var s1 := BlockTask(s, t, snap[t], now);
        BlockRefuses(s, t, now, w);
        RefusedKeeps(s, s1, t, w);
        BlockAssigns(s, t, now, w, u);
        CurrentRest(s, s1, id, ts, snap);
        LoopAssigns(c, s1, id, ts[1..], snap, w, env, now, u, r);
      } else {
        var s1 := Dispatch(c, s, t, snap[t], w, env(t), now);
        var next := PickWorker(c, s1, now);
        DispatchKeeps(c, s, t, w, env(t), now);
        DispatchAssigns(c, s, t, w, env(t), now, u);
        if next.Some? {
          CurrentRest(s, s1, id, ts, snap);
          LoopAssigns(c, s1, id, ts[1..], snap, next.value, env, now, u, r);
        }
      }
    }
  }

  /** What the loop has made of a pending task: failed it if something is not offered, or if
      its brief or spawn failed; left it alone if it did not get that far. */
  predicate Dealt(c: Config, s: State, rec: Task, u: TaskId, ch: Choice, now: Time) {
    && u in s.tasks
    && (!AllOffered(c, rec.required) ==>
         s.tasks[u].state.TaskFailed? || (s.tasks[u] == rec && PickWorker(c, s, now).None?))
    && (AllOffered(c, rec.required) && s.tasks[u].state.TaskFailed? ==> !(Briefed(rec, ch) && ch.spawned))
  }

  /** The head of the list was dealt with, and stays so while the rest is. */
  lemma HeadDealt(c: Config, s: State, id: SprintId, ts: seq<TaskId>, snap: map<TaskId, Task>, w: WorkerId,
                  env: TaskId -> Choice, now: Time)
    requires ts != [] && NoRepeat(ts) && Inv(s) && Current(s, id, ts[1..], snap) && ts[0] in s.tasks && ts[0] in snap
    requires var rec, state := snap[ts[0]], s.tasks[ts[0]].state;
             && (!AllOffered(c, rec.required) ==> state.TaskFailed?)
             && (AllOffered(c, rec.required) && state.TaskFailed? ==> !(Briefed(rec, env(ts[0])) && env(ts[0]).spawned))
    ensures Dealt(c, DispatchAll(c, s, ts[1..], snap, w, env, now), snap[ts[0]], ts[0], env(ts[0]), now)
  {
    assert ts[0] !in ts[1..];
    DispatchAllFrame(c, s, id, ts[1..], snap, w, env, now, ts[0]);
  }

  /** A dispatch to a worker fails the task only for its brief or its spawn. */
  lemma DispatchDeals(c: Config, s: State, t: TaskId, w: WorkerId, ch: Choice, now: Time)
    requires Inv(s) && t in s.tasks && s.tasks[t].state.Pending?
    ensures var s' := Dispatch(c, s, t, s.tasks[t], w, ch, now);
            t in s'.tasks && (s'.tasks[t].state.TaskFailed? ==> !(Briefed(s.tasks[t], ch) && ch.spawned))
  {
    assert ActOk(s, s.nextAct);
    if HasCapacity(c.workers, s.inFlight, w) { DispatchCases(c, s, t, w, ch, now); }
  }

  lemma MissingIff(c: Config, rec: Task)
    ensures Missing(c, rec) <==> !AllOffered(c, rec.required)
  {
    if Missing(c, rec) {
      var r :| r in rec.required && r !in c.capabilities.value;
      assert NotOffered(c, r);
    }
    if !AllOffered(c, rec.required) {
      var k :| 0 <= k < |rec.required| && NotOffered(c, rec.required[k]);
      assert rec.required[k] in rec.required;
    }
  }

  lemma {:induction false} LoopDeals(c: Config, s: State, id: SprintId, ts: seq<TaskId>, snap: map<TaskId, Task>,
                                     w: WorkerId, env: TaskId -> Choice, now: Time, u: TaskId)
    requires Inv(s) && Current(s, id, ts, snap) && u in ts && snap[u].state.Pending?
    ensures Dealt(c, DispatchAll(c, s, ts, snap, w, env, now), snap[u], u, env(u), now)
    decreases |ts|
  {
    var t := ts[0];
    MissingIff(c, snap[t]);
    if !snap[t].state.Pending? {
      CurrentRest(s, s, id, ts, snap);
      LoopDeals(c, s, id, ts[1..], snap, w, env, now, u);
    } else if Missing(c, snap[t]) {
      var s1 := BlockTask(s, t, snap[t], now);
      BlockRefuses(s, t, now, w);
      RefusedKeeps(s, s1, t, w);
      CurrentRest(s, s1, id, ts, snap);
      if u == t {
        HeadDealt(c, s1, id, ts, snap, w, env, now);
      } else {
        LoopDeals(c, s1, id, ts[1..], snap, w, env, now, u);
      }
    } else {
      DispatchKeeps(c, s, t, w, env(t), now);
      DispatchDeals(c, s, t, w, env(t), now);
      CurrentRest(s, Dispatch(c, s, t, snap[t], w, env(t), now), id, ts, snap);
      RestDeals(c, Dispatch(c, s, t, snap[t], w, env(t), now), id, ts, snap, env, now, u);
    }
  }

  /** The loop after the dispatch of its head. */
  lemma RestDeals(c: Config, s: State, id: SprintId, ts: seq<TaskId>, snap: map<TaskId, Task>,
                  env: TaskId -> Choice, now: Time, u: TaskId)
    requires u in ts && NoRepeat(ts) && Inv(s) && Current(s, id, ts[1..], snap) && u in snap && snap[u].state.Pending?
    requires ts[0] in s.tasks && ts[0] in snap && AllOffered(c, snap[ts[0]].required)
    requires s.tasks[ts[0]].state.TaskFailed? ==> !(Briefed(snap[ts[0]], env(ts[0])) && env(ts[0]).spawned)
    ensures var next := PickWorker(c, s, now);
            var s' := if next.None? then s else DispatchAll(c, s, ts[1..], snap, next.value, env, now);
            Dealt(c, s', snap[u], u, env(u), now)
    decreases |ts|, 0
  {
    var next := PickWorker(c, s, now);
    if u == ts[0] {
      if next.Some? { HeadDealt(c, s, id, ts, snap, next.value, env, now); }
    } else {
      assert u in ts[1..];
      if next.Some? { LoopDeals(c, s, id, ts[1..], snap, next.value, env, now, u); }
    }
  }

  // ----- a tick -----

  /** A tick that gets to dispatching: a pending task of the sprint that requires something
      the process does not offer is not assigned, and is failed unless the tick ran out of
      workers before it. One whose needs are met is failed only for its brief or its spawn. */
  lemma TickDeals(c: Config, s: State, id: SprintId, env: TaskId -> Choice, now: Time, u: TaskId)
    requires Inv(s) && RunningState(TickHead(s, id, now).1, id)
    requires u in TickHead(s, id, now).1.sprints[id].tasks && u in s.tasks && s.tasks[u].state.Pending?
    ensures Dealt(c, Tick(c, s, id, env, now).1, s.tasks[u], u, env(u), now)
  {
    var s1 := TickHead(s, id, now).1;
    HeadKeeps(s, id, now);
    HeadRuns(s, id, now);
    assert SameTaskData(s, s1);
    StartsCurrent(s1, id);
    var w := PickWorker(c, s1, now);
    if w.Some? { LoopDeals(c, s1, id, s1.sprints[id].tasks, s1.tasks, w.value, env, now, u); }
    var s2 := TickBody(c, s1, id, env, now);
    assert SameTaskData(s2, TickTail(c, s2, id, now).1) && SameSlots(s2, TickTail(c, s2, id, now).1);
    DealtSame(c, s2, TickTail(c, s2, id, now).1, s.tasks[u], u, env(u), now);
  }

  lemma DealtSame(c: Config, s: State, s': State, rec: Task, u: TaskId, ch: Choice, now: Time)
    requires Dealt(c, s, rec, u, ch, now) && SameTaskData(s, s') && SameSlots(s, s')
    ensures Dealt(c, s', rec, u, ch, now)
  {}

  // ----- over runs -----

  /** Nothing was assigned to `u`, if it requires `r` and that is not offered. */
  predicate Unassigned(c: Config, s: State, u: TaskId, r: string) {
    u in s.tasks && Lacks(c, s.tasks[u], r) ==> Assignments(s.work, u) == 0
  }

  /** `u` requires the same as before, and was not assigned if it lacks `r` or is not there. */
  predicate SameNeeds(c: Config, s: State, s': State, u: TaskId, r: string) {
    && SameRequired(s, s', u)
    && ((u in s.tasks ==> Lacks(c, s.tasks[u], r)) ==> Assignments(s'.work, u) == Assignments(s.work, u))
  }

  lemma TickNeeds(c: Config, s: State, id: SprintId, env: TaskId -> Choice, now: Time, u: TaskId, r: string)
    requires Inv(s)
    ensures SameNeeds(c, s, Tick(c, s, id, env, now).1, u, r)
  {
    var (head, s1) := TickHead(s, id, now);
    HeadKeeps(s, id, now);
    HeadRuns(s, id, now);
    assert SameTaskData(s, s1);
    if head.GoesOn? {
      StartsCurrent(s1, id);
      var w := PickWorker(c, s1, now);
      if w.Some? { LoopAssigns(c, s1, id, s1.sprints[id].tasks, s1.tasks, w.value, env, now, u, r); }
      var s2 := TickBody(c, s1, id, env, now);
      assert SameTaskData(s2, TickTail(c, s2, id, now).1);
    }
  }

  lemma HandleNeeds(c: Config, s: State, a: ActId, outcome: HandleOutcome, now: Time, u: TaskId,
                    r: string)
    requires Inv(s)
    ensures SameNeeds(c, s, HandleSettled(c, s, a, outcome, now), u, r)
  {
    if a in s.acts {
      assert ActOk(s, a);
      var sid, s2 := s.tasks[s.acts[a].task].sprint, SettleAct(s, a, outcome, now);
      SettleFinishes(s, a, outcome, now);
      assert SameTaskData(s2, CheckBudget(c, s2, sid, SpendOf(s2, sid), now));
    }
  }

  lemma NeedsOn(c: Config, s: State, s1: State, s2: State, u: TaskId, r: string)
    requires SameNeeds(c, s, s1, u, r) && SameNeeds(c, s1, s2, u, r)
    ensures SameNeeds(c, s, s2, u, r)
  {}

  lemma ResetNeeds(c: Config, s: State, t: TaskId, u: TaskId, r: string)
    ensures SameNeeds(c, s, ResetTask(s, t), u, r)
  {}

  lemma {:induction false} ResetTasksNeeds(c: Config, s: State, ts: seq<TaskId>, u: TaskId, r: string)
    ensures SameNeeds(c, s, ResetTasks(s, ts), u, r)
    decreases |ts|
  {
    if ts != [] {
      var s1 := ResetTask(s, ts[0]);
      ResetNeeds(c, s, ts[0], u, r);
      ResetTasksNeeds(c, s1, ts[1..], u, r);
      NeedsOn(c, s, s1, ResetTasks(s1, ts[1..]), u, r);
    }
  }

  lemma {:induction false} BootNeeds(c: Config, s: State, ids: seq<SprintId>, u: TaskId, r: string)
    ensures SameNeeds(c, s, ResumeAbandoned(s, ids), u, r)
    decreases |ids|
  {
    if ids != [] {
      if Abandoned(s, ids[0]) {
        var s1 := ResetTasks(s, s.sprints[ids[0]].tasks);
        ResetTasksNeeds(c, s, s.sprints[ids[0]].tasks, u, r);
        BootNeeds(c, s1, ids[1..], u, r);
        NeedsOn(c, s, s1, ResumeAbandoned(s1, ids[1..]), u, r);
      } else {
        BootNeeds(c, s, ids[1..], u, r);
      }
    }
  }

  /** A new task is not assigned yet. */
  lemma SubmitNeeds(c: Config, s: State, id: SprintId, ts: seq<TaskId>, briefs: TaskId -> string,
                    required: TaskId -> seq<string>, u: TaskId, r: string)
    requires TaskOk(s, u) && Unassigned(c, s, u, r)
    ensures Unassigned(c, Submit(s, id, ts, briefs, required), u, r)
  {
    if FreshIds(s, id, ts) {
      AddTasksAdds(s, id, ts, briefs, required);
      AddTasksBooks(s, id, ts, briefs, required, u);
    }
  }

  lemma SameTaskNeeds(c: Config, s: State, s': State, u: TaskId, r: string)
    requires SameTaskData(s, s')
    ensures SameNeeds(c, s, s', u, r)
  {}

  /** No event assigns a task that requires something not offered. */
  lemma DoNeeds(c: Config, s: State, e: Event, u: TaskId, r: string)
    requires Inv(s) && Unassigned(c, s, u, r)
    ensures Unassigned(c, Do(c, s, e), u, r)
  {
    assert TaskOk(s, u);
    match e
    case Submitting(id, ts, briefs, required) => SubmitNeeds(c, s, id, ts, briefs, required, u, r);
    case Ticking(id, env, now) => TickNeeds(c, s, id, env, now, u, r);
    case Settling(a, outcome, now) => HandleNeeds(c, s, a, outcome, now, u, r);
    case Resuming(id, now) => SameTaskNeeds(c, s, Do(c, s, e), u, r);
    case Cancelling(id, now) => SameTaskNeeds(c, s, Do(c, s, e), u, r);
    case Observing(w, snap) =>
    case Restarting =>
    case Booting(ids) => BootNeeds(c, s, ids, u, r);
  }

  lemma {:induction false} AlwaysUnassigned(c: Config, es: seq<Event>, u: TaskId, r: string)
    ensures Unassigned(c, Run(c, es), u, r)
  {
    if es != [] {
      var before := es[..|es| - 1];
      AlwaysUnassigned(c, before, u, r);
      AlwaysInv(c, before);
      DoNeeds(c, Run(c, before), es[|es| - 1], u, r);
    }
  }

  /** Over every run: a task that requires something the process does not offer has never
      been assigned; it waits, or it has failed. */
  lemma NeverAssigned(c: Config, es: seq<Event>, u: TaskId, r: string)
    requires u in Run(c, es).tasks && r in Run(c, es).tasks[u].required
    requires c.capabilities.Some? && r !in c.capabilities.value
    ensures var s := Run(c, es);
            && Assignments(s.work, u) == 0 && u !in s.running
            && (s.tasks[u].state.Pending? || s.tasks[u].state.TaskFailed?)
  {
    var s := Run(c, es);
    AlwaysUnassigned(c, es, u, r);
    AlwaysInv(c, es);
    AlwaysReturns(c, es, u);
    assert TaskOk(s, u);
    if Verdict(s.work, u).Some? { ReturnCounts(s.work, u); }
  }

  lemma {:induction false} ReturnCounts(work: History<Work>, u: TaskId)
    requires Verdict(work, u).Some?
    ensures Returns(work, u) >= 1
  {
    if work.event.task != u { ReturnCounts(work.past, u); }
  }

  /** Over every run: what a tick that gets to dispatching makes of a pending task. */
  lemma TickMeetsNeeds(c: Config, es: seq<Event>, id: SprintId, env: TaskId -> Choice, now: Time, u: TaskId, r: string)
    requires RunningState(TickHead(Run(c, es), id, now).1, id)
    requires u in TickHead(Run(c, es), id, now).1.sprints[id].tasks
    requires u in Run(c, es).tasks && Run(c, es).tasks[u].state.Pending?
    ensures var s, s' := Run(c, es), Tick(c, Run(c, es), id, env, now).1;
            var rec := s.tasks[u];
            && u in s'.tasks
            && (c.capabilities.Some? && r in rec.required && r !in c.capabilities.value ==>
                 && Assignments(s'.work, u) == Assignments(s.work, u)
                 && (s'.tasks[u].state.TaskFailed? || (s'.tasks[u] == rec && PickWorker(c, s', now).None?)))
            && ((c.capabilities.None? || forall q :: q in rec.required ==> q in c.capabilities.value) ==>
                 s'.tasks[u].state.TaskFailed? ==> !(Briefed(rec, env(u)) && env(u).spawned))
  {
    var s := Run(c, es);
    AlwaysInv(c, es);
    TickDeals(c, s, id, env, now, u);
    TickNeeds(c, s, id, env, now, u, r);
    if r in s.tasks[u].required && NotOffered(c, r) {
      var k :| 0 <= k < |s.tasks[u].required| && s.tasks[u].required[k] == r;
      assert NotOffered(c, s.tasks[u].required[k]);
    }
  }
}
