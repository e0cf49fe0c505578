/** Exactly the registries for which no tick leaves work behind: a registry may list a
    worker id twice, and then the pick goes by any entry but `acquire` by the first. */
module SprintCapacity {
  import opened Prelude
  import opened Scheduler
  import opened SprintTicks
  import opened SprintInvariants
  import opened SprintEvents
  import opened SprintProgress
  import opened SampleInputs

  // ----- what the dispatch loop can hand out -----

  /** How many slots of `id` can still be acquired. */
  function Left(c: Config, m: map<WorkerId, nat>, id: WorkerId): nat {
    if HasCapacity(c.workers, m, id) then ById(c.workers, id).value.maxConcurrent - InFlight(m, id) else 0
  }

  /** The same summed over the entries `ws`. */
  function Room(c: Config, m: map<WorkerId, nat>, ws: seq<Worker>): nat {
    if ws == [] then 0 else Left(c, m, ws[0].id) + Room(c, m, ws[1..])
  }

  /** One more slot of `w` is taken. */
  ghost predicate OneMore(m: map<WorkerId, nat>, m': map<WorkerId, nat>, w: WorkerId) {
    forall v :: InFlight(m', v) == InFlight(m, v) + if v == w then 1 else 0
  }

  lemma {:induction false} RoomFalls(c: Config, m: map<WorkerId, nat>, m': map<WorkerId, nat>, w: WorkerId,
                                     ws: seq<Worker>)
    requires HasCapacity(c.workers, m, w) && OneMore(m, m', w)
    ensures Room(c, m', ws) <= Room(c, m, ws)
    ensures (exists e :: e in ws && e.id == w) ==> Room(c, m', ws) < Room(c, m, ws)
  {
    if ws != [] {
      assert ws == [ws[0]] + ws[1..];
      assert Left(c, m', ws[0].id) == Left(c, m, ws[0].id) - if ws[0].id == w then 1 else 0;
      RoomFalls(c, m, m', w, ws[1..]);
    }
  }

  /** No counter is above the limit of the first entry. */
  predicate Within(c: Config, m: map<WorkerId, nat>) {
    forall w :: w in c.workers ==>
      ById(c.workers, w.id).Some? && InFlight(m, w.id) <= ById(c.workers, w.id).value.maxConcurrent
  }

  lemma OneMoreWithin(c: Config, m: map<WorkerId, nat>, m': map<WorkerId, nat>, w: WorkerId)
    requires Within(c, m) && HasCapacity(c.workers, m, w) && OneMore(m, m', w)
    ensures Within(c, m')
  {}

  /** A task that waits to be dispatched and has all it needs. */
  predicate Willing(c: Config, rec: Task) {
    rec.state.Pending? && !Missing(c, rec) && rec.brief != ""
  }

  predicate AllWilling(c: Config, ts: seq<TaskId>, snap: map<TaskId, Task>) {
    forall t :: t in ts ==> t in snap && Willing(c, snap[t])
  }

  predicate StillPending(s: State, ts: seq<TaskId>) {
    exists t :: t in ts && t in s.tasks && s.tasks[t].state.Pending?
  }

  /** A dispatch that gets its slot takes one, and the other tasks are as before. */
  lemma WillingDispatch(c: Config, s: State, id: SprintId, ts: seq<TaskId>, snap: map<TaskId, Task>, w: WorkerId,
                        now: Time)
    requires Inv(s) && Current(s, id, ts, snap) && ts != [] && Willing(c, snap[ts[0]])
    requires HasCapacity(c.workers, s.inFlight, w)
    ensures var s1 := Dispatch(c, s, ts[0], snap[ts[0]], w, Choice(None, true), now);
            && Inv(s1) && Current(s1, id, ts[1..], snap)
            && OneMore(s.inFlight, s1.inFlight, w) && s1.snapshots == s.snapshots
  {
    var t, ch := ts[0], Choice(None, true);
    var s1 := Dispatch(c, s, t, snap[t], w, ch, now);
    assert ActOk(s, s.nextAct);
    DispatchKeeps(c, s, t, w, ch, now);
    DispatchCases(c, s, t, w, ch, now);
    forall v ensures InFlight(s1.inFlight, v) == InFlight(s.inFlight, v) + if v == w then 1 else 0 {
      DispatchCounts(c, s, t, w, ch, now, v);
    }
    CurrentRest(s, s1, id, ts, snap);
  }

  lemma CurrentPending(c: Config, s: State, id: SprintId, ts: seq<TaskId>, snap: map<TaskId, Task>)
    requires Current(s, id, ts, snap) && AllWilling(c, ts, snap) && ts != []
    ensures StillPending(s, ts)
  {
    assert ts[0] in ts;
  }

  lemma PendingInRest(s: State, ts: seq<TaskId>)
    requires ts != [] && StillPending(s, ts[1..])
    ensures StillPending(s, ts)
  {
    var t :| t in ts[1..] && t in s.tasks && s.tasks[t].state.Pending?;
    assert t in ts;
  }

  /** More willing tasks than slots: one is left, and no counter passes its limit. */
  lemma {:induction false} OneIsLeft(c: Config, s: State, id: SprintId, ts: seq<TaskId>, snap: map<TaskId, Task>,
                                     w: WorkerId, now: Time)
    requires Inv(s) && Current(s, id, ts, snap) && AllWilling(c, ts, snap) && Within(c, s.inFlight)
    requires |ts| > Room(c, s.inFlight, c.workers) && PickWorker(c, s, now) == Some(w)
    ensures var s' := DispatchAll(c, s, ts, snap, w, Spawns(), now);
            StillPending(s', ts) && Within(c, s'.inFlight) && s'.snapshots == s.snapshots
    decreases |ts|
  {
    var t := ts[0];
    assert t in ts && forall u :: u in ts[1..] ==> u in ts;
    if !HasCapacity(c.workers, s.inFlight, w) {
      assert ActOk(s, s.nextAct);
      StuckStays(c, s, ts, snap, w, Spawns(), now, t);
    } else {
      var s1 := Dispatch(c, s, t, snap[t], w, Choice(None, true), now);
      var next := PickWorker(c, s1, now);
      WillingDispatch(c, s, id, ts, snap, w, now);
      OneMoreWithin(c, s.inFlight, s1.inFlight, w);
      RoomFalls(c, s.inFlight, s1.inFlight, w, c.workers);
      if next.None? {
        CurrentPending(c, s1, id, ts[1..], snap);
        PendingInRest(s1, ts);
      } else {
        OneIsLeft(c, s1, id, ts[1..], snap, next.value, now);
        PendingInRest(DispatchAll(c, s1, ts[1..], snap, next.value, Spawns(), now), ts);
      }
    }
  }

  /** A later entry with the id of `w` has room even when all counters are at the limits. */
  lemma LargerIsFree(c: Config, s: State, now: Time)
    requires !FirstIsLargest(c) && Within(c, s.inFlight) && s.snapshots == map[]
    ensures !NoneFree(c, s, now)
  {
    var w :| w in c.workers && !(ById(c.workers, w.id).Some? &&
                w.maxConcurrent <= ById(c.workers, w.id).value.maxConcurrent);
    assert InFlight(s.inFlight, w.id) < w.maxConcurrent;
    assert ShouldDispatch(s.snapshots, w.id, now);
  }

  // ----- a run: more tasks than slots, then a tick whose spawns succeed -----

  function TooMany(c: Config): seq<TaskId> {
    seq(Room(c, map[], c.workers) + 1, i => i)
  }

  function Submission(c: Config): Event {
    Submitting(0, TooMany(c), Briefs(), NoNeeds())
  }

  /** The tasks are all submitted, and nothing else has happened. */
  predicate Fresh(c: Config, s: State) {
    && s.inFlight == map[] && s.snapshots == map[]
    && 0 in s.sprints && s.sprints[0].tasks == TooMany(c)
    && AllWilling(c, TooMany(c), s.tasks)
  }

  lemma {:induction false} AddTasksWilling(c: Config, s: State, ts: seq<TaskId>)
    requires forall t :: t in s.tasks ==> Willing(c, s.tasks[t])
    ensures var s' := AddTasks(s, 0, ts, Briefs(), NoNeeds());
            (forall t :: t in s'.tasks ==> Willing(c, s'.tasks[t])) && forall t :: t in ts ==> t in s'.tasks
    decreases |ts|
  {
    if ts != [] {
      var t := ts[0];
      var s1 := s.(tasks := s.tasks[t := Task(0, Briefs()(t), Pending, 0, NoNeeds()(t))],
                   work := Then(s.work, Submitted(t)));
      assert Willing(c, s1.tasks[t]);
      AddTasksWilling(c, s1, ts[1..]);
      AddTasksAdds(s1, 0, ts[1..], Briefs(), NoNeeds());
      assert ts == [t] + ts[1..];
    }
  }

  lemma SubmissionIs(c: Config)
    ensures var s := Run(c, [Submission(c)]); Fresh(c, s) && s.sprints[0].state.Queued?
  {
    var ts := TooMany(c);
    assert [Submission(c)][..0] == [];
    assert Run(c, [Submission(c)]) == Submit(EMPTY, 0, ts, Briefs(), NoNeeds());
    assert FreshIds(EMPTY, 0, ts);
    AddTasksWilling(c, EMPTY, ts);
  }

  lemma SubmissionStarts(c: Config)
    ensures var (head, s) := TickHead(Run(c, [Submission(c)]), 0, 0);
            head.GoesOn? && Inv(s) && Fresh(c, s) && RunningState(s, 0)
  {
    var s := Run(c, [Submission(c)]);
    SubmissionIs(c);
    AlwaysInv(c, [Submission(c)]);
    HeadKeeps(s, 0, 0);
    assert SameTaskData(s, TickHead(s, 0, 0).1) && SameSlots(s, TickHead(s, 0, 0).1);
  }

  /** What the tick's dispatches leave. */
  lemma BodyLeaves(c: Config, s: State)
    requires !FirstIsLargest(c) && Inv(s) && Fresh(c, s) && RunningState(s, 0)
    ensures var s' := TickBody(c, s, 0, Spawns(), 0);
            StillPending(s', TooMany(c)) && !NoneFree(c, s', 0) && s'.sprints == s.sprints
  {
    assert Within(c, s.inFlight);
    LargerIsFree(c, s, 0);
    PickNone(c, s, 0);
    StartsCurrent(s, 0);
    BodyKeeps(c, s, 0, Spawns(), 0);
    OneIsLeft(c, s, 0, TooMany(c), s.tasks, PickWorker(c, s, 0).value, 0);
    LargerIsFree(c, TickBody(c, s, 0, Spawns(), 0), 0);
  }

  /** A tick that leaves a pending task and a free worker neither ends nor pauses its sprint. */
  lemma TailGoesOn(c: Config, s: State, id: SprintId, now: Time)
    requires RunningState(s, id) && StillPending(s, s.sprints[id].tasks) && PickWorker(c, s, now).Some?
    ensures TickTail(c, s, id, now) == (true, s)
  {}

  /** After that run a task is pending, a worker is free, and the sprint runs. */
  lemma WorkIsLeft(c: Config)
    requires !FirstIsLargest(c)
    ensures var s' := Tick(c, Run(c, [Submission(c)]), 0, Spawns(), 0).1;
            RunningState(s', 0) && !NoneLeft(c, s', s'.sprints[0].tasks, 0)
  {
    var s1 := TickHead(Run(c, [Submission(c)]), 0, 0).1;
    SubmissionStarts(c);
    BodyLeaves(c, s1);
    var s2 := TickBody(c, s1, 0, Spawns(), 0);
    PickNone(c, s2, 0);
    TailGoesOn(c, s2, 0, 0);
  }

  // ----- exactly when -----

  /** Over every run, no tick that leaves its sprint running leaves a pending task while
      a worker is free. */
  ghost predicate WorkAlwaysConserved(c: Config) {
    forall es: seq<Event>, id, env, now ::
      var s' := Tick(c, Run(c, es), id, env, now).1;
      RunningState(s', id) ==> NoneLeft(c, s', s'.sprints[id].tasks, now)
  }

  /** Work is conserved exactly for the registries in which of the entries with one id
      the first has the largest limit. */
  lemma WorkConservedIff(c: Config)
    ensures FirstIsLargest(c) <==> WorkAlwaysConserved(c)
  {
    if FirstIsLargest(c) {
      forall es: seq<Event>, id, env, now | RunningState(Tick(c, Run(c, es), id, env, now).1, id)
        ensures var s' := Tick(c, Run(c, es), id, env, now).1; NoneLeft(c, s', s'.sprints[id].tasks, now)
      {
        NoTickLeavesWork(c, es, id, env, now);
      }
    } else {
      WorkIsLeft(c);
    }
  }

  /** Those are also the registries in which no run makes a pick that cannot be acquired. */
  lemma NeverStuckIff(c: Config)
    ensures FirstIsLargest(c) <==> forall es: seq<Event>, now :: !Stuck(c, Run(c, es), now)
  {
    if FirstIsLargest(c) {
      forall es: seq<Event>, now ensures !Stuck(c, Run(c, es), now) { PickedHasCapacity(c, Run(c, es), now); }
    } else {
      var es, tick := [Submission(c)], Ticking(0, Spawns(), 0);
      WorkIsLeft(c);
      NoTickLeavesWork(c, es, 0, Spawns(), 0);
      RunLast(c, es, tick);
      assert Stuck(c, Run(c, es + [tick]), 0);
    }
  }
}
