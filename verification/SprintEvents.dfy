/** Every event of a Level B run keeps the invariant. */
module SprintEvents {
  import opened Prelude
  import opened Scheduler
  import opened SprintTicks
  import opened SprintInvariants

  // ----- pieces that only move a sprint -----

  lemma TransitionOnly(s: State, id: SprintId, next: SprintState, now: Time)
    ensures var s' := Transition(s, id, next, now).1; SameWork(s, s') && OnlyState(s, s', id)
  {
    var s' := Transition(s, id, next, now).1;
    if s' != s {
      assert s'.sprints == s.sprints[id := s.sprints[id].(state := next)];
    }
  }

  lemma TransitionKeeps(s: State, id: SprintId, next: SprintState, now: Time)
    requires Inv(s)
    requires !next.Planning? && !next.Queued? && (next.Paused? ==> next.reason.OverBudget?)
    requires id in s.sprints ==>
      && (next.Completed? ==> AllDone(s, s.sprints[id].tasks) && next.prs == Prs(s, s.sprints[id].tasks))
      && (next.Failed? ==> AllSettled(s, s.sprints[id].tasks) && !AllDone(s, s.sprints[id].tasks))
    ensures Inv(Transition(s, id, next, now).1)
  {
    var s' := Transition(s, id, next, now).1;
    assert StateOk(s, id) && Owns(s, id);
    if s' != s {
      TransitionOnly(s, id, next, now);
      PrsSame(s, s', s.sprints[id].tasks);
      NextOk(s, s', id, next);
      OnlyStateKeeps(s, s', id);
    }
  }

  lemma NextOk(s: State, s': State, id: SprintId, next: SprintState)
    requires id in s.sprints && id in s'.sprints && s'.sprints[id] == s.sprints[id].(state := next)
    requires s'.tasks == s.tasks && s'.running == s.running
    requires Prs(s', s.sprints[id].tasks) == Prs(s, s.sprints[id].tasks)
    requires !next.Planning? && !next.Queued? && (next.Paused? ==> next.reason.OverBudget?)
    requires next.Completed? ==> AllDone(s, s.sprints[id].tasks) && next.prs == Prs(s, s.sprints[id].tasks)
    requires next.Failed? ==> AllSettled(s, s.sprints[id].tasks) && !AllDone(s, s.sprints[id].tasks)
    ensures StateOk(s', id)
  {}

  lemma ResumeKeeps(s: State, id: SprintId, byTick: bool, now: Time)
    requires Inv(s)
    ensures Inv(Resume(s, id, byTick, now).1)
  {
    if id in s.sprints && s.sprints[id].state.Paused? {
      var next := Running(now, s.sprints[id].state.elapsed);
      var s1, s' := Transition(s, id, next, now).1, Resume(s, id, byTick, now).1;
      TransitionKeeps(s, id, next, now);
      assert s' == s1.(moves := Then(s1.moves, Resumed(id, byTick)));
      NotedKeeps(s1, s', id);
    }
  }

  /** Only the history of moves grew. */
  lemma NotedKeeps(s: State, s': State, id: SprintId)
    requires Inv(s) && RunningState(s, id) && s' == s.(moves := s'.moves)
    ensures Inv(s')
  {
    assert StateOk(s', id);
    OnlyStateKeeps(s, s', id);
  }

  lemma CancelKeeps(s: State, id: SprintId, now: Time)
    requires Inv(s)
    ensures Inv(FinishCancel(s, id, now).1)
  {
    TransitionKeeps(s, id, Cancelled(now), now);
  }

  lemma BudgetKeeps(c: Config, s: State, id: SprintId, spent: real, now: Time)
    requires Inv(s)
    ensures Inv(CheckBudget(c, s, id, spent, now))
  {
    if c.limit.Some? && id in s.sprints && s.sprints[id].state.Running? {
      var st := s.sprints[id].state;
      TransitionKeeps(s, id, Paused(now, st.startedAt, st.elapsed + (now - st.startedAt),
        OverBudget(spent, c.limit.value)), now);
    }
  }

  /** Counters other than the task books changed. */
  lemma MoneyKeeps(s: State, s': State, id: SprintId)
    requires Inv(s) && SameWork(s, s') && s'.sprints == s.sprints
    ensures Inv(s')
  {
    assert StateOk(s, id) && Owns(s, id);
    if id in s.sprints {
      StateSame(s, s', id);
    }
    OnlyStateKeeps(s, s', id);
  }

  lemma HeadKeeps(s: State, id: SprintId, now: Time)
    requires Inv(s)
    ensures Inv(TickHead(s, id, now).1)
  {
    if id in s.sprints && s.sprints[id].state.Paused? && id in s.resets {
      var s1 := s.(resets := s.resets - {id}, runtime := SaveReset(s.runtime, id, None));
      MoneyKeeps(s, s1, id);
      ResumeKeeps(s1, id, true, now);
    } else {
      TransitionKeeps(s, id, Running(now, 0), now);
    }
  }

  /** `tick` goes on exactly when the sprint runs from here on; resuming and starting
      it never throw. */
  lemma HeadRuns(s: State, id: SprintId, now: Time)
    requires Inv(s)
    ensures TickHead(s, id, now).0.GoesOn? <==> RunningState(TickHead(s, id, now).1, id)
    ensures !TickHead(s, id, now).0.Throws?
  {
    HeadNeeds(s, id, now);
    assert StateOk(s, id);
  }

  lemma HeadNeeds(s: State, id: SprintId, now: Time)
    requires id in s.sprints ==> !s.sprints[id].state.Planning?
    ensures TickHead(s, id, now).0.GoesOn? <==> RunningState(TickHead(s, id, now).1, id)
    ensures !TickHead(s, id, now).0.Throws?
  {
    if id in s.sprints && s.sprints[id].state.Paused? && id in s.resets && now >= s.resets[id] {
      var s1 := s.(resets := s.resets - {id}, runtime := SaveReset(s.runtime, id, None));
      PausedResumes(s1, id, now);
      assert TickHead(s, id, now) == (GoesOn, Resume(s1, id, true, now).1);
    } else if id in s.sprints && s.sprints[id].state.Queued? {
      QueuedStarts(s, id, now);
      assert TickHead(s, id, now) == (GoesOn, Transition(s, id, Running(now, 0), now).1);
    }
  }

  lemma PausedResumes(s: State, id: SprintId, now: Time)
    requires id in s.sprints && s.sprints[id].state.Paused?
    ensures Resume(s, id, true, now).0 && RunningState(Resume(s, id, true, now).1, id)
  {}

  lemma QueuedStarts(s: State, id: SprintId, now: Time)
    requires id in s.sprints && s.sprints[id].state.Queued?
    ensures var (ok, s') := Transition(s, id, Running(now, 0), now); ok && RunningState(s', id)
  {}

  lemma RatePauseKeeps(s: State, id: SprintId, resetAt: Time, now: Time)
    requires Inv(s) && RunningState(s, id) && !HasRunning(s, id)
    ensures Inv(PauseUntil(s, id, resetAt, now))
  {
    var st := s.sprints[id].state;
    var s1 := s.(resets := s.resets[id := resetAt], runtime := SaveReset(s.runtime, id, Some(resetAt)));
    var next := Paused(now, st.startedAt, st.elapsed + (now - st.startedAt), RateCapped(resetAt));
    var s' := PauseUntil(s, id, resetAt, now);
    assert s' == Transition(s1, id, next, now).1;
    TransitionOnly(s1, id, next, now);
    forall t | t in s.sprints[id].tasks ensures t !in s'.running {
      assert TaskOk(s, t) && Owns(s, id);
    }
    assert StateOk(s', id);
    OnlyStateKeeps(s, s', id);
  }

  lemma RateKeeps(c: Config, s: State, id: SprintId, now: Time)
    requires Inv(s) && !HasRunning(s, id)
    ensures Inv(CheckRate(c, s, id, now))
  {
    var slots := FutureSlots(c.workers, s.snapshots, now);
    if slots != [] && RunningState(s, id) {
      RatePauseKeeps(s, id, MinOf(slots), now);
    }
  }

  lemma TailKeeps(c: Config, s: State, id: SprintId, now: Time)
    requires Inv(s)
    ensures Inv(TickTail(c, s, id, now).1)
  {
    if id in s.sprints {
      var ts := s.sprints[id].tasks;
      if AllDone(s, ts) {
        TransitionKeeps(s, id, Completed(now, Prs(s, ts)), now);
      } else if AllSettled(s, ts) {
        TransitionKeeps(s, id, Failed(now), now);
      } else if !HasRunning(s, id) {
        RateKeeps(c, s, id, now);
      }
    }
  }

  /** A tick that reaches its end with the sprint running does not throw. */
  lemma TailNeverThrows(c: Config, s: State, id: SprintId, now: Time)
    requires RunningState(s, id)
    ensures TickTail(c, s, id, now).0
  {}

  // ----- dispatching -----

  /** In progress on `w` if the brief loaded and the spawn succeeded, else failed. */
  predicate DispatchedTo(rec: Task, s: State, t: TaskId, w: WorkerId, ch: Choice) {
    && t in s.tasks
    && if Briefed(rec, ch) && ch.spawned then s.tasks[t].state.InProgress? && s.tasks[t].state.worker == w
       else s.tasks[t].state.TaskFailed?
  }

  lemma DispatchKeeps(c: Config, s: State, t: TaskId, w: WorkerId, ch: Choice, now: Time)
    requires Inv(s) && t in s.tasks && s.tasks[t].state.Pending? && RunningState(s, s.tasks[t].sprint)
    ensures var s' := Dispatch(c, s, t, s.tasks[t], w, ch, now);
            && Inv(s') && s'.sprints == s.sprints
            && (forall u :: u in s.tasks && u != t ==> u in s'.tasks && s'.tasks[u] == s.tasks[u])
            && (HasCapacity(c.workers, s.inFlight, w) ==> DispatchedTo(s.tasks[t], s', t, w, ch))
  {
    var s' := Dispatch(c, s, t, s.tasks[t], w, ch, now);
    assert ActOk(s, s.nextAct);
    if !HasCapacity(c.workers, s.inFlight, w) {
      assert s' == s;
    } else {
      DispatchCases(c, s, t, w, ch, now);
      EitherKeeps(s, s', t, w, ch);
    }
  }

  lemma EitherKeeps(s: State, s': State, t: TaskId, w: WorkerId, ch: Choice)
    requires Inv(s) && t in s.tasks && RunningState(s, s.tasks[t].sprint)
    requires if Briefed(s.tasks[t], ch) && ch.spawned then Launched(s, s', t, w) else Refused(s, s', t, w)
    ensures Inv(s') && s'.sprints == s.sprints && DispatchedTo(s.tasks[t], s', t, w, ch)
    ensures forall u :: u in s.tasks && u != t ==> u in s'.tasks && s'.tasks[u] == s.tasks[u]
  {
    if Briefed(s.tasks[t], ch) && ch.spawned {
      LaunchedKeeps(s, s', t, w);
    } else {
      RefusedKeeps(s, s', t, w);
    }
  }

  /** The records read before the loop are still current for the tasks that remain. */
  predicate Current(s: State, id: SprintId, ts: seq<TaskId>, snap: map<TaskId, Task>) {
    && RunningState(s, id) && NoRepeat(ts)
    && (forall t :: t in ts ==> t in s.tasks && t in snap && snap[t] == s.tasks[t] && s.tasks[t].sprint == id)
  }

  lemma CurrentRest(s: State, s': State, id: SprintId, ts: seq<TaskId>, snap: map<TaskId, Task>)
    requires ts != [] && Current(s, id, ts, snap) && s'.sprints == s.sprints
    requires forall u :: u in s.tasks && u != ts[0] ==> u in s'.tasks && s'.tasks[u] == s.tasks[u]
    ensures Current(s', id, ts[1..], snap)
  {
    forall t | t in ts[1..] ensures t in ts && t != ts[0] {
      var k :| 0 <= k < |ts[1..]| && ts[1..][k] == t;
      assert ts[k + 1] == t;
    }
  }

  lemma {:induction false} DispatchAllKeeps(c: Config, s: State, id: SprintId, ts: seq<TaskId>, snap: map<TaskId, Task>,
                                            w: WorkerId, env: TaskId -> Choice, now: Time)
    requires Inv(s) && Current(s, id, ts, snap)
    ensures Inv(DispatchAll(c, s, ts, snap, w, env, now))
    ensures DispatchAll(c, s, ts, snap, w, env, now).sprints == s.sprints
    decreases |ts|
  {
    if ts != [] {
      var t := ts[0];
      if !snap[t].state.Pending? {
        CurrentRest(s, s, id, ts, snap);
        DispatchAllKeeps(c, s, id, ts[1..], snap, w, env, now);
      } else if Missing(c, snap[t]) {
        var s1 := BlockTask(s, t, snap[t], now);
        BlockRefuses(s, t, now, w);
        RefusedKeeps(s, s1, t, w);
        CurrentRest(s, s1, id, ts, snap);
        DispatchAllKeeps(c, s1, id, ts[1..], snap, w, env, now);
      } else {
        var s1 := Dispatch(c, s, t, snap[t], w, env(t), now);
        var next := PickWorker(c, s1, now);
        DispatchKeeps(c, s, t, w, env(t), now);
        if next.Some? {
          CurrentRest(s, s1, id, ts, snap);
          DispatchAllKeeps(c, s1, id, ts[1..], snap, next.value, env, now);
        }
      }
    }
  }

  lemma StartsCurrent(s: State, id: SprintId)
    requires Inv(s) && RunningState(s, id)
    ensures Current(s, id, s.sprints[id].tasks, s.tasks)
  {
    assert Owns(s, id);
  }

  lemma BodyKeeps(c: Config, s: State, id: SprintId, env: TaskId -> Choice, now: Time)
    requires Inv(s) && RunningState(s, id)
    ensures Inv(TickBody(c, s, id, env, now)) && TickBody(c, s, id, env, now).sprints == s.sprints
  {
    StartsCurrent(s, id);
    var w := PickWorker(c, s, now);
    if w.Some? {
      DispatchAllKeeps(c, s, id, s.sprints[id].tasks, s.tasks, w.value, env, now);
    }
  }

  /** A tick keeps the invariant and never throws. */
  lemma TickKeeps(c: Config, s: State, id: SprintId, env: TaskId -> Choice, now: Time)
    requires Inv(s)
    ensures Inv(Tick(c, s, id, env, now).1) && Tick(c, s, id, env, now).0
  {
    HeadKeeps(s, id, now);
    HeadRuns(s, id, now);
    var (head, s1) := TickHead(s, id, now);
    if head.GoesOn? {
      BodyKeeps(c, s1, id, env, now);
      var s2 := TickBody(c, s1, id, env, now);
      TailKeeps(c, s2, id, now);
      TailNeverThrows(c, s2, id, now);
    }
  }

  // ----- handles -----

  /** Continuation `a`, which waited for task `t`, is gone and the task has its verdict. */
  predicate Finished(s: State, s': State, a: ActId, t: TaskId, outcome: HandleOutcome, now: Time) {
    && a in s.acts && s.acts[a].task == t && t in s.tasks
    && s'.sprints == s.sprints && s'.nextAct == s.nextAct
    && s'.acts == s.acts - {a} && s'.running == s.running - {t}
    && s'.tasks == s.tasks[t := s.tasks[t].(state := OutcomeState(outcome, now))]
    && s'.work == Then(s.work, Returned(t, s.tasks[t].sprint, outcome))
  }

  lemma SettleFinishes(s: State, a: ActId, outcome: HandleOutcome, now: Time)
    requires a in s.acts && s.acts[a].task in s.tasks
    ensures Finished(s, Settle(Drop(s, a), s.acts[a].task, outcome, now), a, s.acts[a].task, outcome, now)
  {}

  lemma FinishedTask(s: State, s': State, a: ActId, t: TaskId, outcome: HandleOutcome, now: Time, u: TaskId)
    requires Finished(s, s', a, t, outcome, now) && ActOk(s, a) && TaskOk(s, t) && TaskOk(s, u)
    ensures TaskOk(s', u)
  {
    var next := OutcomeState(outcome, now);
    assert !next.Assigned? && !next.Pending? && !next.InProgress?;
  }

  lemma FinishedAct(s: State, s': State, a: ActId, t: TaskId, outcome: HandleOutcome, now: Time, b: ActId)
    requires Finished(s, s', a, t, outcome, now) && ActOk(s, b) && Unshared(s, a, b)
    ensures ActOk(s', b)
  {}

  lemma FinishedEntry(s: State, s': State, a: ActId, t: TaskId, outcome: HandleOutcome, now: Time, u: TaskId)
    requires Finished(s, s', a, t, outcome, now) && EntryOk(s, u)
    ensures EntryOk(s', u)
  {
    if u in s'.running {
      var b :| b in s.acts && s.acts[b].task == u;
      assert b in s'.acts && s'.acts[b].task == u;
    }
  }

  /** The sprint of a task in progress has not ended by itself, and does not sleep. */
  lemma FinishedState(s: State, s': State, a: ActId, t: TaskId, outcome: HandleOutcome, now: Time)
    requires Finished(s, s', a, t, outcome, now) && ActOk(s, a) && Listed(s, t) && StateOk(s, s.tasks[t].sprint)
    ensures StateOk(s', s.tasks[t].sprint)
  {
    var state := s.sprints[s.tasks[t].sprint].state;
    assert !state.Completed? && !state.Failed? && !state.Queued?;
  }

  lemma FinishedKeeps(s: State, s': State, a: ActId, t: TaskId, outcome: HandleOutcome, now: Time)
    requires Inv(s) && Finished(s, s', a, t, outcome, now)
    ensures Inv(s')
  {
    assert ActOk(s, a) && TaskOk(s, t) && Listed(s, t);
    forall b: ActId ensures ActOk(s', b) {
      assert ActOk(s, b) && Unshared(s, a, b);
      FinishedAct(s, s', a, t, outcome, now, b);
    }
    forall b: ActId, d: ActId ensures Unshared(s', b, d) { assert Unshared(s, b, d); }
    forall u: TaskId ensures EntryOk(s', u) { assert EntryOk(s, u); FinishedEntry(s, s', a, t, outcome, now, u); }
    forall u: TaskId ensures TaskOk(s', u) { assert TaskOk(s, u); FinishedTask(s, s', a, t, outcome, now, u); }
    forall u: TaskId ensures Listed(s', u) { assert Listed(s, u); }
    forall i: SprintId ensures Owns(s', i) { assert Owns(s, i); }
    forall i: SprintId ensures StateOk(s', i) {
      assert StateOk(s, i) && Owns(s, i);
      if i == s.tasks[t].sprint {
        FinishedState(s, s', a, t, outcome, now);
      } else {
        StateElsewhere(s, s', t, i);
      }
    }
  }

  lemma HandleKeeps(c: Config, s: State, a: ActId, outcome: HandleOutcome, now: Time)
    requires Inv(s)
    ensures Inv(HandleSettled(c, s, a, outcome, now))
  {
    if a in s.acts {
      assert ActOk(s, a);
      var t, s1 := s.acts[a].task, Drop(s, a);
      var sid, s2 := s1.tasks[t].sprint, Settle(s1, t, outcome, now);
      SettleFinishes(s, a, outcome, now);
      FinishedKeeps(s, s2, a, t, outcome, now);
      BudgetKeeps(c, s2, sid, SpendOf(s2, sid), now);
    }
  }

  // ----- submitting -----

  /** The new tasks are pending and nothing else about tasks has changed. */
  ghost predicate Added(s: State, s': State, id: SprintId, ts: seq<TaskId>) {
    && s'.acts == s.acts && s'.running == s.running && s'.nextAct == s.nextAct
    && (forall t :: t in s'.tasks <==> t in s.tasks || t in ts)
    && (forall t :: t in s.tasks && t !in ts ==> s'.tasks[t] == s.tasks[t])
    && (forall t :: t in ts ==> s'.tasks[t].sprint == id && s'.tasks[t].state.Pending? && s'.tasks[t].attempts == 0)
  }

  lemma {:induction false} AddTasksAdds(s: State, id: SprintId, ts: seq<TaskId>, briefs: TaskId -> string,
                                        required: TaskId -> seq<string>)
    ensures Added(s, AddTasks(s, id, ts, briefs, required), id, ts)
    decreases |ts|
  {
    if ts != [] {
      var t := ts[0];
      var s1 := s.(tasks := s.tasks[t := Task(id, briefs(t), Pending, 0, required(t))],
                 work := Then(s.work, Submitted(t)));
      assert Added(s, s1, id, [t]);
      AddTasksAdds(s1, id, ts[1..], briefs, required);
      assert ts == [t] + ts[1..];
      assert Added(s1, AddTasks(s1, id, ts[1..], briefs, required), id, ts[1..]);
    }
  }

  lemma {:induction false} AddTasksBooks(s: State, id: SprintId, ts: seq<TaskId>, briefs: TaskId -> string,
                                         required: TaskId -> seq<string>, u: TaskId)
    ensures var s' := AddTasks(s, id, ts, briefs, required);
            && Assignments(s'.work, u) == Assignments(s.work, u) && Resets(s'.work, u) == Resets(s.work, u)
            && Verdict(s'.work, u) == if u in ts then None else Verdict(s.work, u)
    decreases |ts|
  {
    if ts != [] {
      var t := ts[0];
      var s1 := s.(tasks := s.tasks[t := Task(id, briefs(t), Pending, 0, required(t))],
                 work := Then(s.work, Submitted(t)));
      AddTasksBooks(s1, id, ts[1..], briefs, required, u);
    }
  }

  lemma SubmitTask(s: State, id: SprintId, ts: seq<TaskId>, briefs: TaskId -> string, required: TaskId -> seq<string>,
                   u: TaskId)
    requires TaskOk(s, u) && FreshIds(s, id, ts)
    ensures TaskOk(Submit(s, id, ts, briefs, required), u)
  {
    var s1 := AddTasks(s, id, ts, briefs, required);
    AddTasksAdds(s, id, ts, briefs, required);
    AddTasksBooks(s, id, ts, briefs, required, u);
    assert TaskOk(s1, u);
  }

  lemma SubmitKeeps(s: State, id: SprintId, ts: seq<TaskId>, briefs: TaskId -> string, required: TaskId -> seq<string>)
    requires Inv(s)
    ensures Inv(Submit(s, id, ts, briefs, required))
  {
    var s' := Submit(s, id, ts, briefs, required);
    if FreshIds(s, id, ts) {
      AddTasksAdds(s, id, ts, briefs, required);
      assert Added(s, s', id, ts);
      assert s'.sprints == s.sprints[id := Sprint(ts, Queued)];
      forall a: ActId ensures ActOk(s', a) { assert ActOk(s, a); }
      forall a: ActId, b: ActId ensures Unshared(s', a, b) { assert Unshared(s, a, b); }
      forall u: TaskId ensures EntryOk(s', u) { assert EntryOk(s, u); }
      forall u: TaskId ensures TaskOk(s', u) { assert TaskOk(s, u); SubmitTask(s, id, ts, briefs, required, u); }
      forall u: TaskId ensures Listed(s', u) { assert Listed(s, u); }
      forall i: SprintId ensures Owns(s', i) { assert Owns(s, i); }
      forall i: SprintId ensures StateOk(s', i) {
        assert StateOk(s, i) && Owns(s, i);
        if i == id {
          forall t | t in ts ensures t !in s'.running { assert TaskOk(s, t); }
        } else if i in s.sprints {
          StateSame(s, s', i);
        }
      }
    }
  }

  // ----- booting -----

  lemma {:induction false} ResetTasksKeeps(s: State, id: SprintId, ts: seq<TaskId>)
    requires Inv(s) && RunningState(s, id) && !HasRunning(s, id)
      && forall t :: t in ts ==> t in s.tasks && s.tasks[t].sprint == id
    ensures Inv(ResetTasks(s, ts)) && ResetTasks(s, ts).running == s.running
    decreases |ts|
  {
    if ts != [] {
      assert ts[0] in ts;
      assert forall t :: t in ts[1..] ==> t in ts;
      assert TaskOk(s, ts[0]);
      ResetKeeps(s, ts[0]);
      ResetTasksKeeps(ResetTask(s, ts[0]), id, ts[1..]);
    }
  }

  lemma {:induction false} BootKeeps(s: State, ids: seq<SprintId>)
    requires Inv(s)
    ensures Inv(ResumeAbandoned(s, ids))
    decreases |ids|
  {
    if ids != [] {
      if Abandoned(s, ids[0]) {
        var ts := s.sprints[ids[0]].tasks;
        assert Owns(s, ids[0]);
        ResetTasksKeeps(s, ids[0], ts);
        BootKeeps(ResetTasks(s, ts), ids[1..]);
      } else {
        BootKeeps(s, ids[1..]);
      }
    }
  }

  // ----- all events -----

  lemma DoKeeps(c: Config, s: State, e: Event)
    requires Inv(s)
    ensures Inv(Do(c, s, e))
  {
    match e
    case Submitting(id, ts, briefs, required) => SubmitKeeps(s, id, ts, briefs, required);
    case Ticking(id, env, now) => TickKeeps(c, s, id, env, now);
    case Settling(a, outcome, now) => HandleKeeps(c, s, a, outcome, now);
    case Resuming(id, now) => ResumeKeeps(s, id, false, now);
    case Cancelling(id, now) => CancelKeeps(s, id, now);
    case Observing(w, snap) => MoneyKeeps(s, Observe(s, w, snap), 0);
    case Restarting => RestartKeeps(s);
    case Booting(ids) => BootKeeps(s, ids);
  }

  /** The invariant holds after every run. */
  lemma {:induction false} AlwaysInv(c: Config, es: seq<Event>)
    ensures Inv(Run(c, es))
  {
    if es != [] {
      AlwaysInv(c, es[..|es| - 1]);
      DoKeeps(c, Run(c, es[..|es| - 1]), es[|es| - 1]);
    }
  }

  /** Over every run, no tick throws an invalid transition. */
  lemma TickNeverThrows(c: Config, es: seq<Event>, id: SprintId, env: TaskId -> Choice, now: Time)
    ensures Tick(c, Run(c, es), id, env, now).0
  {
    AlwaysInv(c, es);
    TickKeeps(c, Run(c, es), id, env, now);
  }

  /** Single dispatch: over every run the recorded attempts of a task are its
      `task.assigned` events, at most one more than the resets it got after a
      restart, and at most one live continuation waits for it. */
  lemma SingleDispatch(c: Config, es: seq<Event>, t: TaskId, a: ActId, b: ActId)
    requires t in Run(c, es).tasks
    ensures var s := Run(c, es);
            && s.tasks[t].attempts == Assignments(s.work, t) <= 1 + Resets(s.work, t)
            && (a in s.acts && b in s.acts && s.acts[a].task == t && s.acts[b].task == t ==> a == b)
  {
    AlwaysInv(c, es);
    var s := Run(c, es);
    assert TaskOk(s, t) && Unshared(s, a, b);
  }

  /** Over every run, a sprint that was not cancelled ends only when all its tasks have
      settled, as completed exactly when all of them are done. */
  lemma EndsWithItsTasks(c: Config, es: seq<Event>, id: SprintId)
    requires id in Run(c, es).sprints
    ensures var s := Run(c, es);
            var Sprint(ts, state) := s.sprints[id];
            (state.Completed? || state.Failed? ==> AllSettled(s, ts) && (state.Completed? <==> AllDone(s, ts)))
  {
    AlwaysInv(c, es);
    assert StateOk(Run(c, es), id);
  }

  // ----- handles, running entries and tasks in progress -----

  /** Over every run live handles and running entries match one to one, and each stands
      for a task in progress. */
  lemma HandlesMatch(c: Config, es: seq<Event>, t: TaskId, a: ActId, b: ActId)
    ensures var s := Run(c, es);
            && (t in s.running <==> exists d :: d in s.acts && s.acts[d].task == t)
            && (a in s.acts && b in s.acts && s.acts[a].task == s.acts[b].task ==> a == b)
            && (t in s.running ==>
                 t in s.tasks && s.tasks[t].state.InProgress? && s.running[t].sprint == s.tasks[t].sprint)
  {
    AlwaysInv(c, es);
    var s := Run(c, es);
    assert EntryOk(s, t) && Unshared(s, a, b) && TaskOk(s, t);
    forall d | d in s.acts && s.acts[d].task == t ensures t in s.running { assert ActOk(s, d); }
  }

  /** If the task is in progress, its handle is there. */
  predicate InHand(s: State, t: TaskId) {
    t in s.tasks && s.tasks[t].state.InProgress? ==> t in s.running
  }

  lemma RefusedHand(s: State, s': State, t: TaskId, w: WorkerId, u: TaskId)
    requires Refused(s, s', t, w) && InHand(s, u)
    ensures InHand(s', u)
  {}

  lemma {:induction false} DispatchAllHand(c: Config, s: State, id: SprintId, ts: seq<TaskId>, snap: map<TaskId, Task>,
                                           w: WorkerId, env: TaskId -> Choice, now: Time, u: TaskId)
    requires Inv(s) && Current(s, id, ts, snap) && InHand(s, u)
    ensures InHand(DispatchAll(c, s, ts, snap, w, env, now), u)
    decreases |ts|
  {
    if ts != [] {
      var t := ts[0];
      if !snap[t].state.Pending? {
        CurrentRest(s, s, id, ts, snap);
        DispatchAllHand(c, s, id, ts[1..], snap, w, env, now, u);
      } else if Missing(c, snap[t]) {
        var s1 := BlockTask(s, t, snap[t], now);
        BlockRefuses(s, t, now, w);
        RefusedKeeps(s, s1, t, w);
        RefusedHand(s, s1, t, w, u);
        CurrentRest(s, s1, id, ts, snap);
        DispatchAllHand(c, s1, id, ts[1..], snap, w, env, now, u);
      } else {
        var s1 := Dispatch(c, s, t, snap[t], w, env(t), now);
        var next := PickWorker(c, s1, now);
        DispatchKeeps(c, s, t, w, env(t), now);
        DispatchHand(c, s, t, w, env(t), now, u);
        if next.Some? {
          CurrentRest(s, s1, id, ts, snap);
          DispatchAllHand(c, s1, id, ts[1..], snap, next.value, env, now, u);
        }
      }
    }
  }

  lemma DispatchHand(c: Config, s: State, t: TaskId, w: WorkerId, ch: Choice, now: Time, u: TaskId)
    requires Inv(s) && t in s.tasks && s.tasks[t].state.Pending? && InHand(s, u)
    ensures InHand(Dispatch(c, s, t, s.tasks[t], w, ch, now), u)
  {
    var s' := Dispatch(c, s, t, s.tasks[t], w, ch, now);
    assert ActOk(s, s.nextAct);
    if !HasCapacity(c.workers, s.inFlight, w) {
      assert s' == s;
    } else {
      DispatchCases(c, s, t, w, ch, now);
    }
  }

  lemma TickHand(c: Config, s: State, id: SprintId, env: TaskId -> Choice, now: Time, u: TaskId)
    requires Inv(s) && InHand(s, u)
    ensures InHand(Tick(c, s, id, env, now).1, u)
  {
    var (head, s1) := TickHead(s, id, now);
    HeadKeeps(s, id, now);
    HeadRuns(s, id, now);
    assert SameTaskData(s, s1);
    if head.GoesOn? {
      var s2 := TickBody(c, s1, id, env, now);
      StartsCurrent(s1, id);
      var w := PickWorker(c, s1, now);
      if w.Some? {
        DispatchAllHand(c, s1, id, s1.sprints[id].tasks, s1.tasks, w.value, env, now, u);
      }
      assert SameTaskData(s2, TickTail(c, s2, id, now).1);
    }
  }

  lemma HandleHand(c: Config, s: State, a: ActId, outcome: HandleOutcome, now: Time, u: TaskId)
    requires Inv(s) && InHand(s, u)
    ensures InHand(HandleSettled(c, s, a, outcome, now), u)
  {
    if a in s.acts {
      assert ActOk(s, a);
      var t := s.acts[a].task;
      var sid, s2 := s.tasks[t].sprint, SettleAct(s, a, outcome, now);
      SettleFinishes(s, a, outcome, now);
      FinishedHand(s, s2, a, t, outcome, now, u);
      assert SameTaskData(s2, CheckBudget(c, s2, sid, SpendOf(s2, sid), now));
    }
  }

  lemma FinishedHand(s: State, s': State, a: ActId, t: TaskId, outcome: HandleOutcome, now: Time, u: TaskId)
    requires Finished(s, s', a, t, outcome, now) && InHand(s, u)
    ensures InHand(s', u)
  {
    assert !OutcomeState(outcome, now).InProgress?;
  }

  lemma {:induction false} ResetTasksHand(s: State, ts: seq<TaskId>, u: TaskId)
    requires InHand(s, u)
    ensures InHand(ResetTasks(s, ts), u)
    decreases |ts|
  {
    if ts != [] {
      assert InHand(ResetTask(s, ts[0]), u);
      ResetTasksHand(ResetTask(s, ts[0]), ts[1..], u);
    }
  }

  lemma {:induction false} BootHand(s: State, ids: seq<SprintId>, u: TaskId)
    requires InHand(s, u)
    ensures InHand(ResumeAbandoned(s, ids), u)
    decreases |ids|
  {
    if ids != [] {
      if Abandoned(s, ids[0]) {
        ResetTasksHand(s, s.sprints[ids[0]].tasks, u);
        BootHand(ResetTasks(s, s.sprints[ids[0]].tasks), ids[1..], u);
      } else {
        BootHand(s, ids[1..], u);
      }
    }
  }

  lemma DoHand(c: Config, s: State, e: Event, u: TaskId)
    requires Inv(s) && InHand(s, u) && !e.Restarting?
    ensures InHand(Do(c, s, e), u)
  {
    match e
    case Submitting(id, ts, briefs, required) => AddTasksAdds(s, id, ts, briefs, required);
    case Ticking(id, env, now) => TickHand(c, s, id, env, now, u);
    case Settling(a, outcome, now) => HandleHand(c, s, a, outcome, now, u);
    case Resuming(id, now) => assert SameTaskData(s, Do(c, s, e));
    case Cancelling(id, now) => assert SameTaskData(s, Do(c, s, e));
    case Observing(w, snap) =>
    case Booting(ids) => BootHand(s, ids, u);
  }

  /** A task in progress keeps its handle until the next restart: whatever events but a
      restart follow a moment at which each of them has one, they still do. */
  lemma {:induction false} InHandUntilRestart(c: Config, es: seq<Event>, more: seq<Event>, u: TaskId)
    requires InHand(Run(c, es), u) && forall k :: 0 <= k < |more| ==> !more[k].Restarting?
    ensures InHand(Run(c, es + more), u)
  {
    if more == [] {
      assert es + more == es;
    } else {
      var n := |more| - 1;
      InHandUntilRestart(c, es, more[..n], u);
      RunSnoc(c, es, more);
      AlwaysInv(c, es + more[..n]);
      DoHand(c, Run(c, es + more[..n]), more[n], u);
    }
  }

  /** So without restarts handles and tasks in progress match one to one as well. */
  lemma InHandWithoutRestart(c: Config, es: seq<Event>, u: TaskId)
    requires forall k :: 0 <= k < |es| ==> !es[k].Restarting?
    ensures InHand(Run(c, es), u)
  {
    InHandUntilRestart(c, [], es, u);
    assert [] + es == es;
  }
}
