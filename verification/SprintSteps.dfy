/** What single steps of the manager decide, told on the records they read. */
module SprintSteps {
  import opened Prelude
  import opened Scheduler
  import opened SprintTicks
  import opened SprintInvariants
  import opened SprintEvents

  // ----- the end of a tick -----

  /** No handle of the sprint is entered in memory. */
  predicate NoneEntered(s: State, id: SprintId) {
    forall t :: t in s.running ==> s.running[t].sprint != id
  }

  /** The sprint has tasks, all can be loaded and have settled, and no handle is left. */
  predicate Through(s: State, id: SprintId) {
    && id in s.sprints && s.sprints[id].tasks != [] && NoneEntered(s, id)
    && forall t :: t in s.sprints[id].tasks ==> t in s.tasks && s.tasks[t].state.Settled()
  }

  /** A task waits, no handle is left, and there are workers but all of them are blocked. */
  predicate Capped(c: Config, s: State, id: SprintId, now: Time) {
    && id in s.sprints && NoneEntered(s, id) && c.workers != []
    && (forall t :: t in s.sprints[id].tasks ==> t in s.tasks)
    && (exists t :: t in s.sprints[id].tasks && s.tasks[t].state.Pending?)
    && (forall w :: w in c.workers ==> PressureFor(s.snapshots, w.id, now) >= BLOCK_THRESHOLD)
  }

  /** The end of a tick completes, fails or pauses a running sprint exactly in these cases, and
      otherwise leaves it alone. A sprint without tasks runs on. */
  lemma TailDecides(c: Config, s: State, id: SprintId, now: Time)
    requires id in s.sprints && s.sprints[id].state.Running?
    ensures var s' := TickTail(c, s, id, now).1;
            && id in s'.sprints
            && (s'.sprints[id].state.Completed? <==>
                 Through(s, id) && forall t :: t in s.sprints[id].tasks ==> s.tasks[t].state.Done?)
            && (s'.sprints[id].state.Failed? <==>
                 Through(s, id) && exists t :: t in s.sprints[id].tasks && !s.tasks[t].state.Done?)
            && (s'.sprints[id].state.Paused? <==> Capped(c, s, id, now))
            && (s' == s <==> !Through(s, id) && !Capped(c, s, id, now))
  {
    NoneEnteredIff(s, id);
    if Through(s, id) {
      ThroughConcludes(c, s, id, now);
    } else if Capped(c, s, id, now) {
      CappedPauses(c, s, id, now);
    } else {
      OtherwiseStays(c, s, id, now);
    }
  }

  lemma NoneEnteredIff(s: State, id: SprintId)
    ensures NoneEntered(s, id) <==> !HasRunning(s, id)
  {}

  lemma ThroughConcludes(c: Config, s: State, id: SprintId, now: Time)
    requires Through(s, id) && s.sprints[id].state.Running?
    ensures TickTail(c, s, id, now) == Transition(s, id,
              if exists t :: t in s.sprints[id].tasks && !s.tasks[t].state.Done? then Failed(now)
              else Completed(now, Prs(s, s.sprints[id].tasks)), now)
    ensures !Capped(c, s, id, now)
  {
    NoneEnteredIff(s, id);
  }

  lemma CappedPauses(c: Config, s: State, id: SprintId, now: Time)
    requires Capped(c, s, id, now) && !Through(s, id) && s.sprints[id].state.Running?
    ensures var s' := TickTail(c, s, id, now).1;
            id in s'.sprints && s'.sprints[id].state.Paused? && s' != s
  {
    NoneEnteredIff(s, id);
    CappedPicksNone(c, s, now);
    assert AllBlocked(c.workers, s.snapshots, now);
    CheckRatePauses(c, s, id, now);
    var t :| t in s.sprints[id].tasks && s.tasks[t].state.Pending?;
    assert TickTail(c, s, id, now).1 == CheckRate(c, s, id, now);
  }

  lemma CappedPicksNone(c: Config, s: State, now: Time)
    requires forall w :: w in c.workers ==> PressureFor(s.snapshots, w.id, now) >= BLOCK_THRESHOLD
    ensures PickWorker(c, s, now).None?
  {
    if PickWorker(c, s, now).Some? {
      AvailableIff(c.workers, s.inFlight, PickWorker(c, s, now).value);
    }
  }

  lemma CheckRatePauses(c: Config, s: State, id: SprintId, now: Time)
    requires id in s.sprints && s.sprints[id].state.Running? && c.workers != []
    requires AllBlocked(c.workers, s.snapshots, now)
    ensures var s' := CheckRate(c, s, id, now); id in s'.sprints && s'.sprints[id].state.Paused?
  {
    var w := c.workers[0];
    assert !ShouldDispatch(s.snapshots, w.id, now);
    assert NextAvailableSlot(s.snapshots, w.id, now) in FutureSlots(c.workers, s.snapshots, now);
  }

  lemma OtherwiseStays(c: Config, s: State, id: SprintId, now: Time)
    requires id in s.sprints && s.sprints[id].state.Running? && !Through(s, id) && !Capped(c, s, id, now)
    ensures TickTail(c, s, id, now).1 == s
  {
    NoneEnteredIff(s, id);
  }

  // ----- the budget after a handle -----

  /** A settled handle books its cost on the task's sprint, and pauses that sprint exactly if
      the run resolved, the new total reaches the limit and some worker is billed by the call. */
  lemma HandlePausesIff(c: Config, s: State, a: ActId, outcome: HandleOutcome, now: Time)
    requires a in s.acts && s.acts[a].Awaiting? && s.acts[a].task in s.tasks
    requires var id := s.tasks[s.acts[a].task].sprint; id in s.sprints && s.sprints[id].state.Running?
    ensures var id, s' := s.tasks[s.acts[a].task].sprint, HandleSettled(c, s, a, outcome, now);
            var spent := SpendOf(s, id) + OutcomeCost(outcome).GetOr(0.0);
            && SpendOf(s', id) == spent && id in s'.sprints
            && (s'.sprints[id].state.Paused? <==>
                 outcome.Ran? && c.limit.Some? && spent >= c.limit.value && exists w :: w in c.workers && w.api)
            && (s'.sprints[id].state.Paused? ==> s'.sprints[id].state.reason == OverBudget(spent, c.limit.value))
            && (!s'.sprints[id].state.Paused? ==> s'.sprints == s.sprints)
  {
    var id, s2 := s.tasks[s.acts[a].task].sprint, SettleAct(s, a, outcome, now);
    SettleSpends(s, a, outcome, now);
    BudgetIff(c, s2, id, SpendOf(s2, id), now);
  }

  lemma SettleSpends(s: State, a: ActId, outcome: HandleOutcome, now: Time)
    requires a in s.acts && s.acts[a].task in s.tasks
    ensures var id, s2 := s.tasks[s.acts[a].task].sprint, SettleAct(s, a, outcome, now);
            SpendOf(s2, id) == SpendOf(s, id) + OutcomeCost(outcome).GetOr(0.0) && s2.sprints == s.sprints
  {}

  lemma BudgetIff(c: Config, s: State, id: SprintId, spent: real, now: Time)
    requires id in s.sprints && s.sprints[id].state.Running?
    ensures var s' := CheckBudget(c, s, id, spent, now);
            && id in s'.sprints
            && (s'.sprints[id].state.Paused? <==>
                 c.limit.Some? && spent >= c.limit.value && exists w :: w in c.workers && w.api)
            && (s'.sprints[id].state.Paused? ==> s'.sprints[id].state.reason == OverBudget(spent, c.limit.value))
            && (!s'.sprints[id].state.Paused? ==> s' == s)
  {}

  /** A settled handle is gone afterwards, with its running entry and no other, whether its
      task is still stored or not. */
  lemma HandleClears(c: Config, s: State, a: ActId, outcome: HandleOutcome, now: Time)
    requires a in s.acts && s.acts[a].Awaiting?
    ensures var s' := HandleSettled(c, s, a, outcome, now);
            s'.acts == s.acts - {a} && s'.running == s.running - {s.acts[a].task}
  {
    if s.acts[a].task in s.tasks { SettleClears(Drop(s, a), s.acts[a].task, outcome, now); }
  }

  lemma SettleClears(s: State, t: TaskId, outcome: HandleOutcome, now: Time)
    requires t in s.tasks
    ensures var s' := Settle(s, t, outcome, now); s'.running == s.running - {t} && s'.acts == s.acts
  {}

  // ----- rate-limit headers -----

  /** Headers block their worker exactly until the reset they name, and exactly if at most 15
      percent of the tokens are left; they say nothing of other workers. */
  lemma HeadersBlock(s: State, w: WorkerId, resetAt: Time, remaining: real, limit: real, now: Time, other: WorkerId)
    ensures var s' := Observe(s, w, Snapshot(resetAt, ComputePressure(remaining, limit)));
            && (!ShouldDispatch(s'.snapshots, w, now) <==>
                 now < resetAt && (limit <= 0.0 || remaining <= 0.15 * limit))
            && (other != w ==> PressureFor(s'.snapshots, other, now) == PressureFor(s.snapshots, other, now))
  {}

  // ----- resuming -----

  /** A resume succeeds exactly on a known sprint that runs or is paused; afterwards it runs. */
  lemma ResumeIff(s: State, id: SprintId, byTick: bool, now: Time)
    ensures var (ok, s') := Resume(s, id, byTick, now);
            && (ok <==> id in s.sprints && (s.sprints[id].state.Running? || s.sprints[id].state.Paused?))
            && (ok ==> id in s'.sprints && s'.sprints[id].state.Running?)
            && (!ok || s.sprints[id].state.Running? ==> s' == s)
  {
    if id in s.sprints && s.sprints[id].state.Paused? { ResumeRuns(s, id, byTick, now); }
  }

  lemma ResumeRuns(s: State, id: SprintId, byTick: bool, now: Time)
    requires id in s.sprints && s.sprints[id].state.Paused?
    ensures var (ok, s') := Resume(s, id, byTick, now); ok && id in s'.sprints && s'.sprints[id].state.Running?
  {
    var s1 := Transition(s, id, Running(now, s.sprints[id].state.elapsed), now).1;
    assert Resume(s, id, byTick, now).1.sprints == s1.sprints;
  }

  // ----- submitting -----

  lemma {:induction false} AddTasksRecords(s: State, id: SprintId, ts: seq<TaskId>, briefs: TaskId -> string,
                                           required: TaskId -> seq<string>, t: TaskId)
    requires NoRepeat(ts)
    ensures var s' := AddTasks(s, id, ts, briefs, required);
            if t in ts then t in s'.tasks && s'.tasks[t] == Task(id, briefs(t), Pending, 0, required(t))
            else (t in s'.tasks <==> t in s.tasks) && (t in s.tasks ==> s'.tasks[t] == s.tasks[t])
    decreases |ts|
  {
    if ts != [] {
      var s1 := s.(tasks := s.tasks[ts[0] := Task(id, briefs(ts[0]), Pending, 0, required(ts[0]))],
                   work := Then(s.work, Submitted(ts[0])));
      assert ts == [ts[0]] + ts[1..];
      assert forall k :: 0 <= k < |ts| - 1 ==> ts[1..][k] == ts[k + 1];
      AddTasksRecords(s1, id, ts[1..], briefs, required, t);
    }
  }

  /** A submission stores every task with its own brief and needs, pending and not attempted,
      and the sprint queued with its list; nothing that was there changes. */
  lemma SubmitRecords(s: State, id: SprintId, ts: seq<TaskId>, briefs: TaskId -> string,
                      required: TaskId -> seq<string>, t: TaskId, other: SprintId)
    requires FreshIds(s, id, ts)
    ensures var s' := Submit(s, id, ts, briefs, required);
            && id in s'.sprints && s'.sprints[id] == Sprint(ts, Queued)
            && (t in ts ==> t in s'.tasks && s'.tasks[t] == Task(id, briefs(t), Pending, 0, required(t)))
            && (t !in ts && t in s.tasks ==> t in s'.tasks && s'.tasks[t] == s.tasks[t])
            && (other in s.sprints ==> other in s'.sprints && s'.sprints[other] == s.sprints[other])
  {
    AddTasksRecords(s, id, ts, briefs, required, t);
  }

  // ----- the brief a dispatch stores -----

  /** A dispatch that has a brief stores it: the record's own, or the loaded one if it had none. */
  lemma DispatchStoresBrief(c: Config, s: State, t: TaskId, w: WorkerId, ch: Choice, now: Time)
    requires t in s.tasks && s.tasks[t].state.Pending? && s.nextAct !in s.acts
    requires HasCapacity(c.workers, s.inFlight, w) && Briefed(s.tasks[t], ch)
    ensures var s' := Dispatch(c, s, t, s.tasks[t], w, ch, now);
            && t in s'.tasks
            && s'.tasks[t].brief == if s.tasks[t].brief != "" then s.tasks[t].brief else ch.brief.value
  {
    var s2 := BriefLoaded(BeginDispatch(c, s, t, s.tasks[t], w, now), s.nextAct, ch.brief, now);
    BriefStored(c, s, t, w, ch.brief, now);
    SpawnKeepsBrief(s2, s.nextAct, ch.spawned, now);
  }

  lemma BriefStored(c: Config, s: State, t: TaskId, w: WorkerId, brief: Option<string>, now: Time)
    requires t in s.tasks && s.tasks[t].state.Pending? && s.nextAct !in s.acts
    requires HasCapacity(c.workers, s.inFlight, w) && (s.tasks[t].brief != "" || brief.Some?)
    ensures var s' := BriefLoaded(BeginDispatch(c, s, t, s.tasks[t], w, now), s.nextAct, brief, now);
            var stored := if s.tasks[t].brief != "" then s.tasks[t].brief else brief.value;
            && s.nextAct in s'.acts && s'.acts[s.nextAct].Spawning? && s'.acts[s.nextAct].task == t
            && s'.acts[s.nextAct].record.brief == stored && t in s'.tasks && s'.tasks[t].brief == stored
  {
    var a, s1, rec := s.nextAct, BeginDispatch(c, s, t, s.tasks[t], w, now), s.tasks[t];
    var taken := Take(s, Briefing(t, rec, w));
    if rec.brief == "" {
      assert s1 == taken;
      AssignStores(taken, a, t, rec.(brief := brief.value), w, now);
      assert BriefLoaded(s1, a, brief, now) == Assign(taken, a, t, rec.(brief := brief.value), w, now);
    } else {
      AssignStores(taken, a, t, rec, w, now);
      assert BriefLoaded(s1, a, brief, now) == s1 == Assign(taken, a, t, rec, w, now);
    }
  }

  lemma AssignStores(s: State, a: ActId, t: TaskId, rec: Task, w: WorkerId, now: Time)
    ensures var s' := Assign(s, a, t, rec, w, now);
            && a in s'.acts && s'.acts[a].Spawning? && s'.acts[a].task == t
            && s'.acts[a].record.brief == rec.brief && t in s'.tasks && s'.tasks[t].brief == rec.brief
  {}

  lemma SpawnKeepsBrief(s: State, a: ActId, ok: bool, now: Time)
    requires a in s.acts && s.acts[a].Spawning?
    ensures var t, s' := s.acts[a].task, Spawned(s, a, ok, now);
            t in s'.tasks && s'.tasks[t].brief == s.acts[a].record.brief
  {}

  // ----- booting -----

  predicate UnderWay(rec: Task) {
    rec.state.InProgress? || rec.state.Assigned?
  }

  function BackToPending(rec: Task): Task {
    if UnderWay(rec) then rec.(state := Pending) else rec
  }

  lemma {:induction false} ResetTasksIs(s: State, ts: seq<TaskId>, t: TaskId)
    ensures var s' := ResetTasks(s, ts);
            && (t in s'.tasks <==> t in s.tasks) && s'.running == s.running
            && (t in s.tasks ==> s'.tasks[t] == if t in ts then BackToPending(s.tasks[t]) else s.tasks[t])
    decreases |ts|
  {
    if ts != [] {
      var s1 := ResetTask(s, ts[0]);
      ResetTaskIs(s, ts[0], t);
      ResetTasksIs(s1, ts[1..], t);
      assert ResetTasks(s, ts) == ResetTasks(s1, ts[1..]);
      assert t in ts <==> t == ts[0] || t in ts[1..];
    }
  }

  lemma ResetTaskIs(s: State, u: TaskId, t: TaskId)
    ensures var s' := ResetTask(s, u);
            && (t in s'.tasks <==> t in s.tasks) && s'.running == s.running
            && (t in s.tasks ==> s'.tasks[t] == if t == u then BackToPending(s.tasks[t]) else s.tasks[t])
  {
    assert ResetTask(s, u).tasks == if u in s.tasks then s.tasks[u := BackToPending(s.tasks[u])] else s.tasks;
  }

  /** Some sprint on the list runs without handles and has the task. */
  predicate LeftBehind(s: State, ids: seq<SprintId>, t: TaskId) {
    exists id :: id in ids && id in s.sprints && s.sprints[id].state.Running? && NoneEntered(s, id)
      && t in s.sprints[id].tasks
  }

  /** `resumeAbandoned` puts exactly the tasks under way of running sprints without handles back
      to pending. */
  lemma {:induction false} BootResets(s: State, ids: seq<SprintId>, t: TaskId)
    requires t in s.tasks
    ensures var s' := ResumeAbandoned(s, ids);
            && t in s'.tasks && s'.sprints == s.sprints
            && s'.tasks[t] == if LeftBehind(s, ids, t) then BackToPending(s.tasks[t]) else s.tasks[t]
    decreases |ids|
  {
    if ids != [] {
      var id := ids[0];
      assert ids == [id] + ids[1..];
      NoneEnteredIff(s, id);
      var s1 := if Abandoned(s, id) then ResetTasks(s, s.sprints[id].tasks) else s;
      if Abandoned(s, id) { ResetTasksIs(s, s.sprints[id].tasks, t); }
      assert LeftBehind(s1, ids[1..], t) <==> LeftBehind(s, ids[1..], t);
      BootResets(s1, ids[1..], t);
      LeftBehindSplit(s, id, ids[1..], t);
    }
  }

  lemma LeftBehindSplit(s: State, id: SprintId, ids: seq<SprintId>, t: TaskId)
    ensures LeftBehind(s, [id] + ids, t) <==> LeftBehind(s, [id], t) || LeftBehind(s, ids, t)
  {}
}
