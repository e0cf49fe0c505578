/** Rate-cap sleep: how long a sprint is paused when every worker is over its
    pressure threshold, and what wakes it. */
module SprintSleep {
  import opened Prelude
  import opened Scheduler
  import opened SprintTicks
  import opened SprintInvariants
  import opened SprintEvents
  import opened SprintProgress

  /** When all workers are blocked, the wake-up time is exact: from now on, as long
      as no new headers arrive, all workers are blocked before it and not from it on. */
  lemma SleepExact(ws: seq<Worker>, p: map<WorkerId, Snapshot>, now: Time, t: Time)
    requires ws != [] && AllBlocked(ws, p, now) && t >= now
    ensures FutureSlots(ws, p, now) != []
    ensures MinOf(FutureSlots(ws, p, now)) > now
    ensures AllBlocked(ws, p, t) <==> t < MinOf(FutureSlots(ws, p, now))
  {
    var slots := FutureSlots(ws, p, now);
    assert ws[0] in ws;
    BlockedUntil(p, ws[0].id, now, t);
    assert NextAvailableSlot(p, ws[0].id, now) in slots;
    var r := MinOf(slots);
    var w :| w in ws && NextAvailableSlot(p, w.id, now) == r;
    BlockedUntil(p, w.id, now, t);
    forall v | v in ws ensures t < r ==> !ShouldDispatch(p, v.id, t) {
      BlockedUntil(p, v.id, now, t);
      assert NextAvailableSlot(p, v.id, now) in slots;
    }
  }

  /** A blocked worker stays blocked exactly until its reset. */
  lemma BlockedUntil(p: map<WorkerId, Snapshot>, w: WorkerId, now: Time, t: Time)
    requires !ShouldDispatch(p, w, now) && t >= now
    ensures NextAvailableSlot(p, w, now) > now
    ensures !ShouldDispatch(p, w, t) <==> t < NextAvailableSlot(p, w, now)
  {}

  /** `checkRateLimit` pauses a running sprint exactly when there are workers and
      all of them are blocked. */
  lemma PausesWhenBlocked(c: Config, s: State, id: SprintId, now: Time)
    requires RunningState(s, id)
    ensures CheckRate(c, s, id, now) ==
            if c.workers != [] && AllBlocked(c.workers, s.snapshots, now)
            then PauseUntil(s, id, MinOf(FutureSlots(c.workers, s.snapshots, now)), now) else s
  {
    if c.workers != [] && AllBlocked(c.workers, s.snapshots, now) {
      SleepExact(c.workers, s.snapshots, now, now);
    }
  }

  /** The sprint is rate-paused until `resetAt`, in memory and on disk. */
  predicate Asleep(s: State, id: SprintId, resetAt: Time) {
    && id in s.sprints && s.sprints[id].state.Paused? && s.sprints[id].state.reason == RateCapped(resetAt)
    && id in s.resets && s.resets[id] == resetAt
    && RowReset(s.runtime, id) == Some(resetAt)
  }

  lemma FallsAsleep(s: State, id: SprintId, resetAt: Time, now: Time)
    requires RunningState(s, id)
    ensures Asleep(PauseUntil(s, id, resetAt, now), id, resetAt)
  {}

  /** The parts of the state that `Asleep` reads are the same for sprint `id`. */
  predicate SameSleep(s: State, s': State, id: SprintId) {
    && (id in s.sprints ==> id in s'.sprints && s'.sprints[id] == s.sprints[id])
    && (id in s.resets ==> id in s'.resets && s'.resets[id] == s.resets[id])
    && RowReset(s'.runtime, id) == RowReset(s.runtime, id)
  }

  lemma TransitionElsewhere(s: State, i: SprintId, next: SprintState, now: Time, id: SprintId)
    requires i != id
    ensures SameSleep(s, Transition(s, i, next, now).1, id)
  {}

  lemma HeadElsewhere(s: State, i: SprintId, now: Time, id: SprintId)
    requires i != id
    ensures SameSleep(s, TickHead(s, i, now).1, id)
  {
    if i in s.sprints && s.sprints[i].state.Paused? && i in s.resets {
      var s1 := s.(resets := s.resets - {i}, runtime := SaveReset(s.runtime, i, None));
      assert SameSleep(s, s1, id);
      TransitionElsewhere(s1, i, Running(now, s.sprints[i].state.elapsed), now, id);
    } else {
      TransitionElsewhere(s, i, Running(now, 0), now, id);
    }
  }

  lemma RateElsewhere(c: Config, s: State, i: SprintId, now: Time, id: SprintId)
    requires i != id
    ensures SameSleep(s, CheckRate(c, s, i, now), id)
  {}

  lemma TailElsewhere(c: Config, s: State, i: SprintId, now: Time, id: SprintId)
    requires i != id
    ensures SameSleep(s, TickTail(c, s, i, now).1, id)
  {
    RateElsewhere(c, s, i, now, id);
    if i in s.sprints {
      TransitionElsewhere(s, i, Failed(now), now, id);
      TransitionElsewhere(s, i, Completed(now, Prs(s, s.sprints[i].tasks)), now, id);
    }
  }

  lemma {:induction false} DispatchAllSame(c: Config, s: State, ts: seq<TaskId>, snap: map<TaskId, Task>, w: WorkerId,
                                           env: TaskId -> Choice, now: Time)
    ensures var s' := DispatchAll(c, s, ts, snap, w, env, now);
            SameSprints(s, s') && SameMoney(s, s') && s'.snapshots == s.snapshots
    decreases |ts|
  {
    if ts != [] {
      var t := ts[0];
      if t !in snap || !snap[t].state.Pending? {
        DispatchAllSame(c, s, ts[1..], snap, w, env, now);
      } else if Missing(c, snap[t]) {
        DispatchAllSame(c, BlockTask(s, t, snap[t], now), ts[1..], snap, w, env, now);
      } else {
        var s1 := Dispatch(c, s, t, snap[t], w, env(t), now);
        var next := PickWorker(c, s1, now);
        if next.Some? {
          DispatchAllSame(c, s1, ts[1..], snap, next.value, env, now);
        }
      }
    }
  }

  lemma BodySame(c: Config, s: State, id: SprintId, env: TaskId -> Choice, now: Time)
    ensures var s' := TickBody(c, s, id, env, now);
            SameSprints(s, s') && SameMoney(s, s') && s'.snapshots == s.snapshots
  {
    var w := PickWorker(c, s, now);
    if w.Some? && id in s.sprints {
      DispatchAllSame(c, s, s.sprints[id].tasks, s.tasks, w.value, env, now);
    }
  }

  lemma TickElsewhere(c: Config, s: State, i: SprintId, env: TaskId -> Choice, now: Time, id: SprintId)
    requires i != id
    ensures SameSleep(s, Tick(c, s, i, env, now).1, id)
  {
    var s1 := TickHead(s, i, now).1;
    HeadElsewhere(s, i, now, id);
    BodySame(c, s1, i, env, now);
    TailElsewhere(c, TickBody(c, s1, i, env, now), i, now, id);
  }

  /** A budget check does nothing to a sprint that is not running. */
  lemma SettleAsleep(c: Config, s: State, a: ActId, outcome: HandleOutcome, now: Time, id: SprintId, resetAt: Time)
    requires Asleep(s, id, resetAt)
    ensures Asleep(HandleSettled(c, s, a, outcome, now), id, resetAt)
  {
    if a in s.acts && s.acts[a].Awaiting? && s.acts[a].task in s.tasks {
      var sid, s2 := s.tasks[s.acts[a].task].sprint, SettleAct(s, a, outcome, now);
      SettleActAsleep(s, a, outcome, now, id, resetAt);
      BudgetAsleep(c, s2, sid, SpendOf(s2, sid), now, id, resetAt);
    }
  }

  lemma SettleActAsleep(s: State, a: ActId, outcome: HandleOutcome, now: Time, id: SprintId, resetAt: Time)
    requires Asleep(s, id, resetAt) && a in s.acts && s.acts[a].task in s.tasks
    ensures Asleep(SettleAct(s, a, outcome, now), id, resetAt)
  {}

  lemma BudgetAsleep(c: Config, s: State, i: SprintId, spent: real, now: Time, id: SprintId, resetAt: Time)
    requires Asleep(s, id, resetAt)
    ensures Asleep(CheckBudget(c, s, i, spent, now), id, resetAt)
  {}

  /** Events that may end the sleep: the operator, or a tick that is late enough. */
  predicate MayWake(e: Event, id: SprintId, resetAt: Time) {
    || (e.Resuming? && e.id == id)
    || (e.Cancelling? && e.id == id)
    || (e.Ticking? && e.id == id && e.now >= resetAt)
  }

  lemma StaysAsleep(c: Config, s: State, e: Event, id: SprintId, resetAt: Time)
    requires Asleep(s, id, resetAt) && !MayWake(e, id, resetAt)
    ensures Asleep(Do(c, s, e), id, resetAt)
  {
    match e
    case Submitting(i, ts, briefs, required) =>
    case Ticking(i, env, now) => if i != id { TickElsewhere(c, s, i, env, now, id); }
    case Settling(a, outcome, now) => SettleAsleep(c, s, a, outcome, now, id, resetAt);
    case Resuming(i, now) =>
    case Cancelling(i, now) => TransitionElsewhere(s, i, Cancelled(now), now, id);
    case Observing(_, _) =>
    case Restarting =>
    case Booting(ids) =>
  }

  /** No tick before the wake-up time resumes the sprint, nor do handles, headers,
      other sprints or any number of restarts. */
  lemma {:induction false} SleepsOn(c: Config, es: seq<Event>, more: seq<Event>, id: SprintId, resetAt: Time)
    requires Asleep(Run(c, es), id, resetAt)
    requires forall k :: 0 <= k < |more| ==> !MayWake(more[k], id, resetAt)
    ensures Asleep(Run(c, es + more), id, resetAt)
  {
    if more == [] {
      assert es + more == es;
    } else {
      var n := |more| - 1;
      SleepsOn(c, es, more[..n], id, resetAt);
      RunSnoc(c, es, more);
      StaysAsleep(c, Run(c, es + more[..n]), more[n], id, resetAt);
    }
  }

  /** The first tick at or after the wake-up time resumes the sprint and forgets it. */
  lemma WakesUp(s: State, id: SprintId, resetAt: Time, now: Time)
    requires Asleep(s, id, resetAt) && now >= resetAt
    ensures var (head, s') := TickHead(s, id, now);
            head.GoesOn? && RunningState(s', id) && id !in s'.resets && RowReset(s'.runtime, id).None?
            && s'.sprints[id].tasks == s.sprints[id].tasks
  {}

  lemma OneFree(c: Config, s: State, v: Worker, now: Time)
    requires v in c.workers && InFlight(s.inFlight, v.id) < v.maxConcurrent && ShouldDispatch(s.snapshots, v.id, now)
    ensures !NoneFree(c, s, now)
  {}

  /** The first task in line is with a worker, or failed for want of a brief or a spawn. */
  predicate Served(c: Config, s: State, s': State, t: TaskId, ch: Choice) {
    t in s.tasks && exists w :: w in c.workers && DispatchedTo(s.tasks[t], s', t, w.id, ch)
  }

  /** `FirstDueServed` from the start of the tick. */
  lemma TickServes(c: Config, s: State, s1: State, id: SprintId, env: TaskId -> Choice, now: Time, k: nat)
    requires TickHead(s, id, now) == (GoesOn, s1) && Inv(s1)
    requires RunningState(s1, id) && !NoneFree(c, s1, now) && !Stuck(c, s1, now)
    requires FirstDue(c, s1.tasks, s1.sprints[id].tasks, k)
    ensures Served(c, s1, Tick(c, s, id, env, now).1, s1.sprints[id].tasks[k], env(s1.sprints[id].tasks[k]))
  {
    FirstDueServed(c, s1, id, env, now, k);
    var w := PickWorker(c, s1, now).value;
    AvailableIff(c.workers, s1.inFlight, w);
  }

  // ----- from the pause to the wake-up, over a run -----

  /** A tick that dispatched and then left its sprint asleep found all workers blocked
      and set the earliest future reset as the wake-up time. */
  lemma TickFellAsleep(c: Config, s: State, id: SprintId, env: TaskId -> Choice, now: Time, resetAt: Time)
    requires Inv(s) && RunningState(TickHead(s, id, now).1, id) && Asleep(Tick(c, s, id, env, now).1, id, resetAt)
    ensures var p := Tick(c, s, id, env, now).1.snapshots;
            c.workers != [] && AllBlocked(c.workers, p, now)
            && FutureSlots(c.workers, p, now) != [] && resetAt == MinOf(FutureSlots(c.workers, p, now))
  {
    var s1 := TickHead(s, id, now).1;
    HeadKeeps(s, id, now);
    HeadRuns(s, id, now);
    BodySame(c, s1, id, env, now);
    TailFellAsleep(c, TickBody(c, s1, id, env, now), id, now, resetAt);
  }

  lemma TailFellAsleep(c: Config, s: State, id: SprintId, now: Time, resetAt: Time)
    requires RunningState(s, id) && Asleep(TickTail(c, s, id, now).1, id, resetAt)
    ensures c.workers != [] && AllBlocked(c.workers, s.snapshots, now)
    ensures FutureSlots(c.workers, s.snapshots, now) != [] && resetAt == MinOf(FutureSlots(c.workers, s.snapshots, now))
  {
    PausesWhenBlocked(c, s, id, now);
    NotAsleep(s, id, Failed(now), now, resetAt);
    NotAsleep(s, id, Completed(now, Prs(s, s.sprints[id].tasks)), now, resetAt);
    assert Asleep(CheckRate(c, s, id, now), id, resetAt);
    var p := c.workers != [] && AllBlocked(c.workers, s.snapshots, now);
    if p {
      SleepExact(c.workers, s.snapshots, now, now);
      UntilSleeps(s, id, MinOf(FutureSlots(c.workers, s.snapshots, now)), now, resetAt);
    }
  }

  lemma NotAsleep(s: State, id: SprintId, next: SprintState, now: Time, resetAt: Time)
    requires RunningState(s, id) && next.Terminal()
    ensures !Asleep(Transition(s, id, next, now).1, id, resetAt)
  {}

  lemma UntilSleeps(s: State, id: SprintId, until: Time, now: Time, resetAt: Time)
    requires RunningState(s, id) && Asleep(PauseUntil(s, id, until, now), id, resetAt)
    ensures until == resetAt
  {
    FallsAsleep(s, id, until, now);
  }

  /** Events that bring or lose pressure headers. */
  predicate ChangesHeaders(e: Event) {
    e.Observing? || e.Restarting?
  }

  lemma SameHeaders(c: Config, s: State, e: Event)
    requires !ChangesHeaders(e)
    ensures Do(c, s, e).snapshots == s.snapshots
  {
    if e.Ticking? {
      var s1 := TickHead(s, e.id, e.now).1;
      BodySame(c, s1, e.id, e.env, e.now);
      assert SameTaskData(TickBody(c, s1, e.id, e.env, e.now),
                          TickTail(c, TickBody(c, s1, e.id, e.env, e.now), e.id, e.now).1);
    }
  }

  lemma {:induction false} HeadersStay(c: Config, es: seq<Event>, more: seq<Event>)
    requires forall k :: 0 <= k < |more| ==> !ChangesHeaders(more[k])
    ensures Run(c, es + more).snapshots == Run(c, es).snapshots
  {
    if more == [] {
      assert es + more == es;
    } else {
      var n := |more| - 1;
      HeadersStay(c, es, more[..n]);
      RunSnoc(c, es, more);
      SameHeaders(c, Run(c, es + more[..n]), more[n]);
    }
  }

  /** Neither the operator, nor a late tick, nor headers, nor a restart. */
  predicate LetsSleep(more: seq<Event>, id: SprintId, resetAt: Time) {
    forall k :: 0 <= k < |more| ==> !MayWake(more[k], id, resetAt) && !ChangesHeaders(more[k])
  }

  /** Rate-cap sleep over a run. A tick at `since` pauses the sprint until `resetAt`, and
      `more` lets it sleep. Then the sprint is still paused until that time, and from
      `since` on all workers are blocked exactly before it. */
  lemma SleepsExactly(c: Config, es: seq<Event>, id: SprintId, env: TaskId -> Choice, since: Time, resetAt: Time,
                      more: seq<Event>, t: Time)
    requires RunningState(TickHead(Run(c, es), id, since).1, id)
    requires Asleep(Run(c, es + [Ticking(id, env, since)]), id, resetAt) && LetsSleep(more, id, resetAt)
    ensures var s := Run(c, es + [Ticking(id, env, since)] + more);
            && Asleep(s, id, resetAt)
            && (t >= since ==> (AllBlocked(c.workers, s.snapshots, t) <==> t < resetAt))
  {
    var tick := Ticking(id, env, since);
    AlwaysInv(c, es);
    RunSnoc(c, es, [tick]);
    assert es + [tick][..0] == es;
    TickFellAsleep(c, Run(c, es), id, env, since, resetAt);
    SleepsOn(c, es + [tick], more, id, resetAt);
    HeadersStay(c, es + [tick], more);
    if t >= since {
      SleepExact(c.workers, Run(c, es + [tick]).snapshots, since, t);
    }
  }

  /** Some worker that has opened has a free slot. */
  predicate OpenSlot(c: Config, s: State, now: Time) {
    exists w :: w in c.workers && InFlight(s.inFlight, w.id) < w.maxConcurrent && ShouldDispatch(s.snapshots, w.id, now)
  }

  /** And the wake-up: before `resetAt` a tick does nothing; at or after it, a tick
      resumes the sprint, some worker has opened, and if one that has opened has a free
      slot (and the pick is not stuck) the first dispatchable task is handed to a worker. */
  lemma WakesExactly(c: Config, es: seq<Event>, id: SprintId, env: TaskId -> Choice, since: Time, resetAt: Time,
                     more: seq<Event>, env': TaskId -> Choice, now: Time, k: nat)
    requires RunningState(TickHead(Run(c, es), id, since).1, id)
    requires Asleep(Run(c, es + [Ticking(id, env, since)]), id, resetAt) && LetsSleep(more, id, resetAt)
    requires now >= since
    ensures var s := Run(c, es + [Ticking(id, env, since)] + more);
            && (now < resetAt ==> Tick(c, s, id, env', now) == (true, s))
            && (now >= resetAt ==>
                  && RunningState(TickHead(s, id, now).1, id)
                  && !AllBlocked(c.workers, s.snapshots, now)
                  && (OpenSlot(c, s, now) && !Stuck(c, s, now) && FirstDue(c, s.tasks, s.sprints[id].tasks, k) ==>
                        Served(c, s, Tick(c, s, id, env', now).1, s.sprints[id].tasks[k],
                               env'(s.sprints[id].tasks[k]))))
  {
    var s := Run(c, es + [Ticking(id, env, since)] + more);
    SleepsExactly(c, es, id, env, since, resetAt, more, now);
    if now >= resetAt {
      WakesUp(s, id, resetAt, now);
      if OpenSlot(c, s, now) && !Stuck(c, s, now) && FirstDue(c, s.tasks, s.sprints[id].tasks, k) {
        AlwaysInv(c, es + [Ticking(id, env, since)] + more);
        WakeDispatches(c, s, id, resetAt, env', now, k);
      }
    }
  }

  /** A sprint whose wake-up time has come hands its first dispatchable task to a worker,
      if one that has opened has a free slot. */
  lemma WakeDispatches(c: Config, s: State, id: SprintId, resetAt: Time, env: TaskId -> Choice, now: Time, k: nat)
    requires Inv(s) && Asleep(s, id, resetAt) && now >= resetAt && OpenSlot(c, s, now) && !Stuck(c, s, now)
    requires FirstDue(c, s.tasks, s.sprints[id].tasks, k)
    ensures Served(c, s, Tick(c, s, id, env, now).1, s.sprints[id].tasks[k], env(s.sprints[id].tasks[k]))
  {
    var s1 := TickHead(s, id, now).1;
    WakesUp(s, id, resetAt, now);
    HeadKeeps(s, id, now);
    assert s1.tasks == s.tasks && s1.snapshots == s.snapshots && s1.inFlight == s.inFlight;
    var v :| v in c.workers && InFlight(s.inFlight, v.id) < v.maxConcurrent && ShouldDispatch(s.snapshots, v.id, now);
    OneFree(c, s1, v, now);
    TickServes(c, s, s1, id, env, now, k);
  }
}
