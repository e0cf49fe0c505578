/** A run in which a tick lifts a budget pause: the operator resumed the sprint from a
    rate pause, and the wake-up time it left behind comes due later. */
module SprintLeak {
  import opened Prelude
  import opened Scheduler
  import opened SprintTicks
  import opened SprintInvariants
  import opened SprintProgress
  import opened SprintSleep
  import opened SprintBudget
  import opened SampleInputs

  /** One API worker, one slot, a limit of one dollar. */
  function OneWorker(): Config {
    Config([Worker(0, 1, true)], Some(1.0), None)
  }

  function Leak(): seq<Event> {
    [Submitting(0, [0], Briefs(), NoNeeds()),
     Observing(0, Snapshot(10, 1.0)),
     Ticking(0, Spawns(), 0),            // all workers blocked: rate pause until 10
     Resuming(0, 1),                     // operator
     Observing(0, Snapshot(10, 0.0)),
     Ticking(0, Spawns(), 2),            // dispatches
     Settling(0, Costly(), 3)]           // over the limit: budget pause
  }

  /** The task is there, waiting for its turn, and nothing runs. */
  predicate Idle(s: State) {
    && s.running == map[] && s.acts == map[] && s.nextAct == 0 && s.inFlight == map[] && s.spend == map[]
    && s.tasks == map[0 := Task(0, "do it", Pending, 0, [])]
  }

  lemma Submits(s: State)
    requires s == EMPTY
    ensures var s' := Submit(s, 0, [0], Briefs(), NoNeeds());
            Idle(s') && s'.sprints == map[0 := Sprint([0], Queued)] && s'.snapshots == map[] && s'.resets == map[]
  {
    var s1 := AddTasks(s, 0, [0], Briefs(), NoNeeds());
    assert [0][1..] == [];
    assert s1 == s.(tasks := s.tasks[0 := Task(0, "do it", Pending, 0, [])], work := Then(s.work, Submitted(0)));
  }

  // ----- the first tick: all workers blocked -----

  lemma StartsRunning(s: State)
    requires Idle(s) && s.sprints == map[0 := Sprint([0], Queued)]
    ensures var (head, s') := TickHead(s, 0, 0);
            head.GoesOn? && Idle(s') && s'.sprints == map[0 := Sprint([0], Running(0, 0))]
            && s'.snapshots == s.snapshots
  {}

  lemma Blocked(s: State)
    requires s.snapshots == map[0 := Snapshot(10, 1.0)]
    ensures PickWorker(OneWorker(), s, 0).None?
    ensures AllBlocked(OneWorker().workers, s.snapshots, 0) && FutureSlots(OneWorker().workers, s.snapshots, 0) == [10]
  {
    var w := Worker(0, 1, true);
    assert OneWorker().workers == [w] && [w][1..] == [];
    assert !ShouldDispatch(s.snapshots, 0, 0);
    PickNone(OneWorker(), s, 0);
  }

  lemma FallsAsleepNow(s: State)
    requires Idle(s) && s.sprints == map[0 := Sprint([0], Running(0, 0))] && s.snapshots == map[0 := Snapshot(10, 1.0)]
    ensures var s' := TickTail(OneWorker(), s, 0, 0).1; Idle(s') && Asleep(s', 0, 10) && s'.sprints[0].tasks == [0]
  {
    Blocked(s);
    PausesWhenBlocked(OneWorker(), s, 0, 0);
    assert 0 in s.sprints[0].tasks && s.tasks[0].state.Pending?;
    assert TickTail(OneWorker(), s, 0, 0).1 == PauseUntil(s, 0, 10, 0);
    FallsAsleep(s, 0, 10, 0);
  }

  lemma FirstTick(s: State)
    requires Idle(s) && s.sprints == map[0 := Sprint([0], Queued)] && s.snapshots == map[0 := Snapshot(10, 1.0)]
    ensures var s' := Tick(OneWorker(), s, 0, Spawns(), 0).1;
            Idle(s') && Asleep(s', 0, 10) && s'.sprints[0].tasks == [0]
  {
    StartsRunning(s);
    var s1 := TickHead(s, 0, 0).1;
    Blocked(s1);
    FallsAsleepNow(s1);
  }

  // ----- the operator, then the second tick: the task is dispatched -----

  /** Running again, with the wake-up time of the rate pause still on file. */
  predicate Stale(s: State) {
    && 0 in s.sprints && s.sprints[0].tasks == [0] && s.sprints[0].state.Running?
    && 0 in s.resets && s.resets[0] == 10
  }

  lemma OperatorResumes(s: State)
    requires Idle(s) && Asleep(s, 0, 10) && s.sprints[0].tasks == [0]
    ensures var s' := Resume(s, 0, false, 1).1; Idle(s') && Stale(s')
  {}

  lemma Open(s: State, now: Time)
    requires 0 in s.snapshots && s.snapshots[0] == Snapshot(10, 0.0) && s.inFlight == map[]
    ensures PickWorker(OneWorker(), s, now) == Some(0) && HasCapacity(OneWorker().workers, s.inFlight, 0)
  {
    var w := Worker(0, 1, true);
    assert OneWorker().workers == [w] && [w][1..] == [];
    assert ShouldDispatch(s.snapshots, 0, now);
    assert Available([w], s.inFlight) == [0];
  }

  /** The task runs, and its continuation is number 0. */
  predicate Busy(s: State) {
    && Stale(s) && s.spend == map[]
    && s.acts == map[0 := Awaiting(0, 0, 0)]
    && 0 in s.tasks && s.tasks[0].sprint == 0 && s.tasks[0].state.InProgress?
  }

  lemma Dispatches(s: State)
    requires Idle(s) && Stale(s) && 0 in s.snapshots && s.snapshots[0] == Snapshot(10, 0.0)
    ensures Busy(TickBody(OneWorker(), s, 0, Spawns(), 2))
  {
    var c, ch := OneWorker(), Choice(None, true);
    Open(s, 2);
    var s1 := Dispatch(c, s, 0, s.tasks[0], 0, ch, 2);
    DispatchCases(c, s, 0, 0, ch, 2);
    assert Launched(s, s1, 0, 0);
    assert [0][1..] == [];
    assert !Missing(c, s.tasks[0]);
    assert TickBody(c, s, 0, Spawns(), 2) == DispatchAll(c, s, [0], s.tasks, 0, Spawns(), 2) == s1;
  }

  lemma TailWaits(s: State)
    requires Busy(s)
    ensures TickTail(OneWorker(), s, 0, 2) == (true, s)
  {
    assert 0 in s.sprints[0].tasks && !s.tasks[0].state.Settled();
  }

  lemma SecondTick(s: State)
    requires Idle(s) && Stale(s) && 0 in s.snapshots && s.snapshots[0] == Snapshot(10, 0.0)
    ensures Busy(Tick(OneWorker(), s, 0, Spawns(), 2).1)
  {
    assert TickHead(s, 0, 2) == (GoesOn, s);
    Dispatches(s);
    TailWaits(TickBody(OneWorker(), s, 0, Spawns(), 2));
  }

  // ----- the run returns, and the tick at the forgotten wake-up time -----

  predicate Leaky(s: State) {
    OnBudgetPause(s, 0) && 0 in s.resets && s.resets[0] == 10
  }

  lemma GoesOverBudget(s: State)
    requires Busy(s)
    ensures Leaky(HandleSettled(OneWorker(), s, 0, Costly(), 3))
  {
    var s2 := Settle(Drop(s, 0), 0, Costly(), 3);
    Books(s);
    PausesOverBudget(s2);
    assert HandleSettled(OneWorker(), s, 0, Costly(), 3) == CheckBudget(OneWorker(), s2, 0, SpendOf(s2, 0), 3);
  }

  lemma Books(s: State)
    requires Busy(s)
    ensures var s2 := Settle(Drop(s, 0), 0, Costly(), 3); Stale(s2) && SpendOf(s2, 0) == 2.0
  {
    CostlyCost();
  }

  lemma PausesOverBudget(s: State)
    requires Stale(s)
    ensures Leaky(CheckBudget(OneWorker(), s, 0, 2.0, 3))
  {
    var c := OneWorker();
    assert c.workers[0] in c.workers;
  }

  // ----- the whole run -----

  /** The state after the first `k` of `es`, which is kept a variable. */
  function At(es: seq<Event>, k: nat): State
    requires k <= |es|
  {
    Run(OneWorker(), es[..k])
  }

  lemma Next(es: seq<Event>, k: nat)
    requires k < |es|
    ensures At(es, k + 1) == Do(OneWorker(), At(es, k), es[k])
  {
    assert es[..k + 1][..k] == es[..k];
  }

  lemma AfterSubmit(es: seq<Event>)
    requires es == Leak()
    ensures Idle(At(es, 1)) && At(es, 1).sprints == map[0 := Sprint([0], Queued)] && At(es, 1).snapshots == map[]
  {
    Next(es, 0);
    assert At(es, 0) == EMPTY;
    Submits(EMPTY);
  }

  lemma AfterBlock(es: seq<Event>)
    requires es == Leak()
    ensures var s := At(es, 2);
            Idle(s) && s.sprints == map[0 := Sprint([0], Queued)] && s.snapshots == map[0 := Snapshot(10, 1.0)]
  {
    AfterSubmit(es);
    Next(es, 1);
    assert es[1] == Observing(0, Snapshot(10, 1.0));
  }

  lemma AfterRateCap(es: seq<Event>)
    requires es == Leak()
    ensures Idle(At(es, 3)) && Asleep(At(es, 3), 0, 10) && At(es, 3).sprints[0].tasks == [0]
  {
    AfterBlock(es);
    Next(es, 2);
    assert es[2] == Ticking(0, Spawns(), 0);
    FirstTick(At(es, 2));
  }

  lemma AfterOperator(es: seq<Event>)
    requires es == Leak()
    ensures Idle(At(es, 4)) && Stale(At(es, 4))
  {
    AfterRateCap(es);
    Next(es, 3);
    OperatorResumes(At(es, 3));
  }

  lemma AfterHeaders(es: seq<Event>)
    requires es == Leak()
    ensures var s := At(es, 5); Idle(s) && Stale(s) && 0 in s.snapshots && s.snapshots[0] == Snapshot(10, 0.0)
  {
    AfterOperator(es);
    Next(es, 4);
  }

  lemma AfterDispatch(es: seq<Event>)
    requires es == Leak()
    ensures Busy(At(es, 6))
  {
    AfterHeaders(es);
    Next(es, 5);
    SecondTick(At(es, 5));
  }

  /** After this run the sprint is on a budget pause, and the tick at time 10 lifts it. */
  lemma BudgetPauseCanLeak()
    ensures OnBudgetPause(Run(OneWorker(), Leak()), 0)
    ensures RunningState(TickHead(Run(OneWorker(), Leak()), 0, 10).1, 0)
  {
    var es := Leak();
    AfterSettle(es);
    assert es[..7] == es;
    Lifts(At(es, 7));
  }

  lemma AfterSettle(es: seq<Event>)
    requires es == Leak()
    ensures Leaky(At(es, 7))
  {
    AfterDispatch(es);
    Next(es, 6);
    GoesOverBudget(At(es, 6));
  }

  lemma Lifts(s: State)
    requires Leaky(s)
    ensures RunningState(TickHead(s, 0, 10).1, 0)
  {}
}
