/** A run after which a throw gives back a slot that another call holds: two tasks on
    one worker, of which one returns over the budget. The program then waits for the
    budget callback, and a rejection of it is such a throw. */
module DoubleRelease {
  import opened Prelude
  import opened Scheduler
  import opened SlotConservation
  import opened SprintTicks
  import RuntimeRecords
  import opened SprintInvariants
  import opened SprintEvents
  import opened SampleInputs

  /** One API worker with two slots, a limit of one dollar. */
  function TwoSlots(): Config {
    Config([Worker(0, 2, true)], Some(1.0), None)
  }

  function Record(): Task {
    Task(0, "do it", Pending, 0, [])
  }

  function Crossing(): seq<Event> {
    [Submitting(0, [0, 1], Briefs(), NoNeeds()),
     Ticking(0, Spawns(), 0),            // launches both
     Settling(0, Costly(), 1)]           // the first returns: over the limit
  }

  /** The state after the first `k` of `es`, which is kept a variable. */
  function At(es: seq<Event>, k: nat): State
    requires k <= |es|
  {
    Run(TwoSlots(), es[..k])
  }

  lemma Next(es: seq<Event>, k: nat)
    requires k < |es|
    ensures At(es, k + 1) == Do(TwoSlots(), At(es, k), es[k])
  {
    assert es[..k + 1][..k] == es[..k];
  }

  /** Both tasks wait. */
  predicate Waiting(s: State) {
    && s.acts == map[] && s.nextAct == 0 && s.inFlight == map[] && s.snapshots == map[] && s.spend == map[]
    && s.tasks == map[0 := Record(), 1 := Record()]
    && 0 in s.sprints && s.sprints[0].tasks == [0, 1]
  }

  lemma Submits(es: seq<Event>)
    requires es == Crossing()
    ensures Waiting(At(es, 1)) && At(es, 1).sprints[0].state.Queued?
  {
    Next(es, 0);
    assert At(es, 0) == EMPTY;
    var s1 := EMPTY.(tasks := map[0 := Record()], work := Then(Start, Submitted(0)));
    var s2 := s1.(tasks := map[0 := Record(), 1 := Record()], work := Then(s1.work, Submitted(1)));
    assert [0, 1][1..] == [1] && [1][1..] == [];
    assert AddTasks(s1, 0, [1], Briefs(), NoNeeds()) == s2;
    assert AddTasks(EMPTY, 0, [0, 1], Briefs(), NoNeeds()) == s2;
  }

  lemma Picks(s: State, now: Time)
    requires s.snapshots == map[] && InFlight(s.inFlight, 0) < 2
    ensures PickWorker(TwoSlots(), s, now) == Some(0) && HasCapacity(TwoSlots().workers, s.inFlight, 0)
  {
    var w := Worker(0, 2, true);
    assert TwoSlots().workers == [w] && [w][1..] == [];
    assert Available([w], s.inFlight) == [0];
    assert ShouldDispatch(s.snapshots, 0, now);
  }

  /** The first task runs, its handle is continuation 0, and one slot is taken. */
  predicate OneRuns(s: State) {
    && s.acts == map[0 := Awaiting(0, 0, 0)] && s.nextAct == 1 && InFlight(s.inFlight, 0) == 1
    && s.snapshots == map[] && s.spend == map[]
    && 0 in s.tasks && s.tasks[0].sprint == 0 && s.tasks[0].state.InProgress?
    && 0 in s.running && s.running[0].sprint == 0
    && 1 in s.tasks && s.tasks[1] == Record()
  }

  /** Both run. */
  predicate BothRun(s: State) {
    && s.acts == map[0 := Awaiting(0, 0, 0), 1 := Awaiting(1, 0, 0)] && s.spend == map[]
    && 0 in s.tasks && s.tasks[0].sprint == 0 && s.tasks[0].state.InProgress?
    && 0 in s.running && s.running[0].sprint == 0
  }

  lemma FirstLaunch(s: State)
    requires Waiting(s)
    ensures var s' := Dispatch(TwoSlots(), s, 0, Record(), 0, Choice(None, true), 0);
            OneRuns(s') && s'.sprints == s.sprints
  {
    var c, ch := TwoSlots(), Choice(None, true);
    Picks(s, 0);
    DispatchCases(c, s, 0, 0, ch, 0);
    DispatchCounts(c, s, 0, 0, ch, 0, 0);
    assert Launched(s, Dispatch(c, s, 0, Record(), 0, ch, 0), 0, 0);
  }

  lemma SecondLaunch(s: State)
    requires OneRuns(s)
    ensures var s' := Dispatch(TwoSlots(), s, 1, Record(), 0, Choice(None, true), 0);
            BothRun(s') && s'.sprints == s.sprints
  {
    var c, ch := TwoSlots(), Choice(None, true);
    Picks(s, 0);
    DispatchCases(c, s, 1, 0, ch, 0);
    assert Launched(s, Dispatch(c, s, 1, Record(), 0, ch, 0), 1, 0);
  }

  lemma LoopLaunches(s: State)
    requires Waiting(s)
    ensures var s' := TickBody(TwoSlots(), s, 0, Spawns(), 0); BothRun(s') && s'.sprints == s.sprints
  {
    var c, ch := TwoSlots(), Choice(None, true);
    var s1 := Dispatch(c, s, 0, Record(), 0, ch, 0);
    var s2 := Dispatch(c, s1, 1, Record(), 0, ch, 0);
    Picks(s, 0);
    FirstLaunch(s);
    Picks(s1, 0);
    SecondLaunch(s1);
    TwoDispatches(c, s, s.tasks, s1, s2);
  }

  /** The loop over two pending tasks is two dispatches, if the pick stays the same. */
  lemma TwoDispatches(c: Config, s: State, snap: map<TaskId, Task>, s1: State, s2: State)
    requires 0 in snap && snap[0] == Record() && 1 in snap && snap[1] == Record() && c.capabilities.None?
    requires s1 == Dispatch(c, s, 0, Record(), 0, Choice(None, true), 0) && PickWorker(c, s1, 0) == Some(0)
    requires s2 == Dispatch(c, s1, 1, Record(), 0, Choice(None, true), 0)
    ensures DispatchAll(c, s, [0, 1], snap, 0, Spawns(), 0) == s2
  {
    assert [0, 1][1..] == [1] && [1][1..] == [];
    DispatchNext(c, s, [0, 1], snap);
    DispatchNext(c, s1, [1], snap);
  }

  lemma DispatchNext(c: Config, s: State, ts: seq<TaskId>, snap: map<TaskId, Task>)
    requires ts != [] && ts[0] in snap && snap[ts[0]] == Record() && c.capabilities.None?
    ensures var s1 := Dispatch(c, s, ts[0], Record(), 0, Choice(None, true), 0);
            var next := PickWorker(c, s1, 0);
            DispatchAll(c, s, ts, snap, 0, Spawns(), 0) ==
              if next.None? || ts[1..] == [] then s1 else DispatchAll(c, s1, ts[1..], snap, next.value, Spawns(), 0)
  {
    assert !Missing(c, Record());
  }

  lemma TickLaunches(s: State)
    requires Waiting(s) && s.sprints[0].state.Queued?
    ensures var s' := Tick(TwoSlots(), s, 0, Spawns(), 0).1; BothRun(s') && RunningState(s', 0)
  {
    var c, s1 := TwoSlots(), TickHead(s, 0, 0).1;
    LoopLaunches(s1);
    var s2 := TickBody(c, s1, 0, Spawns(), 0);
    assert 0 in s2.sprints[0].tasks && !s2.tasks[0].state.Settled();
    TailRuns(s2);
  }

  lemma TailRuns(s: State)
    requires BothRun(s) && RunningState(s, 0) && 0 in s.sprints[0].tasks && !s.tasks[0].state.Settled()
    ensures var s' := TickTail(TwoSlots(), s, 0, 0).1; BothRun(s') && RunningState(s', 0)
  {
    assert TickTail(TwoSlots(), s, 0, 0).1 == s;
  }

  /** The first handle is gone, the second one is there, and the sprint is on a budget pause. */
  predicate Crossed(s: State) {
    && s.acts == map[1 := Awaiting(1, 0, 0)]
    && 0 in s.sprints && s.sprints[0].state.Paused? && s.sprints[0].state.reason.OverBudget?
  }

  lemma GoesOverBudget(s: State)
    requires BothRun(s) && RunningState(s, 0)
    ensures Crossed(HandleSettled(TwoSlots(), s, 0, Costly(), 1))
  {
    var c, s2 := TwoSlots(), SettleAct(s, 0, Costly(), 1);
    Books(s);
    PausesOverBudget(s2);
    assert HandleSettled(c, s, 0, Costly(), 1) == CheckBudget(c, s2, 0, SpendOf(s2, 0), 1);
  }

  lemma Books(s: State)
    requires BothRun(s) && RunningState(s, 0)
    ensures var s2 := SettleAct(s, 0, Costly(), 1);
            s2.acts == map[1 := Awaiting(1, 0, 0)] && SpendOf(s2, 0) == 2.0 && RunningState(s2, 0)
  {
    CostlyCost();
    assert s.acts - {0} == map[1 := Awaiting(1, 0, 0)];
  }

  lemma PausesOverBudget(s: State)
    requires s.acts == map[1 := Awaiting(1, 0, 0)] && RunningState(s, 0)
    ensures Crossed(CheckBudget(TwoSlots(), s, 0, 2.0, 1))
  {
    var c := TwoSlots();
    assert c.workers[0] in c.workers;
  }

  lemma AllCrossed(es: seq<Event>)
    requires es == Crossing()
    ensures Crossed(At(es, 3))
  {
    BothLaunched(es);
    Next(es, 2);
    assert es[2] == Settling(0, Costly(), 1);
    GoesOverBudget(At(es, 2));
    assert At(es, 3) == HandleSettled(TwoSlots(), At(es, 2), 0, Costly(), 1);
  }

  lemma BothLaunched(es: seq<Event>)
    requires es == Crossing()
    ensures BothRun(At(es, 2)) && RunningState(At(es, 2), 0)
  {
    Submits(es);
    Next(es, 1);
    assert es[1] == Ticking(0, Spawns(), 0);
    TickLaunches(At(es, 1));
  }

  lemma CostsAreFair(es: seq<Event>)
    requires es == Crossing()
    ensures FairEvents(es)
  {
    CostlyCost();
    OneCost(es, Costly());
  }

  lemma OneCost(es: seq<Event>, outcome: HandleOutcome)
    requires |es| == 3 && !es[0].Settling? && !es[1].Settling? && es[2] == Settling(0, outcome, 1)
    requires OutcomeCost(outcome) == Some(2.0)
    ensures FairEvents(es)
  {}

  lemma ThrowFrees(c: Config, es: seq<Event>)
    requires FairEvents(es) && Crossed(Run(c, es))
    ensures var s := Run(c, es);
            && 0 !in s.acts && s.acts == map[1 := Awaiting(1, 0, 0)] && InFlight(s.inFlight, 0) == 1
            && InFlight(ReleaseAgain(s, 0, 0).inFlight, 0) == 0 && !Agrees(ReleaseAgain(s, 0, 0), 0)
  {
    var s := Run(c, es);
    InterleavingFacts(c, es, 0);
    assert Holders(s.acts, 0) == {1};
    assert Agrees(s, 0);
    LateThrow(c, s, 0, 0);
  }

  /** After this run the program waits for the budget callback of a handle whose slot is
      given back. If that throws, the slot of the other task is given back while the task
      still runs: the worker counts as idle. */
  lemma ThrowFreesAnother()
    ensures var s := Run(TwoSlots(), Crossing());
            && 0 !in s.acts && s.acts == map[1 := Awaiting(1, 0, 0)] && InFlight(s.inFlight, 0) == 1
            && InFlight(ReleaseAgain(s, 0, 0).inFlight, 0) == 0 && !Agrees(ReleaseAgain(s, 0, 0), 0)
  {
    var es := Crossing();
    AllCrossed(es);
    assert es[..3] == es;
    CostsAreFair(es);
    ThrowFrees(TwoSlots(), es);
  }
}
