/** A run from the empty database in which two overlapping ticks of one sprint start a
    task twice. The first tick waits for the spawn of the sprint's first task; meanwhile
    a second tick dispatches the second one; then the first tick goes on with the record
    it had read before. */
module OverlappingTicks {
  import opened Prelude
  import opened Scheduler
  import opened Interleaving
  import opened SingleStart
  import opened SampleInputs

  /** One worker with three slots, no budget. */
  function ThreeSlots(): Config {
    Config([Worker(0, 3, false)], None, None)
  }

  /** The record of either task as it was submitted. */
  function Record(): Task {
    Task(0, "do it", Pending, 0, [])
  }

  function Overlap(): seq<Piece> {
    [SubmitSprint(0, [0, 1], Briefs(), NoNeeds()),
     StartTick(0, 0),                      // first tick: reads both tasks
     StartDispatch(0, Record(), 0, 0),     // dispatches task 0, waits for its spawn
     StartTick(0, 1),                      // second tick: reads both tasks again
     StartDispatch(1, Record(), 0, 1),     // task 0 is assigned by now; dispatches task 1
     DeliverSpawn(0, true, 2),             // the first tick's spawn is there
     StartDispatch(1, Record(), 0, 2)]     // it goes on with the record of task 1 it read
  }

  /** The state after the first `k` of `es`, which is kept a variable. */
  function At(es: seq<Piece>, k: nat): State
    requires k <= |es|
  {
    After(ThreeSlots(), es[..k])
  }

  lemma Next(es: seq<Piece>, k: nat)
    requires k < |es|
    ensures At(es, k + 1) == Apply(ThreeSlots(), At(es, k), es[k])
  {
    assert es[..k + 1][..k] == es[..k];
  }

  /** The worker has room, and is what a tick would pick. */
  predicate Roomy(s: State) {
    s.snapshots == map[] && InFlight(s.inFlight, 0) < 3
  }

  lemma RoomyPicks(s: State, now: Time)
    requires Roomy(s)
    ensures PickWorker(ThreeSlots(), s, now) == Some(0) && HasCapacity(ThreeSlots().workers, s.inFlight, 0)
  {
    var w := Worker(0, 3, false);
    assert ThreeSlots().workers == [w] && [w][1..] == [];
    assert Available([w], s.inFlight) == [0];
    assert ShouldDispatch(s.snapshots, 0, now);
  }

  /** A dispatch with the submitted record starts the task in a new continuation. */
  lemma DispatchStarts(s: State, t: TaskId, now: Time)
    requires Roomy(s)
    ensures var s' := BeginDispatch(ThreeSlots(), s, t, Record(), 0, now);
            && s.nextAct in s'.acts && s'.acts[s.nextAct].Spawning? && s'.acts[s.nextAct].task == t
            && s'.acts == s.acts[s.nextAct := s'.acts[s.nextAct]] && s'.nextAct == s.nextAct + 1
            && InFlight(s'.inFlight, 0) == InFlight(s.inFlight, 0) + 1 && s'.snapshots == map[]
            && s'.sprints == s.sprints
            && t in s'.tasks && s'.tasks[t].state.Assigned? && s'.tasks == s.tasks[t := s'.tasks[t]]
  {
    RoomyPicks(s, now);
  }

  lemma AfterSubmit(es: seq<Piece>)
    requires es == Overlap()
    ensures var s := At(es, 1);
            && s.acts == map[] && s.nextAct == 0 && s.inFlight == map[] && s.snapshots == map[]
            && s.tasks == map[0 := Record(), 1 := Record()] && s.sprints == map[0 := Sprint([0, 1], Queued)]
  {
    Next(es, 0);
    assert At(es, 0) == EMPTY;
    var s1 := EMPTY.(tasks := map[0 := Record()], work := Then(Start, Submitted(0)));
    var s2 := s1.(tasks := map[0 := Record(), 1 := Record()], work := Then(s1.work, Submitted(1)));
    assert [0, 1][1..] == [1] && [1][1..] == [];
    assert AddTasks(s1, 0, [1], Briefs(), NoNeeds()) == s2;
    assert AddTasks(EMPTY, 0, [0, 1], Briefs(), NoNeeds()) == s2;
  }

  /** Both tasks are pending and the sprint runs. */
  predicate Ready(s: State) {
    && s.acts == map[] && s.nextAct == 0 && s.inFlight == map[] && s.snapshots == map[]
    && s.tasks == map[0 := Record(), 1 := Record()]
    && 0 in s.sprints && s.sprints[0].tasks == [0, 1] && s.sprints[0].state.Running?
  }

  /** The first tick waits for the spawn of task 0; task 1 is as it was. */
  predicate OneStarted(s: State) {
    && s.acts.Keys == {0} && s.acts[0].Spawning? && s.acts[0].task == 0 && s.nextAct == 1
    && InFlight(s.inFlight, 0) == 1 && s.snapshots == map[]
    && 1 in s.tasks && s.tasks[1] == Record() && 0 in s.tasks && s.tasks[0].state.Assigned?
    && 0 in s.sprints && s.sprints[0].state.Running?
  }

  /** The second tick waits for the spawn of task 1. */
  predicate TwoStarted(s: State) {
    && s.acts.Keys == {0, 1} && s.acts[1].Spawning? && s.acts[1].task == 1 && s.nextAct == 2
    && InFlight(s.inFlight, 0) == 2 && s.snapshots == map[]
    && 1 in s.tasks && s.tasks[1].state.Assigned?
  }

  lemma FirstRead(es: seq<Piece>)
    requires es == Overlap()
    ensures Ready(At(es, 2))
  {
    AfterSubmit(es);
    Next(es, 1);
    assert SameTaskData(At(es, 1), At(es, 2)) && SameSlots(At(es, 1), At(es, 2));
  }

  lemma FirstDispatch(s: State)
    requires Ready(s)
    ensures OneStarted(BeginDispatch(ThreeSlots(), s, 0, Record(), 0, 0))
  {
    DispatchStarts(s, 0, 0);
  }

  lemma FirstWaits(es: seq<Piece>)
    requires es == Overlap()
    ensures OneStarted(At(es, 3))
  {
    FirstRead(es);
    Next(es, 2);
    assert es[2] == StartDispatch(0, Record(), 0, 0);
    FirstDispatch(At(es, 2));
    assert At(es, 3) == BeginDispatch(ThreeSlots(), At(es, 2), 0, Record(), 0, 0);
  }

  lemma TickReads(s: State)
    requires OneStarted(s)
    ensures TickHead(s, 0, 1) == (GoesOn, s)
  {}

  lemma SecondRead(es: seq<Piece>)
    requires es == Overlap()
    ensures OneStarted(At(es, 4))
  {
    FirstWaits(es);
    Next(es, 3);
    TickReads(At(es, 3));
  }

  lemma SecondDispatch(s: State)
    requires OneStarted(s)
    ensures var s' := BeginDispatch(ThreeSlots(), s, 1, Record(), 0, 1);
            TwoStarted(s') && s'.acts[0].Spawning? && s'.acts[0].task == 0
  {
    DispatchStarts(s, 1, 1);
  }

  lemma SecondWaits(es: seq<Piece>)
    requires es == Overlap()
    ensures TwoStarted(At(es, 5)) && At(es, 5).acts[0].Spawning? && At(es, 5).acts[0].task == 0
  {
    SecondRead(es);
    Next(es, 4);
    assert es[4] == StartDispatch(1, Record(), 0, 1);
    SecondDispatch(At(es, 4));
    assert At(es, 5) == BeginDispatch(ThreeSlots(), At(es, 4), 1, Record(), 0, 1);
  }

  lemma Launches(s: State)
    requires TwoStarted(s) && s.acts[0].Spawning? && s.acts[0].task == 0
    ensures TwoStarted(Spawned(s, 0, true, 2))
  {}

  lemma FirstGoesOn(es: seq<Piece>)
    requires es == Overlap()
    ensures TwoStarted(At(es, 6))
  {
    SecondWaits(es);
    Next(es, 5);
    assert es[5] == DeliverSpawn(0, true, 2);
    Launches(At(es, 5));
  }

  /** Two continuations have started task 1. */
  predicate Doubled(s: State) {
    && 1 in s.acts && s.acts[1].Spawning? && s.acts[1].task == 1
    && 2 in s.acts && s.acts[2].Spawning? && s.acts[2].task == 1
  }

  lemma LastDispatch(s: State)
    requires TwoStarted(s)
    ensures Doubled(BeginDispatch(ThreeSlots(), s, 1, Record(), 0, 2))
  {
    DispatchStarts(s, 1, 2);
  }

  /** Both ticks read the record of task 1 as pending. */
  lemma BothReadPending(es: seq<Piece>)
    requires es == Overlap()
    ensures 1 in At(es, 2).tasks && At(es, 2).tasks[1] == Record()
    ensures 1 in At(es, 4).tasks && At(es, 4).tasks[1] == Record()
  {
    FirstRead(es);
    SecondRead(es);
  }

  /** Each dispatch is to the worker a tick picks at that moment. */
  lemma EachPicked(es: seq<Piece>)
    requires es == Overlap()
    ensures PickWorker(ThreeSlots(), At(es, 2), 0) == Some(0)
    ensures PickWorker(ThreeSlots(), At(es, 4), 1) == Some(0)
    ensures PickWorker(ThreeSlots(), At(es, 6), 2) == Some(0)
  {
    FirstRead(es);
    SecondRead(es);
    FirstGoesOn(es);
    RoomyPicks(At(es, 2), 0);
    RoomyPicks(At(es, 4), 1);
    RoomyPicks(At(es, 6), 2);
  }

  lemma LastStarts(es: seq<Piece>)
    requires es == Overlap()
    ensures Doubled(At(es, 7))
  {
    FirstGoesOn(es);
    Next(es, 6);
    assert es[6] == StartDispatch(1, Record(), 0, 2);
    LastDispatch(At(es, 6));
  }

  /** At the end two continuations have started task 1. */
  lemma OverlapStartsTwice()
    ensures Doubled(After(ThreeSlots(), Overlap())) && !Single(After(ThreeSlots(), Overlap()))
  {
    var es := Overlap();
    LastStarts(es);
    assert es[..7] == es;
  }
}
