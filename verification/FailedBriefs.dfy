/** A brief that cannot be loaded. The program looks at the task again after a brief has
    loaded, but not after one has failed to: it then writes back the record that the tick
    had read, whatever a second tick has stored since. */
module FailedBriefs {
  import opened Prelude
  import opened Scheduler
  import opened Interleaving
  import opened SampleInputs
  import opened OverlappingTicks

  /** The task becomes the record that was read, as failed; handles and running entries stay,
      so one that is under way keeps its own. */
  lemma FailureWritesBack(s: State, a: ActId, now: Time)
    requires a in s.acts && s.acts[a].Briefing?
    ensures var t, rec, s' := s.acts[a].task, s.acts[a].record, BriefLoaded(s, a, None, now);
            && s'.tasks == s.tasks[t := rec.(state := TaskFailed(now))]
            && s'.running == s.running && s'.acts == s.acts - {a}
  {}

  /** The failure changes nothing but the state exactly if the record that was read is current
      but for its state. */
  lemma LosesNothingIff(s: State, a: ActId, now: Time)
    requires a in s.acts && s.acts[a].Briefing? && s.acts[a].task in s.tasks
    ensures var t, rec := s.acts[a].task, s.acts[a].record;
            BriefLoaded(s, a, None, now).tasks[t] == s.tasks[t].(state := TaskFailed(now)) <==>
              && rec.sprint == s.tasks[t].sprint && rec.brief == s.tasks[t].brief
              && rec.attempts == s.tasks[t].attempts && rec.required == s.tasks[t].required
  {
    FailureWritesBack(s, a, now);
  }

  // ----- a run in which an attempt is lost -----

  function NoBriefs(): TaskId -> string { (t: TaskId) => "" }

  /** The record of the task as it was submitted. */
  function Unbriefed(): Task {
    Task(0, "", Pending, 0, [])
  }

  function Losing(): seq<Piece> {
    [SubmitSprint(0, [0], NoBriefs(), NoNeeds()),
     StartTick(0, 0),                       // first tick: reads the task
     StartDispatch(0, Unbriefed(), 0, 0),   // waits for its brief
     StartTick(0, 1),                       // second tick: the task is still pending
     StartDispatch(0, Unbriefed(), 0, 1),   // waits for its brief too
     DeliverBrief(0, Some("do it"), 2),     // the first one is there
     DeliverSpawn(0, true, 3),              // and the task runs
     DeliverBrief(1, None, 4)]              // the second one could not be loaded
  }

  /** The sprint runs; `waiting` dispatches wait for the brief of its only task. */
  ghost predicate Waits(s: State, waiting: nat) {
    && (forall a: ActId :: a in s.acts <==> a < waiting) && s.nextAct == waiting
    && (forall a :: a in s.acts ==> s.acts[a] == Briefing(0, Unbriefed(), 0))
    && InFlight(s.inFlight, 0) == waiting && s.snapshots == map[]
    && s.tasks == map[0 := Unbriefed()] && s.running == map[]
    && 0 in s.sprints && s.sprints[0].state.Running?
  }

  lemma AfterSubmit(es: seq<Piece>)
    requires es == Losing()
    ensures var s := At(es, 1);
            && s.acts == map[] && s.nextAct == 0 && s.inFlight == map[] && s.snapshots == map[] && s.running == map[]
            && s.tasks == map[0 := Unbriefed()] && s.sprints == map[0 := Sprint([0], Queued)]
  {
    Next(es, 0);
    assert At(es, 0) == EMPTY;
    var s1 := EMPTY.(tasks := map[0 := Unbriefed()], work := Then(Start, Submitted(0)));
    assert [0][1..] == [];
    assert AddTasks(EMPTY, 0, [0], NoBriefs(), NoNeeds()) == s1;
  }

  lemma FirstReads(es: seq<Piece>)
    requires es == Losing()
    ensures Waits(At(es, 2), 0)
  {
    AfterSubmit(es);
    Next(es, 1);
    assert SameTaskData(At(es, 1), At(es, 2)) && SameSlots(At(es, 1), At(es, 2));
  }

  lemma Asks(s: State, n: nat, now: Time)
    requires Waits(s, n) && n < 3
    ensures Waits(BeginDispatch(ThreeSlots(), s, 0, Unbriefed(), 0, now), n + 1)
    ensures PickWorker(ThreeSlots(), s, now) == Some(0)
  {
    RoomyPicks(s, now);
    var s' := BeginDispatch(ThreeSlots(), s, 0, Unbriefed(), 0, now);
    assert s'.acts == s.acts[n := Briefing(0, Unbriefed(), 0)];
  }

  lemma ReadsAgain(s: State, now: Time)
    requires Waits(s, 1)
    ensures TickHead(s, 0, now) == (GoesOn, s)
  {}

  lemma FirstWaits(es: seq<Piece>)
    requires es == Losing()
    ensures Waits(At(es, 3), 1)
  {
    FirstReads(es);
    Next(es, 2);
    assert es[2] == StartDispatch(0, Unbriefed(), 0, 0);
    Asks(At(es, 2), 0, 0);
  }

  lemma SecondReads(es: seq<Piece>)
    requires es == Losing()
    ensures Waits(At(es, 4), 1)
  {
    FirstWaits(es);
    Next(es, 3);
    assert es[3] == StartTick(0, 1);
    ReadsAgain(At(es, 3), 1);
  }

  lemma BothWait(es: seq<Piece>)
    requires es == Losing()
    ensures Waits(At(es, 5), 2)
  {
    SecondReads(es);
    Next(es, 4);
    assert es[4] == StartDispatch(0, Unbriefed(), 0, 1);
    Asks(At(es, 4), 1, 1);
  }

  /** The task runs in its first attempt, while another dispatch waits for its brief. */
  predicate RunsOnce(s: State) {
    && 0 in s.acts && s.acts[0].Awaiting? && s.acts[0].task == 0 && 0 in s.running
    && 1 in s.acts && s.acts[1] == Briefing(0, Unbriefed(), 0)
    && 0 in s.tasks && s.tasks[0].state.InProgress? && s.tasks[0].attempts == 1
  }

  /** The task waits for its spawn, while the other dispatch waits for its brief. */
  predicate SpawnsOnce(s: State) {
    && 0 in s.acts && s.acts[0].Spawning? && s.acts[0].task == 0 && s.acts[0].record.attempts == 1
    && 1 in s.acts && s.acts[1] == Briefing(0, Unbriefed(), 0)
  }

  lemma Loads(s: State)
    requires Waits(s, 2)
    ensures SpawnsOnce(BriefLoaded(s, 0, Some("do it"), 2))
  {}

  lemma Starts(s: State)
    requires SpawnsOnce(s)
    ensures RunsOnce(Spawned(s, 0, true, 3))
  {}

  lemma TaskSpawns(es: seq<Piece>)
    requires es == Losing()
    ensures SpawnsOnce(At(es, 6))
  {
    BothWait(es);
    Next(es, 5);
    assert es[5] == DeliverBrief(0, Some("do it"), 2);
    Loads(At(es, 5));
  }

  lemma TaskRuns(es: seq<Piece>)
    requires es == Losing()
    ensures RunsOnce(At(es, 7))
  {
    TaskSpawns(es);
    Next(es, 6);
    assert es[6] == DeliverSpawn(0, true, 3);
    Starts(At(es, 6));
  }

  /** At the end the task is stored as failed and never attempted, while its handle is awaited. */
  lemma FailedWhileRunning()
    ensures var s := After(ThreeSlots(), Losing());
            && 0 in s.tasks && s.tasks[0] == Task(0, "", TaskFailed(4), 0, [])
            && 0 in s.running && 0 in s.acts && s.acts[0].Awaiting? && s.acts[0].task == 0
  {
    var es := Losing();
    TaskRuns(es);
    Next(es, 7);
    FailureWritesBack(At(es, 7), 1, 4);
    assert es[..8] == es;
  }
}
