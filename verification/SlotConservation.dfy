/** Worker slots are conserved at every interleaving. */
module SlotConservation {
  import opened Prelude
  import opened Scheduler
  import opened Interleaving

  function Holders(acts: map<ActId, Act>, w: WorkerId): set<ActId> {
    set a | a in acts && acts[a].worker == w
  }

  /** What the slot history says about one continuation. `Broken` is a release
      that no acquisition answers for. */
  datatype Fate = Unborn | Holding(worker: WorkerId) | Freed | Lost | Broken

  function FateOf(log: History<SlotEvent>, a: ActId): Fate {
    match log
    case Start => Unborn
    case Then(past, Acquired(b, w)) =>
      if a != b then FateOf(past, a) else if FateOf(past, a).Unborn? then Holding(w) else Broken
    case Then(past, Released(b, w)) =>
      if a != b then FateOf(past, a) else if FateOf(past, a) == Holding(w) then Freed else Broken
    case Then(past, SlotsLost) =>
      if FateOf(past, a).Holding? then Lost else FateOf(past, a)
  }

  /** Slot conservation. The registry's counter is the number of continuations that
      hold a slot of the worker, never above its limit, and every continuation that
      took a slot still waits, gave it back exactly once, or died with its process. */
  ghost predicate Conserved(c: Config, s: State) {
    Counted(s) && Bounded(c, s) && Fated(s)
  }

  ghost predicate Counted(s: State) {
    forall w :: InFlight(s.inFlight, w) == |Holders(s.acts, w)|
  }

  ghost predicate Bounded(c: Config, s: State) {
    forall w {:trigger ById(c.workers, w)} ::
      ById(c.workers, w).Some? ==> InFlight(s.inFlight, w) <= ById(c.workers, w).value.maxConcurrent
  }

  ghost predicate Fated(s: State) {
    && (forall a: ActId :: a in s.acts ==> FateOf(s.slots, a) == Holding(s.acts[a].worker))
    && (forall a: ActId :: FateOf(s.slots, a).Holding? ==> a in s.acts)
    && (forall a: ActId :: FateOf(s.slots, a).Unborn? <==> a >= s.nextAct)
    && (forall a: ActId :: !FateOf(s.slots, a).Broken?)
  }

  lemma TakeFates(s: State, act: Act)
    requires Fated(s)
    ensures Fated(Take(s, act))
  {}

  lemma HoldersTaken(acts: map<ActId, Act>, a: ActId, act: Act, w: WorkerId)
    requires a !in acts
    ensures |Holders(acts[a := act], w)| == |Holders(acts, w)| + if w == act.worker then 1 else 0
  {
    var acts' := acts[a := act];
    if w == act.worker {
      assert Holders(acts', w) == Holders(acts, w) + {a};
    } else {
      assert Holders(acts', w) == Holders(acts, w);
    }
  }

  lemma TakeCounts(s: State, act: Act)
    requires Counted(s) && s.nextAct !in s.acts
    ensures Counted(Take(s, act))
  {
    var s' := Take(s, act);
    forall w ensures InFlight(s'.inFlight, w) == |Holders(s'.acts, w)| {
      HoldersTaken(s.acts, s.nextAct, act, w);
    }
  }

  lemma TakeConserves(c: Config, s: State, act: Act)
    requires Conserved(c, s) && HasCapacity(c.workers, s.inFlight, act.worker)
    ensures Conserved(c, Take(s, act))
  {
    assert FateOf(s.slots, s.nextAct).Unborn?;
    TakeCounts(s, act);
    TakeFates(s, act);
  }

  lemma ContinueConserves(c: Config, s: State, a: ActId, act: Act)
    requires Conserved(c, s) && a in s.acts && s.acts[a].worker == act.worker
    ensures Conserved(c, Continue(s, a, act))
  {
    var s' := Continue(s, a, act);
    forall w ensures InFlight(s'.inFlight, w) == |Holders(s'.acts, w)| {
      assert Holders(s'.acts, w) == Holders(s.acts, w);
    }
  }

  lemma DropConserves(c: Config, s: State, a: ActId)
    requires Conserved(c, s) && a in s.acts
    ensures Conserved(c, Drop(s, a))
  {
    var s' := Drop(s, a);
    forall w ensures InFlight(s'.inFlight, w) == |Holders(s'.acts, w)| {
      if w == s.acts[a].worker {
        assert a in Holders(s.acts, w);
        assert Holders(s'.acts, w) == Holders(s.acts, w) - {a};
      } else {
        assert Holders(s'.acts, w) == Holders(s.acts, w);
      }
    }
  }

  lemma RestartConserves(c: Config, s: State)
    requires Conserved(c, s)
    ensures Conserved(c, Restart(s))
  {
    var s' := Restart(s);
    forall w ensures InFlight(s'.inFlight, w) == |Holders(s'.acts, w)| {
      assert Holders(s'.acts, w) == {};
    }
  }

  lemma DispatchConserves(c: Config, s: State, t: TaskId, rec: Task, w: WorkerId, now: Time)
    requires Conserved(c, s)
    ensures Conserved(c, BeginDispatch(c, s, t, rec, w, now))
  {
    if HasCapacity(c.workers, s.inFlight, w) {
      TakeConserves(c, s, Briefing(t, rec, w));
      AssignConserves(c, Take(s, Briefing(t, rec, w)), s.nextAct, t, rec, w, now);
    }
  }

  lemma AssignConserves(c: Config, s: State, a: ActId, t: TaskId, rec: Task, w: WorkerId, now: Time)
    requires Conserved(c, s) && a in s.acts && s.acts[a].worker == w
    ensures Conserved(c, Assign(s, a, t, rec, w, now))
  {
    var rec' := rec.(state := Assigned(w, now), attempts := rec.attempts + 1);
    var s1 := SaveTask(s, t, rec').(work := Then(s.work, TaskAssigned(t, w, rec.attempts + 1)));
    assert SameSlots(s, s1);
    ContinueConserves(c, s1, a, Spawning(t, rec', w));
  }

  lemma BriefConserves(c: Config, s: State, a: ActId, brief: Option<string>, now: Time)
    requires Conserved(c, s)
    ensures Conserved(c, BriefLoaded(s, a, brief, now))
  {
    if a in s.acts && s.acts[a].Briefing? {
      DropConserves(c, s, a);
      var Briefing(t, rec, w) := s.acts[a];
      if brief.Some? && t in s.tasks {
        AssignConserves(c, s, a, t, s.tasks[t].(brief := brief.value), w, now);
      }
    }
  }

  lemma SpawnConserves(c: Config, s: State, a: ActId, ok: bool, now: Time)
    requires Conserved(c, s)
    ensures Conserved(c, Spawned(s, a, ok, now))
  {
    if a in s.acts && s.acts[a].Spawning? {
      DropConserves(c, s, a);
      var Spawning(t, rec, w) := s.acts[a];
      var s1 := SaveTask(s, t, rec.(state := InProgress(w, now)));
      var s2 := s1.(running := s1.running[t := RunningTask(rec.sprint, w)]);
      assert SameSlots(s, s2);
      ContinueConserves(c, s2, a, Awaiting(t, rec.sprint, w));
    }
  }

  /** A settled handle touches slots only by giving its own back. */
  lemma HandleDrops(c: Config, s: State, a: ActId, outcome: HandleOutcome, now: Time)
    requires a in s.acts && s.acts[a].Awaiting?
    ensures SameSlots(Drop(s, a), HandleSettled(c, s, a, outcome, now))
  {
    var t := s.acts[a].task;
    if t in s.tasks {
      var s2 := SettleAct(s, a, outcome, now);
      assert SameSlots(s2, CheckBudget(c, s2, s.tasks[t].sprint, SpendOf(s2, s.tasks[t].sprint), now));
    }
  }

  lemma SettleConserves(c: Config, s: State, a: ActId, outcome: HandleOutcome, now: Time)
    requires Conserved(c, s)
    ensures Conserved(c, HandleSettled(c, s, a, outcome, now))
  {
    if a in s.acts && s.acts[a].Awaiting? {
      DropConserves(c, s, a);
      HandleDrops(c, s, a, outcome, now);
    }
  }

  /** Pieces that touch no slot. */
  predicate LeavesSlots(p: Piece) {
    !p.StartDispatch? && !p.DeliverBrief? && !p.DeliverSpawn? && !p.SettleHandle? && !p.RestartProcess?
  }

  lemma LeavesSlotsSame(c: Config, s: State, p: Piece)
    requires LeavesSlots(p)
    ensures SameSlots(s, Apply(c, s, p))
  {}

  lemma ApplyConserves(c: Config, s: State, p: Piece)
    requires Conserved(c, s)
    ensures Conserved(c, Apply(c, s, p))
  {
    if LeavesSlots(p) {
      LeavesSlotsSame(c, s, p);
    } else {
      match p
      case StartDispatch(t, rec, w, now) => DispatchConserves(c, s, t, rec, w, now);
      case DeliverBrief(a, brief, now) => BriefConserves(c, s, a, brief, now);
      case DeliverSpawn(a, ok, now) => SpawnConserves(c, s, a, ok, now);
      case SettleHandle(a, outcome, now) => SettleConserves(c, s, a, outcome, now);
      case RestartProcess => RestartConserves(c, s);
    }
  }

  /** Slot conservation over every run. */
  lemma {:induction false} SlotsAlwaysConserved(c: Config, run: seq<Piece>)
    ensures Conserved(c, After(c, run))
  {
    if run == [] {
      forall w ensures InFlight(EMPTY.inFlight, w) == |Holders(EMPTY.acts, w)| {
        assert Holders(EMPTY.acts, w) == {};
      }
    } else {
      SlotsAlwaysConserved(c, run[..|run| - 1]);
      ApplyConserves(c, After(c, run[..|run| - 1]), run[|run| - 1]);
    }
  }

  /** The counter half of conservation, for one worker. */
  predicate Agrees(s: State, w: WorkerId) {
    InFlight(s.inFlight, w) == |Holders(s.acts, w)|
  }

  /** If something throws after a settled handle has given its slot back, however much
      later, the error path releases the slot a second time. The counter stays right
      exactly when no other continuation holds a slot of that worker by then. */
  lemma LateThrow(c: Config, s: State, a: ActId, w: WorkerId)
    requires Conserved(c, s) && a !in s.acts
    ensures Agrees(ReleaseAgain(s, a, w), w) <==> Holders(s.acts, w) == {}
  {
    assert Agrees(s, w);
  }

  /** The earliest such moment, right after the release. */
  lemma ImmediateThrow(c: Config, s: State, a: ActId)
    requires Conserved(c, s) && a in s.acts
    ensures var w := s.acts[a].worker;
            Agrees(ReleaseAgain(Drop(s, a), a, w), w) <==> Holders(s.acts, w) == {a}
  {
    var w := s.acts[a].worker;
    DropConserves(c, s, a);
    LateThrow(c, Drop(s, a), a, w);
    assert a in Holders(s.acts, w);
    assert Holders(Drop(s, a).acts, w) == Holders(s.acts, w) - {a};
  }
}
