/** Level B: a tick runs to completion before the next event. What a tick awaits
    (briefs, spawns) is answered by an arbitrary `Choice` per task. Every run at
    this level is a run of Interleaving, so all that is proved there holds here. */
module SprintTicks {
  import opened Prelude
  import opened Scheduler
  import opened Interleaving
  import SlotConservation
  import SprintHistory
  import RuntimeRecords

  /** What a dispatch gets from outside: the brief, and whether the spawn succeeds. */
  datatype Choice = Choice(brief: Option<string>, spawned: bool)

  /** `dispatch` from start to end. */
  function Dispatch(c: Config, s: State, t: TaskId, rec: Task, w: WorkerId, ch: Choice, now: Time): State {
    var a := s.nextAct;
    Spawned(BriefLoaded(BeginDispatch(c, s, t, rec, w, now), a, ch.brief, now), a, ch.spawned, now)
  }

  /** The dispatch loop of `tick`, over the task records `snap` read before it. */
  function DispatchAll(c: Config, s: State, ts: seq<TaskId>, snap: map<TaskId, Task>, w: WorkerId,
                       env: TaskId -> Choice, now: Time): State
    decreases |ts|
  {
    if ts == [] then s
    else
      var t := ts[0];
      if t !in snap || !snap[t].state.Pending? then DispatchAll(c, s, ts[1..], snap, w, env, now)
      else if Missing(c, snap[t]) then DispatchAll(c, BlockTask(s, t, snap[t], now), ts[1..], snap, w, env, now)
      else
        var s1 := Dispatch(c, s, t, snap[t], w, env(t), now);
        var next := PickWorker(c, s1, now);
        if next.None? then s1 else DispatchAll(c, s1, ts[1..], snap, next.value, env, now)
  }

  function TickBody(c: Config, s: State, id: SprintId, env: TaskId -> Choice, now: Time): State {
    var w := PickWorker(c, s, now);
    if w.None? || id !in s.sprints then s
    else DispatchAll(c, s, s.sprints[id].tasks, s.tasks, w.value, env, now)
  }

  /** `tick`; false when it throws. */
  function Tick(c: Config, s: State, id: SprintId, env: TaskId -> Choice, now: Time): (bool, State) {
    var (head, s1) := TickHead(s, id, now);
    if head.GoesOn? then TickTail(c, TickBody(c, s1, id, env, now), id, now) else (head.Stops?, s1)
  }

  datatype Event =
    | Submitting(id: SprintId, tasks: seq<TaskId>, briefs: TaskId -> string, required: TaskId -> seq<string>)
    | Ticking(id: SprintId, env: TaskId -> Choice, now: Time)
    | Settling(act: ActId, outcome: HandleOutcome, now: Time)
    | Resuming(id: SprintId, now: Time)
    | Cancelling(id: SprintId, now: Time)
    | Observing(worker: WorkerId, snapshot: Snapshot)
    | Restarting
    | Booting(ids: seq<SprintId>)

  function Do(c: Config, s: State, e: Event): State {
    match e
    case Submitting(id, tasks, briefs, required) => Submit(s, id, tasks, briefs, required)
    case Ticking(id, env, now) => Tick(c, s, id, env, now).1
    case Settling(a, outcome, now) => HandleSettled(c, s, a, outcome, now)
    case Resuming(id, now) => Resume(s, id, false, now).1
    case Cancelling(id, now) => FinishCancel(s, id, now).1
    case Observing(w, snap) => Observe(s, w, snap)
    case Restarting => Restart(s)
    case Booting(ids) => ResumeAbandoned(s, ids)
  }

  function Run(c: Config, es: seq<Event>): State {
    if es == [] then EMPTY else Do(c, Run(c, es[..|es| - 1]), es[|es| - 1])
  }

  lemma RunLast(c: Config, es: seq<Event>, e: Event)
    ensures Run(c, es + [e]) == Do(c, Run(c, es), e)
  {
    assert (es + [e])[..|es|] == es;
  }

  lemma RunSnoc(c: Config, es: seq<Event>, more: seq<Event>)
    requires more != []
    ensures var n := |more| - 1; Run(c, es + more) == Do(c, Run(c, es + more[..n]), more[n])
  {
    var n := |more| - 1;
    var front, last := es + more[..n], more[n];
    assert es + more == front + [last];
    RunLast(c, front, last);
  }

  // ----- every run here is an interleaving -----

  function From(c: Config, s: State, ps: seq<Piece>): State
    decreases |ps|
  {
    if ps == [] then s else From(c, Apply(c, s, ps[0]), ps[1..])
  }

  lemma {:induction false} FromAppend(c: Config, s: State, ps: seq<Piece>, qs: seq<Piece>)
    ensures From(c, s, ps + qs) == From(c, From(c, s, ps), qs)
    decreases |ps|
  {
    if ps == [] {
      assert ps + qs == qs;
    } else {
      assert (ps + qs)[1..] == ps[1..] + qs;
      FromAppend(c, Apply(c, s, ps[0]), ps[1..], qs);
    }
  }

  lemma {:induction false} AfterFrom(c: Config, run: seq<Piece>)
    ensures After(c, run) == From(c, EMPTY, run)
  {
    if run != [] {
      var n := |run| - 1;
      AfterFrom(c, run[..n]);
      FromAppend(c, EMPTY, run[..n], [run[n]]);
      assert run[..n] + [run[n]] == run;
      assert From(c, After(c, run[..n]), [run[n]]) == Apply(c, After(c, run[..n]), run[n]);
    }
  }

  function DispatchPieces(s: State, t: TaskId, rec: Task, w: WorkerId, ch: Choice, now: Time): seq<Piece> {
    [StartDispatch(t, rec, w, now), DeliverBrief(s.nextAct, ch.brief, now), DeliverSpawn(s.nextAct, ch.spawned, now)]
  }

  function AllPieces(c: Config, s: State, ts: seq<TaskId>, snap: map<TaskId, Task>, w: WorkerId,
                     env: TaskId -> Choice, now: Time): seq<Piece>
    decreases |ts|
  {
    if ts == [] then []
    else
      var t := ts[0];
      if t !in snap || !snap[t].state.Pending? then AllPieces(c, s, ts[1..], snap, w, env, now)
      else if Missing(c, snap[t]) then
        [FailTask(t, snap[t], now)] + AllPieces(c, BlockTask(s, t, snap[t], now), ts[1..], snap, w, env, now)
      else
        var s1 := Dispatch(c, s, t, snap[t], w, env(t), now);
        var next := PickWorker(c, s1, now);
        DispatchPieces(s, t, snap[t], w, env(t), now)
        + if next.None? then [] else AllPieces(c, s1, ts[1..], snap, next.value, env, now)
  }

  function BodyPieces(c: Config, s: State, id: SprintId, env: TaskId -> Choice, now: Time): seq<Piece> {
    var w := PickWorker(c, s, now);
    if w.None? || id !in s.sprints then [] else AllPieces(c, s, s.sprints[id].tasks, s.tasks, w.value, env, now)
  }

  function TickPieces(c: Config, s: State, id: SprintId, env: TaskId -> Choice, now: Time): seq<Piece> {
    var (head, s1) := TickHead(s, id, now);
    [StartTick(id, now)] + if !head.GoesOn? then [] else BodyPieces(c, s1, id, env, now) + [EndTick(id, now)]
  }

  function Pieces(c: Config, s: State, e: Event): seq<Piece> {
    match e
    case Submitting(id, tasks, briefs, required) => [SubmitSprint(id, tasks, briefs, required)]
    case Ticking(id, env, now) => TickPieces(c, s, id, env, now)
    case Settling(a, outcome, now) => [SettleHandle(a, outcome, now)]
    case Resuming(id, now) => [OperatorResume(id, now)]
    case Cancelling(id, now) => [EndCancel(id, now)]
    case Observing(w, snap) => [ObserveHeaders(w, snap)]
    case Restarting => [RestartProcess]
    case Booting(ids) => [ResumeOnBoot(ids)]
  }

  lemma FromOne(c: Config, s: State, p: Piece)
    ensures From(c, s, [p]) == Apply(c, s, p)
  {}

  lemma FromCons(c: Config, s: State, p: Piece, ps: seq<Piece>)
    ensures From(c, s, [p] + ps) == From(c, Apply(c, s, p), ps)
  {
    assert ([p] + ps)[1..] == ps;
  }

  lemma DispatchFrom(c: Config, s: State, t: TaskId, rec: Task, w: WorkerId, ch: Choice, now: Time)
    ensures From(c, s, DispatchPieces(s, t, rec, w, ch, now)) == Dispatch(c, s, t, rec, w, ch, now)
  {
    var p, q := StartDispatch(t, rec, w, now), DeliverBrief(s.nextAct, ch.brief, now);
    var r := DeliverSpawn(s.nextAct, ch.spawned, now);
    var s1 := Apply(c, s, p);
    FromOne(c, Apply(c, s1, q), r);
    FromCons(c, s1, q, [r]);
    FromCons(c, s, p, [q, r]);
    assert DispatchPieces(s, t, rec, w, ch, now) == [p] + [q, r];
    assert [q, r] == [q] + [r];
  }

  lemma {:induction false} AllFrom(c: Config, s: State, ts: seq<TaskId>, snap: map<TaskId, Task>, w: WorkerId,
                                   env: TaskId -> Choice, now: Time)
    ensures From(c, s, AllPieces(c, s, ts, snap, w, env, now)) == DispatchAll(c, s, ts, snap, w, env, now)
    decreases |ts|
  {
    if ts != [] {
      var t := ts[0];
      if t !in snap || !snap[t].state.Pending? {
        AllFrom(c, s, ts[1..], snap, w, env, now);
      } else if Missing(c, snap[t]) {
        var s1 := BlockTask(s, t, snap[t], now);
        AllFrom(c, s1, ts[1..], snap, w, env, now);
        FromCons(c, s, FailTask(t, snap[t], now), AllPieces(c, s1, ts[1..], snap, w, env, now));
      } else {
        var s1 := Dispatch(c, s, t, snap[t], w, env(t), now);
        var next := PickWorker(c, s1, now);
        DispatchFrom(c, s, t, snap[t], w, env(t), now);
        if next.None? {
          assert AllPieces(c, s, ts, snap, w, env, now) == DispatchPieces(s, t, snap[t], w, env(t), now);
        } else {
          AllFrom(c, s1, ts[1..], snap, next.value, env, now);
          FromAppend(c, s, DispatchPieces(s, t, snap[t], w, env(t), now),
                     AllPieces(c, s1, ts[1..], snap, next.value, env, now));
        }
      }
    }
  }

  lemma BodyFrom(c: Config, s: State, id: SprintId, env: TaskId -> Choice, now: Time)
    ensures From(c, s, BodyPieces(c, s, id, env, now)) == TickBody(c, s, id, env, now)
  {
    var w := PickWorker(c, s, now);
    if w.Some? && id in s.sprints {
      AllFrom(c, s, s.sprints[id].tasks, s.tasks, w.value, env, now);
    }
  }

  lemma TickFrom(c: Config, s: State, id: SprintId, env: TaskId -> Choice, now: Time)
    ensures From(c, s, TickPieces(c, s, id, env, now)) == Tick(c, s, id, env, now).1
  {
    var (head, s1) := TickHead(s, id, now);
    var end := EndTick(id, now);
    if !head.GoesOn? {
      FromOne(c, s, StartTick(id, now));
    } else {
      var mid := BodyPieces(c, s1, id, env, now);
      BodyFrom(c, s1, id, env, now);
      var s2 := TickBody(c, s1, id, env, now);
      FromAppend(c, s1, mid, [end]);
      FromOne(c, s2, end);
      FromCons(c, s, StartTick(id, now), mid + [end]);
    }
  }

  lemma DoFrom(c: Config, s: State, e: Event)
    ensures From(c, s, Pieces(c, s, e)) == Do(c, s, e)
  {
    if e.Ticking? {
      TickFrom(c, s, e.id, e.env, e.now);
    } else {
      FromOne(c, s, Pieces(c, s, e)[0]);
    }
  }

  function AsPieces(c: Config, es: seq<Event>): seq<Piece> {
    if es == [] then []
    else
      var before := es[..|es| - 1];
      AsPieces(c, before) + Pieces(c, Run(c, before), es[|es| - 1])
  }

  /** A run of whole ticks is one particular interleaving. */
  lemma {:induction false} RunIsInterleaving(c: Config, es: seq<Event>)
    ensures Run(c, es) == After(c, AsPieces(c, es))
  {
    if es != [] {
      var before, e := es[..|es| - 1], es[|es| - 1];
      RunIsInterleaving(c, before);
      AfterFrom(c, AsPieces(c, before));
      AfterFrom(c, AsPieces(c, es));
      FromAppend(c, EMPTY, AsPieces(c, before), Pieces(c, Run(c, before), e));
      DoFrom(c, Run(c, before), e);
    }
  }

  predicate FairEvents(es: seq<Event>) {
    forall k :: 0 <= k < |es| && es[k].Settling? ==> RuntimeRecords.NonNegative(es[k].outcome)
  }

  lemma {:induction false} AllPiecesFair(c: Config, s: State, ts: seq<TaskId>, snap: map<TaskId, Task>, w: WorkerId,
                                         env: TaskId -> Choice, now: Time)
    ensures RuntimeRecords.FairCosts(AllPieces(c, s, ts, snap, w, env, now))
    decreases |ts|
  {
    if ts != [] {
      var t := ts[0];
      if t !in snap || !snap[t].state.Pending? {
        AllPiecesFair(c, s, ts[1..], snap, w, env, now);
      } else if Missing(c, snap[t]) {
        AllPiecesFair(c, BlockTask(s, t, snap[t], now), ts[1..], snap, w, env, now);
      } else {
        var s1 := Dispatch(c, s, t, snap[t], w, env(t), now);
        var next := PickWorker(c, s1, now);
        if next.Some? {
          AllPiecesFair(c, s1, ts[1..], snap, next.value, env, now);
        }
      }
    }
  }

  lemma PiecesFair(c: Config, s: State, e: Event)
    requires e.Settling? ==> RuntimeRecords.NonNegative(e.outcome)
    ensures RuntimeRecords.FairCosts(Pieces(c, s, e))
  {
    if e.Ticking? {
      var s1 := TickHead(s, e.id, e.now).1;
      var w := PickWorker(c, s1, e.now);
      if w.Some? && e.id in s1.sprints {
        AllPiecesFair(c, s1, s1.sprints[e.id].tasks, s1.tasks, w.value, e.env, e.now);
      }
    }
  }

  lemma {:induction false} RunFair(c: Config, es: seq<Event>)
    requires FairEvents(es)
    ensures RuntimeRecords.FairCosts(AsPieces(c, es))
  {
    if es != [] {
      var before, e := es[..|es| - 1], es[|es| - 1];
      RunFair(c, before);
      PiecesFair(c, Run(c, before), e);
    }
  }

  /** What holds at every interleaving holds after every run of whole ticks. */
  lemma InterleavingFacts(c: Config, es: seq<Event>, id: SprintId)
    requires FairEvents(es)
    ensures SlotConservation.Conserved(c, Run(c, es))
    ensures SprintHistory.Told(Run(c, es), id)
    ensures RuntimeRecords.Recorded(Run(c, es), id)
  {
    var run := AsPieces(c, es);
    RunIsInterleaving(c, es);
    RunFair(c, es);
    SlotConservation.SlotsAlwaysConserved(c, run);
    SprintHistory.AlwaysTold(c, run, id);
    RuntimeRecords.AlwaysRecorded(c, run, id);
  }
}
