/** When interleaved ticks start a task twice, and when they cannot (Level A). A task is
    started by a continuation whose spawn has begun. */
module SingleStart {
  import opened Prelude
  import opened Scheduler
  import opened Interleaving
  import SlotConservation

  /** The spawn has begun, or the task runs. */
  predicate Begun(act: Act) {
    act.Spawning? || act.Awaiting?
  }

  predicate Started(s: State, t: TaskId) {
    exists a :: a in s.acts && Begun(s.acts[a]) && s.acts[a].task == t
  }

  /** Each task is started at most once at a time. */
  predicate Single(s: State) {
    forall a, b ::
      a in s.acts && b in s.acts && Begun(s.acts[a]) && Begun(s.acts[b]) && s.acts[a].task == s.acts[b].task ==> a == b
  }

  // ----- the two steps that start something -----

  /** A dispatch starts its task at once exactly if it gets a slot and has the brief. */
  lemma DispatchStartsIff(c: Config, s: State, t: TaskId, rec: Task, w: WorkerId, now: Time)
    requires s.nextAct !in s.acts
    ensures var s' := BeginDispatch(c, s, t, rec, w, now);
            var started := s.nextAct in s'.acts && Begun(s'.acts[s.nextAct]);
            started <==> HasCapacity(c.workers, s.inFlight, w) && rec.brief != ""
  {}

  /** A brief that arrives starts its task exactly if the task is still pending in the store. */
  lemma BriefStartsIff(s: State, a: ActId, brief: Option<string>, now: Time)
    requires a in s.acts && s.acts[a].Briefing?
    ensures var s', t := BriefLoaded(s, a, brief, now), s.acts[a].task;
            a in s'.acts && Begun(s'.acts[a]) <==> brief.Some? && t in s.tasks && s.tasks[t].state.Pending?
  {}

  /** The piece starts a task that is started already. */
  predicate DoubleStart(c: Config, s: State, p: Piece) {
    match p
    case StartDispatch(t, rec, w, _) => HasCapacity(c.workers, s.inFlight, w) && rec.brief != "" && Started(s, t)
    case DeliverBrief(a, brief, _) =>
      a in s.acts && s.acts[a].Briefing? && brief.Some?
      && s.acts[a].task in s.tasks && s.tasks[s.acts[a].task].state.Pending? && Started(s, s.acts[a].task)
    case _ => false
  }

  // ----- one step -----

  /** Nothing is started; what was started keeps its task. */
  predicate StartsNothing(s: State, s': State) {
    forall a :: a in s'.acts && Begun(s'.acts[a]) ==>
      a in s.acts && Begun(s.acts[a]) && s.acts[a].task == s'.acts[a].task
  }

  /** Continuation `a`, which had started nothing, has started `t`. */
  predicate Starts(s: State, s': State, a: ActId, t: TaskId) {
    && (a in s.acts ==> !Begun(s.acts[a]))
    && a in s'.acts && Begun(s'.acts[a]) && s'.acts[a].task == t
    && s'.acts == s.acts[a := s'.acts[a]]
  }

  lemma StartsNothingSingle(s: State, s': State)
    requires Single(s) && StartsNothing(s, s')
    ensures Single(s')
  {}

  lemma StartsSingleIff(s: State, s': State, a: ActId, t: TaskId)
    requires Single(s) && Starts(s, s', a, t)
    ensures Single(s') <==> !Started(s, t)
  {
    if Started(s, t) {
      var b :| b in s.acts && Begun(s.acts[b]) && s.acts[b].task == t;
      assert b != a && s'.acts[b] == s.acts[b];
    }
  }

  lemma DispatchShape(c: Config, s: State, t: TaskId, rec: Task, w: WorkerId, now: Time)
    requires s.nextAct !in s.acts
    ensures var s' := BeginDispatch(c, s, t, rec, w, now);
            if HasCapacity(c.workers, s.inFlight, w) && rec.brief != ""
              then Starts(s, s', s.nextAct, t)
              else StartsNothing(s, s')
  {
    if HasCapacity(c.workers, s.inFlight, w) {
      TakeStartsNothing(s, Briefing(t, rec, w));
      if rec.brief != "" {
        AssignStarts(s, Take(s, Briefing(t, rec, w)), s.nextAct, t, rec, w, now);
      }
    }
  }

  lemma TakeStartsNothing(s: State, act: Act)
    requires act.Briefing?
    ensures StartsNothing(s, Take(s, act)) && Take(s, act).acts == s.acts[s.nextAct := act]
  {}

  lemma AssignStarts(s0: State, s: State, a: ActId, t: TaskId, rec: Task, w: WorkerId, now: Time)
    requires (a in s0.acts ==> !Begun(s0.acts[a])) && s.acts - {a} == s0.acts - {a}
    ensures Starts(s0, Assign(s, a, t, rec, w, now), a, t)
  {
    var s' := Assign(s, a, t, rec, w, now);
    assert s'.acts == s.acts[a := s'.acts[a]];
    assert forall b :: b != a ==> (b in s.acts <==> b in s.acts - {a}) && (b in s0.acts <==> b in s0.acts - {a});
    assert s'.acts == s0.acts[a := s'.acts[a]];
  }

  lemma BriefShape(s: State, a: ActId, brief: Option<string>, now: Time)
    ensures var s' := BriefLoaded(s, a, brief, now);
            if a in s.acts && s.acts[a].Briefing? && brief.Some? && s.acts[a].task in s.tasks
               && s.tasks[s.acts[a].task].state.Pending?
            then Starts(s, s', a, s.acts[a].task) else StartsNothing(s, s')
  {}

  lemma SpawnShape(s: State, a: ActId, ok: bool, now: Time)
    ensures StartsNothing(s, Spawned(s, a, ok, now))
  {}

  lemma HandleShape(c: Config, s: State, a: ActId, outcome: HandleOutcome, now: Time)
    ensures StartsNothing(s, HandleSettled(c, s, a, outcome, now))
  {
    if a in s.acts && s.acts[a].Awaiting? {
      SlotConservation.HandleDrops(c, s, a, outcome, now);
    }
  }

  /** Pieces that leave the continuations alone, or end them all. */
  predicate Calm(p: Piece) {
    !p.StartDispatch? && !p.DeliverBrief? && !p.DeliverSpawn? && !p.SettleHandle?
  }

  lemma CalmShape(c: Config, s: State, p: Piece)
    requires Calm(p)
    ensures StartsNothing(s, Apply(c, s, p))
  {
    if !p.RestartProcess? {
      SlotConservation.LeavesSlotsSame(c, s, p);
    }
  }

  /** A step keeps single dispatch exactly if it is no double start. */
  lemma StepSingleIff(c: Config, s: State, p: Piece)
    requires Single(s) && s.nextAct !in s.acts
    ensures Single(Apply(c, s, p)) <==> !DoubleStart(c, s, p)
  {
    var s' := Apply(c, s, p);
    if Calm(p) {
      CalmShape(c, s, p);
      StartsNothingSingle(s, s');
    } else {
      match p
      case StartDispatch(t, rec, w, now) => DispatchSingleIff(c, s, t, rec, w, now);
      case DeliverBrief(a, brief, now) => BriefSingleIff(s, a, brief, now);
      case DeliverSpawn(a, ok, now) =>
        SpawnShape(s, a, ok, now);
        StartsNothingSingle(s, s');
      case SettleHandle(a, outcome, now) =>
        HandleShape(c, s, a, outcome, now);
        StartsNothingSingle(s, s');
    }
  }

  lemma DispatchSingleIff(c: Config, s: State, t: TaskId, rec: Task, w: WorkerId, now: Time)
    requires Single(s) && s.nextAct !in s.acts
    ensures Single(BeginDispatch(c, s, t, rec, w, now))
       <==> !(HasCapacity(c.workers, s.inFlight, w) && rec.brief != "" && Started(s, t))
  {
    var s' := BeginDispatch(c, s, t, rec, w, now);
    DispatchShape(c, s, t, rec, w, now);
    if HasCapacity(c.workers, s.inFlight, w) && rec.brief != "" {
      StartsSingleIff(s, s', s.nextAct, t);
    } else {
      StartsNothingSingle(s, s');
    }
  }

  lemma BriefSingleIff(s: State, a: ActId, brief: Option<string>, now: Time)
    requires Single(s)
    ensures Single(BriefLoaded(s, a, brief, now))
       <==> !(a in s.acts && s.acts[a].Briefing? && brief.Some? && s.acts[a].task in s.tasks
              && s.tasks[s.acts[a].task].state.Pending? && Started(s, s.acts[a].task))
  {
    var s' := BriefLoaded(s, a, brief, now);
    BriefShape(s, a, brief, now);
    if a in s.acts && s.acts[a].Briefing? && brief.Some? && s.acts[a].task in s.tasks
       && s.tasks[s.acts[a].task].state.Pending?
    {
      StartsSingleIff(s, s', a, s.acts[a].task);
    } else {
      StartsNothingSingle(s, s');
    }
  }

  // ----- whole runs -----

  /** No task is started twice at a time at any point of the run. */
  predicate SingleThroughout(c: Config, run: seq<Piece>) {
    Single(After(c, run)) && (run != [] ==> SingleThroughout(c, run[..|run| - 1]))
  }

  predicate NoDoubleStart(c: Config, run: seq<Piece>) {
    run != [] ==>
      NoDoubleStart(c, run[..|run| - 1]) && !DoubleStart(c, After(c, run[..|run| - 1]), run[|run| - 1])
  }

  lemma NextIsFresh(c: Config, run: seq<Piece>)
    ensures After(c, run).nextAct !in After(c, run).acts
  {
    SlotConservation.SlotsAlwaysConserved(c, run);
    var s := After(c, run);
    assert SlotConservation.FateOf(s.slots, s.nextAct).Unborn?;
  }

  /** A run, however its ticks overlap, keeps single dispatch exactly if none of its
      pieces starts a task that is started already. */
  lemma {:induction false} SingleThroughoutIff(c: Config, run: seq<Piece>)
    ensures SingleThroughout(c, run) <==> NoDoubleStart(c, run)
  {
    if run != [] {
      var before, p := run[..|run| - 1], run[|run| - 1];
      SingleThroughoutIff(c, before);
      if SingleThroughout(c, before) {
        NextIsFresh(c, before);
        StepSingleIff(c, After(c, before), p);
      }
    }
  }

  // ----- what the store shows of a started task -----

  /** A started task is known and not pending. */
  predicate Marked(s: State, a: ActId) {
    a in s.acts && Begun(s.acts[a]) ==> s.acts[a].task in s.tasks && !s.tasks[s.acts[a].task].state.Pending?
  }

  ghost predicate AllMarked(s: State) {
    forall a: ActId :: Marked(s, a)
  }

  lemma MarkedStarted(s: State, t: TaskId)
    requires AllMarked(s) && Started(s, t)
    ensures t in s.tasks && !s.tasks[t].state.Pending?
  {
    var a :| a in s.acts && Begun(s.acts[a]) && s.acts[a].task == t;
    assert Marked(s, a);
  }

  /** The piece dispatches, with a slot and with its brief, a task that is started already. */
  predicate StaleDispatch(c: Config, s: State, p: Piece) {
    p.StartDispatch? && HasCapacity(c.workers, s.inFlight, p.worker) && p.record.brief != "" && Started(s, p.task)
  }

  /** So looking at the store again, as the path that loads a brief does, prevents a
      double start; the only pieces left are dispatches that have their brief. */
  lemma OnlyBriefedDispatches(c: Config, s: State, p: Piece)
    requires AllMarked(s)
    ensures DoubleStart(c, s, p) <==> StaleDispatch(c, s, p)
  {
    if p.DeliverBrief? && p.act in s.acts && Started(s, s.acts[p.act].task) {
      MarkedStarted(s, s.acts[p.act].task);
    }
  }

  /** No known task goes back to pending, and none disappears. */
  predicate NoneReopened(m: map<TaskId, Task>, m': map<TaskId, Task>) {
    forall t :: t in m && !m[t].state.Pending? ==> t in m' && !m'[t].state.Pending?
  }

  lemma QuietMarked(s: State, s': State, a: ActId)
    requires StartsNothing(s, s') && NoneReopened(s.tasks, s'.tasks) && Marked(s, a)
    ensures Marked(s', a)
  {}

  lemma AssignMarked(s: State, b: ActId, t: TaskId, rec: Task, w: WorkerId, now: Time, a: ActId)
    requires Marked(s, a)
    ensures Marked(Assign(s, b, t, rec, w, now), a)
  {}

  lemma DispatchMarked(c: Config, s: State, t: TaskId, rec: Task, w: WorkerId, now: Time, a: ActId)
    requires Marked(s, a) && s.nextAct !in s.acts
    ensures Marked(BeginDispatch(c, s, t, rec, w, now), a)
  {
    var s1 := Take(s, Briefing(t, rec, w));
    assert Marked(s1, a);
    AssignMarked(s1, s.nextAct, t, rec, w, now, a);
  }

  lemma DropMarked(s: State, b: ActId, a: ActId)
    requires Marked(s, a) && b in s.acts
    ensures Marked(Drop(s, b), a)
  {}

  lemma FailMarked(s: State, t: TaskId, rec: Task, a: ActId)
    requires Marked(s, a) && !rec.state.Pending?
    ensures Marked(SaveTask(s, t, rec), a)
  {}

  lemma BriefMarked(s: State, b: ActId, brief: Option<string>, now: Time, a: ActId)
    requires Marked(s, a)
    ensures Marked(BriefLoaded(s, b, brief, now), a)
  {
    if b in s.acts && s.acts[b].Briefing? {
      var Briefing(t, rec, w) := s.acts[b];
      if brief.Some? && t in s.tasks {
        AssignMarked(s, b, t, s.tasks[t].(brief := brief.value), w, now, a);
      }
      DropMarked(s, b, a);
      FailMarked(Drop(s, b), t, rec.(state := TaskFailed(now)), a);
    }
  }

  lemma SpawnMarked(s: State, b: ActId, ok: bool, now: Time, a: ActId)
    requires Marked(s, a)
    ensures Marked(Spawned(s, b, ok, now), a)
  {}

  lemma HandleMarked(c: Config, s: State, b: ActId, outcome: HandleOutcome, now: Time, a: ActId)
    requires Marked(s, a)
    ensures Marked(HandleSettled(c, s, b, outcome, now), a)
  {
    HandleShape(c, s, b, outcome, now);
    HandleReopens(c, s, b, outcome, now);
    QuietMarked(s, HandleSettled(c, s, b, outcome, now), a);
  }

  lemma HandleReopens(c: Config, s: State, b: ActId, outcome: HandleOutcome, now: Time)
    ensures NoneReopened(s.tasks, HandleSettled(c, s, b, outcome, now).tasks)
  {
    if b in s.acts && s.acts[b].Awaiting? && s.acts[b].task in s.tasks {
      HandleTasks(c, s, b, outcome, now);
      SettleReopens(Drop(s, b), s.acts[b].task, outcome, now);
    } else {
      assert HandleSettled(c, s, b, outcome, now).tasks == s.tasks;
    }
  }

  lemma HandleTasks(c: Config, s: State, b: ActId, outcome: HandleOutcome, now: Time)
    requires b in s.acts && s.acts[b].Awaiting? && s.acts[b].task in s.tasks
    ensures HandleSettled(c, s, b, outcome, now).tasks == Settle(Drop(s, b), s.acts[b].task, outcome, now).tasks
  {
    var sid, s2 := s.tasks[s.acts[b].task].sprint, SettleAct(s, b, outcome, now);
    assert SameTaskData(s2, CheckBudget(c, s2, sid, SpendOf(s2, sid), now));
  }

  lemma SettleReopens(s: State, t: TaskId, outcome: HandleOutcome, now: Time)
    requires t in s.tasks
    ensures NoneReopened(s.tasks, Settle(s, t, outcome, now).tasks)
  {
    assert !OutcomeState(outcome, now).Pending?;
  }

  lemma {:induction false} AddTasksReopens(s: State, id: SprintId, ts: seq<TaskId>, briefs: TaskId -> string,
                                           required: TaskId -> seq<string>)
    requires forall t :: t in ts ==> t !in s.tasks
    requires NoRepeat(ts)
    ensures NoneReopened(s.tasks, AddTasks(s, id, ts, briefs, required).tasks)
    decreases |ts|
  {
    if ts != [] {
      var t := ts[0];
      var s1 := s.(tasks := s.tasks[t := Task(id, briefs(t), Pending, 0, required(t))],
                 work := Then(s.work, Submitted(t)));
      assert t in ts && forall u :: u in ts[1..] ==> u in ts;
      forall u | u in ts[1..] ensures u !in s1.tasks {
        var k :| 0 <= k < |ts[1..]| && ts[1..][k] == u;
        assert ts[k + 1] == u;
      }
      AddTasksReopens(s1, id, ts[1..], briefs, required);
      assert NoneReopened(s.tasks, s1.tasks);
    }
  }

  lemma CalmReopens(c: Config, s: State, p: Piece)
    requires Calm(p) && !p.ResumeOnBoot?
    ensures NoneReopened(s.tasks, Apply(c, s, p).tasks)
  {
    match p
    case SubmitSprint(id, ts, briefs, required) =>
      if FreshIds(s, id, ts) { AddTasksReopens(s, id, ts, briefs, required); }
    case StartTick(id, now) =>
    case FailTask(t, rec, now) =>
    case EndTick(id, now) =>
    case OperatorResume(id, now) =>
    case StartCancel(id) =>
    case EndCancel(id, now) =>
    case ObserveHeaders(w, snap) =>
    case RestartProcess =>
  }

  /** `resumeAbandoned` runs when no continuation is left, as it does when the
      orchestrator is constructed. */
  predicate FreshBoot(s: State, p: Piece) {
    p.ResumeOnBoot? ==> s.acts == map[]
  }

  lemma StepMarked(c: Config, s: State, p: Piece, a: ActId)
    requires Marked(s, a) && s.nextAct !in s.acts && FreshBoot(s, p)
    ensures Marked(Apply(c, s, p), a)
  {
    if Calm(p) {
      CalmShape(c, s, p);
      if !p.ResumeOnBoot? {
        CalmReopens(c, s, p);
        QuietMarked(s, Apply(c, s, p), a);
      }
    } else {
      match p
      case StartDispatch(t, rec, w, now) => DispatchMarked(c, s, t, rec, w, now, a);
      case DeliverBrief(b, brief, now) => BriefMarked(s, b, brief, now, a);
      case DeliverSpawn(b, ok, now) => SpawnMarked(s, b, ok, now, a);
      case SettleHandle(b, outcome, now) => HandleMarked(c, s, b, outcome, now, a);
    }
  }

  predicate FreshBoots(c: Config, run: seq<Piece>) {
    run != [] ==>
      FreshBoots(c, run[..|run| - 1]) && FreshBoot(After(c, run[..|run| - 1]), run[|run| - 1])
  }

  /** Over every run a started task is never pending in the store. */
  lemma {:induction false} AlwaysMarked(c: Config, run: seq<Piece>, a: ActId)
    requires FreshBoots(c, run)
    ensures Marked(After(c, run), a)
  {
    if run != [] {
      var before := run[..|run| - 1];
      AlwaysMarked(c, before, a);
      NextIsFresh(c, before);
      StepMarked(c, After(c, before), run[|run| - 1], a);
    }
  }

  predicate NoStaleDispatch(c: Config, run: seq<Piece>) {
    run != [] ==>
      NoStaleDispatch(c, run[..|run| - 1]) && !StaleDispatch(c, After(c, run[..|run| - 1]), run[|run| - 1])
  }

  /** Single dispatch at Level A: a run keeps it exactly if no dispatch with a slot and a
      brief is of a task that is started already. */
  lemma {:induction false} SingleDispatchIff(c: Config, run: seq<Piece>)
    requires FreshBoots(c, run)
    ensures SingleThroughout(c, run) <==> NoStaleDispatch(c, run)
  {
    SingleThroughoutIff(c, run);
    NoDoubleNoStale(c, run);
  }

  lemma {:induction false} NoDoubleNoStale(c: Config, run: seq<Piece>)
    requires FreshBoots(c, run)
    ensures NoDoubleStart(c, run) <==> NoStaleDispatch(c, run)
  {
    if run != [] {
      var before := run[..|run| - 1];
      NoDoubleNoStale(c, before);
      forall a: ActId ensures Marked(After(c, before), a) { AlwaysMarked(c, before, a); }
      OnlyBriefedDispatches(c, After(c, before), run[|run| - 1]);
    }
  }

  /** A dispatch whose record is the stored one, pending as ticks require, or that has no
      brief yet. */
  predicate CurrentOrBriefless(s: State, p: Piece) {
    p.StartDispatch? ==>
      p.record.brief == "" || (p.task in s.tasks && s.tasks[p.task] == p.record && p.record.state.Pending?)
  }

  predicate AllCurrentOrBriefless(c: Config, run: seq<Piece>) {
    run != [] ==>
      AllCurrentOrBriefless(c, run[..|run| - 1]) && CurrentOrBriefless(After(c, run[..|run| - 1]), run[|run| - 1])
  }

  /** So single dispatch holds, however ticks overlap, when every dispatch carries a
      current record or has its brief still to load. */
  lemma {:induction false} CurrentRecordsSuffice(c: Config, run: seq<Piece>)
    requires FreshBoots(c, run) && AllCurrentOrBriefless(c, run)
    ensures SingleThroughout(c, run)
  {
    NoStaleWhenCurrent(c, run);
    SingleDispatchIff(c, run);
  }

  lemma {:induction false} NoStaleWhenCurrent(c: Config, run: seq<Piece>)
    requires FreshBoots(c, run) && AllCurrentOrBriefless(c, run)
    ensures NoStaleDispatch(c, run)
  {
    if run != [] {
      var before, p := run[..|run| - 1], run[|run| - 1];
      NoStaleWhenCurrent(c, before);
      if p.StartDispatch? && Started(After(c, before), p.task) {
        forall a: ActId ensures Marked(After(c, before), a) { AlwaysMarked(c, before, a); }
        MarkedStarted(After(c, before), p.task);
      }
    }
  }
}
