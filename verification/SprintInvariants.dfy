/** What every event of a Level B run keeps: live handles and running tasks match,
    each task belongs to its sprint, attempts and outcomes are what the history says. */
module SprintInvariants {
  import opened Prelude
  import opened Scheduler
  import opened SprintTicks

  // ----- what the history says about a task -----

  function Assignments(work: History<Work>, t: TaskId): nat {
    match work
    case Start => 0
    case Then(past, e) => Assignments(past, t) + if e.TaskAssigned? && e.task == t then 1 else 0
  }

  function Resets(work: History<Work>, t: TaskId): nat {
    match work
    case Start => 0
    case Then(past, e) => Resets(past, t) + if e == Reset(t) then 1 else 0
  }

  /** How the newest run of the task returned; None while nothing of it has returned. */
  function Verdict(work: History<Work>, t: TaskId): Option<HandleOutcome> {
    match work
    case Start => None
    case Then(past, e) =>
      if e.task != t then Verdict(past, t) else if e.Returned? then Some(e.outcome) else None
  }

  // ----- the invariant, one element at a time -----

  /** A continuation waits for the handle of a task that is in progress on its worker. */
  predicate ActOk(s: State, a: ActId) {
    a in s.acts ==>
      && a < s.nextAct
      && s.acts[a].Awaiting?
      && var Awaiting(t, id, w) := s.acts[a];
         && t in s.tasks && s.tasks[t].sprint == id
         && s.tasks[t].state.InProgress? && s.tasks[t].state.worker == w
         && t in s.running && s.running[t] == RunningTask(id, w)
  }

  /** A running entry has a continuation that waits for its handle. */
  predicate EntryOk(s: State, t: TaskId) {
    t in s.running ==> exists a :: a in s.acts && s.acts[a].task == t
  }

  /** No task is dispatched twice at a time. */
  predicate Unshared(s: State, a: ActId, b: ActId) {
    a in s.acts && b in s.acts && s.acts[a].task == s.acts[b].task ==> a == b
  }

  predicate AttemptsOk(rec: Task, assignments: nat, resets: nat) {
    && rec.attempts == assignments <= resets + 1
    && (rec.state.Pending? ==> assignments == resets)
    && (rec.state.InProgress? ==> assignments == resets + 1)
  }

  predicate TaskOk(s: State, t: TaskId) {
    if t !in s.tasks then Assignments(s.work, t) == Resets(s.work, t) == 0 && t !in s.running
    else
      var rec := s.tasks[t];
      && !rec.state.Assigned?
      && AttemptsOk(rec, Assignments(s.work, t), Resets(s.work, t))
      && (t in s.running ==> rec.state.InProgress? && s.running[t].sprint == rec.sprint)
      && VerdictOk(rec.state, Verdict(s.work, t))
  }

  /** A task is done or cancelled only by a run of it that returned, and as long as nothing
      else has happened to it since, its state is what that run's outcome says. */
  predicate VerdictOk(state: TaskState, v: Option<HandleOutcome>) {
    && (state.Done? || state.TaskCancelled? ==> v.Some?)
    && (v.Some? ==> state.Settled() && OutcomeState(v.value, state.at) == state)
  }

  /** The task is on the list of its own sprint. */
  predicate Listed(s: State, t: TaskId) {
    t in s.tasks ==> s.tasks[t].sprint in s.sprints && t in s.sprints[s.tasks[t].sprint].tasks
  }

  /** A sprint's tasks are its own, each listed once. */
  predicate Owns(s: State, id: SprintId) {
    id in s.sprints ==>
      var ts := s.sprints[id].tasks;
      NoRepeat(ts) && forall t :: t in ts ==> t in s.tasks && s.tasks[t].sprint == id
  }

  predicate AllDone(s: State, ts: seq<TaskId>) {
    forall t :: t in ts ==> t in s.tasks && s.tasks[t].state.Done?
  }

  predicate AllSettled(s: State, ts: seq<TaskId>) {
    forall t :: t in ts ==> t in s.tasks && s.tasks[t].state.Settled()
  }

  predicate NoneRunning(s: State, ts: seq<TaskId>) {
    forall t :: t in ts ==> t !in s.running
  }

  /** What the state of a sprint says about its tasks. */
  predicate StateOk(s: State, id: SprintId) {
    id in s.sprints ==>
      var Sprint(ts, state) := s.sprints[id];
      && !state.Planning?
      && (state.Completed? ==> AllDone(s, ts) && state.prs == Prs(s, ts))
      && (state.Failed? ==> AllSettled(s, ts) && !AllDone(s, ts))
      && (state.Queued? || (state.Paused? && state.reason.RateCapped?) ==> NoneRunning(s, ts))
  }

  ghost predicate Inv(s: State) {
    && (forall a: ActId :: ActOk(s, a))
    && (forall a: ActId, b: ActId :: Unshared(s, a, b))
    && (forall t: TaskId :: EntryOk(s, t))
    && (forall t: TaskId :: TaskOk(s, t))
    && (forall t: TaskId :: Listed(s, t))
    && (forall id: SprintId :: Owns(s, id))
    && (forall id: SprintId :: StateOk(s, id))
  }

  // ----- the effects a piece can have on tasks -----

  predicate SameWork(s: State, s': State) {
    s'.tasks == s.tasks && s'.acts == s.acts && s'.running == s.running && s'.nextAct == s.nextAct && s'.work == s.work
  }

  /** Only the state of sprint `id` may differ. */
  predicate OnlyState(s: State, s': State, id: SprintId) {
    && s'.sprints.Keys == s.sprints.Keys
    && (forall i :: i in s.sprints ==> s'.sprints[i].tasks == s.sprints[i].tasks)
    && (forall i :: i in s.sprints && i != id ==> s'.sprints[i] == s.sprints[i])
  }

  /** A pending task failed without being launched. */
  predicate Refused(s: State, s': State, t: TaskId, w: WorkerId) {
    && t in s.tasks && s.tasks[t].state.Pending?
    && SameSprints(s, s') && SameMoney(s, s')
    && s'.acts == s.acts && s'.running == s.running && s'.nextAct >= s.nextAct && s'.snapshots == s.snapshots
    && t in s'.tasks && s'.tasks == s.tasks[t := s'.tasks[t]]
    && s'.tasks[t].state.TaskFailed?
    && s'.tasks[t].sprint == s.tasks[t].sprint && s'.tasks[t].required == s.tasks[t].required
    && (|| (s'.work == s.work && s'.tasks[t].attempts == s.tasks[t].attempts)
        || (s'.work == Then(s.work, TaskAssigned(t, w, s.tasks[t].attempts + 1))
            && s'.tasks[t].attempts == s.tasks[t].attempts + 1))
  }

  /** A pending task is in progress on `w`, and a new continuation waits for it. */
  predicate Launched(s: State, s': State, t: TaskId, w: WorkerId) {
    && t in s.tasks && s.tasks[t].state.Pending?
    && SameSprints(s, s') && SameMoney(s, s')
    && s'.snapshots == s.snapshots
    && s'.acts == s.acts[s.nextAct := Awaiting(t, s.tasks[t].sprint, w)] && s'.nextAct == s.nextAct + 1
    && s'.running == s.running[t := RunningTask(s.tasks[t].sprint, w)]
    && t in s'.tasks && s'.tasks == s.tasks[t := s'.tasks[t]]
    && s'.tasks[t].state.InProgress? && s'.tasks[t].state.worker == w
    && s'.tasks[t].sprint == s.tasks[t].sprint && s'.tasks[t].required == s.tasks[t].required
    && s'.work == Then(s.work, TaskAssigned(t, w, s.tasks[t].attempts + 1))
    && s'.tasks[t].attempts == s.tasks[t].attempts + 1
  }

  lemma BlockRefuses(s: State, t: TaskId, now: Time, w: WorkerId)
    requires t in s.tasks && s.tasks[t].state.Pending?
    ensures Refused(s, BlockTask(s, t, s.tasks[t], now), t, w)
  {}

  /** The task has been assigned and its spawn is awaited. */
  predicate Given(s: State, s': State, t: TaskId, rec: Task, w: WorkerId) {
    && SameSprints(s, s') && SameMoney(s, s')
    && s'.snapshots == s.snapshots && s'.running == s.running
    && s'.tasks == s.tasks[t := rec]
    && s'.acts == s.acts[s.nextAct := Spawning(t, rec, w)] && s'.nextAct == s.nextAct + 1
    && s'.work == Then(s.work, TaskAssigned(t, w, rec.attempts))
  }

  lemma AssignGives(s: State, t: TaskId, rec: Task, w: WorkerId, now: Time)
    ensures Given(s, Assign(Take(s, Briefing(t, rec, w)), s.nextAct, t, rec, w, now), t,
                  rec.(state := Assigned(w, now), attempts := rec.attempts + 1), w)
  {}

  lemma AssignGivesBrief(s: State, t: TaskId, rec: Task, brief: string, w: WorkerId, now: Time)
    ensures Given(s, Assign(Take(s, Briefing(t, rec, w)), s.nextAct, t, rec.(brief := brief), w, now), t,
                  rec.(brief := brief, state := Assigned(w, now), attempts := rec.attempts + 1), w)
  {}

  lemma SpawnLaunches(s: State, s1: State, t: TaskId, rec: Task, w: WorkerId, now: Time)
    requires t in s.tasks && s.tasks[t].state.Pending? && Given(s, s1, t, rec, w)
    requires rec.sprint == s.tasks[t].sprint && rec.required == s.tasks[t].required
    requires rec.attempts == s.tasks[t].attempts + 1
    ensures Launched(s, Spawned(s1, s.nextAct, true, now), t, w)
  {
    var a, s' := s.nextAct, Spawned(s1, s.nextAct, true, now);
    assert s' == Launch(s1, a, t, rec, w, now);
    assert s'.acts == s.acts[a := Awaiting(t, rec.sprint, w)];
    assert s'.tasks == s.tasks[t := rec.(state := InProgress(w, now))];
  }

  lemma SpawnRefuses(s: State, s1: State, t: TaskId, rec: Task, w: WorkerId, now: Time)
    requires t in s.tasks && s.tasks[t].state.Pending? && s.nextAct !in s.acts && Given(s, s1, t, rec, w)
    requires rec.sprint == s.tasks[t].sprint && rec.required == s.tasks[t].required
    requires rec.attempts == s.tasks[t].attempts + 1
    ensures Refused(s, Spawned(s1, s.nextAct, false, now), t, w)
  {
    var a, s' := s.nextAct, Spawned(s1, s.nextAct, false, now);
    assert s'.acts == s.acts;
    assert s'.tasks == s.tasks[t := rec.(state := TaskFailed(now))];
  }

  lemma BriefCases(s: State, t: TaskId, w: WorkerId, brief: Option<string>, now: Time)
    requires t in s.tasks && s.tasks[t].state.Pending? && s.nextAct !in s.acts
    ensures var s' := BriefLoaded(Take(s, Briefing(t, s.tasks[t], w)), s.nextAct, brief, now);
            if brief.None? then Refused(s, s', t, w) && s.nextAct !in s'.acts
            else Given(s, s', t, s.tasks[t].(brief := brief.value,
              state := Assigned(w, now), attempts := s.tasks[t].attempts + 1), w)
  {
    var rec, a, s1 := s.tasks[t], s.nextAct, Take(s, Briefing(t, s.tasks[t], w));
    var s' := BriefLoaded(s1, a, brief, now);
    if brief.None? {
      assert s' == SaveTask(Drop(s1, a), t, rec.(state := TaskFailed(now)));
      assert s'.acts == s.acts;
    } else {
      assert s' == Assign(s1, a, t, rec.(brief := brief.value), w, now);
      AssignGivesBrief(s, t, rec, brief.value, w, now);
    }
  }

  /** The brief is there or will be loaded. */
  predicate Briefed(rec: Task, ch: Choice) {
    rec.brief != "" || ch.brief.Some?
  }

  /** A whole dispatch launches the task when the brief loads and the spawn succeeds,
      and fails it otherwise. */
  lemma DispatchCases(c: Config, s: State, t: TaskId, w: WorkerId, ch: Choice, now: Time)
    requires t in s.tasks && s.tasks[t].state.Pending? && s.nextAct !in s.acts
    requires HasCapacity(c.workers, s.inFlight, w)
    ensures var s' := Dispatch(c, s, t, s.tasks[t], w, ch, now);
            if Briefed(s.tasks[t], ch) && ch.spawned then Launched(s, s', t, w) else Refused(s, s', t, w)
  {
    var rec, a := s.tasks[t], s.nextAct;
    var taken := Take(s, Briefing(t, rec, w));
    var s1 := BeginDispatch(c, s, t, rec, w, now);
    var s2 := BriefLoaded(s1, a, ch.brief, now);
    if rec.brief == "" {
      assert s1 == taken;
      BriefCases(s, t, w, ch.brief, now);
      if ch.brief.Some? {
        SpawnEither(s, s2, t, rec.(brief := ch.brief.value, state := Assigned(w, now), attempts := rec.attempts + 1), w,
                    ch.spawned, now);
      } else {
        assert Spawned(s2, a, ch.spawned, now) == s2;
      }
    } else {
      assert s1 == Assign(taken, a, t, rec, w, now);
      AssignGives(s, t, rec, w, now);
      assert s2 == s1;
      SpawnEither(s, s1, t, rec.(state := Assigned(w, now), attempts := rec.attempts + 1), w, ch.spawned, now);
    }
  }

  lemma SpawnEither(s: State, s1: State, t: TaskId, rec: Task, w: WorkerId, ok: bool, now: Time)
    requires t in s.tasks && s.tasks[t].state.Pending? && s.nextAct !in s.acts && Given(s, s1, t, rec, w)
    requires rec.sprint == s.tasks[t].sprint && rec.required == s.tasks[t].required
    requires rec.attempts == s.tasks[t].attempts + 1
    ensures var s' := Spawned(s1, s.nextAct, ok, now);
            if ok then Launched(s, s', t, w) else Refused(s, s', t, w)
  {
    if ok {
      SpawnLaunches(s, s1, t, rec, w, now);
    } else {
      SpawnRefuses(s, s1, t, rec, w, now);
    }
  }

  /** A whole dispatch leaves one more slot of `w` taken if it launched the task, and
      every counter as it was otherwise. */
  lemma DispatchCounts(c: Config, s: State, t: TaskId, w: WorkerId, ch: Choice, now: Time, v: WorkerId)
    requires t in s.tasks && s.tasks[t].state.Pending? && s.nextAct !in s.acts
    requires HasCapacity(c.workers, s.inFlight, w)
    ensures var s' := Dispatch(c, s, t, s.tasks[t], w, ch, now);
            InFlight(s'.inFlight, v) == InFlight(s.inFlight, v)
              + if Briefed(s.tasks[t], ch) && ch.spawned && v == w then 1 else 0
  {
    var s2 := BriefLoaded(BeginDispatch(c, s, t, s.tasks[t], w, now), s.nextAct, ch.brief, now);
    LoadedCounts(c, s, t, w, ch.brief, now);
    SpawnCounts(s2, s.nextAct, ch.spawned, now);
    assert Dispatch(c, s, t, s.tasks[t], w, ch, now) == Spawned(s2, s.nextAct, ch.spawned, now);
    ReleaseUndoes(s.inFlight, w);
  }

  lemma ReleaseUndoes(m: map<WorkerId, nat>, w: WorkerId)
    ensures forall v :: InFlight(Release(m[w := InFlight(m, w) + 1], w), v) == InFlight(m, v)
  {}

  /** The slot is taken while the spawn is awaited, and given back when there is no brief. */
  lemma LoadedCounts(c: Config, s: State, t: TaskId, w: WorkerId, brief: Option<string>, now: Time)
    requires t in s.tasks && s.tasks[t].state.Pending? && s.nextAct !in s.acts
    requires HasCapacity(c.workers, s.inFlight, w)
    ensures var taken, s' := s.inFlight[w := InFlight(s.inFlight, w) + 1],
                             BriefLoaded(BeginDispatch(c, s, t, s.tasks[t], w, now), s.nextAct, brief, now);
            if s.tasks[t].brief != "" || brief.Some?
            then s'.inFlight == taken && s.nextAct in s'.acts && s'.acts[s.nextAct].Spawning?
              && s'.acts[s.nextAct].worker == w
            else s'.inFlight == Release(taken, w) && s.nextAct !in s'.acts
  {
    BeginCounts(c, s, t, w, now);
    var s1 := BeginDispatch(c, s, t, s.tasks[t], w, now);
    if s.tasks[t].brief == "" {
      BriefCounts(s1, s.nextAct, brief, now);
    } else {
      assert BriefLoaded(s1, s.nextAct, brief, now) == s1;
    }
  }

  lemma BeginCounts(c: Config, s: State, t: TaskId, w: WorkerId, now: Time)
    requires t in s.tasks && HasCapacity(c.workers, s.inFlight, w)
    ensures var rec, s' := s.tasks[t], BeginDispatch(c, s, t, s.tasks[t], w, now);
            && s'.inFlight == s.inFlight[w := InFlight(s.inFlight, w) + 1]
            && s.nextAct in s'.acts && s'.acts[s.nextAct].worker == w
            && (if rec.brief == "" then s'.acts[s.nextAct] == Briefing(t, rec, w) && s'.tasks == s.tasks
                else s'.acts[s.nextAct].Spawning?)
  {}

  lemma BriefCounts(s: State, a: ActId, brief: Option<string>, now: Time)
    requires a in s.acts && s.acts[a].Briefing? && s.acts[a].task in s.tasks && s.tasks[s.acts[a].task].state.Pending?
    ensures var s' := BriefLoaded(s, a, brief, now);
            && (brief.Some? ==>
                 s'.inFlight == s.inFlight && a in s'.acts && s'.acts[a].Spawning?
                 && s'.acts[a].worker == s.acts[a].worker)
            && (brief.None? ==> s'.inFlight == Release(s.inFlight, s.acts[a].worker) && a !in s'.acts)
  {}

  lemma SpawnCounts(s: State, a: ActId, ok: bool, now: Time)
    ensures var s' := Spawned(s, a, ok, now);
            s'.inFlight ==
              if a in s.acts && s.acts[a].Spawning? && !ok then Release(s.inFlight, s.acts[a].worker) else s.inFlight
  {}

  // ----- one element of the invariant at a time -----

  lemma RefusedTask(s: State, s': State, t: TaskId, w: WorkerId, u: TaskId)
    requires Refused(s, s', t, w) && TaskOk(s, t) && TaskOk(s, u)
    ensures TaskOk(s', u)
  {}

  lemma LaunchedTask(s: State, s': State, t: TaskId, w: WorkerId, u: TaskId)
    requires Launched(s, s', t, w) && TaskOk(s, t) && TaskOk(s, u)
    ensures TaskOk(s', u)
  {}

  lemma LaunchedAct(s: State, s': State, t: TaskId, w: WorkerId, a: ActId)
    requires Launched(s, s', t, w) && ActOk(s, a)
    ensures ActOk(s', a)
  {}

  lemma LaunchedEntry(s: State, s': State, t: TaskId, w: WorkerId, u: TaskId)
    requires Launched(s, s', t, w) && EntryOk(s, u) && s.nextAct !in s.acts
    ensures EntryOk(s', u)
  {
    if u == t {
      assert s.nextAct in s'.acts && s'.acts[s.nextAct].task == t;
    } else if u in s.running {
      var a :| a in s.acts && s.acts[a].task == u;
      assert a in s'.acts && s'.acts[a].task == u;
    }
  }

  lemma LaunchedUnshared(s: State, s': State, t: TaskId, w: WorkerId, a: ActId, b: ActId)
    requires Launched(s, s', t, w) && ActOk(s, a) && ActOk(s, b) && Unshared(s, a, b)
    ensures Unshared(s', a, b)
  {}


  /** The listed tasks are the same, and run or do not run as before. */
  predicate SameTasks(s: State, s': State, ts: seq<TaskId>) {
    forall t :: t in ts ==>
      t in s.tasks && t in s'.tasks && s'.tasks[t] == s.tasks[t] && (t in s'.running <==> t in s.running)
  }

  lemma {:induction false} PrsSame(s: State, s': State, ts: seq<TaskId>)
    requires SameTasks(s, s', ts)
    ensures Prs(s', ts) == Prs(s, ts)
  {
    if ts != [] {
      assert ts[0] in ts;
      assert forall t :: t in ts[1..] ==> t in ts;
      PrsSame(s, s', ts[1..]);
    }
  }

  lemma StateSame(s: State, s': State, id: SprintId)
    requires StateOk(s, id) && id in s.sprints && id in s'.sprints && s'.sprints[id] == s.sprints[id]
    requires SameTasks(s, s', s.sprints[id].tasks)
    ensures StateOk(s', id)
  {
    PrsSame(s, s', s.sprints[id].tasks);
  }

  /** A sprint other than the one whose task changed. */
  lemma StateElsewhere(s: State, s': State, t: TaskId, id: SprintId)
    requires s'.sprints == s.sprints && t in s.tasks && s.tasks[t].sprint != id && Owns(s, id) && StateOk(s, id)
    requires t in s'.tasks && s'.tasks == s.tasks[t := s'.tasks[t]]
    requires s'.running - {t} == s.running - {t}
    ensures StateOk(s', id)
  {
    if id in s.sprints {
      forall u | u in s.sprints[id].tasks
        ensures u in s.tasks && u in s'.tasks && s'.tasks[u] == s.tasks[u] && (u in s'.running <==> u in s.running)
      {
        assert u != t;
        assert u in s.running <==> u in s.running - {t};
        assert u in s'.running <==> u in s'.running - {t};
      }
      StateSame(s, s', id);
    }
  }

  predicate RunningState(s: State, id: SprintId) {
    id in s.sprints && s.sprints[id].state.Running?
  }

  // ----- the invariant is kept by each kind of change -----

  lemma OnlyStateKeeps(s: State, s': State, id: SprintId)
    requires Inv(s) && SameWork(s, s') && OnlyState(s, s', id) && StateOk(s', id)
    ensures Inv(s')
  {
    forall a: ActId ensures ActOk(s', a) { assert ActOk(s, a); }
    forall a: ActId, b: ActId ensures Unshared(s', a, b) { assert Unshared(s, a, b); }
    forall u: TaskId ensures EntryOk(s', u) { assert EntryOk(s, u); }
    forall t: TaskId ensures TaskOk(s', t) { assert TaskOk(s, t); }
    forall t: TaskId ensures Listed(s', t) { assert Listed(s, t); }
    forall i: SprintId ensures Owns(s', i) { assert Owns(s, i); }
    forall i: SprintId ensures StateOk(s', i) {
      assert StateOk(s, i) && Owns(s, i);
      if i in s.sprints && i != id {
        StateSame(s, s', i);
      }
    }
  }

  lemma RefusedKeeps(s: State, s': State, t: TaskId, w: WorkerId)
    requires Inv(s) && Refused(s, s', t, w) && RunningState(s, s.tasks[t].sprint)
    ensures Inv(s')
  {
    assert TaskOk(s, t);
    forall a: ActId ensures ActOk(s', a) { assert ActOk(s, a); }
    forall a: ActId, b: ActId ensures Unshared(s', a, b) { assert Unshared(s, a, b); }
    forall u: TaskId ensures EntryOk(s', u) { assert EntryOk(s, u); }
    forall u: TaskId ensures TaskOk(s', u) { assert TaskOk(s, u); RefusedTask(s, s', t, w, u); }
    forall u: TaskId ensures Listed(s', u) { assert Listed(s, u); }
    forall i: SprintId ensures Owns(s', i) { assert Owns(s, i); }
    forall i: SprintId ensures StateOk(s', i) {
      assert StateOk(s, i) && Owns(s, i);
      if i != s.tasks[t].sprint {
        StateElsewhere(s, s', t, i);
      }
    }
  }

  lemma LaunchedKeeps(s: State, s': State, t: TaskId, w: WorkerId)
    requires Inv(s) && Launched(s, s', t, w) && RunningState(s, s.tasks[t].sprint)
    ensures Inv(s')
  {
    assert TaskOk(s, t);
    forall a: ActId ensures ActOk(s', a) { assert ActOk(s, a); LaunchedAct(s, s', t, w, a); }
    forall a: ActId, b: ActId ensures Unshared(s', a, b) {
      assert ActOk(s, a) && ActOk(s, b) && Unshared(s, a, b);
      LaunchedUnshared(s, s', t, w, a, b);
    }
    forall u: TaskId ensures EntryOk(s', u) {
      assert EntryOk(s, u) && ActOk(s, s.nextAct);
      LaunchedEntry(s, s', t, w, u);
    }
    forall u: TaskId ensures TaskOk(s', u) { assert TaskOk(s, u); LaunchedTask(s, s', t, w, u); }
    forall u: TaskId ensures Listed(s', u) { assert Listed(s, u); }
    forall i: SprintId ensures Owns(s', i) { assert Owns(s, i); }
    forall i: SprintId ensures StateOk(s', i) {
      assert StateOk(s, i) && Owns(s, i);
      if i != s.tasks[t].sprint {
        assert s'.running - {t} == s.running - {t};
        StateElsewhere(s, s', t, i);
      }
    }
  }

  lemma RestartKeeps(s: State)
    requires Inv(s)
    ensures Inv(Restart(s))
  {
    var s' := Restart(s);
    forall t: TaskId ensures TaskOk(s', t) { assert TaskOk(s, t); }
    forall t: TaskId ensures Listed(s', t) { assert Listed(s, t); }
    forall i: SprintId ensures Owns(s', i) { assert Owns(s, i); }
    forall i: SprintId ensures StateOk(s', i) {
      assert StateOk(s, i);
      if i in s.sprints {
        PrsRestart(s, s.sprints[i].tasks);
      }
    }
  }

  lemma {:induction false} PrsRestart(s: State, ts: seq<TaskId>)
    ensures Prs(Restart(s), ts) == Prs(s, ts)
  {
    if ts != [] {
      PrsRestart(s, ts[1..]);
    }
  }

  /** A task of a running sprint without live handles goes back to pending. */
  lemma ResetKeeps(s: State, t: TaskId)
    requires Inv(s) && t !in s.running && (t in s.tasks ==> RunningState(s, s.tasks[t].sprint))
    ensures Inv(ResetTask(s, t)) && ResetTask(s, t).running == s.running
  {
    var s' := ResetTask(s, t);
    assert TaskOk(s, t);
    if s' != s {
      forall a: ActId ensures ActOk(s', a) { assert ActOk(s, a); }
      forall a: ActId, b: ActId ensures Unshared(s', a, b) { assert Unshared(s, a, b); }
      forall u: TaskId ensures EntryOk(s', u) { assert EntryOk(s, u); }
      forall u: TaskId ensures TaskOk(s', u) { assert TaskOk(s, u); ResetTaskOk(s, t, u); }
      forall u: TaskId ensures Listed(s', u) { assert Listed(s, u); }
      forall i: SprintId ensures Owns(s', i) { assert Owns(s, i); }
      forall i: SprintId ensures StateOk(s', i) {
        assert StateOk(s, i) && Owns(s, i);
        if i != s.tasks[t].sprint {
          StateElsewhere(s, s', t, i);
        }
      }
    }
  }

  lemma ResetTaskOk(s: State, t: TaskId, u: TaskId)
    requires TaskOk(s, t) && TaskOk(s, u) && t !in s.running
    ensures TaskOk(ResetTask(s, t), u)
  {}
}
