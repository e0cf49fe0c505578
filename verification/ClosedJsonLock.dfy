/** The mkdir lock around `closed.json` (src/audit/closed-json-lock.ts), taken by any
    number of processes whose steps interleave. */
module ClosedJsonLock {
  import opened Prelude

  type Pid = nat
  type Time = int

  const POLL_INTERVAL: nat := 50

  datatype Config = Config(staleAfter: int, timeout: int)

  /** The lock directory: when it was made, and by whom. The program never learns who. */
  datatype Dir = Dir(mtime: Time, owner: Pid)

  /** Where a process is in `withClosedJsonLock`; `start` is when it entered, `sleeps`
      how often it has slept. */
  datatype Place =
    | Outside
    | AtMkdir(start: Time, sleeps: nat)
    | AtClock(start: Time, sleeps: nat)                  // before `now()` for the stale check
    | AtStat(start: Time, sleeps: nat, read: Time)       // before `statSync`
    | AtRemove(start: Time, sleeps: nat)                 // found the lock stale
    | AtDeadline(start: Time, sleeps: nat)
    | Sleeping(start: Time, sleeps: nat, until: Time)
    | Inside(since: Time)                                // running `fn`
    | TimedOut
    | Crashed

  datatype State = State(clock: Time, dir: Option<Dir>, places: map<Pid, Place>)

  const INIT := State(0, None, map[])

  datatype Action =
    | Pass(ms: nat)                     // time goes by
    | Enter(p: Pid)
    | Mkdir(p: Pid)
    | ReadClock(p: Pid)
    | Stat(p: Pid, ok: bool)            // false: `statSync` threw, which counts as not stale
    | RemoveStale(p: Pid, ok: bool)     // false: `rmSync` threw
    | CheckDeadline(p: Pid)
    | Wake(p: Pid)
    | Leave(p: Pid, ok: bool)           // false: the release failed and was swallowed
    | Crash(p: Pid)

  function PlaceOf(s: State, p: Pid): Place {
    if p in s.places then s.places[p] else Outside
  }

  function Move(s: State, p: Pid, place: Place): State {
    s.(places := s.places[p := place])
  }

  /** One step; an action that is not enabled changes nothing. */
  function Do(c: Config, s: State, a: Action): State {
    match a
    case Pass(ms) => s.(clock := s.clock + ms)
    case Enter(p) =>
      var at := PlaceOf(s, p);
      if at.Outside? || at.TimedOut? then Move(s, p, AtMkdir(s.clock, 0)) else s
    case Mkdir(p) =>
      var at := PlaceOf(s, p);
      if !at.AtMkdir? then s
      else if s.dir.None? then Move(s, p, Inside(s.clock)).(dir := Some(Dir(s.clock, p)))
      else Move(s, p, AtClock(at.start, at.sleeps))
    case ReadClock(p) =>
      var at := PlaceOf(s, p);
      if at.AtClock? then Move(s, p, AtStat(at.start, at.sleeps, s.clock)) else s
    case Stat(p, ok) =>
      var at := PlaceOf(s, p);
      if !at.AtStat? then s
      else if ok && s.dir.Some? && at.read - s.dir.value.mtime > c.staleAfter
        then Move(s, p, AtRemove(at.start, at.sleeps))
      else Move(s, p, AtDeadline(at.start, at.sleeps))
    case RemoveStale(p, ok) =>
      var at := PlaceOf(s, p);
      if !at.AtRemove? then s
      else if ok then Move(s, p, AtMkdir(at.start, at.sleeps)).(dir := None)
      else Move(s, p, AtDeadline(at.start, at.sleeps))
    case CheckDeadline(p) =>
      var at := PlaceOf(s, p);
      if !at.AtDeadline? then s
      else if s.clock >= at.start + c.timeout then Move(s, p, TimedOut)
      else Move(s, p, Sleeping(at.start, at.sleeps + 1, s.clock + POLL_INTERVAL))
    case Wake(p) =>
      var at := PlaceOf(s, p);
      if at.Sleeping? && s.clock >= at.until then Move(s, p, AtMkdir(at.start, at.sleeps)) else s
    case Leave(p, ok) =>
      if !PlaceOf(s, p).Inside? then s
      else if ok then Move(s, p, Outside).(dir := None)
      else Move(s, p, Outside)
    case Crash(p) =>
      if PlaceOf(s, p).Inside? then Move(s, p, Crashed) else s
  }

  type Log = History<Action>

  function Run(c: Config, log: Log): State {
    match log
    case Start => INIT
    case Then(past, a) => Do(c, Run(c, past), a)
  }

  // ----- mutual exclusion -----

  /** The lock directory is not older than the stale age. */
  predicate Young(c: Config, s: State) {
    s.dir.Some? ==> s.clock - s.dir.value.mtime <= c.staleAfter
  }

  /** All along the run nobody has left the directory in place longer than the stale
      age, by overstaying, by crashing or by a failed release. */
  predicate Timely(c: Config, log: Log) {
    Young(c, Run(c, log)) && (log.Then? ==> Timely(c, log.past))
  }

  /** A process inside `fn` made the directory that is there; nobody is about to remove
      it; clock readings are past. */
  predicate Safe(s: State, p: Pid) {
    var at := PlaceOf(s, p);
    && (at.Inside? ==> s.dir == Some(Dir(at.since, p)))
    && !at.AtRemove?
    && (at.AtStat? ==> at.read <= s.clock)
  }

  lemma DoSafe(c: Config, s: State, a: Action, p: Pid)
    requires Young(c, s) && Safe(s, p)
    requires a.Leave? || a.RemoveStale? || a.Stat? ==> Safe(s, a.p)
    ensures Safe(Do(c, s, a), p)
  {}

  lemma {:induction false} AlwaysSafe(c: Config, log: Log, p: Pid)
    requires Timely(c, log)
    ensures Safe(Run(c, log), p)
    decreases log
  {
    if log.Then? {
      AlwaysSafe(c, log.past, p);
      if log.event.Leave? || log.event.RemoveStale? || log.event.Stat? {
        AlwaysSafe(c, log.past, log.event.p);
      }
      DoSafe(c, Run(c, log.past), log.event, p);
    }
  }

  /** Mutual exclusion: in a timely run at most one process is inside `fn`. */
  lemma MutualExclusion(c: Config, log: Log, p: Pid, q: Pid)
    requires Timely(c, log)
    requires PlaceOf(Run(c, log), p).Inside? && PlaceOf(Run(c, log), q).Inside?
    ensures p == q
  {
    AlwaysSafe(c, log, p);
    AlwaysSafe(c, log, q);
  }

  /** In a timely run only its maker, on leaving `fn`, ever removes the directory; in
      particular a waiter that times out does not. */
  lemma OnlyHolderRemoves(c: Config, log: Log, a: Action)
    requires Timely(c, log) && Run(c, log).dir.Some? && Do(c, Run(c, log), a).dir != Run(c, log).dir
    ensures a == Leave(Run(c, log).dir.value.owner, true) && PlaceOf(Run(c, log), a.p).Inside?
  {
    if a.RemoveStale? || a.Leave? {
      AlwaysSafe(c, log, a.p);
    }
  }

  /** A process gets inside exactly by trying while no directory is there. */
  lemma EntersIff(c: Config, log: Log, a: Action, p: Pid)
    requires !PlaceOf(Run(c, log), p).Inside?
    ensures PlaceOf(Run(c, Then(log, a)), p).Inside? <==>
      a == Mkdir(p) && PlaceOf(Run(c, log), p).AtMkdir? && Run(c, log).dir.None?
  {}

  /** In a timely run a holder that leaves hands over: whoever tries next gets inside. */
  lemma HandsOver(c: Config, log: Log, p: Pid, q: Pid)
    requires Timely(c, log) && PlaceOf(Run(c, log), p).Inside? && PlaceOf(Run(c, log), q).AtMkdir?
    ensures PlaceOf(Run(c, Then(log, Mkdir(q))), q).AtClock?
    ensures PlaceOf(Run(c, Then(Then(log, Leave(p, true)), Mkdir(q))), q).Inside?
  {
    AlwaysSafe(c, log, p);
    var l1 := Then(log, Leave(p, true));
    assert Run(c, l1).dir.None? && PlaceOf(Run(c, l1), q) == PlaceOf(Run(c, log), q);
    EntersIff(c, l1, Mkdir(q), q);
  }

  // ----- the assumption is needed -----

  /** `p` enters, meets the directory and compares its age. */
  function Inspect(c: Config, s: State, p: Pid): State {
    Do(c, Do(c, Do(c, Do(c, s, Enter(p)), Mkdir(p)), ReadClock(p)), Stat(p, true))
  }

  /** `p` removes the directory it found stale and tries again. */
  function Seize(c: Config, s: State, p: Pid): State {
    Do(c, Do(c, s, RemoveStale(p, true)), Mkdir(p))
  }

  lemma InspectFindsStale(c: Config, s: State, p: Pid)
    requires s.dir.Some? && !Young(c, s) && PlaceOf(s, p).Outside?
    ensures Inspect(c, s, p) == Move(s, p, AtRemove(s.clock, 0))
  {
    var s1 := Do(c, s, Enter(p));
    var s2 := Do(c, s1, Mkdir(p));
    var s3 := Do(c, s2, ReadClock(p));
    assert s3.places == s.places[p := AtStat(s.clock, 0, s.clock)];
  }

  lemma SeizeEnters(c: Config, s: State, p: Pid)
    requires PlaceOf(s, p).AtRemove?
    ensures Seize(c, s, p) == Move(s, p, Inside(s.clock)).(dir := Some(Dir(s.clock, p)))
  {
    var s1 := Do(c, s, RemoveStale(p, true));
    assert Seize(c, s, p).places == s.places[p := Inside(s.clock)];
  }

  /** As soon as a holder has overstayed, another process can join it inside `fn`. */
  lemma OverstayAdmitsTwo(c: Config, s: State, p: Pid, q: Pid)
    requires p != q && PlaceOf(s, p).Inside? && s.dir.Some? && !Young(c, s) && PlaceOf(s, q).Outside?
    ensures var s' := Seize(c, Inspect(c, s, q), q);
            PlaceOf(s', p).Inside? && PlaceOf(s', q).Inside?
  {
    InspectFindsStale(c, s, q);
    SeizeEnters(c, Inspect(c, s, q), q);
  }

  /** When a directory was left behind, two processes that both found it stale can both
      get inside, the second removing the first one's fresh directory. */
  lemma LeftoverAdmitsTwo(c: Config, s: State, p: Pid, q: Pid)
    requires p != q && s.dir.Some? && !Young(c, s) && PlaceOf(s, p).Outside? && PlaceOf(s, q).Outside?
    ensures var s' := Seize(c, Seize(c, Inspect(c, Inspect(c, s, p), q), p), q);
            PlaceOf(s', p).Inside? && PlaceOf(s', q).Inside?
  {
    InspectFindsStale(c, s, p);
    var s1 := Inspect(c, s, p);
    InspectFindsStale(c, s1, q);
    var s2 := Inspect(c, s1, q);
    SeizeEnters(c, s2, p);
    SeizeEnters(c, Seize(c, s2, p), q);
  }

  // Both cases arise. The program's steps as logs:

  function InspectLog(log: Log, p: Pid): Log {
    Then(Then(Then(Then(log, Enter(p)), Mkdir(p)), ReadClock(p)), Stat(p, true))
  }

  function SeizeLog(log: Log, p: Pid): Log {
    Then(Then(log, RemoveStale(p, true)), Mkdir(p))
  }

  lemma LogsAre(c: Config, log: Log, p: Pid)
    ensures Run(c, InspectLog(log, p)) == Inspect(c, Run(c, log), p)
    ensures Run(c, SeizeLog(log, p)) == Seize(c, Run(c, log), p)
  {
    var l1 := Then(log, Enter(p));
    var l2 := Then(l1, Mkdir(p));
    assert Run(c, l2) == Do(c, Run(c, l1), Mkdir(p));
    assert Run(c, Then(l2, ReadClock(p))) == Do(c, Run(c, l2), ReadClock(p));
  }

  /** `p` is inside, and the stale age goes by. */
  function Overstay(c: Config, p: Pid): Log {
    Then(Then(Then(Start, Enter(p)), Mkdir(p)), Pass(if c.staleAfter < 0 then 0 else c.staleAfter + 1))
  }

  lemma OverstayIs(c: Config, p: Pid)
    ensures var s := Run(c, Overstay(c, p));
            && s.places == map[p := Inside(0)] && s.dir == Some(Dir(0, p)) && !Young(c, s)
  {
    var l1 := Then(Start, Enter(p));
    var l2 := Then(l1, Mkdir(p));
    assert Run(c, Start) == INIT;
    assert Run(c, l1) == Move(INIT, p, AtMkdir(0, 0));
    assert Run(c, l2).places == map[p := Inside(0)] && Run(c, l2).dir == Some(Dir(0, p)) && Run(c, l2).clock == 0;
  }

  /** A run, for any stale age, at whose end two processes are inside: the first one
      overstays and the second one seizes the lock. */
  lemma OverstayRun(c: Config, p: Pid, q: Pid) returns (log: Log)
    requires p != q
    ensures PlaceOf(Run(c, log), p).Inside? && PlaceOf(Run(c, log), q).Inside?
  {
    var late := Overstay(c, p);
    OverstayIs(c, p);
    OverstayAdmitsTwo(c, Run(c, late), p, q);
    log := SeizeLog(InspectLog(late, q), q);
    LogsAre(c, late, q);
    LogsAre(c, InspectLog(late, q), q);
  }

  /** Another one, in which nobody overstays but somebody crashed: `p` and `q` both find
      what `r` left behind, and `q` removes the fresh directory of `p`. */
  lemma LeftoverRun(c: Config, p: Pid, q: Pid, r: Pid) returns (log: Log)
    requires p != q && p != r && q != r
    ensures PlaceOf(Run(c, log), p).Inside? && PlaceOf(Run(c, log), q).Inside? && PlaceOf(Run(c, log), r).Crashed?
  {
    var left := Then(Overstay(c, r), Crash(r));
    OverstayIs(c, r);
    assert Run(c, left) == Move(Run(c, Overstay(c, r)), r, Crashed);
    LeftoverAdmitsTwo(c, Run(c, left), p, q);
    log := SeizeLog(SeizeLog(InspectLog(InspectLog(left, p), q), p), q);
    LogsAre(c, left, p);
    LogsAre(c, InspectLog(left, p), q);
    LogsAre(c, InspectLog(InspectLog(left, p), q), p);
    LogsAre(c, SeizeLog(InspectLog(InspectLog(left, p), q), p), q);
    CrashedStays(c, left, p, q, r);
  }

  lemma CrashedStays(c: Config, log: Log, p: Pid, q: Pid, r: Pid)
    requires p != r && q != r && PlaceOf(Run(c, log), r).Crashed?
    ensures PlaceOf(Run(c, SeizeLog(SeizeLog(InspectLog(InspectLog(log, p), q), p), q)), r).Crashed?
  {
    StaysPut(c, log, p, r);
    StaysPut(c, InspectLog(log, p), q, r);
    StaysPut(c, InspectLog(InspectLog(log, p), q), p, r);
    StaysPut(c, SeizeLog(InspectLog(InspectLog(log, p), q), p), q, r);
  }

  lemma StaysPut(c: Config, log: Log, p: Pid, r: Pid)
    requires p != r
    ensures PlaceOf(Run(c, InspectLog(log, p)), r) == PlaceOf(Run(c, log), r)
    ensures PlaceOf(Run(c, SeizeLog(log, p)), r) == PlaceOf(Run(c, log), r)
  {
    LogsAre(c, log, p);
    OthersStay(c, Run(c, log), p, r);
  }

  lemma OthersStay(c: Config, s: State, p: Pid, r: Pid)
    requires p != r
    ensures PlaceOf(Inspect(c, s, p), r) == PlaceOf(s, r) && PlaceOf(Seize(c, s, p), r) == PlaceOf(s, r)
  {}

  // ----- waiting ends -----

  /** A waiter that has slept `sleeps` times has waited that long, and none of its sleeps
      began at or after its deadline. */
  predicate WaitsOk(c: Config, clock: Time, start: Time, sleeps: nat) {
    && clock - start >= POLL_INTERVAL * sleeps
    && (sleeps > 0 ==> POLL_INTERVAL * (sleeps - 1) < c.timeout)
  }

  predicate Waiting(c: Config, clock: Time, at: Place) {
    match at
    case AtMkdir(start, sleeps) => WaitsOk(c, clock, start, sleeps)
    case AtClock(start, sleeps) => WaitsOk(c, clock, start, sleeps)
    case AtStat(start, sleeps, _) => WaitsOk(c, clock, start, sleeps)
    case AtRemove(start, sleeps) => WaitsOk(c, clock, start, sleeps)
    case AtDeadline(start, sleeps) => WaitsOk(c, clock, start, sleeps)
    case Sleeping(start, sleeps, until) => WaitsOk(c, until, start, sleeps)
    case _ => true
  }

  /** Over every run, timely or not, a process waits at most as many poll intervals as
      fit into its timeout, rounded up. */
  lemma {:induction false} WaitBounded(c: Config, log: Log, p: Pid)
    ensures Waiting(c, Run(c, log).clock, PlaceOf(Run(c, log), p))
    decreases log
  {
    if log.Then? {
      WaitBounded(c, log.past, p);
    }
  }

  /** Past its deadline a waiter gives up at the next check instead of sleeping. */
  lemma DeadlineEnds(c: Config, s: State, p: Pid)
    requires PlaceOf(s, p).AtDeadline?
    ensures PlaceOf(Do(c, s, CheckDeadline(p)), p).TimedOut? <==> s.clock >= PlaceOf(s, p).start + c.timeout
    ensures Do(c, s, CheckDeadline(p)).dir == s.dir
  {}

  // ----- how often `mkdir` is tried -----

  /** What a process has done since it entered: attempts, removals, and when it last
      removed a directory. */
  datatype Count = Count(tries: nat, removals: nat, last: Time)

  function Counted(c: Config, log: Log, p: Pid): Count {
    match log
    case Start => Count(0, 0, 0)
    case Then(past, a) => Recount(Counted(c, past, p), Run(c, past), a, p)
  }

  function Recount(n: Count, s: State, a: Action, p: Pid): Count {
    var at := PlaceOf(s, p);
    if a == Enter(p) && (at.Outside? || at.TimedOut?) then Count(0, 0, 0)
    else if a == Mkdir(p) && at.AtMkdir? then n.(tries := n.tries + 1)
    else if a == RemoveStale(p, true) && at.AtRemove? then n.(removals := n.removals + 1, last := s.clock)
    else n
  }

  /** Each attempt but the first follows a sleep or a removal. */
  predicate Tallied(n: Count, at: Place) {
    match at
    case AtMkdir(_, sleeps) => n.tries == sleeps + n.removals
    case Sleeping(_, sleeps, _) => n.tries == sleeps + n.removals
    case AtClock(_, sleeps) => n.tries == sleeps + n.removals + 1
    case AtStat(_, sleeps, _) => n.tries == sleeps + n.removals + 1
    case AtRemove(_, sleeps) => n.tries == sleeps + n.removals + 1
    case AtDeadline(_, sleeps) => n.tries == sleeps + n.removals + 1
    case _ => true
  }

  predicate TriesOk(c: Config, tries: nat, removals: nat) {
    tries >= removals + 2 ==> POLL_INTERVAL * (tries - removals - 2) < c.timeout
  }

  lemma TallyStep(c: Config, s: State, a: Action, p: Pid, n: Count)
    requires Tallied(n, PlaceOf(s, p)) && TriesOk(c, n.tries, n.removals) && Waiting(c, s.clock, PlaceOf(s, p))
    ensures Tallied(Recount(n, s, a, p), PlaceOf(Do(c, s, a), p))
    ensures TriesOk(c, Recount(n, s, a, p).tries, Recount(n, s, a, p).removals)
  {}

  lemma {:induction false} AlwaysTallied(c: Config, log: Log, p: Pid)
    ensures var n := Counted(c, log, p); Tallied(n, PlaceOf(Run(c, log), p)) && TriesOk(c, n.tries, n.removals)
    decreases log
  {
    if log.Then? {
      AlwaysTallied(c, log.past, p);
      WaitBounded(c, log.past, p);
      TallyStep(c, Run(c, log.past), log.event, p, Counted(c, log.past, p));
    }
  }

  /** In a timely run nothing is removed, so a process tries at most once more than the
      poll intervals that fit into its timeout, rounded up. */
  lemma {:induction false} TriesBounded(c: Config, log: Log, p: Pid)
    requires Timely(c, log)
    ensures Counted(c, log, p).removals == 0 && TriesOk(c, Counted(c, log, p).tries, 0)
    decreases log
  {
    AlwaysTallied(c, log, p);
    if log.Then? {
      TriesBounded(c, log.past, p);
      AlwaysSafe(c, log.past, p);
    }
  }

  // ----- removals take their time -----

  /** `k` stale ages. */
  function Ages(c: Config, k: nat): int {
    if k == 0 then 0 else Ages(c, k - 1) + c.staleAfter + 1
  }

  predicate Pending(at: Place) {
    at.AtMkdir? || at.AtClock? || at.AtStat? || at.AtRemove? || at.AtDeadline? || at.Sleeping?
  }

  function Entered(at: Place): Time
    requires Pending(at)
  {
    at.start
  }

  /** A directory that is there was made after the last removal, so finding it stale
      takes another stale age. */
  predicate Spaced(c: Config, s: State, p: Pid, n: Count) {
    var at := PlaceOf(s, p);
    && (s.dir.Some? ==> s.dir.value.mtime <= s.clock)
    && (Pending(at) ==>
      && Entered(at) <= s.clock
      && (at.AtStat? ==> at.read <= s.clock)
      && (n.removals > 0 ==>
        && n.last >= Entered(at) + Ages(c, n.removals - 1)
        && n.last <= s.clock
        && (s.dir.Some? ==> s.dir.value.mtime >= n.last)
        && (at.AtRemove? ==> s.clock > n.last + c.staleAfter)))
  }

  lemma SpacedStep(c: Config, s: State, a: Action, p: Pid, n: Count)
    requires Spaced(c, s, p, n)
    ensures Spaced(c, Do(c, s, a), p, Recount(n, s, a, p))
  {
    assert n.removals > 0 ==> Ages(c, n.removals) == Ages(c, n.removals - 1) + c.staleAfter + 1;
  }

  /** Over every run, the removals of one waiting process are more than a stale age apart. */
  lemma {:induction false} RemovalsSpaced(c: Config, log: Log, p: Pid)
    ensures Spaced(c, Run(c, log), p, Counted(c, log, p))
    decreases log
  {
    if log.Then? {
      RemovalsSpaced(c, log.past, p);
      SpacedStep(c, Run(c, log.past), log.event, p, Counted(c, log.past, p));
    }
  }

  /** Hence, over every run, how often a waiting process can have tried: as often as in a
      timely run and once more for each removal, which took a stale age each but the first. */
  lemma WaiterTries(c: Config, log: Log, p: Pid)
    requires Pending(PlaceOf(Run(c, log), p))
    ensures var n := Counted(c, log, p);
            && TriesOk(c, n.tries, n.removals)
            && (n.removals > 0 ==> Ages(c, n.removals - 1) <= Run(c, log).clock - Entered(PlaceOf(Run(c, log), p)))
  {
    AlwaysTallied(c, log, p);
    RemovalsSpaced(c, log, p);
  }

  // ----- the timeout can be overrun -----

  /** `q` comes and goes but fails to release. */
  function ComeAndGo(log: Log, q: Pid): Log {
    Then(Then(Then(log, Enter(q)), Mkdir(q)), Leave(q, false))
  }

  /** Much later `p` finds the directory stale. */
  function FindStale(c: Config, log: Log, p: Pid): Log
    requires c.staleAfter >= 0
  {
    Then(Then(Then(Then(log, Pass(c.staleAfter + 1)), Mkdir(p)), ReadClock(p)), Stat(p, true))
  }

  lemma Left(c: Config, log: Log, p: Pid, q: Pid)
    requires p != q && PlaceOf(Run(c, log), q).Outside? && Run(c, log).dir.None?
    ensures var s, s' := Run(c, log), Run(c, ComeAndGo(log, q));
            && s'.dir == Some(Dir(s.clock, q)) && s'.clock == s.clock
            && PlaceOf(s', q).Outside? && PlaceOf(s', p) == PlaceOf(s, p)
    ensures Counted(c, ComeAndGo(log, q), p) == Counted(c, log, p)
  {
    var l1 := Then(log, Enter(q));
    var l2 := Then(l1, Mkdir(q));
    assert Run(c, l1) == Move(Run(c, log), q, AtMkdir(Run(c, log).clock, 0));
    assert PlaceOf(Run(c, l2), q).Inside? && Counted(c, l1, p) == Counted(c, log, p);
    assert Counted(c, l2, p) == Counted(c, l1, p);
  }

  lemma Found(c: Config, log: Log, p: Pid, q: Pid)
    requires c.staleAfter >= 0 && p != q && PlaceOf(Run(c, log), p).AtMkdir? && Run(c, log).dir.Some?
    requires Run(c, log).dir.value.mtime <= Run(c, log).clock
    ensures var s, s' := Run(c, log), Run(c, FindStale(c, log, p));
            && PlaceOf(s', p) == AtRemove(PlaceOf(s, p).start, PlaceOf(s, p).sleeps) && PlaceOf(s', q) == PlaceOf(s, q)
            && s'.clock == s.clock + c.staleAfter + 1
    ensures var n, n' := Counted(c, log, p), Counted(c, FindStale(c, log, p), p); n' == n.(tries := n.tries + 1)
  {
    var l1 := Then(log, Pass(c.staleAfter + 1));
    var l2 := Then(l1, Mkdir(p));
    var l3 := Then(l2, ReadClock(p));
    assert Run(c, l1) == Run(c, log).(clock := Run(c, l1).clock) && Counted(c, l1, p) == Counted(c, log, p);
    assert PlaceOf(Run(c, l2), p).AtClock? && Run(c, l2).dir == Run(c, log).dir;
    assert Counted(c, l2, p) == Counted(c, log, p).(tries := Counted(c, log, p).tries + 1);
    assert PlaceOf(Run(c, l3), p).AtStat? && Counted(c, l3, p) == Counted(c, l2, p);
  }

  /** The deadline is not looked at after a removal: a waiter that finds a stale directory
      each time tries on, as long as this lasts. */
  lemma {:induction false} TimeoutOverrun(c: Config, p: Pid, q: Pid, rounds: nat) returns (log: Log)
    requires c.staleAfter >= 0 && p != q
    ensures var s, n := Run(c, log), Counted(c, log, p);
            && PlaceOf(s, p) == AtMkdir(0, 0) && PlaceOf(s, q).Outside? && s.dir.None?
            && n.tries == n.removals == rounds && s.clock == Ages(c, rounds)
  {
    if rounds == 0 {
      log := Then(Start, Enter(p));
    } else {
      var before := TimeoutOverrun(c, p, q, rounds - 1);
      Left(c, before, p, q);
      Found(c, ComeAndGo(before, q), p, q);
      log := Then(FindStale(c, ComeAndGo(before, q), p), RemoveStale(p, true));
    }
  }

  // ----- the loop -----

  /** How many of the first `n` rounds end with a removal. */
  function Removals(removed: nat -> bool, n: nat): (r: nat)
    ensures r <= n
  {
    if n == 0 then 0 else Removals(removed, n - 1) + if removed(n - 1) then 1 else 0
  }

  /** The acquire loop of one process: in round `k`, `free(k)` says whether `mkdir` finds
      no directory, `removed(k)` whether it removes a stale one, and `clock(k)` is the
      time. From round `calm` on nothing is removed. */
  method Acquire(c: Config, start: Time, free: nat -> bool, removed: nat -> bool, clock: nat -> Time, ghost calm: nat)
    returns (acquired: bool, tries: nat)
    requires start <= clock(0) && forall k: nat :: clock(k) + (if removed(k) then 0 else POLL_INTERVAL) <= clock(k + 1)
    requires forall k :: k >= calm ==> !removed(k)
    ensures tries >= 1
    ensures forall k :: 0 <= k < tries - 1 ==> !free(k) && (removed(k) || clock(k) < start + c.timeout)
    ensures acquired ==> free(tries - 1)
    ensures !acquired ==> !free(tries - 1) && !removed(tries - 1) && clock(tries - 1) >= start + c.timeout
    ensures TriesOk(c, tries, Removals(removed, tries - 1))
  {
    var deadline := start + c.timeout;
    tries := 0;
    while true
      invariant forall k :: 0 <= k < tries ==> !free(k) && (removed(k) || clock(k) < deadline)
      invariant clock(tries) >= start + POLL_INTERVAL * (tries - Removals(removed, tries))
      invariant tries > Removals(removed, tries) ==> POLL_INTERVAL * (tries - Removals(removed, tries) - 1) < c.timeout
      decreases if tries < calm then calm - tries else 0, deadline - clock(tries)
    {
      var k := tries;
      tries := tries + 1;
      if free(k) { return true, tries; }
      if !removed(k) && clock(k) >= deadline { return false, tries; }
    }
  }
}
