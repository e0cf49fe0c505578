/** The per-arm circuit breaker of the routing bandit and the seam that consults it
    (src/agents/bandit/circuit-breaker.ts, src/agents/bandit/live.ts). */
module CircuitBreaker {
  import opened Prelude

  type Arm = string

  datatype Status = Active | Disabled | Probing

  datatype ArmState = ArmState(status: Status, failures: nat, remaining: int)

  const FRESH := ArmState(Active, 0, 0)

  datatype Limits = Limits(threshold: nat, cooldown: nat)

  predicate Proper(l: Limits) {
    l.threshold >= 1 && l.cooldown >= 1
  }

  type Rows = map<Arm, ArmState>

  function StateOf(rows: Rows, arm: Arm): ArmState {
    if arm in rows then rows[arm] else FRESH
  }

  predicate Eligible(rows: Rows, arm: Arm) {
    !StateOf(rows, arm).status.Disabled?
  }

  // ----- steps of one arm -----

  function AfterOutcome(l: Limits, s: ArmState, success: bool): ArmState {
    if success then
      if s.status.Probing? then ArmState(Active, 0, 0) else s.(failures := 0)
    else if s.status.Probing? then ArmState(Disabled, s.failures + 1, l.cooldown)
    else if s.failures + 1 >= l.threshold && s.status.Active? then ArmState(Disabled, s.failures + 1, l.cooldown)
    else s.(failures := s.failures + 1)
  }

  function AfterCall(s: ArmState): ArmState {
    if !s.status.Disabled? then s
    else if s.remaining - 1 <= 0 then ArmState(Probing, s.failures, 0)
    else s.(remaining := s.remaining - 1)
  }

  function Recorded(l: Limits, rows: Rows, arm: Arm, success: bool): Rows {
    rows[arm := AfterOutcome(l, StateOf(rows, arm), success)]
  }

  function Assigned(rows: Rows, known: seq<Arm>): Rows
    decreases |known|
  {
    if known == [] then rows
    else
      var s := StateOf(rows, known[0]);
      Assigned(if s.status.Disabled? then rows[known[0] := AfterCall(s)] else rows, known[1..])
  }

  // ----- the live seam -----

  datatype Routing = Routing(model: Arm, overridden: bool, suppressed: bool)

  /** What the routing does with the sampled arm; None when the shadow write failed. */
  function Route(rows: Rows, sampled: Option<Arm>, actual: Arm, live: bool): Routing {
    if !live || sampled.None? then Routing(actual, false, false)
    else if !Eligible(rows, sampled.value) then Routing(actual, false, true)
    else Routing(sampled.value, sampled.value != actual, false)
  }

  function Routed(rows: Rows, sampled: Option<Arm>, known: seq<Arm>, live: bool): Rows {
    if live && sampled.Some? then Assigned(rows, known) else rows
  }

  class Breaker {
    const limits: Limits
    var rows: Rows

    constructor (limits: Limits)
      ensures this.limits == limits && rows == map[]
    {
      this.limits, rows := limits, map[];
    }

    /** `recordOutcome`. */
    method RecordOutcome(arm: Arm, success: bool)
      modifies this
      ensures rows == Recorded(limits, old(rows), arm, success)
    {
      var state := StateOf(rows, arm);
      var status, failures, remaining := state.status, state.failures, state.remaining;
      if success {
        failures := 0;
        if status == Probing {
          status, remaining := Active, 0;
        }
      } else if status == Probing {
        status, remaining, failures := Disabled, limits.cooldown, failures + 1;
      } else {
        failures := failures + 1;
        if failures >= limits.threshold && status != Disabled {
          status, remaining := Disabled, limits.cooldown;
        }
      }
      rows := rows[arm := ArmState(status, failures, remaining)];
    }

    /** `onAssignment`. */
    method OnAssignment(known: seq<Arm>)
      modifies this
      ensures rows == Assigned(old(rows), known)
    {
      var i := 0;
      assert known[0..] == known;
      while i < |known|
        invariant 0 <= i <= |known|
        invariant Assigned(rows, known[i..]) == Assigned(old(rows), known)
      {
        assert known[i..][1..] == known[i + 1..];
        var arm := known[i];
        i := i + 1;
        var state := StateOf(rows, arm);
        if state.status != Disabled { continue; }
        var remaining := state.remaining - 1;
        if remaining <= 0 {
          rows := rows[arm := ArmState(Probing, state.failures, 0)];
        } else {
          rows := rows[arm := ArmState(Disabled, state.failures, remaining)];
        }
      }
    }

    /** `resolveRoutingModel` after the shadow decision was recorded. */
    method ResolveRoutingModel(sampled: Option<Arm>, actual: Arm, known: seq<Arm>, live: bool) returns (r: Routing)
      modifies this
      ensures r == Route(old(rows), sampled, actual, live)
      ensures rows == Routed(old(rows), sampled, known, live)
    {
      if live && sampled.Some? {
        var suppressed := StateOf(rows, sampled.value).status == Disabled;
        OnAssignment(known);
        if suppressed { return Routing(actual, false, true); }
        return Routing(sampled.value, sampled.value != actual, false);
      }
      r := Routing(actual, false, false);
    }
  }

  /** A suppressed call routes to the live decision, and so does every call that is not
      live or has no sample; anything else routes to an arm that is not disabled. */
  lemma SuppressedRoutesActual(rows: Rows, sampled: Option<Arm>, actual: Arm, live: bool)
    ensures var r := Route(rows, sampled, actual, live);
            && (r.suppressed <==> live && sampled.Some? && !Eligible(rows, sampled.value))
            && (r.overridden <==> r.model != actual)
            && (r.suppressed || !live || sampled.None? ==> r.model == actual)
            && (r.overridden ==> Some(r.model) == sampled && Eligible(rows, r.model))
  {}

  // ----- whole runs -----

  /** Outcomes and live assignments, in any order. */
  datatype Event = Outcome(arm: Arm, success: bool) | Call(known: seq<Arm>)

  type Log = History<Event>

  function After(l: Limits, log: Log): Rows {
    match log
    case Start => map[]
    case Then(past, Outcome(arm, success)) => Recorded(l, After(l, past), arm, success)
    case Then(past, Call(known)) => Assigned(After(l, past), known)
  }

  function ArmAfter(l: Limits, log: Log, arm: Arm): ArmState {
    StateOf(After(l, log), arm)
  }

  /** Length of the run of failures since the arm's last success. */
  function FailureRun(log: Log, arm: Arm): nat {
    match log
    case Start => 0
    case Then(past, e) =>
      if e.Outcome? && e.arm == arm then (if e.success then 0 else FailureRun(past, arm) + 1) else FailureRun(past, arm)
  }

  function Occurrences(known: seq<Arm>, arm: Arm): nat {
    if known == [] then 0 else (if known[0] == arm then 1 else 0) + Occurrences(known[1..], arm)
  }

  /** One assignment takes as many steps off the cooldown as it names the arm. */
  function AfterCalls(s: ArmState, n: nat): ArmState
    decreases n
  {
    if n == 0 then s else AfterCalls(AfterCall(s), n - 1)
  }

  lemma {:induction false} AssignedArm(rows: Rows, known: seq<Arm>, arm: Arm)
    ensures StateOf(Assigned(rows, known), arm) == AfterCalls(StateOf(rows, arm), Occurrences(known, arm))
    decreases |known|
  {
    if known != [] {
      var s := StateOf(rows, known[0]);
      AssignedArm(if s.status.Disabled? then rows[known[0] := AfterCall(s)] else rows, known[1..], arm);
    }
  }

  lemma {:induction false} AfterCallsIs(s: ArmState, n: nat)
    requires s.status.Disabled? ==> s.remaining >= 1
    ensures AfterCalls(s, n) ==
      if !s.status.Disabled? then s
      else if n < s.remaining then s.(remaining := s.remaining - n) else ArmState(Probing, s.failures, 0)
    decreases n
  {
    if n > 0 { AfterCallsIs(AfterCall(s), n - 1); }
  }

  /** What is always true of an arm: its counter is its failure run, an active arm is
      below the threshold, and it is disabled exactly while its cooldown runs. */
  predicate Sane(l: Limits, s: ArmState, failureRun: nat) {
    && s.failures == failureRun
    && (s.status.Active? ==> s.failures < l.threshold)
    && (s.status.Disabled? <==> 1 <= s.remaining <= l.cooldown)
    && s.remaining >= 0
  }

  lemma {:induction false} AlwaysSane(l: Limits, log: Log, arm: Arm)
    requires Proper(l)
    ensures Sane(l, ArmAfter(l, log, arm), FailureRun(log, arm))
  {
    match log
    case Start =>
    case Then(past, e) =>
      AlwaysSane(l, past, arm);
      if e.Call? {
        AssignedArm(After(l, past), e.known, arm);
        AfterCallsIs(ArmAfter(l, past, arm), Occurrences(e.known, arm));
      }
  }

  /** An active arm is left active by everything but the failure that completes a run
      of `threshold` failures, and that one always trips it. */
  lemma TripsExactly(l: Limits, log: Log, e: Event, arm: Arm)
    requires Proper(l) && ArmAfter(l, log, arm).status.Active?
    ensures var s := ArmAfter(l, Then(log, e), arm);
            if e == Outcome(arm, false) && FailureRun(Then(log, e), arm) == l.threshold
            then s.status.Disabled? && s.remaining == l.cooldown else s.status.Active?
  {
    AlwaysSane(l, log, arm);
    if e.Call? {
      AssignedArm(After(l, log), e.known, arm);
      AfterCallsIs(ArmAfter(l, log, arm), Occurrences(e.known, arm));
    }
  }

  /** The event disabled the arm, by tripping it or by a failed probe. */
  predicate Trips(l: Limits, log: Log, e: Event, arm: Arm) {
    !ArmAfter(l, log, arm).status.Disabled? && ArmAfter(l, Then(log, e), arm).status.Disabled?
  }

  function Append(log: Log, more: Log): Log {
    match more
    case Start => log
    case Then(past, e) => Then(Append(log, past), e)
  }

  /** Live assignments of the arm. */
  function Calls(log: Log, arm: Arm): nat {
    match log
    case Start => 0
    case Then(past, e) => Calls(past, arm) + if e.Call? then Occurrences(e.known, arm) else 0
  }

  lemma TripStarts(l: Limits, log: Log, e: Event, arm: Arm)
    requires Proper(l) && Trips(l, log, e, arm)
    ensures ArmAfter(l, Then(log, e), arm).remaining == l.cooldown
  {
    AlwaysSane(l, log, arm);
    if e.Call? {
      AssignedArm(After(l, log), e.known, arm);
      AfterCallsIs(ArmAfter(l, log, arm), Occurrences(e.known, arm));
    }
  }

  /** After a trip the arm stays disabled while fewer than `cooldown` live assignments
      have named it, whatever outcomes arrive meanwhile. */
  lemma {:induction false} CoolsDown(l: Limits, log: Log, e: Event, more: Log, arm: Arm)
    requires Proper(l) && Trips(l, log, e, arm) && Calls(more, arm) < l.cooldown
    ensures var s := ArmAfter(l, Append(Then(log, e), more), arm);
            s.status.Disabled? && s.remaining == l.cooldown - Calls(more, arm)
  {
    match more
    case Start => TripStarts(l, log, e, arm);
    case Then(past, last) =>
      CoolsDown(l, log, e, past, arm);
      if last.Call? {
        AssignedArm(After(l, Append(Then(log, e), past)), last.known, arm);
        AfterCallsIs(ArmAfter(l, Append(Then(log, e), past), arm), Occurrences(last.known, arm));
      }
  }

  /** The assignment that completes the cooldown makes the arm probing. */
  lemma ThenProbes(l: Limits, log: Log, e: Event, more: Log, known: seq<Arm>, arm: Arm)
    requires Proper(l) && Trips(l, log, e, arm)
    requires Calls(more, arm) < l.cooldown <= Calls(Then(more, Call(known)), arm)
    ensures ArmAfter(l, Append(Then(log, e), Then(more, Call(known))), arm).status.Probing?
  {
    CoolsDown(l, log, e, more, arm);
    var rows := After(l, Append(Then(log, e), more));
    AssignedArm(rows, known, arm);
    AfterCallsIs(StateOf(rows, arm), Occurrences(known, arm));
  }

  /** A probing arm passes assignments until the probe's outcome decides: success makes
      it active with a clean record, failure disables it for a whole cooldown. */
  lemma ProbeDecides(l: Limits, log: Log, e: Event, arm: Arm)
    requires Proper(l) && ArmAfter(l, log, arm).status.Probing?
    ensures var s := ArmAfter(l, Then(log, e), arm);
            if e == Outcome(arm, true) then s == FRESH
            else if e == Outcome(arm, false) then s.status.Disabled? && s.remaining == l.cooldown
            else s == ArmAfter(l, log, arm)
  {
    if e.Call? {
      AssignedArm(After(l, log), e.known, arm);
      AfterCallsIs(ArmAfter(l, log, arm), Occurrences(e.known, arm));
    }
  }

  lemma {:induction false} OccursOnce(known: seq<Arm>, arm: Arm)
    requires NoRepeat(known)
    ensures Occurrences(known, arm) == if arm in known then 1 else 0
  {
    if known != [] {
      assert NoRepeat(known[1..]);
      assert arm in known <==> arm == known[0] || arm in known[1..];
      OccursOnce(known[1..], arm);
      assert forall k :: 0 <= k < |known| - 1 ==> known[1..][k] == known[k + 1] && known[k + 1] != known[0];
    }
  }

  /** A routed call changes an arm exactly if it is live and recorded and the arm is a known
      one in its cooldown. */
  lemma DrainsIff(rows: Rows, sampled: Option<Arm>, known: seq<Arm>, live: bool, arm: Arm)
    requires NoRepeat(known) && (!Eligible(rows, arm) ==> StateOf(rows, arm).remaining >= 1)
    ensures StateOf(Routed(rows, sampled, known, live), arm) != StateOf(rows, arm) <==>
      live && sampled.Some? && arm in known && !Eligible(rows, arm)
  {
    AssignedArm(rows, known, arm);
    AfterCallsIs(StateOf(rows, arm), Occurrences(known, arm));
    OccursOnce(known, arm);
  }

  /** Every assignment names the arm exactly once. */
  predicate EachOnce(log: Log, arm: Arm) {
    match log
    case Start => true
    case Then(past, e) => EachOnce(past, arm) && (e.Call? ==> NoRepeat(e.known) && arm in e.known)
  }

  function LiveCalls(log: Log): nat {
    match log
    case Start => 0
    case Then(past, e) => LiveCalls(past) + if e.Call? then 1 else 0
  }

  lemma {:induction false} CallsAreLive(log: Log, arm: Arm)
    requires EachOnce(log, arm)
    ensures Calls(log, arm) == LiveCalls(log)
  {
    if log.Then? {
      CallsAreLive(log.past, arm);
      if log.event.Call? { OccursOnce(log.event.known, arm); }
    }
  }

  /** With the known arms listed once each, exactly the next `cooldown` live calls after
      a trip find the arm suppressed, and the first one after them lets it through. */
  lemma ExactlyCooldownCalls(l: Limits, log: Log, e: Event, more: Log, known: seq<Arm>, arm: Arm, actual: Arm)
    requires Proper(l) && Trips(l, log, e, arm)
    requires EachOnce(Then(more, Call(known)), arm) && LiveCalls(more) < l.cooldown
    ensures Route(After(l, Append(Then(log, e), more)), Some(arm), actual, true) == Routing(actual, false, true)
    ensures LiveCalls(more) + 1 == l.cooldown ==>
      Route(After(l, Append(Then(log, e), Then(more, Call(known)))), Some(arm), actual, true).model == arm
  {
    CallsAreLive(Then(more, Call(known)), arm);
    CallsAreLive(more, arm);
    CoolsDown(l, log, e, more, arm);
    if LiveCalls(more) + 1 == l.cooldown {
      ThenProbes(l, log, e, more, known, arm);
    }
  }
}
