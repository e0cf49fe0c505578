/** The Architect -> Plan-Reviewer -> Editor -> Verify/Doctor -> Reviewer -> PR
    pipeline (src/pipeline/runner.ts).

    Workers, the verifier, git and the pull-request opener are an arbitrary
    oracle, asked at each `await` with the number of events so far, so that every
    behaviour of theirs is some oracle. `RunSpec` is the run as a function of the
    oracle; the method `Run` is the program with its three retry loops, proved
    equal to it; PipelineSafety.dfy and PipelineBounds.dfy prove what every run
    keeps. */
module PipelineRunner {
  import opened Prelude
  import opened Pipeline
  import opened PlanReviewer

  datatype Config = Config(
    crossProviderOk: bool,       // reviewer provider differs, or the pool has one provider
    planReviewer: bool,          // is a plan-reviewer configured
    costCapMultiplier: real,
    vetoCap: nat,                // PLAN_REVIEWER_MAX_VETOES
    doctorCap: int,
    maxRounds: int)

  /** The architect's text as the runner tells it apart after trimming. */
  datatype PlanText = BlankPlan | ResolvedSignal | Plan(text: string)

  datatype ArchitectAnswer =
    | ArchitectThrew
    | ArchitectRan(ok: bool, cost: Option<real>, tokens: Option<nat>, interview: bool, plan: PlanText, approved: bool)

  /** The worktree diff after an editor run; the runner only asks whether it is blank. */
  datatype DiffText = BlankDiff | Diff(text: string)

  datatype EditorAnswer =
    | EditorThrew
    | EditorRan(ok: bool, cost: Option<real>, tokens: Option<nat>, diff: DiffText, noChangesNeeded: bool)

  datatype VerifyAnswer = VerifyThrew | VerifyRan(ok: bool)

  datatype DoctorAnswer =
    | DoctorThrew
    | DoctorRan(ok: bool, cost: Option<real>, tokens: Option<nat>, requiresNewBrief: bool)

  datatype ReviewAnswer =
    | ReviewThrew
    | ReviewRan(ok: bool, cost: Option<real>, tokens: Option<nat>, haikuGate: bool, approve: bool)

  datatype EditMode = Initial | FixCi | FixReview

  datatype Notice =
    | GateNotice(round: int)
    | VetoNotice(attempt: nat, reasons: seq<VetoReason>)
    | EscalationNotice(attempts: nat, reasons: seq<VetoReason>)
    | SkipNotice(attempt: nat, reason: SkipReason)
    | RejectionNotice(rounds: int)

  /** Everything a run does that somebody else can see, with the inputs it hands over. */
  datatype Event =
    | AskedArchitect(given: seq<VetoReason>, architect: ArchitectAnswer)
    | AskedPlanReviewer(reviewed: string, prior: seq<VetoReason>, step: ReviewStep)
    | AskedEditor(mode: EditMode, plan: string, editor: EditorAnswer)
    | Verified(verify: VerifyAnswer)
    | AskedDoctor(plan: string, diff: DiffText, doctor: DoctorAnswer)
    | AskedReviewer(plan: string, diff: DiffText, review: ReviewAnswer)
    | ReadBranch(ok: bool)
    | CalledPrOpen(url: Option<string>)      // None: the opener threw
    | Emitted(notice: Notice)

  type Log = History<Event>

  datatype Oracle = Oracle(
    architect: nat -> ArchitectAnswer,
    planReview: nat -> WorkerAnswer,
    editor: nat -> EditorAnswer,
    verify: nat -> VerifyAnswer,
    doctor: nat -> DoctorAnswer,
    review: nat -> ReviewAnswer,
    branchOk: nat -> bool,
    prOpen: nat -> Option<string>,
    aborted: nat -> bool)

  /** The mutable part of a run: events so far, and the `attempts` array. */
  datatype State = State(time: nat, log: Log, attempts: History<Attempt>) {
    function See(e: Event): State {
      State(time + 1, Then(log, e), attempts)
    }
    function Push(a: Attempt): State {
      this.(attempts := Then(attempts, a))
    }
  }

  const BEGIN := State(0, Start, Start)

  function TokenSum(attempts: History<Attempt>): nat {
    match attempts
    case Start => 0
    case Then(past, a) => TokenSum(past) + a.tokens.GetOr(0)
  }

  /** Tokens over the whole run; a zero total is reported as "unknown". */
  function SumTokens(attempts: History<Attempt>): Option<nat> {
    if TokenSum(attempts) > 0 then Some(TokenSum(attempts)) else None
  }

  function CountDoctors(attempts: History<Attempt>): nat {
    match attempts
    case Start => 0
    case Then(past, a) => CountDoctors(past) + if a.role.Doctor? then 1 else 0
  }

  type Ending = (Outcome, Log)

  function Stop(attempts: History<Attempt>, status: Status): Outcome {
    Returned(Result(status, None, None, attempts, SumTokens(attempts)))
  }

  function Failure(attempts: History<Attempt>, reason: FailureReason): Outcome {
    Returned(Result(Failed, None, Some(reason), attempts, SumTokens(attempts)))
  }

  function Finish(st: State, status: Status): Ending {
    (Stop(st.attempts, status), st.log)
  }

  function Fail(st: State, reason: FailureReason): Ending {
    (Failure(st.attempts, reason), st.log)
  }

  function Throw(st: State): Ending {
    (Threw, st.log)
  }

  function AwaitAnswers(st: State): Ending {
    (Returned(Result(AwaitingInterview, None, None, st.attempts, None)), st.log)
  }

  function RunSpec(c: Config, o: Oracle): Ending {
    if !c.crossProviderOk then Fail(BEGIN, CrossProvider)
    else if o.aborted(0) then Finish(BEGIN, Cancelled)
    else PlanLoop(c, o, 1, [], BEGIN)
  }

  /** What one round of a retry loop leads to. */
  datatype Round =
    | Ended(ending: Ending)
    | Accepted(plan: string, st: State)
    | Replan(prior: seq<VetoReason>, st: State)
    | Green(verify: VerifyAnswer, st: State)
    | Retry(diff: DiffText, st: State)
    | Approved(st: State)
    | Exhausted(st: State)
    | Again(diff: DiffText, verify: VerifyAnswer, st: State)

  function PlanLoop(c: Config, o: Oracle, k: nat, prior: seq<VetoReason>, st: State): Ending
    decreases c.vetoCap + 1 - k
  {
    if k > c.vetoCap then AfterPlan(c, o, None, st)
    else match PlanRound(c, o, k, prior, st)
      case Ended(ending) => ending
      case Accepted(plan, st') => AfterPlan(c, o, Some(plan), st')
      case Replan(prior', st') => PlanLoop(c, o, k + 1, prior', st')
  }

  function PlanRound(c: Config, o: Oracle, k: nat, prior: seq<VetoReason>, st: State): (r: Round)
    ensures r.Ended? || r.Accepted? || r.Replan?
  {
    var a := o.architect(st.time);
    var st := st.See(AskedArchitect(prior, a));
    if a.ArchitectThrew? then Ended(Throw(st))
    else AfterArchitect(c, o, k, prior, a, st.Push(Attempt(Architect, a.ok, a.cost, a.tokens)))
  }

  /** What the architect's answer leads to. */
  function AfterArchitect(c: Config, o: Oracle, k: nat, prior: seq<VetoReason>, a: ArchitectAnswer,
                          st: State): (r: Round)
    requires a.ArchitectRan?
    ensures r.Ended? || r.Accepted? || r.Replan?
  {
    if !a.ok then Ended(Fail(st, ArchitectFailed))
    else if a.interview then Ended(AwaitAnswers(st))
    else if a.plan.BlankPlan? then Ended(Fail(st, EmptyPlan))
    else if a.plan.ResolvedSignal? then Ended(Finish(st, AlreadyResolved))
    else if o.aborted(st.time) then Ended(Finish(st, Cancelled))
    else if !a.approved then Ended(Fail(st, PlanNotApproved))
    else if !c.planReviewer then Accepted(a.plan.text, st)
    else ReviewPlan(c, o, k, prior, a, st)
  }

  function ReviewPlan(c: Config, o: Oracle, k: nat, prior: seq<VetoReason>, a: ArchitectAnswer, st: State): (r: Round)
    requires a.ArchitectRan? && a.plan.Plan?
    ensures r.Ended? || r.Accepted? || r.Replan?
  {
    var step := RunPlanReviewer(o.planReview(st.time), a.cost, c.costCapMultiplier);
    var st := st.See(AskedPlanReviewer(a.plan.text, prior, step)).Push(step.attempt);
    match step.skipped
    case Some(reason) => Accepted(a.plan.text, st.See(Emitted(SkipNotice(k, reason))))
    case None =>
      if step.review.Approve? then Accepted(a.plan.text, st)
      else
        var reasons := step.review.reasons;
        var st := st.See(Emitted(VetoNotice(k, reasons)));
        if k >= c.vetoCap then Ended(Fail(st.See(Emitted(EscalationNotice(k, reasons))), PlanVetoed))
        else Replan(prior + reasons, st)
  }

  /** `accepted` is None when the loop ran out without a plan. */
  function AfterPlan(c: Config, o: Oracle, accepted: Option<string>, st: State): Ending {
    if accepted.None? then Fail(st, NoPlan)
    else
      var plan := accepted.value;
      var e := o.editor(st.time);
      var st := st.See(AskedEditor(Initial, plan, e));
      if e.EditorThrew? then Throw(st)
      else
        var st := st.Push(Attempt(Editor, e.ok, e.cost, e.tokens));
        if !e.ok then Fail(st, EditorFailed)
        else if e.diff.BlankDiff? then
          if e.noChangesNeeded then Finish(st, AlreadyResolved) else Fail(st, NoDiff)
        else if o.aborted(st.time) then Finish(st, Cancelled)
        else VerifyLoop(c, o, plan, e.diff, st)
  }

  function VerifyLoop(c: Config, o: Oracle, plan: string, diff: DiffText, st: State): Ending
    decreases if CountDoctors(st.attempts) > c.doctorCap then 0 else c.doctorCap - CountDoctors(st.attempts)
  {
    match VerifyRound(c, o, plan, diff, st)
    case Ended(ending) => ending
    case Green(v, st') => ReviewLoop(c, o, 1, plan, diff, Some(v), false, st')
    case Retry(diff', st') => VerifyLoop(c, o, plan, diff', st')
  }

  /** Verify once; when red, one doctor run and one editor retry. */
  function VerifyRound(c: Config, o: Oracle, plan: string, diff: DiffText, st: State): (r: Round)
    ensures r.Ended? || r.Green? || r.Retry?
    ensures r.Retry? ==>
        CountDoctors(st.attempts) < c.doctorCap && CountDoctors(r.st.attempts) == CountDoctors(st.attempts) + 1
  {
    var v := o.verify(st.time);
    var st := st.See(Verified(v));
    if v.VerifyThrew? then Ended(Throw(st))
    else if v.ok then Green(v, st)
    else if o.aborted(st.time) then Ended(Finish(st, Cancelled))
    else if CountDoctors(st.attempts) >= c.doctorCap then Ended(Fail(st, DoctorLimit))
    else DoctorPass(o, plan, diff, st)
  }

  function DoctorPass(o: Oracle, plan: string, diff: DiffText, st: State): (r: Round)
    ensures r.Ended? || (r.Retry? && CountDoctors(r.st.attempts) == CountDoctors(st.attempts) + 1)
  {
    var d := o.doctor(st.time);
    var st := st.See(AskedDoctor(plan, diff, d));
    if d.DoctorThrew? then Ended(Throw(st))
    else
      var st := st.Push(Attempt(Doctor, d.ok, d.cost, d.tokens));
      if !d.ok then Ended(Fail(st, DoctorFailed))
      else if d.requiresNewBrief then Ended(Fail(st, NewBriefNeeded))
      else if o.aborted(st.time) then Ended(Finish(st, Cancelled))
      else EditorRetry(o, plan, st)
  }

  /** The editor's retry after the doctor's diagnosis. */
  function EditorRetry(o: Oracle, plan: string, st: State): (r: Round)
    ensures r.Ended? || (r.Retry? && CountDoctors(r.st.attempts) == CountDoctors(st.attempts))
  {
    var e := o.editor(st.time);
    var st := st.See(AskedEditor(FixCi, plan, e));
    if e.EditorThrew? then Ended(Throw(st))
    else
      var st := st.Push(Attempt(Editor, e.ok, e.cost, e.tokens));
      if !e.ok then Ended(Fail(st, EditorRetryFailed))
      else if o.aborted(st.time) then Ended(Finish(st, Cancelled))
      else Retry(e.diff, st)
  }

  /** `rejected` says whether some round has already asked for changes. */
  function ReviewLoop(c: Config, o: Oracle, round: int, plan: string, diff: DiffText,
                      lastVerify: Option<VerifyAnswer>, rejected: bool, st: State): Ending
    decreases if round > c.maxRounds then 0 else c.maxRounds - round + 1
  {
    if round > c.maxRounds then Block(rejected, round - 1, st)
    else match ReviewRound(c, o, round, plan, diff, st)
      case Ended(ending) => ending
      case Approved(st') => OpenPr(o, lastVerify, st')
      case Exhausted(st') => Block(true, round, st')
      case Again(diff', v, st') => ReviewLoop(c, o, round + 1, plan, diff', Some(v), true, st')
  }

  /** Ask the reviewer once; when changes are requested and rounds remain, one
      editor fix pass and one re-verification. */
  function ReviewRound(c: Config, o: Oracle, round: int, plan: string, diff: DiffText, st: State): (r: Round)
    ensures r.Ended? || r.Approved? || r.Exhausted? || r.Again?
  {
    if o.aborted(st.time) then Ended(Finish(st, Cancelled))
    else
      var r := o.review(st.time);
      var st := st.See(AskedReviewer(plan, diff, r));
      if r.ReviewThrew? then Ended(Throw(st))
      else
        var st := st.Push(Attempt(Reviewer, r.ok, r.cost, r.tokens));
        AfterReview(c, o, round, plan, r.approve, if r.haikuGate then st.See(Emitted(GateNotice(round))) else st)
  }

  /** What the reviewer's verdict leads to. */
  function AfterReview(c: Config, o: Oracle, round: int, plan: string, approve: bool, st: State): (r: Round)
    ensures r.Ended? || r.Approved? || r.Exhausted? || r.Again?
  {
    if approve then Approved(st)
    else if round >= c.maxRounds then Exhausted(st)
    else if o.aborted(st.time) then Ended(Finish(st, Cancelled))
    else FixPass(o, plan, st)
  }

  function FixPass(o: Oracle, plan: string, st: State): (r: Round)
    ensures r.Ended? || r.Again?
  {
    var e := o.editor(st.time);
    var st := st.See(AskedEditor(FixReview, plan, e));
    if e.EditorThrew? then Ended(Throw(st))
    else
      var st := st.Push(Attempt(Editor, e.ok, e.cost, e.tokens));
      if !e.ok then Ended(Fail(st, EditorFixFailed))
      else
        var v := o.verify(st.time);
        var st := st.See(Verified(v));
        if v.VerifyThrew? then Ended(Throw(st))
        else if !v.ok then Ended(Fail(st, VerifyAfterFixFailed))
        else Again(e.diff, v, st)
  }

  function Block(rejected: bool, rounds: int, st: State): Ending {
    if rejected then Finish(st.See(Emitted(RejectionNotice(rounds))), BlockedByReviewer)
    else Finish(st, BlockedByReviewer)
  }

  function OpenPr(o: Oracle, lastVerify: Option<VerifyAnswer>, st: State): Ending {
    if o.aborted(st.time) then Finish(st, Cancelled)
    else if lastVerify != Some(VerifyRan(true)) then Fail(st, VerifyNotPassed)
    else
      var branchOk := o.branchOk(st.time);
      var st := st.See(ReadBranch(branchOk));
      if !branchOk then Throw(st)
      else
        var url := o.prOpen(st.time);
        var st := st.See(CalledPrOpen(url));
        if url.None? then Throw(st)
        else (Returned(Result(PrOpened, url, None, st.attempts, SumTokens(st.attempts))), st.log)
  }

  /** One iteration of the architect / plan-reviewer loop. */
  method PlanOnce(c: Config, o: Oracle, k: nat, prior: seq<VetoReason>, st: State) returns (r: Round)
    ensures r == PlanRound(c, o, k, prior, st)
  {
    var time, log, attempts := st.time, st.log, st.attempts;
    var a := o.architect(time);
    time, log := time + 1, Then(log, AskedArchitect(prior, a));
    if a.ArchitectThrew? { return Ended((Threw, log)); }
    attempts := Then(attempts, Attempt(Architect, a.ok, a.cost, a.tokens));
    if !a.ok { return Ended((Failure(attempts, ArchitectFailed), log)); }
    if a.interview { return Ended((Returned(Result(AwaitingInterview, None, None, attempts, None)), log)); }
    if a.plan.BlankPlan? { return Ended((Failure(attempts, EmptyPlan), log)); }
    if a.plan.ResolvedSignal? { return Ended((Stop(attempts, AlreadyResolved), log)); }
    if !a.approved {
      if o.aborted(time) { return Ended((Stop(attempts, Cancelled), log)); }
      return Ended((Failure(attempts, PlanNotApproved), log));
    }
    if o.aborted(time) { return Ended((Stop(attempts, Cancelled), log)); }
    if !c.planReviewer { return Accepted(a.plan.text, State(time, log, attempts)); }

    var step := RunPlanReviewer(o.planReview(time), a.cost, c.costCapMultiplier);
    time, log := time + 1, Then(log, AskedPlanReviewer(a.plan.text, prior, step));
    attempts := Then(attempts, step.attempt);
    if step.skipped.Some? {
      time, log := time + 1, Then(log, Emitted(SkipNotice(k, step.skipped.value)));
      return Accepted(a.plan.text, State(time, log, attempts));
    }
    if step.review.Approve? { return Accepted(a.plan.text, State(time, log, attempts)); }
    var reasons := prior + step.review.reasons;
    time, log := time + 1, Then(log, Emitted(VetoNotice(k, step.review.reasons)));
    if k >= c.vetoCap {
      log := Then(log, Emitted(EscalationNotice(k, step.review.reasons)));
      return Ended((Failure(attempts, PlanVetoed), log));
    }
    r := Replan(reasons, State(time, log, attempts));
  }

  /** One iteration of the verify / doctor loop. */
  method VerifyOnce(c: Config, o: Oracle, plan: string, diff: DiffText, st: State) returns (r: Round)
    ensures r == VerifyRound(c, o, plan, diff, st)
  {
    var time, log, attempts := st.time, st.log, st.attempts;
    var v := o.verify(time);
    time, log := time + 1, Then(log, Verified(v));
    if v.VerifyThrew? { return Ended((Threw, log)); }
    if v.ok { return Green(v, State(time, log, attempts)); }
    if o.aborted(time) { return Ended((Stop(attempts, Cancelled), log)); }
    if CountDoctors(attempts) >= c.doctorCap { return Ended((Failure(attempts, DoctorLimit), log)); }
    var d := o.doctor(time);
    time, log := time + 1, Then(log, AskedDoctor(plan, diff, d));
    if d.DoctorThrew? { return Ended((Threw, log)); }
    attempts := Then(attempts, Attempt(Doctor, d.ok, d.cost, d.tokens));
    if !d.ok { return Ended((Failure(attempts, DoctorFailed), log)); }
    if d.requiresNewBrief { return Ended((Failure(attempts, NewBriefNeeded), log)); }
    if o.aborted(time) { return Ended((Stop(attempts, Cancelled), log)); }
    var e := o.editor(time);
    time, log := time + 1, Then(log, AskedEditor(FixCi, plan, e));
    if e.EditorThrew? { return Ended((Threw, log)); }
    attempts := Then(attempts, Attempt(Editor, e.ok, e.cost, e.tokens));
    if !e.ok { return Ended((Failure(attempts, EditorRetryFailed), log)); }
    if o.aborted(time) { return Ended((Stop(attempts, Cancelled), log)); }
    r := Retry(e.diff, State(time, log, attempts));
  }

  /** One iteration of the reviewer loop. */
  method ReviewOnce(c: Config, o: Oracle, round: int, plan: string, diff: DiffText, st: State) returns (r: Round)
    ensures r == ReviewRound(c, o, round, plan, diff, st)
  {
    var time, log, attempts := st.time, st.log, st.attempts;
    if o.aborted(time) { return Ended((Stop(attempts, Cancelled), log)); }
    var answer := o.review(time);
    time, log := time + 1, Then(log, AskedReviewer(plan, diff, answer));
    if answer.ReviewThrew? { return Ended((Threw, log)); }
    attempts := Then(attempts, Attempt(Reviewer, answer.ok, answer.cost, answer.tokens));
    if answer.haikuGate {
      time, log := time + 1, Then(log, Emitted(GateNotice(round)));
    }
    if answer.approve { return Approved(State(time, log, attempts)); }
    if round >= c.maxRounds { return Exhausted(State(time, log, attempts)); }
    if o.aborted(time) { return Ended((Stop(attempts, Cancelled), log)); }
    var e := o.editor(time);
    time, log := time + 1, Then(log, AskedEditor(FixReview, plan, e));
    if e.EditorThrew? { return Ended((Threw, log)); }
    attempts := Then(attempts, Attempt(Editor, e.ok, e.cost, e.tokens));
    if !e.ok { return Ended((Failure(attempts, EditorFixFailed), log)); }
    var v := o.verify(time);
    time, log := time + 1, Then(log, Verified(v));
    if v.VerifyThrew? { return Ended((Threw, log)); }
    if !v.ok { return Ended((Failure(attempts, VerifyAfterFixFailed), log)); }
    r := Again(e.diff, v, State(time, log, attempts));
  }

  /** The last lines of the run: a sanity check on verify, then the pull request. */
  method Open(o: Oracle, lastVerify: Option<VerifyAnswer>, st: State) returns (r: Outcome, log: Log)
    ensures (r, log) == OpenPr(o, lastVerify, st)
  {
    var time := st.time;
    log := st.log;
    if o.aborted(time) { return Stop(st.attempts, Cancelled), log; }
    if lastVerify != Some(VerifyRan(true)) { return Failure(st.attempts, VerifyNotPassed), log; }
    var branchOk := o.branchOk(time);
    time, log := time + 1, Then(log, ReadBranch(branchOk));
    if !branchOk { return Threw, log; }
    var url := o.prOpen(time);
    log := Then(log, CalledPrOpen(url));
    if url.None? { return Threw, log; }
    r := Returned(Result(PrOpened, url, None, st.attempts, SumTokens(st.attempts)));
  }

  /** Initial edit, then the verify loop and the review loop over the locals
      `diff`, `lastVerify` and `rejected`. */
  method EditVerifyReview(c: Config, o: Oracle, accepted: Option<string>, start: State) returns (r: Outcome, log: Log)
    ensures (r, log) == AfterPlan(c, o, accepted, start)
  {
    var st := start;
    if accepted.None? { return Failure(st.attempts, NoPlan), st.log; }
    var plan := accepted.value;
    var e := o.editor(st.time);
    st := st.See(AskedEditor(Initial, plan, e));
    if e.EditorThrew? { return Threw, st.log; }
    st := st.Push(Attempt(Editor, e.ok, e.cost, e.tokens));
    if !e.ok { return Failure(st.attempts, EditorFailed), st.log; }
    var diff := e.diff;
    if diff.BlankDiff? {
      if e.noChangesNeeded { return Stop(st.attempts, AlreadyResolved), st.log; }
      return Failure(st.attempts, NoDiff), st.log;
    }
    if o.aborted(st.time) { return Stop(st.attempts, Cancelled), st.log; }

    var lastVerify: Option<VerifyAnswer> := None;
    while lastVerify.None?
      invariant AfterPlan(c, o, accepted, start) ==
        if lastVerify.None? then VerifyLoop(c, o, plan, diff, st)
        else ReviewLoop(c, o, 1, plan, diff, lastVerify, false, st)
      decreases lastVerify.None?,
        if CountDoctors(st.attempts) > c.doctorCap then 0 else c.doctorCap - CountDoctors(st.attempts)
    {
      var next := VerifyOnce(c, o, plan, diff, st);
      match next {
        case Ended(ending) => return ending.0, ending.1;
        case Green(v, st') => lastVerify, st := Some(v), st';
        case Retry(diff', st') => diff, st := diff', st';
      }
    }

    var rejected, round := false, 1;
    while round <= c.maxRounds
      invariant AfterPlan(c, o, accepted, start) == ReviewLoop(c, o, round, plan, diff, lastVerify, rejected, st)
      decreases c.maxRounds - round
    {
      var next := ReviewOnce(c, o, round, plan, diff, st);
      match next {
        case Ended(ending) => return ending.0, ending.1;
        case Approved(st') =>
          r, log := Open(o, lastVerify, st');
          return;
        case Exhausted(st') =>
          return Stop(st'.attempts, BlockedByReviewer), Then(st'.log, Emitted(RejectionNotice(round)));
        case Again(diff', v, st') =>
          diff, lastVerify, rejected, st, round := diff', Some(v), true, st', round + 1;
      }
    }
    log := if rejected then Then(st.log, Emitted(RejectionNotice(round - 1))) else st.log;
    r := Stop(st.attempts, BlockedByReviewer);
  }

  /** The whole program. */
  method Run(c: Config, o: Oracle) returns (r: Outcome, log: Log)
    ensures (r, log) == RunSpec(c, o)
  {
    if !c.crossProviderOk { return Failure(Start, CrossProvider), Start; }
    if o.aborted(0) { return Stop(Start, Cancelled), Start; }
    var plan: Option<string>, st := None, BEGIN;
    var prior: seq<VetoReason>, k := [], 1;
    while k <= c.vetoCap && plan.None?
      invariant 1 <= k
      invariant RunSpec(c, o) ==
        if plan.None? then PlanLoop(c, o, k, prior, st) else AfterPlan(c, o, plan, st)
      decreases plan.None?, c.vetoCap - k
    {
      var next := PlanOnce(c, o, k, prior, st);
      match next {
        case Ended(ending) => return ending.0, ending.1;
        case Accepted(plan', st') => plan, st := Some(plan'), st';
        case Replan(prior', st') => prior, st, k := prior', st', k + 1;
      }
    }
    r, log := EditVerifyReview(c, o, plan, st);
  }
}
