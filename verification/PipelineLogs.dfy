/** Every line of a run's log is true: what it says a collaborator answered is what that
    collaborator answered then, and exactly the notices that are owed are sent. */
module PipelineLogs {
  import opened Prelude
  import opened Pipeline
  import opened PlanReviewer
  import opened PipelineRunner
  import opened PipelineBounds
  import opened PipelineVerdicts

  /** The notice that the last event calls for. */
  function Owed(c: Config, log: Log): Option<Notice> {
    match log
    case Start => None
    case Then(past, AskedPlanReviewer(_, _, step)) =>
      (match step.skipped
       case Some(reason) => Some(SkipNotice(Count(past).architects, reason))
       case None =>
         if step.review.Veto? then Some(VetoNotice(Count(past).architects, step.review.reasons)) else None)
    case Then(past, Emitted(VetoNotice(k, reasons))) =>
      if Count(past).architects >= c.vetoCap then Some(EscalationNotice(k, reasons)) else None
    case Then(past, AskedReviewer(_, _, ReviewRan(_, _, _, haikuGate, _))) =>
      if haikuGate then Some(GateNotice(Count(past).reviews + 1)) else None
    case _ => None
  }

  /** The architect's answer just before, on which the plan-reviewer was asked. */
  predicate PlanIn(log: Log, plan: string, cost: Option<real>) {
    log.Then? && log.event.AskedArchitect? && log.event.architect.ArchitectRan?
    && log.event.architect.plan == Plan(plan) && log.event.architect.cost == cost
  }

  function ArchitectCost(log: Log): Option<real> {
    if log.Then? && log.event.AskedArchitect? && log.event.architect.ArchitectRan? then log.event.architect.cost
    else None
  }

  /** No collaborator is asked when the run stands where it looks at the abort signal and the
      signal is up. */
  predicate Heeds(c: Config, o: Oracle, past: Log, e: Event) {
    e.Emitted? || (Checkpoint(c, past) ==> !o.aborted(Length(past)))
  }

  /** The plan-reviewer, if there is one, has just passed the plan or was skipped. */
  predicate Passed(c: Config, log: Log) {
    c.planReviewer ==>
      log.Then? && (log.event.AskedPlanReviewer? || (log.event.Emitted? && log.event.notice.SkipNotice?))
  }

  /** What the event says is what the collaborator it names answered at that point. */
  predicate TrueThen(c: Config, o: Oracle, past: Log, e: Event) {
    var n := Length(past);
    match e
    case AskedArchitect(_, a) => a == o.architect(n)
    case AskedPlanReviewer(plan, _, step) =>
      && c.planReviewer && PlanIn(past, plan, ArchitectCost(past))
      && step == RunPlanReviewer(o.planReview(n), ArchitectCost(past), c.costCapMultiplier)
    case AskedEditor(mode, _, a) => a == o.editor(n) && (mode.Initial? ==> Passed(c, past))
    case Verified(v) => v == o.verify(n)
    case AskedDoctor(_, _, d) => d == o.doctor(n)
    case AskedReviewer(_, _, r) => r == o.review(n)
    case ReadBranch(ok) => ok == o.branchOk(n)
    case CalledPrOpen(url) => url == o.prOpen(n)
    case Emitted(RejectionNotice(rounds)) => rounds == Count(past).reviews
    case Emitted(_) => true
  }

  predicate Honest(c: Config, o: Oracle, log: Log) {
    match log
    case Start => true
    case Then(past, e) =>
      && Honest(c, o, past) && TrueThen(c, o, past, e) && Heeds(c, o, past, e)
      && (match Owed(c, past)
          case Some(notice) => e == Emitted(notice)
          case None => e.Emitted? ==> e.notice.RejectionNotice?)
  }

  /** The log is true and nothing is owed. */
  predicate Settled(c: Config, o: Oracle, log: Log) {
    Honest(c, o, log) && Owed(c, log).None?
  }

  /** The total is that of the result's own attempts; none while the run waits for answers. */
  predicate Totalled(out: Outcome) {
    out.Returned? ==>
      out.result.totalTokens ==
        if out.result.status.AwaitingInterview? then None else SumTokens(out.result.attempts)
  }

  predicate EndTrue(c: Config, o: Oracle, end: Ending) {
    Settled(c, o, end.1) && Totalled(end.0)
  }

  // ----- rounds -----

  predicate Live(c: Config, o: Oracle, st: State) {
    st.time == Length(st.log) && Settled(c, o, st.log)
  }

  /** Not at a place where a raised signal would stop the run. */
  predicate Clear(c: Config, o: Oracle, st: State) {
    Live(c, o, st) && (Checkpoint(c, st.log) ==> !o.aborted(st.time))
  }

  predicate Reviewing(c: Config, o: Oracle, reviews: int, st: State) {
    Live(c, o, st) && Count(st.log).reviews == reviews
  }

  predicate RoundTrue(c: Config, o: Oracle, k: int, r: Round) {
    match r
    case Ended(end) => EndTrue(c, o, end)
    case Accepted(_, st) => Reviewing(c, o, 0, st) && Clear(c, o, st) && Passed(c, st.log)
    case Replan(_, st) => Reviewing(c, o, 0, st) && Clear(c, o, st) && Count(st.log).architects == k && k < c.vetoCap
    case Green(_, st) => Reviewing(c, o, 0, st)
    case Retry(_, st) => Reviewing(c, o, 0, st) && Clear(c, o, st)
    case Approved(st) => Live(c, o, st)
    case Exhausted(st) => Reviewing(c, o, k, st)
    case Again(_, _, st) => Reviewing(c, o, k, st)
  }

  /** An event that is true and owes nothing. */
  lemma SeeTrue(c: Config, o: Oracle, st: State, e: Event)
    requires Clear(c, o, st) && TrueThen(c, o, st.log, e) && !e.Emitted? && Owed(c, Then(st.log, e)).None?
    ensures Live(c, o, st.See(e))
  {}

  lemma PlanRoundTrue(c: Config, o: Oracle, k: nat, prior: seq<VetoReason>, st: State)
    requires Reviewing(c, o, 0, st) && Clear(c, o, st) && Count(st.log).architects == k - 1 && k <= c.vetoCap
    ensures RoundTrue(c, o, k, PlanRound(c, o, k, prior, st))
  {
    var a := o.architect(st.time);
    var st1 := st.See(AskedArchitect(prior, a));
    SeeTrue(c, o, st, AskedArchitect(prior, a));
    assert Count(st1.log) == Add(Count(st.log), st1.log.event);
    if a.ArchitectRan? {
      AfterArchitectTrue(c, o, k, prior, a, st1.Push(Attempt(Architect, a.ok, a.cost, a.tokens)));
    }
  }

  lemma AfterArchitectTrue(c: Config, o: Oracle, k: nat, prior: seq<VetoReason>, a: ArchitectAnswer, st: State)
    requires a.ArchitectRan? && Reviewing(c, o, 0, st) && Count(st.log).architects == k && k <= c.vetoCap
    requires st.log.Then? && st.log.event == AskedArchitect(prior, a)
    ensures RoundTrue(c, o, k, AfterArchitect(c, o, k, prior, a, st))
  {
    if a.plan.Plan? && !o.aborted(st.time) && c.planReviewer { ReviewPlanTrue(c, o, k, prior, a, st); }
  }

  lemma ReviewPlanTrue(c: Config, o: Oracle, k: nat, prior: seq<VetoReason>, a: ArchitectAnswer, st: State)
    requires a.ArchitectRan? && a.plan.Plan? && c.planReviewer && Clear(c, o, st)
    requires Reviewing(c, o, 0, st) && Count(st.log).architects == k && k <= c.vetoCap
    requires st.log.Then? && st.log.event == AskedArchitect(prior, a)
    ensures RoundTrue(c, o, k, ReviewPlan(c, o, k, prior, a, st))
  {
    var step := RunPlanReviewer(o.planReview(st.time), a.cost, c.costCapMultiplier);
    var asked := AskedPlanReviewer(a.plan.text, prior, step);
    var st1 := st.See(asked).Push(step.attempt);
    assert TrueThen(c, o, st.log, asked);
    assert Honest(c, o, st1.log) && Count(st1.log).architects == k && Count(st1.log).reviews == 0;
    if step.skipped.Some? {
      NoticeTrue(c, o, st1, SkipNotice(k, step.skipped.value));
    } else if step.review.Veto? {
      VetoTrue(c, o, k, step.review.reasons, st1);
    }
  }

  lemma NoticeTrue(c: Config, o: Oracle, st: State, notice: Notice)
    requires st.time == Length(st.log) && Honest(c, o, st.log) && Owed(c, st.log) == Some(notice)
    requires !notice.VetoNotice? && !notice.RejectionNotice?
    ensures Live(c, o, st.See(Emitted(notice))) && Count(st.See(Emitted(notice)).log) == Count(st.log)
  {}

  lemma VetoTrue(c: Config, o: Oracle, k: nat, reasons: seq<VetoReason>, st: State)
    requires st.time == Length(st.log) && Honest(c, o, st.log) && Owed(c, st.log) == Some(VetoNotice(k, reasons))
    requires Count(st.log).architects == k
    ensures var st1 := st.See(Emitted(VetoNotice(k, reasons)));
            && Count(st1.log) == Count(st.log)
            && (k < c.vetoCap ==> Live(c, o, st1))
            && (k >= c.vetoCap ==> Live(c, o, st1.See(Emitted(EscalationNotice(k, reasons)))))
  {
    var st1 := st.See(Emitted(VetoNotice(k, reasons)));
    assert Honest(c, o, st1.log);
    if k >= c.vetoCap { NoticeTrue(c, o, st1, EscalationNotice(k, reasons)); }
  }

  lemma EditorTrue(c: Config, o: Oracle, mode: EditMode, plan: string, st: State)
    requires Clear(c, o, st) && (mode.Initial? ==> Passed(c, st.log))
    ensures var st1 := st.See(AskedEditor(mode, plan, o.editor(st.time)));
            Live(c, o, st1) && Count(st1.log).reviews == Count(st.log).reviews
  {
    SeeTrue(c, o, st, AskedEditor(mode, plan, o.editor(st.time)));
  }

  lemma VerifyTrue(c: Config, o: Oracle, st: State)
    requires Clear(c, o, st)
    ensures var st1 := st.See(Verified(o.verify(st.time)));
            Live(c, o, st1) && Count(st1.log) == Count(st.log)
  {
    SeeTrue(c, o, st, Verified(o.verify(st.time)));
  }

  lemma VerifyRoundTrue(c: Config, o: Oracle, plan: string, diff: DiffText, st: State)
    requires Reviewing(c, o, 0, st) && Clear(c, o, st)
    ensures RoundTrue(c, o, 0, VerifyRound(c, o, plan, diff, st))
  {
    VerifyTrue(c, o, st);
    var st1 := st.See(Verified(o.verify(st.time)));
    if Clear(c, o, st1) { DoctorPassTrue(c, o, plan, diff, st1); }
  }

  lemma DoctorPassTrue(c: Config, o: Oracle, plan: string, diff: DiffText, st: State)
    requires Reviewing(c, o, 0, st) && Clear(c, o, st)
    ensures RoundTrue(c, o, 0, DoctorPass(o, plan, diff, st))
  {
    var d := o.doctor(st.time);
    var st1 := st.See(AskedDoctor(plan, diff, d));
    SeeTrue(c, o, st, AskedDoctor(plan, diff, d));
    assert Count(st1.log).reviews == 0;
    if d.DoctorRan? && Clear(c, o, st1) {
      EditorTrue(c, o, FixCi, plan, st1.Push(Attempt(Doctor, d.ok, d.cost, d.tokens)));
    }
  }

  lemma FixPassTrue(c: Config, o: Oracle, round: int, plan: string, st: State)
    requires Reviewing(c, o, round, st) && Clear(c, o, st)
    ensures RoundTrue(c, o, round, FixPass(o, plan, st))
  {
    var e := o.editor(st.time);
    EditorTrue(c, o, FixReview, plan, st);
    if e.EditorRan? {
      VerifyTrue(c, o, st.See(AskedEditor(FixReview, plan, e)).Push(Attempt(Editor, e.ok, e.cost, e.tokens)));
    }
  }

  lemma ReviewRoundTrue(c: Config, o: Oracle, round: int, plan: string, diff: DiffText, st: State)
    requires Reviewing(c, o, round - 1, st)
    ensures RoundTrue(c, o, round, ReviewRound(c, o, round, plan, diff, st))
  {
    if o.aborted(st.time) { return; }
    var r := o.review(st.time);
    var st1 := st.See(AskedReviewer(plan, diff, r));
    assert Honest(c, o, st1.log) && Count(st1.log).reviews == round;
    if r.ReviewRan? {
      var st2 := st1.Push(Attempt(Reviewer, r.ok, r.cost, r.tokens));
      if r.haikuGate { NoticeTrue(c, o, st2, GateNotice(round)); }
      AfterReviewTrue(c, o, round, plan, r.approve, if r.haikuGate then st2.See(Emitted(GateNotice(round))) else st2);
    }
  }

  lemma AfterReviewTrue(c: Config, o: Oracle, round: int, plan: string, approve: bool, st: State)
    requires Reviewing(c, o, round, st)
    ensures RoundTrue(c, o, round, AfterReview(c, o, round, plan, approve, st))
  {
    if Clear(c, o, st) { FixPassTrue(c, o, round, plan, st); }
  }

  // ----- loops -----

  lemma OpenTrue(c: Config, o: Oracle, v: Option<VerifyAnswer>, st: State)
    requires Live(c, o, st)
    ensures EndTrue(c, o, OpenPr(o, v, st))
  {
    var branch := ReadBranch(o.branchOk(st.time));
    if o.aborted(st.time) { return; }
    SeeTrue(c, o, st, branch);
    SeeTrue(c, o, st.See(branch), CalledPrOpen(o.prOpen(st.time + 1)));
  }

  lemma BlockTrue(c: Config, o: Oracle, rejected: bool, rounds: int, st: State)
    requires Reviewing(c, o, rounds, st)
    ensures EndTrue(c, o, Block(rejected, rounds, st))
  {}

  lemma {:induction false} ReviewLoopTrue(c: Config, o: Oracle, round: int, plan: string, diff: DiffText,
                                          v: Option<VerifyAnswer>, rejected: bool, st: State)
    requires Reviewing(c, o, round - 1, st)
    ensures EndTrue(c, o, ReviewLoop(c, o, round, plan, diff, v, rejected, st))
    decreases if round > c.maxRounds then 0 else c.maxRounds - round + 1
  {
    if round > c.maxRounds {
      BlockTrue(c, o, rejected, round - 1, st);
    } else {
      ReviewRoundTrue(c, o, round, plan, diff, st);
      match ReviewRound(c, o, round, plan, diff, st)
      case Ended(_) =>
      case Approved(st') => OpenTrue(c, o, v, st');
      case Exhausted(st') => BlockTrue(c, o, true, round, st');
      case Again(diff', v', st') => ReviewLoopTrue(c, o, round + 1, plan, diff', Some(v'), true, st');
    }
  }

  lemma {:induction false} VerifyLoopTrue(c: Config, o: Oracle, plan: string, diff: DiffText, st: State)
    requires Reviewing(c, o, 0, st) && Clear(c, o, st)
    ensures EndTrue(c, o, VerifyLoop(c, o, plan, diff, st))
    decreases if CountDoctors(st.attempts) > c.doctorCap then 0 else c.doctorCap - CountDoctors(st.attempts)
  {
    VerifyRoundTrue(c, o, plan, diff, st);
    match VerifyRound(c, o, plan, diff, st)
    case Ended(_) =>
    case Green(v, st') => ReviewLoopTrue(c, o, 1, plan, diff, Some(v), false, st');
    case Retry(diff', st') => VerifyLoopTrue(c, o, plan, diff', st');
  }

  lemma EditTrue(c: Config, o: Oracle, accepted: Option<string>, st: State)
    requires Reviewing(c, o, 0, st) && Clear(c, o, st) && (accepted.Some? ==> Passed(c, st.log))
    ensures EndTrue(c, o, AfterPlan(c, o, accepted, st))
  {
    if accepted.Some? {
      var e := o.editor(st.time);
      EditorTrue(c, o, Initial, accepted.value, st);
      if e.EditorRan? {
        var st1 := st.See(AskedEditor(Initial, accepted.value, e)).Push(Attempt(Editor, e.ok, e.cost, e.tokens));
        if Clear(c, o, st1) { VerifyLoopTrue(c, o, accepted.value, e.diff, st1); }
      }
    }
  }

  lemma {:induction false} PlanLoopTrue(c: Config, o: Oracle, k: nat, prior: seq<VetoReason>, st: State)
    requires Reviewing(c, o, 0, st) && Clear(c, o, st) && Count(st.log).architects == k - 1
    ensures EndTrue(c, o, PlanLoop(c, o, k, prior, st))
    decreases c.vetoCap + 1 - k
  {
    if k > c.vetoCap {
      EditTrue(c, o, None, st);
    } else {
      PlanRoundTrue(c, o, k, prior, st);
      match PlanRound(c, o, k, prior, st)
      case Ended(_) =>
      case Accepted(plan, st') => EditTrue(c, o, Some(plan), st');
      case Replan(prior', st') => PlanLoopTrue(c, o, k + 1, prior', st');
    }
  }

  /** For every oracle: each line of a finished run's log is true of the oracle, the
      plan-reviewer judged the architect's newest plan with that run's cost and before any edit,
      if and only if there is one, nobody was asked where a raised abort signal stops the run,
      and exactly the notices that were owed were sent, each right after what called for it. */
  lemma EveryLogTrue(c: Config, o: Oracle)
    ensures EndTrue(c, o, RunSpec(c, o))
  {
    if c.crossProviderOk && !o.aborted(0) {
      PlanLoopTrue(c, o, 1, [], BEGIN);
    }
  }

  // ----- tokens -----

  /** Tokens that the runs in the log reported. */
  function LogTokens(log: Log): nat {
    match log
    case Start => 0
    case Then(past, e) => LogTokens(past) + match Booking(e) case Some(a) => a.tokens.GetOr(0) case None => 0
  }

  lemma {:induction false} TokensBooked(log: Log)
    ensures TokenSum(Bookings(log)) == LogTokens(log)
  {
    if log.Then? { TokensBooked(log.past); }
  }

  /** A result's total is what the runs in the log reported, and missing if that is nothing or
      the run waits for answers. */
  lemma TokensReported(c: Config, o: Oracle)
    ensures var (out, log) := RunSpec(c, o);
            out.Returned? ==>
              out.result.totalTokens ==
                if LogTokens(log) > 0 && !out.result.status.AwaitingInterview? then Some(LogTokens(log)) else None
  {
    EveryLogTrue(c, o);
    RunBounded(c, o);
    TokensBooked(RunSpec(c, o).1);
  }
}
