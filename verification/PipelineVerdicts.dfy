/** Why a pipeline run ended the way it did, read off its log.

    The last thing a finished run did, and whether the abort signal was up then,
    decide the status it returns and the reason it gives. */
module PipelineVerdicts {
  import opened Prelude
  import opened Pipeline
  import opened PlanReviewer
  import opened PipelineRunner
  import opened PipelineBounds

  function Length(log: Log): nat {
    match log
    case Start => 0
    case Then(past, _) => Length(past) + 1
  }

  /** Doctor runs that came back. */
  function Doctors(log: Log): nat {
    match log
    case Start => 0
    case Then(past, e) => Doctors(past) + if e.AskedDoctor? && e.doctor.DoctorRan? then 1 else 0
  }

  // ----- what the last event shows -----

  /** The architect came back with an answer and without questions. */
  predicate Answered(e: Event) {
    e.AskedArchitect? && e.architect.ArchitectRan? && e.architect.ok && !e.architect.interview
  }

  predicate EditorBack(e: Event, mode: EditMode, ok: bool) {
    e.AskedEditor? && e.mode == mode && e.editor.EditorRan? && e.editor.ok == ok
  }

  predicate DoctorBack(e: Event, ok: bool) {
    e.AskedDoctor? && e.doctor.DoctorRan? && e.doctor.ok == ok
  }

  /** The architect said that nothing is to be done, or the first editor did and left no diff. */
  predicate NothingToDo(log: Log) {
    log.Then? &&
      var e := log.event;
      || (Answered(e) && e.architect.plan.ResolvedSignal?)
      || (EditorBack(e, Initial, true) && e.editor.diff.BlankDiff? && e.editor.noChangesNeeded)
  }

  predicate QuestionsAsked(log: Log) {
    log.Then? && log.event.AskedArchitect?
    && log.event.architect.ArchitectRan? && log.event.architect.ok && log.event.architect.interview
  }

  /** Verify was red after a reviewer's fix pass. */
  predicate RedAfterFix(log: Log) {
    log.Then? && log.event == Verified(VerifyRan(false)) && log.past.Then? && AfterReviewFix(log.past.event)
  }

  predicate AfterReviewFix(e: Event) {
    e.AskedEditor? && e.mode.FixReview?
  }

  predicate RedBefore(log: Log) {
    log.Then? && log.event == Verified(VerifyRan(false)) && !RedAfterFix(log)
  }

  /** The run has come to one of the places where it looks at the abort signal. */
  predicate Checkpoint(c: Config, log: Log) {
    if log.Start? then c.crossProviderOk
    else
      var e := log.event;
      || (Answered(e) && e.architect.plan.Plan?)
      || (EditorBack(e, Initial, true) && e.editor.diff.Diff?)
      || EditorBack(e, FixCi, true)
      || RedBefore(log)
      || (DoctorBack(e, true) && !e.doctor.requiresNewBrief)
      || (e == Verified(VerifyRan(true)) && c.maxRounds >= 1)
      || (e.AskedReviewer? && e.review.ReviewRan?)
      || (e.Emitted? && e.notice.GateNotice?)
  }

  /** The reviewer had its rounds and did not approve, or it had none. */
  predicate TurnedDown(c: Config, log: Log) {
    log.Then? &&
      var e := log.event;
      || (e.Emitted? && e.notice.RejectionNotice?)
      || (e == Verified(VerifyRan(true)) && c.maxRounds < 1)
  }

  /** A collaborator threw. */
  predicate SomebodyThrew(log: Log) {
    log.Then? && match log.event
      case AskedArchitect(_, a) => a.ArchitectThrew?
      case AskedEditor(_, _, e) => e.EditorThrew?
      case Verified(v) => v.VerifyThrew?
      case AskedDoctor(_, _, d) => d.DoctorThrew?
      case AskedReviewer(_, _, r) => r.ReviewThrew?
      case ReadBranch(ok) => !ok
      case CalledPrOpen(url) => url.None?
      case _ => false
  }

  /** The failure that the log shows, if any; `aborted` is the abort signal at the end. */
  function Explanation(c: Config, aborted: bool, log: Log): Option<FailureReason> {
    match log
    case Start => if !c.crossProviderOk then Some(CrossProvider) else if aborted then None else Some(NoPlan)
    case Then(_, AskedArchitect(_, ArchitectRan(ok, _, _, interview, plan, approved))) =>
      if !ok then Some(ArchitectFailed)
      else if interview then None
      else if plan.BlankPlan? then Some(EmptyPlan)
      else if plan.Plan? && !approved && !aborted then Some(PlanNotApproved)
      else None
    case Then(_, Emitted(EscalationNotice(_, _))) => Some(PlanVetoed)
    case Then(_, AskedEditor(Initial, _, EditorRan(ok, _, _, diff, noChangesNeeded))) =>
      if !ok then Some(EditorFailed) else if diff.BlankDiff? && !noChangesNeeded then Some(NoDiff) else None
    case Then(_, AskedEditor(FixCi, _, EditorRan(ok, _, _, _, _))) => if ok then None else Some(EditorRetryFailed)
    case Then(_, AskedEditor(FixReview, _, EditorRan(ok, _, _, _, _))) => if ok then None else Some(EditorFixFailed)
    case Then(_, AskedDoctor(_, _, DoctorRan(ok, _, _, requiresNewBrief))) =>
      if !ok then Some(DoctorFailed) else if requiresNewBrief then Some(NewBriefNeeded) else None
    case Then(_, Verified(VerifyRan(false))) =>
      if RedAfterFix(log) then Some(VerifyAfterFixFailed)
      else if !aborted && Doctors(log) >= c.doctorCap then Some(DoctorLimit)
      else None
    case _ => None
  }

  // ----- every way to end -----

  predicate ReturnedAs(out: Outcome, status: Status) {
    out.Returned? && out.result.status == status
  }

  /** The run's status and reason are what its log shows. */
  predicate StatusRead(c: Config, aborted: bool, out: Outcome, log: Log) {
    && (ReturnedAs(out, AlreadyResolved) <==> NothingToDo(log))
    && (ReturnedAs(out, AwaitingInterview) <==> QuestionsAsked(log))
    && (ReturnedAs(out, Cancelled) <==> aborted && Checkpoint(c, log))
    && (ReturnedAs(out, BlockedByReviewer) <==> TurnedDown(c, log))
    && (ReturnedAs(out, PrOpened) <==> log.Then? && log.event.CalledPrOpen? && log.event.url.Some?)
    && (out.Threw? <==> SomebodyThrew(log))
  }

  predicate ReasonRead(c: Config, aborted: bool, out: Outcome, log: Log) {
    && (ReturnedAs(out, Failed) <==> Explanation(c, aborted, log).Some?)
    && (out.Returned? ==> out.result.reason == Explanation(c, aborted, log))
  }

  predicate Read(c: Config, o: Oracle, end: Ending) {
    && StatusRead(c, o.aborted(Length(end.1)), end.0, end.1)
    && ReasonRead(c, o.aborted(Length(end.1)), end.0, end.1)
  }

  // ----- rounds -----

  /** The run's clock and its doctor count are those of its log. */
  predicate Timed(st: State) {
    st.time == Length(st.log) && CountDoctors(st.attempts) == Doctors(st.log)
  }

  predicate Green(st: State) {
    Timed(st) && st.log.Then? && st.log.event == Verified(VerifyRan(true))
  }

  predicate ReviewerSpoke(st: State) {
    && Timed(st) && st.log.Then?
    && var e := st.log.event;
       (e.AskedReviewer? && e.review.ReviewRan?) || (e.Emitted? && e.notice.GateNotice?)
  }

  /** An editor has come back from the first edit or from a CI fix. */
  predicate EditorDone(st: State) {
    && Timed(st) && st.log.Then?
    && (EditorBack(st.log.event, Initial, true) || EditorBack(st.log.event, FixCi, true))
  }

  predicate RoundRead(c: Config, o: Oracle, k: int, r: Round) {
    match r
    case Ended(end) => Read(c, o, end)
    case Accepted(_, st) => Timed(st)
    case Replan(_, st) => Timed(st) && k < c.vetoCap
    case Green(v, st) => v == VerifyRan(true) && Green(st)
    case Retry(_, st) => EditorDone(st)
    case Approved(st) => ReviewerSpoke(st)
    case Exhausted(st) => Timed(st)
    case Again(_, v, st) => v == VerifyRan(true) && Green(st)
  }

  lemma AfterArchitectRead(c: Config, o: Oracle, k: nat, prior: seq<VetoReason>, a: ArchitectAnswer, st: State)
    requires a.ArchitectRan? && Timed(st) && st.log.Then? && st.log.event == AskedArchitect(prior, a)
    ensures RoundRead(c, o, k, AfterArchitect(c, o, k, prior, a, st))
  {
    if a.ok && !a.interview && a.plan.Plan? && !o.aborted(st.time) && a.approved && c.planReviewer {
      ReviewPlanRead(c, o, k, prior, a, st);
    }
  }

  lemma ReviewPlanRead(c: Config, o: Oracle, k: nat, prior: seq<VetoReason>, a: ArchitectAnswer, st: State)
    requires a.ArchitectRan? && a.plan.Plan? && Timed(st)
    ensures RoundRead(c, o, k, ReviewPlan(c, o, k, prior, a, st))
  {
    var step := RunPlanReviewer(o.planReview(st.time), a.cost, c.costCapMultiplier);
    var st1 := st.See(AskedPlanReviewer(a.plan.text, prior, step)).Push(step.attempt);
    assert Timed(st1);
    if step.skipped.None? && step.review.Veto? {
      var st2 := st1.See(Emitted(VetoNotice(k, step.review.reasons)));
      assert Timed(st2) && Timed(st2.See(Emitted(EscalationNotice(k, step.review.reasons))));
    }
  }

  lemma PlanRoundRead(c: Config, o: Oracle, k: nat, prior: seq<VetoReason>, st: State)
    requires Timed(st)
    ensures RoundRead(c, o, k, PlanRound(c, o, k, prior, st))
  {
    var a := o.architect(st.time);
    var st1 := st.See(AskedArchitect(prior, a));
    assert Timed(st1);
    if a.ArchitectRan? {
      AfterArchitectRead(c, o, k, prior, a, st1.Push(Attempt(Architect, a.ok, a.cost, a.tokens)));
    }
  }

  lemma EditorRetryRead(c: Config, o: Oracle, plan: string, st: State)
    requires Timed(st)
    ensures RoundRead(c, o, 0, EditorRetry(o, plan, st))
  {
    assert Timed(st.See(AskedEditor(FixCi, plan, o.editor(st.time))));
  }

  lemma DoctorPassRead(c: Config, o: Oracle, plan: string, diff: DiffText, st: State)
    requires Timed(st)
    ensures RoundRead(c, o, 0, DoctorPass(o, plan, diff, st))
  {
    var d := o.doctor(st.time);
    var st1 := st.See(AskedDoctor(plan, diff, d));
    if d.DoctorRan? {
      var st2 := st1.Push(Attempt(Doctor, d.ok, d.cost, d.tokens));
      assert Timed(st2);
      EditorRetryRead(c, o, plan, st2);
    }
  }

  lemma VerifyRoundRead(c: Config, o: Oracle, plan: string, diff: DiffText, st: State)
    requires EditorDone(st)
    ensures RoundRead(c, o, 0, VerifyRound(c, o, plan, diff, st))
  {
    var st1 := st.See(Verified(o.verify(st.time)));
    assert Timed(st1) && !RedAfterFix(st1.log);
    DoctorPassRead(c, o, plan, diff, st1);
  }

  lemma FixPassRead(c: Config, o: Oracle, plan: string, st: State)
    requires Timed(st)
    ensures RoundRead(c, o, 0, FixPass(o, plan, st))
  {
    var e := o.editor(st.time);
    var st1 := st.See(AskedEditor(FixReview, plan, e));
    assert Timed(st1);
    if e.EditorRan? {
      var st2 := st1.Push(Attempt(Editor, e.ok, e.cost, e.tokens));
      var st3 := st2.See(Verified(o.verify(st2.time)));
      assert Timed(st2) && Timed(st3);
      if o.verify(st2.time) == VerifyRan(false) { RedFixRead(c, o, st3); }
    }
  }

  lemma RedFixRead(c: Config, o: Oracle, st: State)
    requires RedAfterFix(st.log)
    ensures Read(c, o, Fail(st, VerifyAfterFixFailed))
  {}

  lemma ReviewRoundRead(c: Config, o: Oracle, round: int, plan: string, diff: DiffText, st: State)
    requires Green(st) && round <= c.maxRounds && c.maxRounds >= 1
    ensures RoundRead(c, o, round, ReviewRound(c, o, round, plan, diff, st))
  {
    var r := o.review(st.time);
    var st1 := st.See(AskedReviewer(plan, diff, r));
    assert Timed(st1);
    if r.ReviewRan? {
      var st2 := st1.Push(Attempt(Reviewer, r.ok, r.cost, r.tokens));
      var st3 := if r.haikuGate then st2.See(Emitted(GateNotice(round))) else st2;
      assert ReviewerSpoke(st3);
      AfterReviewRead(c, o, round, plan, r.approve, st3);
    }
  }

  lemma AfterReviewRead(c: Config, o: Oracle, round: int, plan: string, approve: bool, st: State)
    requires ReviewerSpoke(st)
    ensures RoundRead(c, o, round, AfterReview(c, o, round, plan, approve, st))
  {
    if !approve && round < c.maxRounds && !o.aborted(st.time) { FixPassRead(c, o, plan, st); }
  }

  // ----- loops -----

  lemma OpenRead(c: Config, o: Oracle, st: State)
    requires ReviewerSpoke(st)
    ensures Read(c, o, OpenPr(o, Some(VerifyRan(true)), st))
  {
    var st1 := st.See(ReadBranch(o.branchOk(st.time)));
    assert Timed(st1) && Timed(st1.See(CalledPrOpen(o.prOpen(st1.time))));
  }

  lemma {:induction false} ReviewLoopRead(c: Config, o: Oracle, round: int, plan: string, diff: DiffText,
                                          rejected: bool, st: State)
    requires Green(st) && round >= 1 && (!rejected ==> round == 1)
    ensures Read(c, o, ReviewLoop(c, o, round, plan, diff, Some(VerifyRan(true)), rejected, st))
    decreases if round > c.maxRounds then 0 else c.maxRounds - round + 1
  {
    if round <= c.maxRounds {
      var r := ReviewRound(c, o, round, plan, diff, st);
      ReviewRoundRead(c, o, round, plan, diff, st);
      ReviewLoopNext(c, o, round, plan, diff, rejected, st);
      if r.Again? {
        ReviewLoopRead(c, o, round + 1, plan, r.diff, true, r.st);
      } else {
        LastRoundRead(c, o, round, r);
      }
    } else {
      BlockRead(c, o, rejected, round - 1, st);
    }
  }

  lemma LastRoundRead(c: Config, o: Oracle, round: int, r: Round)
    requires RoundRead(c, o, round, r) && (r.Ended? || r.Approved? || r.Exhausted?)
    ensures Read(c, o, AfterLastRound(o, round, r))
  {
    match r
    case Ended(_) =>
    case Approved(st) => OpenRead(c, o, st);
    case Exhausted(st) => BlockRead(c, o, true, round, st);
  }

  lemma BlockRead(c: Config, o: Oracle, rejected: bool, rounds: int, st: State)
    requires rejected || (Green(st) && c.maxRounds < 1)
    ensures Read(c, o, Block(rejected, rounds, st))
  {}

  lemma {:induction false} VerifyLoopRead(c: Config, o: Oracle, plan: string, diff: DiffText, st: State)
    requires EditorDone(st)
    ensures Read(c, o, VerifyLoop(c, o, plan, diff, st))
    decreases if CountDoctors(st.attempts) > c.doctorCap then 0 else c.doctorCap - CountDoctors(st.attempts)
  {
    VerifyRoundRead(c, o, plan, diff, st);
    match VerifyRound(c, o, plan, diff, st)
    case Ended(_) =>
    case Green(_, st') => ReviewLoopRead(c, o, 1, plan, diff, false, st');
    case Retry(diff', st') => VerifyLoopRead(c, o, plan, diff', st');
  }

  lemma EditRead(c: Config, o: Oracle, plan: string, st: State)
    requires Timed(st)
    ensures Read(c, o, AfterPlan(c, o, Some(plan), st))
  {
    var e := o.editor(st.time);
    var st1 := st.See(AskedEditor(Initial, plan, e));
    assert Timed(st1);
    if e.EditorRan? {
      var st2 := st1.Push(Attempt(Editor, e.ok, e.cost, e.tokens));
      assert Timed(st2);
      if e.ok && e.diff.Diff? { VerifyLoopRead(c, o, plan, e.diff, st2); }
    }
  }

  lemma {:induction false} PlanLoopRead(c: Config, o: Oracle, k: nat, prior: seq<VetoReason>, st: State)
    requires Timed(st) && c.crossProviderOk && !o.aborted(0) && (k > c.vetoCap ==> st == BEGIN)
    ensures Read(c, o, PlanLoop(c, o, k, prior, st))
    decreases c.vetoCap + 1 - k
  {
    PlanLoopNext(c, o, k, prior, st);
    if k > c.vetoCap {
      NoPlanRead(c, o);
    } else {
      var r := PlanRound(c, o, k, prior, st);
      PlanRoundRead(c, o, k, prior, st);
      if r.Replan? {
        PlanLoopRead(c, o, k + 1, r.prior, r.st);
      } else if r.Accepted? {
        EditRead(c, o, r.plan, r.st);
      }
    }
  }

  lemma NoPlanRead(c: Config, o: Oracle)
    requires c.crossProviderOk && !o.aborted(0)
    ensures Read(c, o, AfterPlan(c, o, None, BEGIN))
  {}

  /** Every run, for every oracle: each status is returned if and only if the log ends in
      what stands behind it, and each reason likewise. */
  lemma EveryEndingRead(c: Config, o: Oracle)
    ensures Read(c, o, RunSpec(c, o))
  {
    if c.crossProviderOk && !o.aborted(0) {
      PlanLoopRead(c, o, 1, [], BEGIN);
    }
  }

  /** A run says that its work is already done exactly when the architect signalled so, or
      the first editor did and left no diff. */
  lemma AlreadyResolvedIff(c: Config, o: Oracle)
    ensures var (out, log) := RunSpec(c, o); ReturnedAs(out, AlreadyResolved) <==> NothingToDo(log)
  {
    EveryEndingRead(c, o);
  }
}
