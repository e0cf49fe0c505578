/** How often a run asks each worker, which counts its result pins down, and
    that the `attempts` array is exactly what happened. */
module PipelineBounds {
  import opened Prelude
  import opened Pipeline
  import opened PlanReviewer
  import opened PipelineRunner

  datatype Tally = Tally(
    architects: nat, planReviews: nat, vetoes: nat, editors: nat, doctors: nat,
    reviews: nat, rejections: nat, notices: nat)

  const ZERO := Tally(0, 0, 0, 0, 0, 0, 0, 0)

  function Add(t: Tally, e: Event): Tally {
    match e
    case AskedArchitect(_, _) => t.(architects := t.architects + 1)
    case AskedPlanReviewer(_, _, step) =>
      t.(planReviews := t.planReviews + 1, vetoes := t.vetoes + if step.review.Veto? then 1 else 0)
    case AskedEditor(_, _, _) => t.(editors := t.editors + 1)
    case AskedDoctor(_, _, _) => t.(doctors := t.doctors + 1)
    case AskedReviewer(_, _, r) =>
      t.(reviews := t.reviews + 1, rejections := t.rejections + if r.ReviewRan? && !r.approve then 1 else 0)
    case Emitted(RejectionNotice(_)) => t.(notices := t.notices + 1)
    case _ => t
  }

  function Count(log: Log): Tally {
    match log
    case Start => ZERO
    case Then(past, e) => Add(Count(past), e)
  }

  /** The attempt a finished worker run is booked as; a throw books nothing. */
  function Booking(e: Event): Option<Attempt> {
    match e
    case AskedArchitect(_, ArchitectRan(ok, cost, tokens, _, _, _)) => Some(Attempt(Architect, ok, cost, tokens))
    case AskedPlanReviewer(_, _, step) => Some(step.attempt)
    case AskedEditor(_, _, EditorRan(ok, cost, tokens, _, _)) => Some(Attempt(Editor, ok, cost, tokens))
    case AskedDoctor(_, _, DoctorRan(ok, cost, tokens, _)) => Some(Attempt(Doctor, ok, cost, tokens))
    case AskedReviewer(_, _, ReviewRan(ok, cost, tokens, _, _)) => Some(Attempt(Reviewer, ok, cost, tokens))
    case _ => None
  }

  /** The attempts that the log accounts for, in order. */
  function Bookings(log: Log): History<Attempt> {
    match log
    case Start => Start
    case Then(past, e) => match Booking(e) case Some(a) => Then(Bookings(past), a) case None => Bookings(past)
  }

  function AtLeast0(n: int): nat {
    if n < 0 then 0 else n
  }

  /** The retry bounds, and what a result says about the counts. */
  predicate Bounded(c: Config, end: Ending) {
    var (r, log) := end;
    var t := Count(log);
    && t.architects <= c.vetoCap
    && t.planReviews <= t.architects
    && t.doctors <= AtLeast0(c.doctorCap)
    && t.reviews <= AtLeast0(c.maxRounds)
    && t.editors <= 1 + t.doctors + AtLeast0(t.rejections)
    && t.editors <= 1 + AtLeast0(c.doctorCap) + AtLeast0(c.maxRounds - 1)
    && (c.maxRounds >= 1 ==>
          (r.Returned? && r.result.status.BlockedByReviewer? <==> t.rejections == c.maxRounds))
    && t.notices == (if r.Returned? && r.result.status.BlockedByReviewer? && c.maxRounds >= 1 then 1 else 0)
    && (r.Returned? && r.result.status.PrOpened? ==>
          t.reviews >= 1 && t.rejections == t.reviews - 1 && t.editors == 1 + t.doctors + (t.reviews - 1))
    && (r.Returned? && r.result.reason == Some(PlanVetoed) ==> t.vetoes == t.architects == c.vetoCap)
    && (r.Returned? && r.result.reason == Some(DoctorLimit) ==> t.doctors == AtLeast0(c.doctorCap))
    && (r.Returned? ==> r.result.reason != Some(VerifyNotPassed))
  }

  /** A returned result carries every finished worker run, once and in order. */
  predicate Complete(end: Ending) {
    end.0.Returned? ==> end.0.result.attempts == Bookings(end.1)
  }

  predicate Good(c: Config, end: Ending) {
    Bounded(c, end) && Complete(end)
  }

  /** The defensive exit "loop exited without a plan". */
  predicate RanOutOfPlans(end: Ending) {
    end.0.Returned? && end.0.result.reason == Some(NoPlan)
  }

  /** Counts of a run that has neither been blocked nor opened a pull request. */
  predicate Within(c: Config, t: Tally) {
    && t.planReviews <= t.architects <= c.vetoCap
    && t.doctors <= AtLeast0(c.doctorCap)
    && t.rejections <= t.reviews <= AtLeast0(c.maxRounds)
    && t.editors <= 1 + t.doctors + t.rejections
    && t.rejections <= AtLeast0(c.maxRounds - 1)
    && t.notices == 0
  }

  /** An ending of that kind. */
  predicate EndsEarly(c: Config, end: Ending) {
    && Complete(end)
    && Within(c, Count(end.1))
    && (end.0.Returned? ==>
          var res, t := end.0.result, Count(end.1);
          && !res.status.PrOpened? && !res.status.BlockedByReviewer?
          && res.reason != Some(VerifyNotPassed) && res.reason != Some(NoPlan)
          && (res.reason == Some(PlanVetoed) ==> t.vetoes == t.architects == c.vetoCap)
          && (res.reason == Some(DoctorLimit) ==> t.doctors == AtLeast0(c.doctorCap)))
  }

  lemma EarlyIsGood(c: Config, end: Ending)
    requires EndsEarly(c, end)
    ensures Good(c, end) && !RanOutOfPlans(end)
  {}

  // Invariants at the head of each loop.

  predicate Booked(st: State) {
    st.attempts == Bookings(st.log) && CountDoctors(st.attempts) == Count(st.log).doctors
  }

  predicate Planning(c: Config, k: nat, st: State) {
    var t := Count(st.log);
    Booked(st) && 1 <= k && t == ZERO.(architects := k - 1, planReviews := t.planReviews, vetoes := k - 1)
    && t.planReviews == k - 1 <= c.vetoCap
  }

  predicate Planned(c: Config, st: State) {
    var t := Count(st.log);
    Booked(st) && t == ZERO.(architects := t.architects, planReviews := t.planReviews, vetoes := t.vetoes)
    && t.planReviews <= t.architects <= c.vetoCap
  }

  predicate Verifying(c: Config, st: State) {
    var t := Count(st.log);
    Booked(st) && t.planReviews <= t.architects <= c.vetoCap
    && t.editors == 1 + t.doctors && t.doctors <= AtLeast0(c.doctorCap)
    && t.reviews == t.rejections == t.notices == 0
  }

  /** The doctor has answered; the editor's retry is due. */
  predicate Diagnosed(c: Config, st: State) {
    var t := Count(st.log);
    Booked(st) && t.planReviews <= t.architects <= c.vetoCap
    && t.editors == t.doctors && t.doctors <= AtLeast0(c.doctorCap)
    && t.reviews == t.rejections == t.notices == 0
  }

  predicate Reviewing(c: Config, round: int, st: State) {
    var t := Count(st.log);
    Booked(st) && t.planReviews <= t.architects <= c.vetoCap
    && t.doctors <= AtLeast0(c.doctorCap)
    && t.editors == t.doctors + round && t.reviews == t.rejections == round - 1 && t.notices == 0
    && 1 <= round && (round == 1 || round <= c.maxRounds)
  }

  /** A reviewer that has just answered. */
  predicate Reviewed(c: Config, round: int, approved: bool, st: State) {
    var t := Count(st.log);
    Booked(st) && t.planReviews <= t.architects <= c.vetoCap
    && t.doctors <= AtLeast0(c.doctorCap)
    && t.editors == t.doctors + round && t.reviews == round && t.notices == 0
    && t.rejections == (if approved then round - 1 else round)
    && 1 <= round <= c.maxRounds
  }

  predicate RoundOk(c: Config, k: int, r: Round) {
    match r
    case Ended(end) => EndsEarly(c, end)
    case Accepted(_, st) => Planned(c, st)
    case Replan(_, st) => 0 <= k < c.vetoCap && Planning(c, k + 1, st)
    case Green(v, st) => Reviewing(c, 1, st) && v == VerifyRan(true)
    case Retry(_, st) => Verifying(c, st)
    case Approved(st) => Reviewed(c, k, true, st)
    case Exhausted(st) => Reviewed(c, k, false, st) && k >= c.maxRounds
    case Again(_, v, st) => Reviewing(c, k + 1, st) && v == VerifyRan(true) && k < c.maxRounds
  }

  /** The architect was asked for the `k`-th plan, and answered. */
  predicate Asked(c: Config, k: int, st: State) {
    Booked(st) && 1 <= k <= c.vetoCap && Count(st.log) == ZERO.(architects := k, planReviews := k - 1, vetoes := k - 1)
  }

  lemma ArchitectAsked(c: Config, k: nat, prior: seq<VetoReason>, a: ArchitectAnswer, st: State)
    requires Planning(c, k, st) && k <= c.vetoCap && a.ArchitectRan?
    ensures Asked(c, k, st.See(AskedArchitect(prior, a)).Push(Attempt(Architect, a.ok, a.cost, a.tokens)))
  {
    var st1 := st.See(AskedArchitect(prior, a));
    assert Count(st1.log) == Add(Count(st.log), st1.log.event);
  }

  lemma ArchitectThrewOk(c: Config, k: nat, prior: seq<VetoReason>, a: ArchitectAnswer, st: State)
    requires Planning(c, k, st) && k <= c.vetoCap
    ensures EndsEarly(c, Throw(st.See(AskedArchitect(prior, a))))
  {
    var st1 := st.See(AskedArchitect(prior, a));
    assert Count(st1.log) == Add(Count(st.log), st1.log.event);
  }

  lemma PlanRoundOk(c: Config, o: Oracle, k: nat, prior: seq<VetoReason>, st: State)
    requires Planning(c, k, st) && k <= c.vetoCap
    ensures RoundOk(c, k, PlanRound(c, o, k, prior, st))
  {
    var a := o.architect(st.time);
    if a.ArchitectRan? {
      ArchitectAsked(c, k, prior, a, st);
      AfterArchitectOk(c, o, k, prior, a,
                       st.See(AskedArchitect(prior, a)).Push(Attempt(Architect, a.ok, a.cost, a.tokens)));
    } else {
      ArchitectThrewOk(c, k, prior, a, st);
    }
  }

  lemma AfterArchitectOk(c: Config, o: Oracle, k: nat, prior: seq<VetoReason>, a: ArchitectAnswer, st: State)
    requires a.ArchitectRan? && Asked(c, k, st)
    ensures RoundOk(c, k, AfterArchitect(c, o, k, prior, a, st))
  {
    if a.plan.Plan? {
      ReviewPlanOk(c, o, k, prior, a, st);
    }
  }

  lemma ReviewPlanOk(c: Config, o: Oracle, k: nat, prior: seq<VetoReason>, a: ArchitectAnswer, st: State)
    requires a.ArchitectRan? && a.plan.Plan? && Asked(c, k, st)
    ensures RoundOk(c, k, ReviewPlan(c, o, k, prior, a, st))
  {
    var step := RunPlanReviewer(o.planReview(st.time), a.cost, c.costCapMultiplier);
    var st1 := st.See(AskedPlanReviewer(a.plan.text, prior, step)).Push(step.attempt);
    assert Booked(st1) && Count(st1.log) == Add(Count(st.log), st1.log.event);
    if step.review.Veto? {
      var st2 := st1.See(Emitted(VetoNotice(k, step.review.reasons)));
      assert Booked(st2) && Count(st2.log) == Count(st1.log);
      var st3 := st2.See(Emitted(EscalationNotice(k, step.review.reasons)));
      assert Booked(st3) && Count(st3.log) == Count(st1.log);
    }
  }

  lemma DoctorPassOk(c: Config, o: Oracle, plan: string, diff: DiffText, st: State)
    requires Verifying(c, st) && Count(st.log).doctors < c.doctorCap
    ensures RoundOk(c, 0, DoctorPass(o, plan, diff, st))
  {
    var d := o.doctor(st.time);
    var st1 := st.See(AskedDoctor(plan, diff, d));
    assert Count(st1.log) == Add(Count(st.log), st1.log.event);
    if d.DoctorRan? {
      var st2 := st1.Push(Attempt(Doctor, d.ok, d.cost, d.tokens));
      assert Diagnosed(c, st2);
      EditorRetryOk(c, o, plan, st2);
    }
  }

  lemma EditorRetryOk(c: Config, o: Oracle, plan: string, st: State)
    requires Diagnosed(c, st)
    ensures RoundOk(c, 0, EditorRetry(o, plan, st))
  {
    var e := o.editor(st.time);
    var st1 := st.See(AskedEditor(FixCi, plan, e));
    assert Count(st1.log) == Add(Count(st.log), st1.log.event);
    if e.EditorRan? {
      assert Booked(st1.Push(Attempt(Editor, e.ok, e.cost, e.tokens)));
    }
  }

  lemma VerifyRoundOk(c: Config, o: Oracle, plan: string, diff: DiffText, st: State)
    requires Verifying(c, st)
    ensures RoundOk(c, 0, VerifyRound(c, o, plan, diff, st))
  {
    var st1 := st.See(Verified(o.verify(st.time)));
    assert Booked(st1) && Count(st1.log) == Count(st.log);
    if Count(st1.log).doctors < c.doctorCap {
      DoctorPassOk(c, o, plan, diff, st1);
    }
  }

  lemma FixPassOk(c: Config, o: Oracle, round: int, plan: string, st: State)
    requires Reviewed(c, round, false, st) && round < c.maxRounds
    ensures RoundOk(c, round, FixPass(o, plan, st))
  {
    var e := o.editor(st.time);
    var st1 := st.See(AskedEditor(FixReview, plan, e));
    assert Count(st1.log) == Add(Count(st.log), st1.log.event);
    if e.EditorRan? {
      var st2 := st1.Push(Attempt(Editor, e.ok, e.cost, e.tokens));
      assert Booked(st2);
      var st3 := st2.See(Verified(o.verify(st2.time)));
      assert Booked(st3) && Count(st3.log) == Count(st2.log);
    }
  }

  lemma GateNoticeOk(c: Config, round: int, approved: bool, st: State)
    requires Reviewed(c, round, approved, st)
    ensures Reviewed(c, round, approved, st.See(Emitted(GateNotice(round))))
  {}

  lemma ReviewRoundOk(c: Config, o: Oracle, round: int, plan: string, diff: DiffText, st: State)
    requires Reviewing(c, round, st) && round <= c.maxRounds
    ensures RoundOk(c, round, ReviewRound(c, o, round, plan, diff, st))
  {
    var r := o.review(st.time);
    var st1 := st.See(AskedReviewer(plan, diff, r));
    assert Count(st1.log) == Add(Count(st.log), st1.log.event);
    if r.ReviewRan? {
      var st2 := st1.Push(Attempt(Reviewer, r.ok, r.cost, r.tokens));
      assert Reviewed(c, round, r.approve, st2);
      GateNoticeOk(c, round, r.approve, st2);
      AfterReviewOk(c, o, round, plan, r.approve, if r.haikuGate then st2.See(Emitted(GateNotice(round))) else st2);
    }
  }

  lemma AfterReviewOk(c: Config, o: Oracle, round: int, plan: string, approve: bool, st: State)
    requires Reviewed(c, round, approve, st)
    ensures RoundOk(c, round, AfterReview(c, o, round, plan, approve, st))
  {
    if !approve && round < c.maxRounds {
      FixPassOk(c, o, round, plan, st);
    }
  }

  lemma BlockOk(c: Config, round: int, st: State)
    requires Reviewed(c, round, false, st) && round >= c.maxRounds
    ensures var end := Block(true, round, st); Good(c, end) && !RanOutOfPlans(end)
  {}

  lemma OpenOk(c: Config, o: Oracle, round: int, st: State)
    requires Reviewed(c, round, true, st)
    ensures var end := OpenPr(o, Some(VerifyRan(true)), st); Good(c, end) && !RanOutOfPlans(end)
  {
    var st1 := st.See(ReadBranch(o.branchOk(st.time)));
    assert Booked(st1) && Count(st1.log) == Count(st.log);
  }

  predicate EndsWell(c: Config, end: Ending) {
    Good(c, end) && !RanOutOfPlans(end)
  }

  /** How the review loop ends after a round that is the last one. */
  function AfterLastRound(o: Oracle, round: int, r: Round): Ending
    requires r.Ended? || r.Approved? || r.Exhausted?
  {
    match r
    case Ended(end) => end
    case Approved(st) => OpenPr(o, Some(VerifyRan(true)), st)
    case Exhausted(st) => Block(true, round, st)
  }

  lemma LastReviewOk(c: Config, o: Oracle, round: int, r: Round)
    requires RoundOk(c, round, r) && (r.Ended? || r.Approved? || r.Exhausted?)
    ensures EndsWell(c, AfterLastRound(o, round, r))
  {
    match r
    case Ended(end) => EarlyIsGood(c, end);
    case Approved(st) => OpenOk(c, o, round, st);
    case Exhausted(st) => BlockOk(c, round, st);
  }

  lemma {:induction false} ReviewLoopOk(c: Config, o: Oracle, round: int, plan: string, diff: DiffText, st: State)
    requires Reviewing(c, round, st)
    ensures EndsWell(c, ReviewLoop(c, o, round, plan, diff, Some(VerifyRan(true)), round > 1, st))
    decreases if round > c.maxRounds then 0 else c.maxRounds - round + 1
  {
    if round <= c.maxRounds {
      var r := ReviewRound(c, o, round, plan, diff, st);
      ReviewRoundOk(c, o, round, plan, diff, st);
      ReviewLoopNext(c, o, round, plan, diff, round > 1, st);
      if r.Again? {
        ReviewLoopOk(c, o, round + 1, plan, r.diff, r.st);
      } else {
        LastReviewOk(c, o, round, r);
      }
    }
  }

  /** What the review loop does after its next round. */
  lemma ReviewLoopNext(c: Config, o: Oracle, round: int, plan: string, diff: DiffText, rejected: bool, st: State)
    requires round <= c.maxRounds
    ensures var r := ReviewRound(c, o, round, plan, diff, st);
            ReviewLoop(c, o, round, plan, diff, Some(VerifyRan(true)), rejected, st) ==
              if r.Again? then ReviewLoop(c, o, round + 1, plan, r.diff, Some(r.verify), true, r.st)
              else AfterLastRound(o, round, r)
  {}

  lemma {:induction false} VerifyLoopOk(c: Config, o: Oracle, plan: string, diff: DiffText, st: State)
    requires Verifying(c, st)
    ensures EndsWell(c, VerifyLoop(c, o, plan, diff, st))
    decreases if CountDoctors(st.attempts) > c.doctorCap then 0 else c.doctorCap - CountDoctors(st.attempts)
  {
    VerifyRoundOk(c, o, plan, diff, st);
    match VerifyRound(c, o, plan, diff, st)
    case Ended(end) => EarlyIsGood(c, end);
    case Green(_, st') => ReviewLoopOk(c, o, 1, plan, diff, st');
    case Retry(diff', st') => VerifyLoopOk(c, o, plan, diff', st');
  }

  lemma EditOk(c: Config, o: Oracle, accepted: Option<string>, st: State)
    requires Planned(c, st)
    ensures var end := AfterPlan(c, o, accepted, st); Good(c, end) && (RanOutOfPlans(end) <==> accepted.None?)
  {
    if accepted.Some? {
      var e := o.editor(st.time);
      var st1 := st.See(AskedEditor(Initial, accepted.value, e));
      assert Count(st1.log) == Add(Count(st.log), st1.log.event);
      if e.EditorRan? {
        VerifyLoopOk(c, o, accepted.value, e.diff, st1.Push(Attempt(Editor, e.ok, e.cost, e.tokens)));
      }
    }
  }

  /** All caps kept, and no plan found only when none may be made. */
  predicate PlannedWell(c: Config, end: Ending) {
    Good(c, end) && (RanOutOfPlans(end) <==> c.vetoCap == 0)
  }

  /** A round that is the last one. */
  lemma LastRoundOk(c: Config, o: Oracle, k: int, r: Round)
    requires RoundOk(c, k, r) && (r.Ended? || r.Accepted?) && c.vetoCap != 0
    ensures r.Ended? ==> PlannedWell(c, r.ending)
    ensures r.Accepted? ==> PlannedWell(c, AfterPlan(c, o, Some(r.plan), r.st))
  {
    if r.Ended? {
      EarlyIsGood(c, r.ending);
    } else {
      EditOk(c, o, Some(r.plan), r.st);
    }
  }

  lemma {:induction false} PlanLoopOk(c: Config, o: Oracle, k: nat, prior: seq<VetoReason>, st: State)
    requires Planning(c, k, st) && (k <= c.vetoCap || c.vetoCap == 0)
    ensures PlannedWell(c, PlanLoop(c, o, k, prior, st))
    decreases c.vetoCap + 1 - k
  {
    PlanLoopNext(c, o, k, prior, st);
    if k > c.vetoCap {
      EditOk(c, o, None, st);
    } else {
      var r := PlanRound(c, o, k, prior, st);
      PlanRoundOk(c, o, k, prior, st);
      if r.Replan? {
        PlanLoopOk(c, o, k + 1, r.prior, r.st);
      } else {
        LastRoundOk(c, o, k, r);
      }
    }
  }

  /** What the plan loop does after its next round. */
  lemma PlanLoopNext(c: Config, o: Oracle, k: nat, prior: seq<VetoReason>, st: State)
    ensures var r := PlanRound(c, o, k, prior, st);
            PlanLoop(c, o, k, prior, st) ==
              if k > c.vetoCap then AfterPlan(c, o, None, st)
              else if r.Ended? then r.ending
              else if r.Accepted? then AfterPlan(c, o, Some(r.plan), r.st)
              else PlanLoop(c, o, k + 1, r.prior, r.st)
  {}

  /** Every run is bounded and fully booked. */
  lemma RunBounded(c: Config, o: Oracle)
    ensures Good(c, RunSpec(c, o))
  {
    if c.crossProviderOk && !o.aborted(0) {
      PlanLoopOk(c, o, 1, [], BEGIN);
    }
  }

  /** The defensive exit is taken exactly when the veto cap is zero (a configured
      cap below one is rounded down to it). */
  lemma NoPlanExit(c: Config, o: Oracle)
    ensures RanOutOfPlans(RunSpec(c, o)) <==> c.vetoCap == 0 && c.crossProviderOk && !o.aborted(0)
  {
    if c.crossProviderOk && !o.aborted(0) {
      PlanLoopOk(c, o, 1, [], BEGIN);
    }
  }

  // The bounds are tight: one oracle drives every retry loop to its cap and still
  // gets its pull request.

  /** Times at which the slowest successful run starts to edit and to review. */
  function EditTime(c: Config): int { 3 * c.vetoCap - 1 }
  function ReviewTime(c: Config): int { EditTime(c) + 2 + 3 * c.doctorCap }

  function Slowest(c: Config): Oracle {
    Oracle(
      i => ArchitectRan(true, None, None, false, Plan("plan"), true),
      i => WorkerRan(true, 0, None, None, if i < EditTime(c) - 2 then Veto([MalformedOutput]) else Approve),
      i => EditorRan(true, None, None, Diff("diff"), false),
      i => VerifyRan(i >= ReviewTime(c) - 1),
      i => DoctorRan(true, None, None, false),
      i => ReviewRan(true, None, None, false, i >= ReviewTime(c) + 3 * (c.maxRounds - 1)),
      i => true,
      i => Some("url"),
      i => false)
  }

  predicate Attains(c: Config, end: Ending) {
    var t := Count(end.1);
    && end.0.Returned? && end.0.result.status.PrOpened?
    && t.architects == t.planReviews == c.vetoCap
    && t.doctors == c.doctorCap
    && t.reviews == c.maxRounds
    && t.editors == 1 + c.doctorCap + (c.maxRounds - 1)
  }

  predicate Slow(c: Config, st: State) {
    Count(st.log).architects == Count(st.log).planReviews == c.vetoCap
  }

  /** Where the slowest review loop is at the start of a round. */
  predicate SlowRound(c: Config, round: int, st: State) {
    && Reviewing(c, round, st) && round <= c.maxRounds && Slow(c, st)
    && Count(st.log).doctors == c.doctorCap && st.time == ReviewTime(c) + 3 * (round - 1)
  }

  lemma SlowApproval(c: Config, plan: string, diff: DiffText, st: State)
    requires SlowRound(c, c.maxRounds, st)
    ensures Attains(c, ReviewLoop(c, Slowest(c), c.maxRounds, plan, diff, Some(VerifyRan(true)), c.maxRounds > 1, st))
  {
    var o, round := Slowest(c), c.maxRounds;
    var st1 := st.See(AskedReviewer(plan, diff, o.review(st.time)));
    assert Count(st1.log) == Add(Count(st.log), st1.log.event);
    assert ReviewRound(c, o, round, plan, diff, st) == Approved(st1.Push(Attempt(Reviewer, true, None, None)));
    assert Count(Then(st1.log, ReadBranch(true))) == Count(st1.log);
  }

  lemma SlowRejection(c: Config, round: int, plan: string, diff: DiffText, st: State) returns (st': State)
    requires SlowRound(c, round, st) && round < c.maxRounds
    ensures SlowRound(c, round + 1, st')
    ensures ReviewRound(c, Slowest(c), round, plan, diff, st) == Again(Diff("diff"), VerifyRan(true), st')
  {
    var o := Slowest(c);
    var st1 := st.See(AskedReviewer(plan, diff, o.review(st.time)));
    assert Count(st1.log) == Add(Count(st.log), st1.log.event);
    ReviewRoundOk(c, o, round, plan, diff, st);
    var st2 := st1.Push(Attempt(Reviewer, true, None, None)).See(AskedEditor(FixReview, plan, o.editor(st1.time)));
    assert Count(st2.log) == Add(Count(st1.log), st2.log.event);
    st' := st2.Push(Attempt(Editor, true, None, None)).See(Verified(VerifyRan(true)));
    assert Count(st'.log) == Count(st2.log);
  }

  lemma {:induction false} SlowReview(c: Config, round: int, plan: string, diff: DiffText, st: State)
    requires SlowRound(c, round, st)
    ensures Attains(c, ReviewLoop(c, Slowest(c), round, plan, diff, Some(VerifyRan(true)), round > 1, st))
    decreases c.maxRounds - round
  {
    if round == c.maxRounds {
      SlowApproval(c, plan, diff, st);
    } else {
      var st' := SlowRejection(c, round, plan, diff, st);
      SlowReview(c, round + 1, plan, Diff("diff"), st');
      assert ReviewLoop(c, Slowest(c), round, plan, diff, Some(VerifyRan(true)), round > 1, st)
        == ReviewLoop(c, Slowest(c), round + 1, plan, Diff("diff"), Some(VerifyRan(true)), true, st');
    }
  }

  lemma {:induction false} SlowVerify(c: Config, plan: string, diff: DiffText, st: State)
    requires Verifying(c, st) && Slow(c, st) && c.doctorCap >= 0 && c.maxRounds >= 1
    requires st.time == EditTime(c) + 1 + 3 * Count(st.log).doctors
    ensures Attains(c, VerifyLoop(c, Slowest(c), plan, diff, st))
    decreases c.doctorCap - Count(st.log).doctors
  {
    var o := Slowest(c);
    VerifyRoundOk(c, o, plan, diff, st);
    var st1 := st.See(Verified(o.verify(st.time)));
    assert Count(st1.log) == Count(st.log);
    if Count(st.log).doctors == c.doctorCap {
      SlowReview(c, 1, plan, diff, st1);
    } else {
      var st2 := st1.See(AskedDoctor(plan, diff, o.doctor(st1.time))).Push(Attempt(Doctor, true, None, None));
      assert Count(st2.log) == Add(Count(st1.log), st2.log.event);
      var st3 := st2.See(AskedEditor(FixCi, plan, o.editor(st2.time))).Push(Attempt(Editor, true, None, None));
      assert Count(st3.log) == Add(Count(st2.log), st3.log.event);
      assert VerifyRound(c, o, plan, diff, st) == Retry(Diff("diff"), st3);
      SlowVerify(c, plan, Diff("diff"), st3);
    }
  }

  lemma SlowEdit(c: Config, st: State)
    requires Planned(c, st) && Slow(c, st) && c.doctorCap >= 0 && c.maxRounds >= 1 && st.time == EditTime(c)
    ensures Attains(c, AfterPlan(c, Slowest(c), Some("plan"), st))
  {
    var o := Slowest(c);
    var st1 := st.See(AskedEditor(Initial, "plan", o.editor(st.time))).Push(Attempt(Editor, true, None, None));
    assert Count(st1.log) == Add(Count(st.log), st1.log.event);
    SlowVerify(c, "plan", Diff("diff"), st1);
  }

  /** Where the slowest plan loop is at the start of an iteration. */
  predicate SlowIteration(c: Config, k: nat, st: State) {
    Planning(c, k, st) && k <= c.vetoCap && c.planReviewer && st.time == 3 * (k - 1)
  }

  /** The `k`-th plan and its review. */
  lemma SlowReviewed(c: Config, k: nat, prior: seq<VetoReason>, st: State) returns (step: ReviewStep, st': State)
    requires SlowIteration(c, k, st)
    ensures st'.time == st.time + 2 && Booked(st') && (step.review.Veto? <==> k < c.vetoCap)
    ensures Count(st'.log) == ZERO.(architects := k, planReviews := k, vetoes := Count(st'.log).vetoes)
    ensures Count(st'.log).vetoes == if k < c.vetoCap then k else k - 1
    ensures PlanRound(c, Slowest(c), k, prior, st) ==
      if k < c.vetoCap then Replan(prior + step.review.reasons, st'.See(Emitted(VetoNotice(k, step.review.reasons))))
      else Accepted("plan", st')
  {
    var o := Slowest(c);
    var st1 := st.See(AskedArchitect(prior, o.architect(st.time))).Push(Attempt(Architect, true, None, None));
    assert Count(st1.log) == Add(Count(st.log), st1.log.event);
    step := RunPlanReviewer(o.planReview(st1.time), None, c.costCapMultiplier);
    st' := st1.See(AskedPlanReviewer("plan", prior, step)).Push(step.attempt);
    assert Count(st'.log) == Add(Count(st1.log), st'.log.event);
  }

  lemma {:induction false} SlowPlan(c: Config, k: nat, prior: seq<VetoReason>, st: State)
    requires SlowIteration(c, k, st) && c.doctorCap >= 0 && c.maxRounds >= 1
    ensures Attains(c, PlanLoop(c, Slowest(c), k, prior, st))
    decreases c.vetoCap - k
  {
    var o := Slowest(c);
    PlanRoundOk(c, o, k, prior, st);
    var step, st2 := SlowReviewed(c, k, prior, st);
    if k == c.vetoCap {
      SlowEdit(c, st2);
      assert PlanLoop(c, o, k, prior, st) == AfterPlan(c, o, Some("plan"), st2);
    } else {
      var st3 := st2.See(Emitted(VetoNotice(k, step.review.reasons)));
      SlowPlan(c, k + 1, prior + step.review.reasons, st3);
      assert PlanLoop(c, o, k, prior, st) == PlanLoop(c, o, k + 1, prior + step.review.reasons, st3);
    }
  }

  /** For every choice of caps, some run reaches all of them at once and opens its
      pull request. */
  lemma BoundsAreTight(c: Config)
    requires c.crossProviderOk && c.planReviewer && c.vetoCap >= 1 && c.doctorCap >= 0 && c.maxRounds >= 1
    ensures exists o :: Attains(c, RunSpec(c, o))
  {
    SlowPlan(c, 1, [], BEGIN);
    assert Attains(c, RunSpec(c, Slowest(c)));
  }
}
