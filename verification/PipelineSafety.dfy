/** What stands behind every pull request the pipeline opens.

    The reference notions below read the event log only: the worktree gets a new
    version at each editor run, a verify or a review vouches for the version it
    saw. `PrSafety` states the safety property for every oracle. */
module PipelineSafety {
  import opened Prelude
  import opened Pipeline
  import opened PlanReviewer
  import opened PipelineRunner

  /** Worktree version: the number of editor runs, whatever became of them. */
  function Version(log: Log): nat {
    match log
    case Start => 0
    case Then(past, e) => Version(past) + if e.AskedEditor? then 1 else 0
  }

  /** Version seen by the last verify that succeeded; 0 when there was none. */
  function GreenVersion(log: Log): nat {
    match log
    case Start => 0
    case Then(past, e) => if e == Verified(VerifyRan(true)) then Version(past) else GreenVersion(past)
  }

  predicate Approves(e: Event) {
    e.AskedReviewer? && e.review.ReviewRan? && e.review.approve
  }

  /** Version the reviewer last approved; 0 when it never did. */
  function ApprovedVersion(log: Log): nat {
    match log
    case Start => 0
    case Then(past, e) => if Approves(e) then Version(past) else ApprovedVersion(past)
  }

  /** The plan and diff the reviewer had in front of it when it last approved. */
  function ApprovedWork(log: Log): Option<(string, DiffText)> {
    match log
    case Start => None
    case Then(past, e) => if Approves(e) then Some((e.plan, e.diff)) else ApprovedWork(past)
  }

  /** The diff the newest editor run left behind. */
  function LatestDiff(log: Log): Option<DiffText> {
    match log
    case Start => None
    case Then(past, e) =>
      if e.AskedEditor? then (if e.editor.EditorRan? then Some(e.editor.diff) else None) else LatestDiff(past)
  }

  /** The newest architect plan, if the architect gate approved it. */
  function GatedPlan(log: Log): Option<string> {
    match log
    case Start => None
    case Then(past, e) =>
      if e.AskedArchitect? then
        var a := e.architect;
        if a.ArchitectRan? && a.ok && !a.interview && a.plan.Plan? && a.approved then Some(a.plan.text) else None
      else GatedPlan(past)
  }

  /** The plan cleared for editing: gated, and then accepted or skipped by the
      plan-reviewer when there is one. */
  function ClearedPlan(c: Config, log: Log): Option<string> {
    match log
    case Start => None
    case Then(past, e) =>
      if e.AskedArchitect? then (if c.planReviewer then None else GatedPlan(log))
      else if e.AskedPlanReviewer? then
        (if GatedPlan(past) == Some(e.reviewed) && (e.step.skipped.Some? || e.step.review.Approve?)
          then Some(e.reviewed) else None)
      else ClearedPlan(c, past)
  }

  /** Every editor run worked from `plan`. */
  predicate EditorsFollow(log: Log, plan: string) {
    match log
    case Start => true
    case Then(past, e) => EditorsFollow(past, plan) && (e.AskedEditor? ==> e.plan == plan)
  }

  function Opens(log: Log): nat {
    match log
    case Start => 0
    case Then(past, e) => Opens(past) + if e.CalledPrOpen? then 1 else 0
  }

  /** All veto reasons stated so far, oldest first. */
  function VetoReasons(log: Log): seq<VetoReason> {
    match log
    case Start => []
    case Then(past, e) =>
      VetoReasons(past)
        + if e.AskedPlanReviewer? && e.step.skipped.None? && e.step.review.Veto? then e.step.review.reasons else []
  }

  /** The plan the newest editor run was given. */
  function LatestPlan(log: Log): Option<string> {
    match log
    case Start => None
    case Then(past, e) => if e.AskedEditor? then Some(e.plan) else LatestPlan(past)
  }

  /** Every architect and plan-reviewer run was given every veto reason that preceded it,
      and every doctor and reviewer run the plan last edited and the diff that left. */
  predicate FedBack(log: Log) {
    match log
    case Start => true
    case Then(past, e) =>
      && FedBack(past)
      && (e.AskedArchitect? ==> e.given == VetoReasons(past))
      && (e.AskedPlanReviewer? ==> e.prior == VetoReasons(past))
      && (e.AskedDoctor? || e.AskedReviewer? ==> LatestPlan(past) == Some(e.plan) && LatestDiff(past) == Some(e.diff))
  }

  /** What must hold of the log when the pull request is opened. */
  predicate SafeToOpen(c: Config, log: Log) {
    && Version(log) >= 1
    && GreenVersion(log) == ApprovedVersion(log) == Version(log)
    && ClearedPlan(c, log).Some?
    && EditorsFollow(log, ClearedPlan(c, log).value)
    && LatestDiff(log).Some?
    && ApprovedWork(log) == Some((ClearedPlan(c, log).value, LatestDiff(log).value))
  }

  /** `pr.open` is called at most once, as the last thing a run does and only when
      it is safe; a run returns `pr_opened` exactly when it made that call, with
      the opener's URL; and every veto reason was fed back. */
  predicate Sound(c: Config, end: Ending) {
    var (r, log) := end;
    && FedBack(log)
    && Opens(log) <= 1
    && (Opens(log) == 1 ==>
          log.Then? && log.event.CalledPrOpen? && log.past.Then? && log.past.event == ReadBranch(true)
          && SafeToOpen(c, log.past))
    && (r.Returned? ==> (r.result.status.PrOpened? <==> Opens(log) == 1))
    && (r.Returned? && Opens(log) == 1 ==> r.result.prUrl.Some? && log.event == CalledPrOpen(r.result.prUrl))
    && (r.Threw? && Opens(log) == 1 ==> log.event == CalledPrOpen(None))
    && (r.Returned? && Opens(log) == 0 ==> r.result.prUrl.None?)
  }

  /** Nothing edited and nothing opened yet. */
  predicate Untouched(log: Log) {
    Version(log) == 0 && Opens(log) == 0 && FedBack(log)
  }

  lemma UntouchedFollows(log: Log, plan: string)
    requires Version(log) == 0
    ensures EditorsFollow(log, plan)
  {}

  /** An editor has worked on the cleared plan and left `diff`. */
  predicate Edited(c: Config, plan: string, diff: DiffText, log: Log) {
    && Opens(log) == 0
    && FedBack(log)
    && Version(log) >= 1
    && ClearedPlan(c, log) == Some(plan)
    && EditorsFollow(log, plan)
    && LatestPlan(log) == Some(plan)
    && LatestDiff(log) == Some(diff)
  }

  /** An ending that opened nothing. */
  predicate Quiet(end: Ending) {
    Opens(end.1) == 0 && FedBack(end.1)
    && (end.0.Returned? ==> !end.0.result.status.PrOpened? && end.0.result.prUrl.None?)
  }

  /** What one round of each loop leaves behind, when it started on `plan` and `diff`. */
  predicate Kept(c: Config, plan: string, diff: DiffText, r: Round) {
    match r
    case Ended(end) => Quiet(end)
    case Accepted(plan', st) => Untouched(st.log) && ClearedPlan(c, st.log) == Some(plan')
    case Replan(prior, st) => Untouched(st.log) && prior == VetoReasons(st.log)
    case Green(_, st) => Edited(c, plan, diff, st.log) && GreenVersion(st.log) == Version(st.log)
    case Retry(diff', st) => Edited(c, plan, diff', st.log)
    case Approved(st) => Opens(st.log) == 0 && FedBack(st.log) && SafeToOpen(c, st.log)
    case Exhausted(st) => Opens(st.log) == 0 && FedBack(st.log)
    case Again(diff', _, st) => Edited(c, plan, diff', st.log) && GreenVersion(st.log) == Version(st.log)
  }

  lemma PlanRoundKeeps(c: Config, o: Oracle, k: nat, prior: seq<VetoReason>, st: State)
    requires Untouched(st.log) && prior == VetoReasons(st.log)
    ensures Kept(c, "", BlankDiff, PlanRound(c, o, k, prior, st))
  {
    var a := o.architect(st.time);
    var log1 := Then(st.log, AskedArchitect(prior, a));
    assert Untouched(log1);
    if a.ArchitectRan? {
      var step := RunPlanReviewer(o.planReview(st.time + 1), a.cost, c.costCapMultiplier);
      if a.plan.Plan? {
        var log2 := Then(log1, AskedPlanReviewer(a.plan.text, prior, step));
        assert Untouched(log2);
        if step.review.Veto? {
          assert Untouched(Then(log2, Emitted(VetoNotice(k, step.review.reasons))));
        }
      }
    }
  }

  lemma VerifyRoundKeeps(c: Config, o: Oracle, plan: string, diff: DiffText, st: State)
    requires Edited(c, plan, diff, st.log)
    ensures Kept(c, plan, diff, VerifyRound(c, o, plan, diff, st))
  {
    var log1 := Then(st.log, Verified(o.verify(st.time)));
    assert Edited(c, plan, diff, log1);
    var log2 := Then(log1, AskedDoctor(plan, diff, o.doctor(st.time + 1)));
    assert Edited(c, plan, diff, log2);
  }

  lemma FixPassKeeps(c: Config, o: Oracle, plan: string, diff: DiffText, st: State)
    requires Edited(c, plan, diff, st.log)
    ensures Kept(c, plan, diff, FixPass(o, plan, st))
  {
    assert Opens(Then(st.log, AskedEditor(FixReview, plan, o.editor(st.time)))) == 0;
  }

  lemma ReviewRoundKeeps(c: Config, o: Oracle, round: int, plan: string, diff: DiffText, st: State)
    requires Edited(c, plan, diff, st.log) && GreenVersion(st.log) == Version(st.log)
    ensures Kept(c, plan, diff, ReviewRound(c, o, round, plan, diff, st))
  {
    var r := o.review(st.time);
    var st1 := st.See(AskedReviewer(plan, diff, r));
    assert Edited(c, plan, diff, st1.log);
    if r.ReviewRan? {
      var st2 := st1.Push(Attempt(Reviewer, r.ok, r.cost, r.tokens));
      var st3 := if r.haikuGate then st2.See(Emitted(GateNotice(round))) else st2;
      assert Edited(c, plan, diff, st3.log);
      FixPassKeeps(c, o, plan, diff, st3);
      if r.approve {
        assert SafeToOpen(c, st1.log);
      }
    }
  }

  lemma OpenSound(c: Config, o: Oracle, v: Option<VerifyAnswer>, st: State)
    requires Opens(st.log) == 0 && FedBack(st.log) && SafeToOpen(c, st.log)
    ensures Sound(c, OpenPr(o, v, st))
  {
    assert SafeToOpen(c, Then(st.log, ReadBranch(true)));
  }

  lemma {:induction false} ReviewSound(c: Config, o: Oracle, round: int, plan: string, diff: DiffText,
                                       v: Option<VerifyAnswer>, rejected: bool, st: State)
    requires Edited(c, plan, diff, st.log) && GreenVersion(st.log) == Version(st.log)
    ensures Sound(c, ReviewLoop(c, o, round, plan, diff, v, rejected, st))
    decreases if round > c.maxRounds then 0 else c.maxRounds - round + 1
  {
    if round <= c.maxRounds {
      ReviewRoundKeeps(c, o, round, plan, diff, st);
      match ReviewRound(c, o, round, plan, diff, st)
      case Ended(_) =>
      case Approved(st') => OpenSound(c, o, v, st');
      case Exhausted(_) =>
      case Again(diff', v', st') => ReviewSound(c, o, round + 1, plan, diff', Some(v'), true, st');
    }
  }

  lemma {:induction false} VerifySound(c: Config, o: Oracle, plan: string, diff: DiffText, st: State)
    requires Edited(c, plan, diff, st.log)
    ensures Sound(c, VerifyLoop(c, o, plan, diff, st))
    decreases if CountDoctors(st.attempts) > c.doctorCap then 0 else c.doctorCap - CountDoctors(st.attempts)
  {
    VerifyRoundKeeps(c, o, plan, diff, st);
    match VerifyRound(c, o, plan, diff, st)
    case Ended(_) =>
    case Green(v, st') => ReviewSound(c, o, 1, plan, diff, Some(v), false, st');
    case Retry(diff', st') => VerifySound(c, o, plan, diff', st');
  }

  lemma EditSound(c: Config, o: Oracle, accepted: Option<string>, st: State)
    requires Untouched(st.log) && (accepted.Some? ==> ClearedPlan(c, st.log) == accepted)
    ensures Sound(c, AfterPlan(c, o, accepted, st))
  {
    if accepted.Some? {
      UntouchedFollows(st.log, accepted.value);
      var e := o.editor(st.time);
      var st' := st.See(AskedEditor(Initial, accepted.value, e));
      if e.EditorRan? {
        VerifySound(c, o, accepted.value, e.diff, st'.Push(Attempt(Editor, e.ok, e.cost, e.tokens)));
      }
    }
  }

  lemma {:induction false} PlanSound(c: Config, o: Oracle, k: nat, prior: seq<VetoReason>, st: State)
    requires Untouched(st.log) && prior == VetoReasons(st.log)
    ensures Sound(c, PlanLoop(c, o, k, prior, st))
    decreases c.vetoCap + 1 - k
  {
    if k > c.vetoCap {
      EditSound(c, o, None, st);
    } else {
      PlanRoundKeeps(c, o, k, prior, st);
      match PlanRound(c, o, k, prior, st)
      case Ended(_) =>
      case Accepted(plan, st') => EditSound(c, o, Some(plan), st');
      case Replan(prior', st') => PlanSound(c, o, k + 1, prior', st');
    }
  }

  /** PR safety over every run. */
  lemma PrSafety(c: Config, o: Oracle)
    ensures Sound(c, RunSpec(c, o))
  {
    if c.crossProviderOk && !o.aborted(0) {
      PlanSound(c, o, 1, [], BEGIN);
    }
  }
}
