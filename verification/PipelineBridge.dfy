/** How a pipeline run is reported to the sprint manager
    (src/orchestrator/pipeline-bridge.ts): exit code, PR URL and cost. */
module PipelineBridge {
  import opened Prelude
  import opened Pipeline
  import PipelineRunner
  import PipelineSafety

  /** What the manager sees of one task: exit code, PR URL, error flag, reported cost. */
  datatype SpawnResult = SpawnResult(exitCode: int, pr: Option<string>, error: bool, cost: Option<real>)

  function StatusToExitCode(status: Status): int {
    match status
    case PrOpened => 0
    case AlreadyResolved => 0
    case Failed => 1
    case Cancelled => 2
    case BlockedByReviewer => 3
    case AwaitingInterview => 4
  }

  /** Sum of the costs that were reported. */
  function ReportedCost(attempts: seq<Attempt>): real {
    if attempts == [] then 0.0
    else ReportedCost(attempts[..|attempts| - 1]) + attempts[|attempts| - 1].cost.GetOr(0.0)
  }

  predicate NothingReported(attempts: seq<Attempt>) {
    forall a :: a in attempts ==> a.cost.None?
  }

  function AttemptCost(attempts: seq<Attempt>): Option<real> {
    if NothingReported(attempts) then None else Some(ReportedCost(attempts))
  }

  /** `sumAttemptCost`: "nobody reported a cost" stays apart from a genuine zero. */
  method SumAttemptCost(attempts: seq<Attempt>) returns (cost: Option<real>)
    ensures cost == AttemptCost(attempts)
  {
    var sum, sawCost := 0.0, false;
    for i := 0 to |attempts|
      invariant sum == ReportedCost(attempts[..i])
      invariant sawCost == !NothingReported(attempts[..i])
    {
      assert attempts[..i + 1][..i] == attempts[..i];
      var a := attempts[i];
      assert a in attempts[..i + 1];
      assert forall b :: b in attempts[..i + 1] ==> b in attempts[..i] || b == a;
      if a.cost.Some? {
        sawCost := true;
        sum := sum + a.cost.value;
      }
    }
    assert attempts[..|attempts|] == attempts;
    cost := if sawCost then Some(sum) else None;
  }

  function MapPipelineResult(r: Result): SpawnResult {
    var exitCode := StatusToExitCode(r.status);
    SpawnResult(
      exitCode,
      if r.prUrl.Some? && r.prUrl.value != "" then r.prUrl else None,
      exitCode != 0,
      AttemptCost(Items(r.attempts)))
  }

  /** `PipelineBridge.execute`: never rejects; an escaped exception is exit code 1
      with no cost. */
  function Execute(out: Outcome): SpawnResult {
    match out
    case Returned(r) => MapPipelineResult(r)
    case Threw => SpawnResult(1, None, true, None)
  }

  /** Only a run that opened its pull request, or found nothing to do, exits 0. */
  predicate Succeeded(out: Outcome) {
    out.Returned? && (out.result.status.PrOpened? || out.result.status.AlreadyResolved?)
  }

  lemma ExitZero(out: Outcome)
    ensures Execute(out).exitCode == 0 <==> Succeeded(out)
    ensures Execute(out).error <==> !Succeeded(out)
  {}

  lemma ReportedCostAppend(a: seq<Attempt>, b: seq<Attempt>)
    ensures ReportedCost(a + b) == ReportedCost(a) + ReportedCost(b)
  {
    if b == [] {
      assert a + b == a;
    } else {
      assert (a + b)[..|a + b| - 1] == a + b[..|b| - 1];
      ReportedCostAppend(a, b[..|b| - 1]);
    }
  }

  lemma ReportedCostOne(a: Attempt)
    ensures ReportedCost([a]) == match a.cost case Some(v) => v case None => 0.0
  {
    assert [a][..0] == [];
  }

  /** A run that returned reports a cost exactly if one of its attempts does, and then their
      sum; a run that threw reports none. */
  lemma CostIff(out: Outcome)
    ensures Execute(out).cost.Some? <==>
      out.Returned? && exists a :: a in Items(out.result.attempts) && a.cost.Some?
    ensures Execute(out).cost.Some? ==> Execute(out).cost.value == ReportedCost(Items(out.result.attempts))
  {}

  /** The exit codes of the command line. */
  lemma ExitCodes(out: Outcome)
    ensures var code := Execute(out).exitCode;
            && (code == 2 <==> out.Returned? && out.result.status.Cancelled?)
            && (code == 3 <==> out.Returned? && out.result.status.BlockedByReviewer?)
            && (code == 4 <==> out.Returned? && out.result.status.AwaitingInterview?)
            && (code == 1 <==> out.Threw? || out.result.status.Failed?)
            && 0 <= code <= 4
  {}

  /** End to end: whenever the manager is handed a PR URL, the run exited 0, its last
      act was opening exactly that pull request, and it was safe to do so. */
  lemma PrMeansSafe(c: PipelineRunner.Config, o: PipelineRunner.Oracle)
    ensures var (out, log) := PipelineRunner.RunSpec(c, o);
            var s := Execute(out);
            s.pr.Some? ==>
              && s.exitCode == 0
              && log.Then? && log.event == PipelineRunner.CalledPrOpen(s.pr)
              && PipelineSafety.SafeToOpen(c, log.past)
  {
    PipelineSafety.PrSafety(c, o);
  }
}
