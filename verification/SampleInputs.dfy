/** Inputs that the concrete runs share. */
module SampleInputs {
  import opened Prelude
  import opened Pipeline
  import opened PipelineBridge
  import opened Scheduler
  import opened SprintTicks

  function Briefs(): TaskId -> string { (t: TaskId) => "do it" }

  function NoNeeds(): TaskId -> seq<string> { (t: TaskId) => [] }

  /** Every spawn succeeds. */
  function Spawns(): TaskId -> Choice { (t: TaskId) => Choice(None, true) }

  /** A run that fails and reports two dollars. */
  function Costly(): HandleOutcome {
    var attempt := Attempt(Editor, true, Some(2.0), None);
    Ran(Pipeline.Outcome.Returned(Result(Status.Failed, None, None, Then(Start, attempt), None)))
  }

  lemma CostlyCost()
    ensures OutcomeCost(Costly()) == Some(2.0)
  {
    var attempts := [Attempt(Editor, true, Some(2.0), None)];
    assert Items(Then(Start, attempts[0])) == attempts;
    assert attempts[..0] == [] && attempts[0] in attempts;
    assert ReportedCost(attempts) == 2.0;
  }
}
