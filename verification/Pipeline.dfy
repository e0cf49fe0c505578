/** Values exchanged between the pipeline runner, the workers it drives and the
    bridge that reports a finished run to the sprint manager. */
module Pipeline {
  import opened Prelude

  datatype Role = Architect | Editor | Reviewer | Doctor

  /** One worker invocation as the runner records it. A missing cost or token
      count means "not reported", which is not the same as zero. */
  datatype Attempt = Attempt(role: Role, ok: bool, cost: Option<real>, tokens: Option<nat>)

  datatype Status = PrOpened | AlreadyResolved | BlockedByReviewer | AwaitingInterview | Failed | Cancelled

  datatype FailureReason =
    | CrossProvider
    | ArchitectFailed
    | EmptyPlan
    | PlanNotApproved
    | PlanVetoed
    | NoPlan
    | EditorFailed
    | NoDiff
    | DoctorLimit
    | DoctorFailed
    | NewBriefNeeded
    | EditorRetryFailed
    | EditorFixFailed
    | VerifyAfterFixFailed
    | VerifyNotPassed

  datatype Result = Result(
    status: Status,
    prUrl: Option<string>,
    reason: Option<FailureReason>,
    attempts: History<Attempt>,
    totalTokens: Option<nat>)

  /** A run either returns a result or lets an exception of a collaborator escape. */
  datatype Outcome = Returned(result: Result) | Threw
}
