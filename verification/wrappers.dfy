/** Failure-compatible results: the `Option` of the source and its `Result` with an error code.
    Only the stable code of an error is modelled; its human-readable detail is not. */
module Wrappers {
  datatype Code =
    | HistoryUnavailable | IncompatibleState | InvalidBranchName | InvalidResponse | InvalidState
    | InvalidTestCommand | NotPaused | NotRetryable | NotWaitingThread | PlanMissing
    | PlanNotApproved | PolicyAlreadyFrozen | ResultNotApproved | RunNotActive
    | StaleIntegrationBranch | StaleIntegrationSha | StalePlanHash | StalePlanRevision
    | StalePrimarySha | StaleReviewerSha | StaleRound | StaleRunId | TestFailure
    | UnexpectedIntegrationBranch | UnexpectedMessage | UnexpectedRole | WrongPhase

  datatype Option<+T> = None | Some(value: T)

  datatype Result<+T> = Ok(value: T) | Err(code: Code) {
    predicate IsFailure() {
      Err?
    }

    function PropagateFailure<U>(): Result<U>
      requires Err?
    {
      Err(code)
    }

    function Extract(): T
      requires Ok?
    {
      value
    }
  }

  /** What a call that can panic does: it returns, or it does not. */
  datatype Attempt<+T> = Panics | Returns(value: T)

  /** The outcome of a guard: it extracts to the unit value. */
  datatype Check = Pass | Fail(code: Code) {
    predicate IsFailure() {
      Fail?
    }

    function PropagateFailure<U>(): Result<U>
      requires Fail?
    {
      Err(code)
    }

    function Extract(): ()
      requires Pass?
    {
      ()
    }
  }

  function Need(condition: bool, code: Code): Check {
    if condition then Pass else Fail(code)
  }
}
