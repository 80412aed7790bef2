/** One step of a run: everything the coordinator does to the persisted state. */
module Steps {
  import opened Wrappers
  import opened RunTypes
  import opened Participants
  import opened Machine
  import opened Retries
  import opened Normalisation
  import opened Invariant

  /** How a failed driver step leaves the run. */
  datatype Halt = HaltBlocked | HaltPaused | HaltIncompatible

  datatype Event =
    | Configure(branch: string, commands: seq<string>)
    | Deliver(message: Message)                       // any message, as a v1 envelope brings it
    | Respond(response: Response, world: World)       // a v2 response, normalised
    | PrepareWorkspace
    | PauseRun(reason: string)
    | ResumeRun
    | Wait
    | Idle
    | FailStep(error: Diagnostic, how: Halt)
    | RetryRun(kind: Retry)
    | Revalidated
    | CancelRun
    | StepsExhausted                                  // the driver gave up after its last step

  predicate Driven(s: State) {
    s.status in {Running, WaitingThread}
  }

  function PrepareVerificationWorkspace(s: State): Result<State> {
    var _ :- Need(Driven(s) && s.nextAction == RequestPrimaryVerification, InvalidState);
    var _ :- Need(s.result.sha.Some?, InvalidState);
    var path := VerificationPath(s.facts.runId, s.result.sha.value);
    var _ :- Need(s.result.workspace.Some? ==> s.result.workspace.value == path, InvalidState);
    Ok(s.(result := s.result.(workspace := Some(path))))
  }

  /** A failed step records a diagnostic of the pending action and then halts the run. */
  function Failed(s: State, error: Diagnostic, how: Halt): Result<State> {
    var _ :- Need(Driven(s) && error.action == s.nextAction, InvalidState);
    var recorded := s.(lastError := Some(error));
    match how
    case HaltBlocked => Ok(BlockWith(recorded, error.code))
    case HaltPaused => Pause(recorded, error.code)
    case HaltIncompatible => Ok(MarkIncompatible(recorded, error.code))
  }

  function Perform(s: State, e: Event): Result<State> {
    match e
    case Configure(branch, commands) => ConfigureIntegration(s, branch, commands)
    case Deliver(m) => ApplyMessage(s, m)
    case Respond(r, w) =>
      var m :- Normalize(s, r, w);
      ApplyMessage(s, m)
    case PrepareWorkspace => PrepareVerificationWorkspace(s)
    case PauseRun(reason) => Pause(s, reason)
    case ResumeRun => Resume(s)
    case Wait => WaitForThread(s)
    case Idle => ThreadBecameIdle(s)
    case FailStep(error, how) => Failed(s, error, how)
    case RetryRun(kind) => ApplyRetry(kind, s)
    case Revalidated => AcceptAfterRevalidation(s)
    case CancelRun => Ok(Cancel(s))
    case StepsExhausted => Ok(BlockWith(s, "NO_PROGRESS"))
  }

  /** A step takes effect when its result can be saved. */
  function Step(s: State, e: Event): Result<State> {
    var next :- Perform(s, e);
    var _ :- Need(Persistable(next), IncompatibleState);
    Ok(next)
  }

  // ----- every step keeps the invariant

  lemma HaltKeeps(s: State, error: Diagnostic, how: Halt)
    requires Inv(s) && Failed(s, error, how).Ok?
    ensures Inv(Failed(s, error, how).value)
  {
    assert Live(s);
    if how == HaltBlocked {
      BlockKeeps(s, error.code, Some(error));
    }
  }

  lemma StatusKeeps(s: State, e: Event)
    requires Live(s) && Perform(s, e).Ok?
    requires e.PrepareWorkspace? || e.PauseRun? || e.ResumeRun? || e.Wait? || e.Idle?
    ensures Live(Perform(s, e).value)
  {
    hide Normalize, ApplyMessage, ApplyRetry, ConfigureIntegration, AcceptAfterRevalidation, PlanFits;
  }

  lemma AcceptanceKeeps(s: State)
    requires Inv(s) && AcceptAfterRevalidation(s).Ok?
    ensures Ended(AcceptAfterRevalidation(s).value)
  {
    hide BlockedIn;
    assert Live(s);
  }

  lemma EndKeeps(s: State)
    requires Inv(s) && s.status != Accepted
    ensures Ended(Cancel(s))
    ensures OutOfRounds(BlockWith(s, "NO_PROGRESS"))
  {
    hide BlockedIn, PlanFits, ActionFits;
    InvIsCommon(s);
  }

  lemma InvIsCommon(s: State)
    requires Inv(s)
    ensures Common(s)
  {
    if BlockedInAction(s) {
      var action :| BlockedIn(s, action);
      assert Common(Unblocked(s, action));
    }
  }

  lemma DeclarationFinds(s: State, reason: string, actions: set<NextAction>, action: NextAction)
    requires BlockedIn(s, action) && DeclarationRetry(s, reason, actions).Ok?
    ensures DeclarationRetry(s, reason, actions) == Ok(action)
  {
  }

  lemma FirstIntegrationFinds(s: State, reason: string, diagnosed: bool, unaccepted: bool,
                              action: NextAction)
    requires BlockedIn(s, action) && FirstIntegrationRetry(s, reason, diagnosed, unaccepted).Ok?
    ensures FirstIntegrationRetry(s, reason, diagnosed, unaccepted) == Ok(action)
  {
  }

  lemma VerificationFinds(s: State, reason: string, diagnosed: bool, action: NextAction)
    requires BlockedIn(s, action) && VerificationRetry(s, reason, diagnosed).Ok?
    ensures VerificationRetry(s, reason, diagnosed) == Ok(action)
  {
  }

  lemma VerdictFinds(s: State, action: NextAction)
    requires BlockedIn(s, action) && ReviewerVerdictRetry(s).Ok?
    ensures ReviewerVerdictRetry(s) == Ok(action)
  {
  }

  /** An approved plan without a result can only have been waiting for its integration, and a
      result without evidence for its verification, whatever the diagnostic says. */
  lemma ShapeFinds(s: State, action: NextAction)
    requires BlockedIn(s, action)
    ensures s.plan.approved && NoResult(s) ==> action == RequestPrimaryIntegration
    ensures HasResultIdentity(s) && s.result.evidence == [] ==> action == RequestPrimaryVerification
  {
    var origin := Unblocked(s, action);
    assert ActionFits(origin) && ResultFits(origin.result, origin.policy, origin.facts.runId);
  }

  lemma CorrectionFinds(s: State, reason: string, fits: bool, action: NextAction)
    requires BlockedIn(s, action) && CorrectionRetry(s, reason, fits).Ok?
    requires fits ==> s.result.feedback.Some?
    ensures action in {RequestPrimaryIntegration, RequestReviewerResultVerdict}
    ensures !Passing(s.result.evidence) ==> action == RequestPrimaryIntegration
    ensures Live(Unblocked(s, RequestPrimaryIntegration))
    ensures CorrectionRetry(s, reason, fits) == Ok(RequestPrimaryIntegration)
  {
    var origin := Unblocked(s, action);
    assert ActionFits(origin) && ResultFits(origin.result, origin.policy, origin.facts.runId);
    assert HasCorrectableResult(s);
  }

  lemma PatchToolFinds(s: State, action: NextAction)
    requires BlockedIn(s, action) && RetryTarget(CorrectivePatchTool, s).Ok?
    ensures RetryTarget(CorrectivePatchTool, s) == Ok(action)
  {
    hide Live, CorrectionRetry;
    var fits := !Passing(s.result.evidence) && MachineFeedbackMatches(s);
    CorrectionFinds(s, "CONTROLLED_PATCH_TOOL_UNAVAILABLE", fits, action);
    assert fits by { CorrectionFits(s, "CONTROLLED_PATCH_TOOL_UNAVAILABLE", fits); }
  }

  lemma PatchRejectionFinds(s: State, action: NextAction)
    requires BlockedIn(s, action) && RetryTarget(ResultReviewPatchNotAuthorized, s).Ok?
    ensures RetryTarget(ResultReviewPatchNotAuthorized, s) == Ok(RequestPrimaryIntegration)
    ensures action in {RequestPrimaryIntegration, RequestReviewerResultVerdict}
    ensures Live(Unblocked(s, RequestPrimaryIntegration))
  {
    hide Live, CorrectionRetry;
    CorrectionFinds(s, "PATCH_NOT_AUTHORIZED",
      Passing(s.result.evidence) && ReviewerFeedbackRetained(s), action);
  }

  lemma CorrectionFits(s: State, reason: string, fits: bool)
    requires CorrectionRetry(s, reason, fits).Ok?
    ensures fits
  {
  }

  /** The guards that insist on a diagnostic take the action from it. */
  lemma DiagnosedRetryFinds(kind: Retry, s: State, action: NextAction)
    requires BlockedIn(s, action) && RetryTarget(kind, s).Ok?
    requires kind !in {ExecutionToolUnavailable, VerificationEnvironment, CorrectivePatchTool,
                       ResultReviewPatchNotAuthorized}
    ensures RetryTarget(kind, s) == Ok(action)
  {
    hide BlockedIn, DeclarationRetry, FirstIntegrationRetry, VerificationRetry, ReviewerVerdictRetry,
      LastErrorIs, CompletedIntegrationAuditDetail, FromEphemeralMirror, FromCompletionCollision;
    match kind
    case TestCommandDeclared => DeclarationFinds(s, "INVALID_TEST_COMMAND",
        {RequestPrimaryContract, RequestReviewerContract, RequestPrimaryPlan}, action);
    case PreintegrationInvalidResponse => DeclarationFinds(s, "INVALID_RESPONSE",
        {RequestPrimaryContract, RequestReviewerContract, RequestPrimaryPlan,
         RequestReviewerPlanVerdict}, action);
    case IntegrationInvalidResponse =>
      FirstIntegrationFinds(s, "INVALID_RESPONSE", true, false, action);
    case CompletedIntegrationForbidden =>
      FirstIntegrationFinds(s, "FORBIDDEN_OPERATION",
        s.lastError.Some? && CompletedIntegrationAuditDetail(s.lastError.value.detail), true, action);
    case UnsentEphemeralRecreation =>
      FirstIntegrationFinds(s, "HISTORY_UNAVAILABLE", FromEphemeralMirror(s), true, action);
    case PreintegrationForbidden =>
      FirstIntegrationFinds(s, "FORBIDDEN_OPERATION", true, false, action);
    case VerificationWithoutExecution =>
      VerificationFinds(s, "TEST_FAILURE", LastErrorIs(s,
        "verification must execute each frozen command exactly once and no other command"), action);
    case VerificationCompletionCollision =>
      VerificationFinds(s, "DATABASE_ERROR", FromCompletionCollision(s), action);
    case ReviewerReasoningLifecycle => VerdictFinds(s, action);
  }

  /** Two guards without a diagnostic take it from the shape of the state. */
  lemma UndiagnosedRetryFinds(kind: Retry, s: State, action: NextAction)
    requires BlockedIn(s, action) && RetryTarget(kind, s).Ok?
    requires kind in {ExecutionToolUnavailable, VerificationEnvironment}
    ensures RetryTarget(kind, s) == Ok(action)
  {
    hide BlockedIn, BlockedFor, TerminallyBlockedFor, NoResult, HasResultIdentity;
    ShapeFinds(s, action);
  }

  /** The guard of a retry identifies the action the run was blocked in. Only the patch rejection
      leaves two candidates. */
  lemma RetryFindsAction(kind: Retry, s: State, action: NextAction)
    requires BlockedIn(s, action) && RetryTarget(kind, s).Ok?
    ensures kind != ResultReviewPatchNotAuthorized ==> RetryTarget(kind, s).value == action
    ensures kind == ResultReviewPatchNotAuthorized ==>
      action in {RequestPrimaryIntegration, RequestReviewerResultVerdict}
    ensures Live(Unblocked(s, RetryTarget(kind, s).value))
  {
    hide Live, RetryTarget;
    if kind == CorrectivePatchTool {
      PatchToolFinds(s, action);
    } else if kind == ResultReviewPatchNotAuthorized {
      PatchRejectionFinds(s, action);
    } else if kind == ExecutionToolUnavailable || kind == VerificationEnvironment {
      UndiagnosedRetryFinds(kind, s, action);
    } else {
      DiagnosedRetryFinds(kind, s, action);
    }
  }

  /** The reason a retry insists on. */
  function RetryReason(kind: Retry): string {
    match kind
    case TestCommandDeclared => "INVALID_TEST_COMMAND"
    case PreintegrationInvalidResponse => "INVALID_RESPONSE"
    case IntegrationInvalidResponse => "INVALID_RESPONSE"
    case CompletedIntegrationForbidden => "FORBIDDEN_OPERATION"
    case UnsentEphemeralRecreation => "HISTORY_UNAVAILABLE"
    case VerificationWithoutExecution => "TEST_FAILURE"
    case ReviewerReasoningLifecycle => "INCOMPATIBLE_STATE"
    case VerificationCompletionCollision => "DATABASE_ERROR"
    case VerificationEnvironment => "CARGO_UNAVAILABLE"
    case ExecutionToolUnavailable => "EXECUTION_TOOL_UNAVAILABLE"
    case CorrectivePatchTool => "CONTROLLED_PATCH_TOOL_UNAVAILABLE"
    case ResultReviewPatchNotAuthorized => "PATCH_NOT_AUTHORIZED"
    case PreintegrationForbidden => "FORBIDDEN_OPERATION"
  }

  lemma RetryNeedsReason(kind: Retry, s: State)
    requires RetryTarget(kind, s).Ok?
    ensures BlockedFor(s, RetryReason(kind))
  {
    hide HasApprovedPlan, NoResult, NoResultIdentity, AwaitsVerification, HasCorrectableResult,
      MachineFeedbackMatches, ReviewerFeedbackRetained, FromPrimary, LastErrorIs, Complete, Passing,
      CompletedIntegrationAuditDetail, FromEphemeralMirror, FromCompletionCollision, HasPrefix, HasSuffix;
  }

  lemma ReasonsAreNotExhaustion(kind: Retry)
    ensures RetryReason(kind) != "NO_PROGRESS" && RetryReason(kind) != "ROUND_LIMIT"
  {
  }

  /** A run that ran out of rounds or of progress is not retried. */
  lemma RetryNeedsAction(kind: Retry, s: State)
    requires Inv(s) && RetryTarget(kind, s).Ok?
    ensures BlockedInAction(s)
  {
    hide RetryTarget, Common, ActionFits;
    RetryNeedsReason(kind, s);
    ReasonsAreNotExhaustion(kind);
  }

  /** Any other retry that is let through leads to a state in which its action is pending again,
      ready to be saved. */
  lemma RetryKeeps(kind: Retry, s: State)
    requires Inv(s) && RetryTarget(kind, s).Ok?
    ensures BlockedInAction(s)
    ensures Live(Unblocked(s, RetryTarget(kind, s).value))
    ensures ApplyRetry(kind, s) == Ok(Unblocked(s, RetryTarget(kind, s).value))
  {
    hide RetryTarget, Live, Persistable, BlockedIn;
    RetryNeedsAction(kind, s);
    var action :| BlockedIn(s, action);
    RetryFindsAction(kind, s, action);
    InvIsPersistable(Unblocked(s, RetryTarget(kind, s).value));
  }

  lemma OnlyLiveIsDriven(s: State)
    requires Inv(s) && s.status in {Running, WaitingThread, PausedUserAction}
    ensures Live(s)
  {
    hide Common, ActionFits, BlockedIn;
  }

  predicate EndsAccepted(s: State, e: Event) {
    s.status == Accepted && (e.CancelRun? || e.StepsExhausted?)
  }

  lemma PerformKeeps(s: State, e: Event)
    requires Inv(s) && Perform(s, e).Ok? && !EndsAccepted(s, e)
    ensures Inv(Perform(s, e).value)
  {
    hide Live, OutOfRounds, Ended, BlockedIn, Persistable, RetryTarget, Normalize;
    if s.status in {Running, WaitingThread, PausedUserAction} {
      OnlyLiveIsDriven(s);
    }
    match e
    case Configure(branch, commands) => ConfigureKeeps(s, branch, commands);
    case Deliver(m) => MessageKeeps(s, m);
    case Respond(r, w) => MessageKeeps(s, Normalize(s, r, w).value);
    case FailStep(error, how) => HaltKeeps(s, error, how);
    case RetryRun(kind) => RetryKeeps(kind, s);
    case Revalidated => AcceptanceKeeps(s);
    case CancelRun => EndKeeps(s);
    case StepsExhausted => EndKeeps(s);
    case _ => StatusKeeps(s, e);
  }

  /** Saving never refuses a step, except to cancel or to give up on an accepted run. */
  lemma SaveRefusesOnlyEndingAccepted(s: State, e: Event)
    requires Inv(s) && Perform(s, e).Ok?
    ensures Step(s, e).Ok? <==> !EndsAccepted(s, e)
  {
    hide Inv, RetryTarget, Normalize, ApplyMessage;
    if EndsAccepted(s, e) {
      AcceptedHasResult(s);
    } else {
      PerformKeeps(s, e);
      InvIsPersistable(Perform(s, e).value);
    }
  }

  lemma AcceptedHasResult(s: State)
    requires Inv(s) && s.status == Accepted
    ensures s.acceptedResult.Some?
  {
    hide Common;
  }

  /** Every step keeps the invariant. */
  lemma StepKeeps(s: State, e: Event)
    requires Inv(s) && Step(s, e).Ok?
    ensures Inv(Step(s, e).value)
  {
    hide Inv, Perform, EndsAccepted;
    SaveRefusesOnlyEndingAccepted(s, e);
    PerformKeeps(s, e);
  }
}
