/** The transitions that take a blocked run back to the action it was blocked in. */
module Retries {
  import opened Wrappers
  import opened Text
  import opened Json
  import opened Canonical
  import opened RunTypes
  import opened Machine

  /** One constructor for each `retry_blocked_*` and `recover_*` operation. */
  datatype Retry =
    | TestCommandDeclared
    | PreintegrationInvalidResponse
    | IntegrationInvalidResponse
    | CompletedIntegrationForbidden
    | UnsentEphemeralRecreation
    | VerificationWithoutExecution
    | ReviewerReasoningLifecycle
    | VerificationCompletionCollision
    | VerificationEnvironment
    | ExecutionToolUnavailable
    | CorrectivePatchTool
    | ResultReviewPatchNotAuthorized
    | PreintegrationForbidden

  /** The phase in which an action is pending. */
  function PhaseOf(action: NextAction): Phase {
    match action
    case RequestPrimaryContract => Contract
    case RequestReviewerContract => Contract
    case RequestPrimaryPlan => PlanReview
    case RequestReviewerPlanVerdict => PlanReview
    case RequestPrimaryIntegration => Integrate
    case RequestPrimaryVerification => Verify
    case RequestReviewerResultVerdict => ResultReview
    case RevalidateAndAccept => ResultReview
    case WaitForUser => PausedPhase
    case Stop => BlockedPhase
  }

  predicate BlockedFor(s: State, reason: string) {
    s.status == Blocked && s.reasonCode == Some(reason)
  }

  predicate TerminallyBlockedFor(s: State, reason: string) {
    BlockedFor(s, reason) && s.phase == BlockedPhase && s.nextAction == Stop
  }

  predicate DiagnosticMatchesPrimary(facts: Facts, d: Diagnostic) {
    || d.thread == Some(facts.primaryThread)
    || (&& d.sourceThread == Some(facts.primaryThread)
        && d.effectiveThread == d.thread
        && d.generation.Some?
        && d.mode.Some?
        && d.server.Some?)
  }

  predicate FromPrimary(s: State, code: string, action: NextAction) {
    && s.lastError.Some?
    && var d := s.lastError.value;
      && d.code == code
      && d.action == action
      && d.role == Some(Primary)
      && DiagnosticMatchesPrimary(s.facts, d)
  }

  predicate HasApprovedPlan(s: State) {
    s.plan.approved && s.plan.payload.Some? && s.plan.approval.Some? && s.policy.targetBranch.Some?
  }

  predicate NoResultIdentity(s: State) {
    s.result.branch.None? && s.result.sha.None? && s.result.payload.None?
  }

  predicate NoResult(s: State) {
    NoResultIdentity(s) && s.result.workspace.None? && s.result.evidence == []
  }

  predicate HasResultIdentity(s: State) {
    s.result.branch.Some? && s.result.sha.Some? && s.result.payload.Some?
  }

  predicate AwaitsVerification(s: State) {
    && s.plan.approved
    && HasResultIdentity(s)
    && s.result.workspace.Some?
    && s.policy.requiredTests != []
    && s.result.evidence == []
    && s.acceptedResult.None?
  }

  predicate HasPrefix(text: string, prefix: string) {
    prefix <= text
  }

  predicate HasSuffix(text: string, suffix: string) {
    |suffix| <= |text| && text[|text| - |suffix|..] == suffix
  }

  // ----- the details of the diagnostics

  const NOT_COMPLETED := "integration command is not canonically completed with exit code zero"
  const OUTSIDE_POLICY := "integration command is outside the frozen execution policy"
  const PATCH_AFTER_END := "controlled patch call appears after the final agent response"
  const CONFIRMATION := "patch-success confirmation executed a non-read-only command: "
  const SYMBOLIC_REF := "git symbolic-ref --short HEAD"
  const SHOW_CURRENT := "git branch --show-current"
  const SHELL := "/bin/bash -lc '"
  const MIRROR_NOT_IDLE := "Source Primary before safe mirror recreation is not idle"
  const NOTHING_EXECUTED :=
    "verification must execute each frozen command exactly once and no other command"
  const COMPLETION_COLLISION :=
    "database error: UNIQUE constraint failed: turn_event_completions.turn_record_id"
  const LIFECYCLE_FRONT := "INCOMPATIBLE_STATE: turn "
  const LIFECYCLE_END := " completed before all item lifecycle events were persisted"

  predicate CompletedIntegrationAuditDetail(detail: string) {
    detail in {
      NOT_COMPLETED, OUTSIDE_POLICY, PATCH_AFTER_END,
      CONFIRMATION + SYMBOLIC_REF, CONFIRMATION + SHELL + SYMBOLIC_REF + "'",
      CONFIRMATION + SHOW_CURRENT, CONFIRMATION + SHELL + SHOW_CURRENT + "'"}
  }

  // ----- retained verification failures

  datatype Failure = Failure(command: string, exitCode: int, itemId: string, output: string)

  function ParseFailureFields(
    command: Option<Value>, exitCode: Option<Value>, itemId: Option<Value>,
    output: Option<Value>): Option<Failure>
  {
    match (command, Int64(exitCode), itemId, output)
    case (Some(String(c)), Some(x), Some(String(i)), Some(String(o))) => Some(Failure(c, x, i, o))
    case _ => None
  }

  const FAILURE_FIELDS := {"command", "exit_code", "item_id", "output"}

  /** Unknown fields are refused here, unlike in test evidence. */
  function ParseFailure(v: Value): Option<Failure> {
    match v
    case Object(fields) =>
      if fields.Keys <= FAILURE_FIELDS then
        ParseFailureFields(Get(v, "command"), Get(v, "exit_code"), Get(v, "item_id"), Get(v, "output"))
      else None
    case Array(a) =>
      if |a| == 4 then ParseFailureFields(Some(a[0]), Some(a[1]), Some(a[2]), Some(a[3])) else None
    case _ => None
  }

  function ParseFailures(values: seq<Value>): Option<seq<Failure>> {
    if values == [] then Some([])
    else
      match (ParseFailure(values[0]), ParseFailures(values[1..]))
      case (Some(first), Some(rest)) => Some([first] + rest)
      case _ => None
  }

  function FailureValue(f: Failure): Value {
    Object(map[
      "command" := String(f.command),
      "exit_code" := Number(f.exitCode),
      "item_id" := String(f.itemId),
      "output" := String(f.output)])
  }

  function FailureValues(failures: seq<Failure>): Value {
    Array(seq(|failures|, i requires 0 <= i < |failures| => FailureValue(failures[i])))
  }

  function FailedOnly(evidence: seq<Evidence>): seq<Evidence> {
    if evidence == [] then []
    else (if evidence[0].exitCode != 0 then [evidence[0]] else []) + FailedOnly(evidence[1..])
  }

  predicate FailureMatches(f: Failure, e: Evidence) {
    f.command == e.command && f.exitCode == e.exitCode && f.itemId == e.itemId
  }

  /** The failures in canonical form, when they describe exactly the failed evidence in order. */
  function CanonicalFailures(v: Value, evidence: seq<Evidence>): Option<Value> {
    var failures := if v.Array? then ParseFailures(v.items) else None;
    var expected := FailedOnly(evidence);
    if || failures.None?
       || failures.value == []
       || |failures.value| != |expected|
       || exists i | 0 <= i < |expected| :: !FailureMatches(failures.value[i], expected[i])
    then None
    else
      var canonical := FailureValues(failures.value);
      if CanonicalHash(v) == CanonicalHash(canonical) then Some(canonical) else None
  }

  // ----- the two corrective patch requests

  /** Common to both: a verified, unaccepted result of an approved plan past its first round. */
  predicate HasCorrectableResult(s: State) {
    && HasApprovedPlan(s)
    && HasResultIdentity(s)
    && s.result.workspace.Some?
    && s.policy.requiredTests != []
    && s.result.evidence != []
    && s.acceptedResult.None?
    && s.result.approvedSha.None?
    && s.round > 1
    && s.result.branch == s.policy.targetBranch
    && Complete(s.policy.requiredTests, s.result.evidence)
    && (forall e | e in s.result.evidence :: e.cwd == s.result.workspace.value)
    && ParseEvidence(s.result.payload.value) == Ok(s.result.evidence)
  }

  predicate MachineFeedbackMatches(s: State) {
    && s.result.payload.Some?
    && var payload := s.result.payload.value;
      && var found := Get(payload, "verification_failures");
        && found.Some?
        && var failures := CanonicalFailures(found.value, s.result.evidence);
          && failures.Some?
          && GetString(payload, "verification_summary").Some?
          && s.result.feedback.Some?
          && var feedback := s.result.feedback.value;
            && GetString(feedback, "format") == Some("machine_verification")
            && GetString(feedback, "summary") == Some(MACHINE_VERIFICATION_SUMMARY)
            && Get(feedback, "verification_summary") == Get(payload, "verification_summary")
            && Get(feedback, "failed_tests").Some?
            && CanonicalHash(Get(feedback, "failed_tests").value) == CanonicalHash(failures.value)
  }

  predicate ReviewerFeedbackRetained(s: State) {
    && s.result.feedback.Some?
    && var feedback := s.result.feedback.value;
      && feedback.Object?
      && feedback.fields != map[]
      && GetString(feedback, "format") != Some("machine_verification")
      && !(&& GetString(feedback, "format") == Some("markdown")
           && (GetString(feedback, "feedback").None? || Blank(GetString(feedback, "feedback").value)))
  }

  // ----- guards and effect

  /** Back to the read-only turn named by the diagnostic. */
  function DeclarationRetry(s: State, reason: string, actions: set<NextAction>): Result<NextAction> {
    var _ :- Need(BlockedFor(s, reason), NotRetryable);
    var _ :- Need(s.lastError.Some? && s.lastError.value.code == reason, IncompatibleState);
    var _ :- Need(s.lastError.value.action in actions, NotRetryable);
    var _ :- Need(NoResultIdentity(s), NotRetryable);
    Ok(s.lastError.value.action)
  }

  /** Back to an integration that has no result yet. */
  function FirstIntegrationRetry(s: State, reason: string, diagnosed: bool, unaccepted: bool)
    : Result<NextAction>
  {
    var _ :- Need(TerminallyBlockedFor(s, reason), NotRetryable);
    var _ :- Need(s.lastError.Some?, IncompatibleState);
    var _ :- Need(FromPrimary(s, reason, RequestPrimaryIntegration) && diagnosed, NotRetryable);
    var _ :- Need(HasApprovedPlan(s), IncompatibleState);
    var _ :- Need(NoResult(s) && (unaccepted ==> s.acceptedResult.None?), NotRetryable);
    Ok(RequestPrimaryIntegration)
  }

  /** Back to a verification that has left no evidence. */
  function VerificationRetry(s: State, reason: string, diagnosed: bool): Result<NextAction> {
    var _ :- Need(TerminallyBlockedFor(s, reason), NotRetryable);
    var _ :- Need(s.lastError.Some?, IncompatibleState);
    var _ :- Need(FromPrimary(s, reason, RequestPrimaryVerification) && diagnosed, NotRetryable);
    var _ :- Need(AwaitsVerification(s), NotRetryable);
    Ok(RequestPrimaryVerification)
  }

  function ReviewerVerdictRetry(s: State): Result<NextAction> {
    var _ :- Need(TerminallyBlockedFor(s, "INCOMPATIBLE_STATE"), NotRetryable);
    var _ :- Need(s.lastError.Some?, IncompatibleState);
    var d := s.lastError.value;
    var _ :- Need(&& d.code == "INCOMPATIBLE_STATE"
            && d.action == RequestReviewerResultVerdict
            && d.role == Some(Reviewer)
            && d.thread == Some(s.facts.reviewerThread), NotRetryable);
    var _ :- Need(&& HasPrefix(d.detail, LIFECYCLE_FRONT)
            && HasSuffix(d.detail, LIFECYCLE_END),
            NotRetryable);
    var _ :- Need(&& s.plan.approved
            && HasResultIdentity(s)
            && s.result.workspace.Some?
            && s.result.evidence != []
            && s.acceptedResult.None?
            && s.result.approvedSha.None?, NotRetryable);
    var _ :- Need(Complete(s.policy.requiredTests, s.result.evidence) && Passing(s.result.evidence), TestFailure);
    Ok(RequestReviewerResultVerdict)
  }

  /** Back to a correction of a verified result. */
  function CorrectionRetry(s: State, reason: string, feedbackFits: bool): Result<NextAction> {
    var _ :- Need(TerminallyBlockedFor(s, reason) && s.lastError.None?, NotRetryable);
    var _ :- Need(HasCorrectableResult(s) && feedbackFits, NotRetryable);
    Ok(RequestPrimaryIntegration)
  }

  predicate LastErrorIs(s: State, detail: string) {
    s.lastError.Some? && s.lastError.value.detail == detail
  }

  predicate FromEphemeralMirror(s: State) {
    && LastErrorIs(s, MIRROR_NOT_IDLE)
    && var d := s.lastError.value;
      && d.operation.None?
      && d.thread != Some(s.facts.primaryThread)
      && d.thread != Some(s.facts.reviewerThread)
      && d.mode == Some("EPHEMERAL_FORK")
      && d.server == Some(PARTICIPANT_SERVER)
  }

  predicate FromCompletionCollision(s: State) {
    && LastErrorIs(s, COMPLETION_COLLISION)
    && s.lastError.value.operation.None?
  }

  /** Where a retry leads, when its guard lets it through. */
  function RetryTarget(kind: Retry, s: State): Result<NextAction> {
    match kind
    case TestCommandDeclared =>
      DeclarationRetry(s, "INVALID_TEST_COMMAND",
        {RequestPrimaryContract, RequestReviewerContract, RequestPrimaryPlan})
    case PreintegrationInvalidResponse =>
      DeclarationRetry(s, "INVALID_RESPONSE",
        {RequestPrimaryContract, RequestReviewerContract, RequestPrimaryPlan,
         RequestReviewerPlanVerdict})
    case IntegrationInvalidResponse =>
      FirstIntegrationRetry(s, "INVALID_RESPONSE", true, false)
    case CompletedIntegrationForbidden =>
      FirstIntegrationRetry(s, "FORBIDDEN_OPERATION",
        s.lastError.Some? && CompletedIntegrationAuditDetail(s.lastError.value.detail), true)
    case UnsentEphemeralRecreation =>
      FirstIntegrationRetry(s, "HISTORY_UNAVAILABLE", FromEphemeralMirror(s), true)
    case PreintegrationForbidden =>
      FirstIntegrationRetry(s, "FORBIDDEN_OPERATION", true, false)
    case ExecutionToolUnavailable =>
      var _ :- Need(TerminallyBlockedFor(s, "EXECUTION_TOOL_UNAVAILABLE"), NotRetryable);
      var _ :- Need(HasApprovedPlan(s), IncompatibleState);
      var _ :- Need(NoResult(s), NotRetryable);
      Ok(RequestPrimaryIntegration)
    case VerificationWithoutExecution =>
      VerificationRetry(s, "TEST_FAILURE", LastErrorIs(s, NOTHING_EXECUTED))
    case VerificationCompletionCollision =>
      VerificationRetry(s, "DATABASE_ERROR", FromCompletionCollision(s))
    case VerificationEnvironment =>
      var _ :- Need(TerminallyBlockedFor(s, "CARGO_UNAVAILABLE"), NotRetryable);
      var _ :- Need(AwaitsVerification(s), NotRetryable);
      Ok(RequestPrimaryVerification)
    case ReviewerReasoningLifecycle =>
      ReviewerVerdictRetry(s)
    case CorrectivePatchTool =>
      CorrectionRetry(s, "CONTROLLED_PATCH_TOOL_UNAVAILABLE",
        !Passing(s.result.evidence) && MachineFeedbackMatches(s))
    case ResultReviewPatchNotAuthorized =>
      CorrectionRetry(s, "PATCH_NOT_AUTHORIZED", Passing(s.result.evidence) && ReviewerFeedbackRetained(s))
  }

  /** The run as it is when `action` is pending and nothing is wrong. */
  function Unblocked(s: State, action: NextAction): State {
    s.(status := Running, phase := PhaseOf(action), nextAction := action, reasonCode := None,
       lastError := None)
  }

  /** A retry persists its result only if it could be loaded again. The corrective patch retry
      does not clear the last error, which its guard has found absent. */
  function ApplyRetry(kind: Retry, s: State): Result<State> {
    var action :- RetryTarget(kind, s);
    var next := Unblocked(s, action);
    var _ :- Need(Persistable(next), IncompatibleState);
    Ok(next)
  }
}
