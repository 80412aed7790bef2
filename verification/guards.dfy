/** When a blocked run may be retried: for each of the thirteen retries, in terms of the state before
    the block and of the diagnostic that the block recorded. */
module RetryGuards {
  import opened Wrappers
  import opened Text
  import opened Json
  import opened Canonical
  import opened RunTypes
  import opened Machine
  import opened Retries
  import opened Invariant
  import opened Steps
  import opened Recovery

  // ----- the diagnostics

  /** A diagnostic with this code, from the Primary: from its own task, or from the participant that
      is bound to it. */
  predicate ToldByPrimary(s: State, d: Diagnostic, code: string) {
    && d.code == code
    && d.role == Some(Primary)
    && (|| d.thread == Some(s.facts.primaryThread)
        || (&& d.sourceThread == Some(s.facts.primaryThread)
            && d.effectiveThread == d.thread
            && d.generation.Some? && d.mode.Some? && d.server.Some?))
  }

  /** The audit of a completed integration: three findings, or one of two harmless commands, as such
      or through a shell. */
  predicate IsAuditFinding(detail: string) {
    || detail in {NOT_COMPLETED, OUTSIDE_POLICY, PATCH_AFTER_END}
    || exists command | command in {SYMBOLIC_REF, SHOW_CURRENT} ::
         detail in {CONFIRMATION + command, CONFIRMATION + SHELL + command + "'"}
  }

  /** The mirror of the Primary, on a thread of its own. */
  predicate ToldByMirror(s: State, d: Diagnostic) {
    && d.detail == MIRROR_NOT_IDLE
    && d.operation == None
    && d.thread !in {Some(s.facts.primaryThread), Some(s.facts.reviewerThread)}
    && d.mode == Some("EPHEMERAL_FORK")
    && d.server == Some("worktreeMergeConsensusParticipant")
  }

  ghost predicate IsLifecycleFinding(detail: string) {
    && (exists rest :: detail == LIFECYCLE_FRONT + rest)
    && (exists front :: detail == front + LIFECYCLE_END)
  }

  // ----- the states

  predicate FirstIntegrationPending(s: State) {
    s.nextAction == RequestPrimaryIntegration && s.result.sha.None? && s.policy.targetBranch.Some?
  }

  predicate PreparedVerificationPending(s: State) {
    s.nextAction == RequestPrimaryVerification && s.result.workspace.Some?
  }

  /** A verified result past its first round, on the target branch, with the evidence it reported. */
  predicate CorrectionPending(s: State) {
    && s.result.sha.Some?
    && s.result.approvedSha.None?
    && s.policy.targetBranch.Some?
    && s.result.workspace.Some?
    && s.round > 1
    && (forall e | e in s.result.evidence :: e.cwd == s.result.workspace.value)
    && s.result.payload.Some?
    && ParseEvidence(s.result.payload.value) == Ok(s.result.evidence)
  }

  /** The feedback is the machine's: it repeats the failures and the summary that the result reported,
      and those are the failures of its evidence. */
  predicate FeedbackIsOfMachine(s: State) {
    && s.result.payload.Some? && s.result.feedback.Some?
    && var payload, feedback := s.result.payload.value, s.result.feedback.value;
      && GetString(feedback, "format") == Some("machine_verification")
      && GetString(feedback, "summary") == Some(MACHINE_VERIFICATION_SUMMARY)
      && GetString(payload, "verification_summary").Some?
      && Get(feedback, "verification_summary") == Get(payload, "verification_summary")
      && Get(payload, "verification_failures").Some? && Get(feedback, "failed_tests").Some?
      && IsFailureList(Get(payload, "verification_failures").value, s.result.evidence)
      && CanonicalHash(Get(feedback, "failed_tests").value)
        == CanonicalHash(Get(payload, "verification_failures").value)
  }

  /** The value lists the failed evidence, in order and in canonical form. */
  predicate IsFailureList(v: Value, evidence: seq<Evidence>) {
    && v.Array?
    && ParseFailures(v.items).Some?
    && var failures, failed := ParseFailures(v.items).value, FailedOnly(evidence);
      && failures != []
      && |failures| == |failed|
      && (forall i | 0 <= i < |failed| ::
          && failures[i].command == failed[i].command
          && failures[i].exitCode == failed[i].exitCode
          && failures[i].itemId == failed[i].itemId)
      && CanonicalHash(v) == CanonicalHash(FailureValues(failures))
  }

  /** The feedback is a reviewer's, and says something. */
  predicate FeedbackIsOfReviewer(s: State) {
    && s.result.feedback.Some?
    && var feedback := s.result.feedback.value;
      && feedback.Object? && |feedback.fields| > 0
      && Get(feedback, "format") != Some(String("machine_verification"))
      && (Get(feedback, "format") == Some(String("markdown")) ==>
          GetString(feedback, "feedback").Some? && !Blank(GetString(feedback, "feedback").value))
  }

  // ----- the thirteen retries

  /** The run, blocked in `s` for `reason` with this diagnostic, may be retried this way. */
  ghost predicate MayBeRetried(kind: Retry, s: State, reason: string, error: Option<Diagnostic>) {
    match kind
    case TestCommandDeclared =>
      && reason == "INVALID_TEST_COMMAND"
      && s.nextAction in {RequestPrimaryContract, RequestReviewerContract, RequestPrimaryPlan}
      && error.Some? && error.value.code == "INVALID_TEST_COMMAND"
    case PreintegrationInvalidResponse =>
      && reason == "INVALID_RESPONSE"
      && s.nextAction in {RequestPrimaryContract, RequestReviewerContract, RequestPrimaryPlan,
                          RequestReviewerPlanVerdict}
      && error.Some? && error.value.code == "INVALID_RESPONSE"
    case IntegrationInvalidResponse =>
      && reason == "INVALID_RESPONSE"
      && FirstIntegrationPending(s)
      && error.Some? && ToldByPrimary(s, error.value, "INVALID_RESPONSE")
    case CompletedIntegrationForbidden =>
      && reason == "FORBIDDEN_OPERATION"
      && FirstIntegrationPending(s)
      && error.Some? && ToldByPrimary(s, error.value, "FORBIDDEN_OPERATION")
      && IsAuditFinding(error.value.detail)
    case UnsentEphemeralRecreation =>
      && reason == "HISTORY_UNAVAILABLE"
      && FirstIntegrationPending(s)
      && error.Some? && ToldByPrimary(s, error.value, "HISTORY_UNAVAILABLE")
      && ToldByMirror(s, error.value)
    case PreintegrationForbidden =>
      && reason == "FORBIDDEN_OPERATION"
      && FirstIntegrationPending(s)
      && error.Some? && ToldByPrimary(s, error.value, "FORBIDDEN_OPERATION")
    case ExecutionToolUnavailable =>
      reason == "EXECUTION_TOOL_UNAVAILABLE" && FirstIntegrationPending(s)
    case VerificationWithoutExecution =>
      && reason == "TEST_FAILURE"
      && PreparedVerificationPending(s)
      && error.Some? && ToldByPrimary(s, error.value, "TEST_FAILURE")
      && error.value.detail == NOTHING_EXECUTED
    case VerificationCompletionCollision =>
      && reason == "DATABASE_ERROR"
      && PreparedVerificationPending(s)
      && error.Some? && ToldByPrimary(s, error.value, "DATABASE_ERROR")
      && error.value.detail == COMPLETION_COLLISION
      && error.value.operation == None
    case VerificationEnvironment =>
      reason == "CARGO_UNAVAILABLE" && PreparedVerificationPending(s)
    case ReviewerReasoningLifecycle =>
      && reason == "INCOMPATIBLE_STATE"
      && s.nextAction == RequestReviewerResultVerdict
      && s.result.workspace.Some?
      && error.Some?
      && error.value.code == "INCOMPATIBLE_STATE"
      && error.value.role == Some(Reviewer)
      && error.value.thread == Some(s.facts.reviewerThread)
      && IsLifecycleFinding(error.value.detail)
    case CorrectivePatchTool =>
      && reason == "CONTROLLED_PATCH_TOOL_UNAVAILABLE"
      && s.nextAction == RequestPrimaryIntegration
      && error == None
      && CorrectionPending(s)
      && (exists e | e in s.result.evidence :: e.exitCode != 0)
      && FeedbackIsOfMachine(s)
    case ResultReviewPatchNotAuthorized =>
      && reason == "PATCH_NOT_AUTHORIZED"
      && s.nextAction in {RequestPrimaryIntegration, RequestReviewerResultVerdict}
      && error == None
      && CorrectionPending(s)
      && (forall e | e in s.result.evidence :: e.exitCode == 0)
      && FeedbackIsOfReviewer(s)
  }

  // ----- the guards let exactly these through

  function BlockedFrom(s: State, reason: string, error: Option<Diagnostic>): State {
    BlockWith(s.(lastError := error), reason)
  }

  lemma DeclarationsAreRetried(s: State, reason: string, error: Option<Diagnostic>)
    requires Live(s) && (error.Some? ==> error.value.action == s.nextAction)
    ensures RetryTarget(TestCommandDeclared, BlockedFrom(s, reason, error)).Ok?
      <==> MayBeRetried(TestCommandDeclared, s, reason, error)
    ensures RetryTarget(PreintegrationInvalidResponse, BlockedFrom(s, reason, error)).Ok?
      <==> MayBeRetried(PreintegrationInvalidResponse, s, reason, error)
  {
    hide CanonicalHash, DistinctNonblank, Complete, Passing;
  }

  lemma FirstIntegrationShape(s: State)
    requires Live(s)
    ensures s.nextAction == RequestPrimaryIntegration && s.result.sha.None? ==>
      s.plan.approved && s.plan.payload.Some? && s.plan.approval.Some? && NoResult(s) && s.acceptedResult.None?
    ensures s.plan.approved && NoResult(s) ==> s.nextAction == RequestPrimaryIntegration
  {
    hide CanonicalHash, DistinctNonblank, Complete, Passing, PlanShape;
  }

  lemma VerificationShape(s: State)
    requires Live(s)
    ensures s.nextAction == RequestPrimaryVerification ==>
      && s.plan.approved && HasResultIdentity(s) && s.policy.requiredTests != []
      && s.result.evidence == [] && s.acceptedResult.None?
    ensures HasResultIdentity(s) && s.result.evidence == [] ==> s.nextAction == RequestPrimaryVerification
  {
    hide CanonicalHash, DistinctNonblank, Complete, Passing, PlanShape;
    if s.nextAction in {RequestPrimaryContract, RequestReviewerContract, RequestPrimaryPlan,
                        RequestReviewerPlanVerdict} {
      assert !s.plan.approved;
    }
  }

  lemma AuditFindings(detail: string)
    ensures CompletedIntegrationAuditDetail(detail) <==> IsAuditFinding(detail)
  {
    hide NOT_COMPLETED, OUTSIDE_POLICY, PATCH_AFTER_END, CONFIRMATION, SYMBOLIC_REF, SHOW_CURRENT, SHELL;
    if IsAuditFinding(detail) && detail !in {NOT_COMPLETED, OUTSIDE_POLICY, PATCH_AFTER_END} {
      assert SYMBOLIC_REF in {SYMBOLIC_REF, SHOW_CURRENT};
    }
  }

  lemma FirstIntegrationsAreRetried(kind: Retry, s: State, reason: string, error: Option<Diagnostic>)
    requires Live(s) && (error.Some? ==> error.value.action == s.nextAction)
    requires kind in {IntegrationInvalidResponse, CompletedIntegrationForbidden, UnsentEphemeralRecreation,
                      PreintegrationForbidden, ExecutionToolUnavailable}
    ensures RetryTarget(kind, BlockedFrom(s, reason, error)).Ok? <==> MayBeRetried(kind, s, reason, error)
  {
    hide Live, CompletedIntegrationAuditDetail, IsAuditFinding;
    FirstIntegrationShape(s);
    if error.Some? {
      AuditFindings(error.value.detail);
    }
  }

  lemma VerificationRetryFits(s: State, reason: string, error: Option<Diagnostic>, code: string, diagnosed: bool)
    requires Live(s) && (error.Some? ==> error.value.action == s.nextAction)
    ensures VerificationRetry(BlockedFrom(s, reason, error), code, diagnosed).Ok? <==>
      && reason == code
      && PreparedVerificationPending(s)
      && error.Some? && ToldByPrimary(s, error.value, code)
      && diagnosed
  {
    hide Live;
    VerificationShape(s);
  }

  lemma VerificationsAreRetried(kind: Retry, s: State, reason: string, error: Option<Diagnostic>)
    requires Live(s) && (error.Some? ==> error.value.action == s.nextAction)
    requires kind in {VerificationWithoutExecution, VerificationCompletionCollision, VerificationEnvironment}
    ensures RetryTarget(kind, BlockedFrom(s, reason, error)).Ok? <==> MayBeRetried(kind, s, reason, error)
  {
    hide Live, VerificationRetry, PreparedVerificationPending, ToldByPrimary;
    match kind
    case VerificationWithoutExecution =>
      VerificationRetryFits(s, reason, error, "TEST_FAILURE", LastErrorIs(BlockedFrom(s, reason, error),
        NOTHING_EXECUTED));
    case VerificationCompletionCollision =>
      VerificationRetryFits(s, reason, error, "DATABASE_ERROR",
        FromCompletionCollision(BlockedFrom(s, reason, error)));
    case VerificationEnvironment =>
      EnvironmentRetryFits(s, reason, error);
  }

  lemma EnvironmentRetryFits(s: State, reason: string, error: Option<Diagnostic>)
    requires Live(s)
    ensures RetryTarget(VerificationEnvironment, BlockedFrom(s, reason, error)).Ok?
      <==> reason == "CARGO_UNAVAILABLE" && PreparedVerificationPending(s)
  {
    hide Live;
    VerificationShape(s);
  }

  lemma PrefixAndSuffix(text: string, p: string, q: string)
    ensures HasPrefix(text, p) <==> exists rest :: text == p + rest
    ensures HasSuffix(text, q) <==> exists front :: text == front + q
  {
    if HasPrefix(text, p) {
      assert text == p + text[|p|..];
    }
    if HasSuffix(text, q) {
      assert text == text[..|text| - |q|] + q;
    }
  }

  lemma VerdictShape(s: State)
    requires Live(s) && s.nextAction == RequestReviewerResultVerdict
    ensures s.plan.approved && HasResultIdentity(s) && s.result.evidence != [] && s.acceptedResult.None?
    ensures s.result.approvedSha.None? && Complete(s.policy.requiredTests, s.result.evidence)
    ensures Passing(s.result.evidence)
  {
    hide CanonicalHash, DistinctNonblank, PlanShape;
  }

  lemma VerdictIsRetried(s: State, reason: string, error: Option<Diagnostic>)
    requires Live(s) && (error.Some? ==> error.value.action == s.nextAction)
    ensures RetryTarget(ReviewerReasoningLifecycle, BlockedFrom(s, reason, error)).Ok?
      <==> MayBeRetried(ReviewerReasoningLifecycle, s, reason, error)
  {
    hide Live, HasPrefix, HasSuffix, Complete, Passing;
    if s.nextAction == RequestReviewerResultVerdict {
      VerdictShape(s);
    }
    if error.Some? {
      PrefixAndSuffix(error.value.detail, LIFECYCLE_FRONT, LIFECYCLE_END);
    }
  }

  lemma CorrectionShape(s: State, blocked: State)
    requires Live(s) && blocked.plan == s.plan && blocked.policy == s.policy && blocked.result == s.result
    requires blocked.round == s.round && blocked.acceptedResult == s.acceptedResult
    ensures HasCorrectableResult(blocked) <==> CorrectionPending(s) && s.result.evidence != []
    ensures CorrectionPending(s) && s.result.evidence != [] ==>
      s.nextAction in {RequestPrimaryIntegration, RequestReviewerResultVerdict}
    ensures s.nextAction == RequestReviewerResultVerdict ==> Passing(s.result.evidence)
    ensures CorrectionPending(s) && s.nextAction in {RequestPrimaryIntegration, RequestReviewerResultVerdict}
      ==> s.result.evidence != []
  {
    hide CanonicalHash, DistinctNonblank, PlanShape, ParseEvidence, Passing, ContractFits, Complete;
    if s.nextAction in {RequestPrimaryContract, RequestReviewerContract, RequestPrimaryPlan,
                        RequestReviewerPlanVerdict} {
      assert !s.plan.approved;
    }
  }

  lemma FeedbackFits(s: State, blocked: State)
    requires blocked.result == s.result
    ensures MachineFeedbackMatches(blocked) <==> FeedbackIsOfMachine(s)
    ensures ReviewerFeedbackRetained(blocked) <==> FeedbackIsOfReviewer(s)
  {
    hide CanonicalHash, FailureValues, ParseFailures, FailedOnly, Blank;
  }

  lemma CorrectionsAreRetried(kind: Retry, s: State, reason: string, error: Option<Diagnostic>)
    requires Live(s) && (error.Some? ==> error.value.action == s.nextAction)
    requires kind in {CorrectivePatchTool, ResultReviewPatchNotAuthorized}
    ensures RetryTarget(kind, BlockedFrom(s, reason, error)).Ok? <==> MayBeRetried(kind, s, reason, error)
  {
    hide Live, HasCorrectableResult, CorrectionPending, MachineFeedbackMatches, ReviewerFeedbackRetained,
      FeedbackIsOfMachine, FeedbackIsOfReviewer;
    var blocked := BlockedFrom(s, reason, error);
    CorrectionShape(s, blocked);
    FeedbackFits(s, blocked);
  }

  /** Blocking a running state for some reason, with or without a diagnostic of its action, and then
      retrying succeeds exactly as listed, and leads back to that state, except that a rejected patch
      always leads to the correction. */
  lemma RetryAcceptsExactly(kind: Retry, s: State, reason: string, error: Option<Diagnostic>)
    requires Live(s) && s.status == Running && (error.Some? ==> error.value.action == s.nextAction)
    ensures ApplyRetry(kind, BlockedFrom(s, reason, error)).Ok? <==> MayBeRetried(kind, s, reason, error)
    ensures MayBeRetried(kind, s, reason, error) ==>
      ApplyRetry(kind, BlockedFrom(s, reason, error)) == Ok(
        if kind == ResultReviewPatchNotAuthorized
        then s.(phase := Integrate, nextAction := RequestPrimaryIntegration) else s)
  {
    hide Live, RetryTarget, MayBeRetried, Persistable;
    if kind in {TestCommandDeclared, PreintegrationInvalidResponse} {
      DeclarationsAreRetried(s, reason, error);
    } else if kind in {VerificationWithoutExecution, VerificationCompletionCollision, VerificationEnvironment} {
      VerificationsAreRetried(kind, s, reason, error);
    } else if kind == ReviewerReasoningLifecycle {
      VerdictIsRetried(s, reason, error);
    } else if kind in {CorrectivePatchTool, ResultReviewPatchNotAuthorized} {
      CorrectionsAreRetried(kind, s, reason, error);
    } else {
      FirstIntegrationsAreRetried(kind, s, reason, error);
    }
    if RetryTarget(kind, BlockedFrom(s, reason, error)).Ok? {
      RetryUndoesBlock(s, reason, error, kind);
    }
  }

  // ----- how a retry is refused

  /** A refusal says that the state is incompatible, and not just that it is not retryable, if the reason
      fits but the diagnostic is missing or, for a declaration, has another code; and for a first
      integration if everything fits but there is no approved plan with a frozen branch. */
  predicate IsIncompatible(kind: Retry, s: State, reason: string, error: Option<Diagnostic>) {
    && reason == RetryReason(kind)
    && var planned := s.plan.approved && s.policy.targetBranch.Some?;
      match kind
      case TestCommandDeclared => error.None? || error.value.code != reason
      case PreintegrationInvalidResponse => error.None? || error.value.code != reason
      case IntegrationInvalidResponse => error.None? || (FitsIntegration(s, error.value, reason) && !planned)
      case PreintegrationForbidden => error.None? || (FitsIntegration(s, error.value, reason) && !planned)
      case CompletedIntegrationForbidden =>
        || error.None?
        || (FitsIntegration(s, error.value, reason) && IsAuditFinding(error.value.detail) && !planned)
      case UnsentEphemeralRecreation =>
        || error.None?
        || (FitsIntegration(s, error.value, reason) && ToldByMirror(s, error.value) && !planned)
      case ExecutionToolUnavailable => !planned
      case VerificationWithoutExecution => error.None?
      case VerificationCompletionCollision => error.None?
      case ReviewerReasoningLifecycle => error.None?
      case _ => false
  }

  predicate FitsIntegration(s: State, d: Diagnostic, code: string) {
    s.nextAction == RequestPrimaryIntegration && ToldByPrimary(s, d, code)
  }

  lemma ApprovedPlanIsWhole(s: State)
    requires Live(s) && s.plan.approved
    ensures s.plan.payload.Some? && s.plan.approval.Some?
  {
    hide CanonicalHash, DistinctNonblank, PlanShape, ResultFits, ActionFits;
  }

  lemma FirstIntegrationRefusal(s: State, reason: string, error: Option<Diagnostic>, code: string,
                                diagnosed: bool, unaccepted: bool)
    requires Live(s) && (error.Some? ==> error.value.action == s.nextAction)
    ensures var r := FirstIntegrationRetry(BlockedFrom(s, reason, error), code, diagnosed, unaccepted);
      var planned := s.plan.approved && s.policy.targetBranch.Some?;
      var incompatible := error.None? || (FitsIntegration(s, error.value, code) && diagnosed && !planned);
      r.Err? ==> r.code == if reason == code && incompatible then IncompatibleState else NotRetryable
  {
    hide Live;
    if s.plan.approved {
      ApprovedPlanIsWhole(s);
    }
  }

  lemma IntegrationRefusal(kind: Retry, s: State, reason: string, error: Option<Diagnostic>)
    requires Live(s) && (error.Some? ==> error.value.action == s.nextAction)
    requires kind in {IntegrationInvalidResponse, CompletedIntegrationForbidden, UnsentEphemeralRecreation,
                      PreintegrationForbidden}
    ensures var r := RetryTarget(kind, BlockedFrom(s, reason, error));
      r.Err? ==> r.code == if IsIncompatible(kind, s, reason, error) then IncompatibleState else NotRetryable
  {
    hide Live, FirstIntegrationRetry, CompletedIntegrationAuditDetail, IsAuditFinding, FitsIntegration;
    var blocked := BlockedFrom(s, reason, error);
    if error.Some? {
      AuditFindings(error.value.detail);
    }
    var detail := if error.Some? then error.value.detail else "";
    match kind
    case IntegrationInvalidResponse =>
      FirstIntegrationRefusal(s, reason, error, "INVALID_RESPONSE", true, false);
    case PreintegrationForbidden =>
      FirstIntegrationRefusal(s, reason, error, "FORBIDDEN_OPERATION", true, false);
    case CompletedIntegrationForbidden =>
      FirstIntegrationRefusal(s, reason, error, "FORBIDDEN_OPERATION",
        error.Some? && CompletedIntegrationAuditDetail(detail), true);
    case UnsentEphemeralRecreation =>
      FirstIntegrationRefusal(s, reason, error, "HISTORY_UNAVAILABLE", FromEphemeralMirror(blocked), true);
  }

  lemma OtherRefusal(kind: Retry, s: State, reason: string, error: Option<Diagnostic>)
    requires Live(s) && (error.Some? ==> error.value.action == s.nextAction)
    requires kind !in {IntegrationInvalidResponse, CompletedIntegrationForbidden, UnsentEphemeralRecreation,
                       PreintegrationForbidden, ReviewerReasoningLifecycle}
    ensures var r := RetryTarget(kind, BlockedFrom(s, reason, error));
      r.Err? ==> r.code == if IsIncompatible(kind, s, reason, error) then IncompatibleState else NotRetryable
  {
    hide Live, HasCorrectableResult, MachineFeedbackMatches, ReviewerFeedbackRetained, Passing,
      AwaitsVerification, NoResult, NoResultIdentity, DiagnosticMatchesPrimary, IsAuditFinding, ToldByMirror;
    if s.plan.approved {
      ApprovedPlanIsWhole(s);
    }
  }

  lemma VerdictRefusal(s: State, reason: string, error: Option<Diagnostic>)
    requires Live(s) && (error.Some? ==> error.value.action == s.nextAction)
    ensures var r := RetryTarget(ReviewerReasoningLifecycle, BlockedFrom(s, reason, error));
      r.Err? ==> r.code == if IsIncompatible(ReviewerReasoningLifecycle, s, reason, error)
                           then IncompatibleState else NotRetryable
  {
    hide Live, HasPrefix, HasSuffix, Complete, Passing;
    if s.nextAction == RequestReviewerResultVerdict {
      VerdictShape(s);
    }
  }

  /** A refused retry is refused with one of two codes. */
  lemma RefusalIsNamed(kind: Retry, s: State, reason: string, error: Option<Diagnostic>)
    requires Live(s) && s.status == Running && (error.Some? ==> error.value.action == s.nextAction)
    ensures var r := ApplyRetry(kind, BlockedFrom(s, reason, error));
      r.Err? ==> r.code == if IsIncompatible(kind, s, reason, error) then IncompatibleState else NotRetryable
  {
    hide Live, RetryTarget, IsIncompatible, Persistable;
    if kind == ReviewerReasoningLifecycle {
      VerdictRefusal(s, reason, error);
    } else if kind in {IntegrationInvalidResponse, CompletedIntegrationForbidden, UnsentEphemeralRecreation,
                       PreintegrationForbidden} {
      IntegrationRefusal(kind, s, reason, error);
    } else {
      OtherRefusal(kind, s, reason, error);
    }
    if RetryTarget(kind, BlockedFrom(s, reason, error)).Ok? {
      RetryUndoesBlock(s, reason, error, kind);
    }
  }

  /** In particular, a result verdict whose turn was cut short by the reviewer's lifecycle events is
      taken up again. */
  lemma LifecycleRetryRestores(s: State, turn: string, d: Diagnostic)
    requires Live(s) && s.status == Running && s.nextAction == RequestReviewerResultVerdict
    requires s.result.workspace.Some?
    requires d.code == "INCOMPATIBLE_STATE" && d.action == RequestReviewerResultVerdict
    requires d.role == Some(Reviewer) && d.thread == Some(s.facts.reviewerThread)
    requires d.detail == LIFECYCLE_FRONT + turn + LIFECYCLE_END
    ensures ApplyRetry(ReviewerReasoningLifecycle, BlockedFrom(s, "INCOMPATIBLE_STATE", Some(d))) == Ok(s)
  {
    hide Live, ApplyRetry, LIFECYCLE_FRONT, LIFECYCLE_END;
    RetryAcceptsExactly(ReviewerReasoningLifecycle, s, "INCOMPATIBLE_STATE", Some(d));
    assert d.detail == LIFECYCLE_FRONT + (turn + LIFECYCLE_END);
    assert d.detail == (LIFECYCLE_FRONT + turn) + LIFECYCLE_END;
  }
}
