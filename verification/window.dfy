/** Runs in which every message has come from v2 normalisation: what they keep in addition, and the
    window in which the controlled patch tool is open. */
module Windows {
  import opened Wrappers
  import opened Text
  import opened Json
  import opened Canonical
  import opened RunTypes
  import opened Protocol
  import opened Participants
  import opened Machine
  import opened Retries
  import opened Normalisation
  import opened Invariant
  import opened Steps
  import opened Recovery
  import opened Progress
  import opened Evidences

  // ----- the patch window

  /** The correction a blocked run would be retried into: a failed verification with the
      coordinator's own failures, or a reviewer's feedback on a passing one. */
  predicate CorrectionOpen(s: State) {
    && HasCorrectableResult(s)
    && if Passing(s.result.evidence) then ReviewerFeedbackRetained(s) else MachineFeedbackMatches(s)
  }

  predicate InitialIntegration(s: State) {
    NoResultIdentity(s)
  }

  predicate IntegrationRequested(s: State) {
    s.status == Running && s.phase == Integrate && s.nextAction == RequestPrimaryIntegration
  }

  /** `active_corrective_patch_request`: would either corrective retry succeed if the run were
      blocked for its reason? */
  predicate ActiveCorrectivePatchRequest(s: State) {
    && IntegrationRequested(s)
    && (|| ApplyRetry(CorrectivePatchTool, BlockWith(s, "CONTROLLED_PATCH_TOOL_UNAVAILABLE")).Ok?
        || ApplyRetry(ResultReviewPatchNotAuthorized, BlockWith(s, "PATCH_NOT_AUTHORIZED")).Ok?)
  }

  /** Under any messages, a correction is recognised exactly when a result is there and its
      correction is open. */
  lemma CorrectionIsRecognised(s: State)
    requires Live(s) && IntegrationRequested(s)
    ensures ActiveCorrectivePatchRequest(s) <==> CorrectionOpen(s)
    ensures InitialIntegration(s) <==> s.result.sha.None?
    ensures !(InitialIntegration(s) && ActiveCorrectivePatchRequest(s))
  {
    hide HasCorrectableResult, ReviewerFeedbackRetained, MachineFeedbackMatches, Passing, Live,
      ApplyRetry;
    CorrectionRetryFits(s, CorrectivePatchTool, "CONTROLLED_PATCH_TOOL_UNAVAILABLE");
    CorrectionRetryFits(s, ResultReviewPatchNotAuthorized, "PATCH_NOT_AUTHORIZED");
    IdentityIsWhole(s);
    CorrectableHasIdentity(s);
  }

  lemma IdentityIsWhole(s: State)
    requires Live(s)
    ensures NoResultIdentity(s) <==> s.result.sha.None?
  {
  }

  lemma CorrectableHasIdentity(s: State)
    ensures HasCorrectableResult(s) ==> !NoResultIdentity(s)
  {
  }

  lemma CorrectionRetryFits(s: State, kind: Retry, reason: string)
    requires Live(s) && IntegrationRequested(s)
    requires (kind == CorrectivePatchTool && reason == "CONTROLLED_PATCH_TOOL_UNAVAILABLE")
      || (kind == ResultReviewPatchNotAuthorized && reason == "PATCH_NOT_AUTHORIZED")
    ensures ApplyRetry(kind, BlockWith(s, reason)).Ok? <==>
      && HasCorrectableResult(s)
      && (if kind == CorrectivePatchTool then !Passing(s.result.evidence) && MachineFeedbackMatches(s)
          else Passing(s.result.evidence) && ReviewerFeedbackRetained(s))
  {
    hide HasCorrectableResult, ReviewerFeedbackRetained, MachineFeedbackMatches, Passing, Live,
      Persistable;
    var blocked := BlockWith(s, reason);
    RunningIsClean(s);
    CorrectableDependsOn(s, blocked);
    assert Unblocked(blocked, RequestPrimaryIntegration) == s;
    assert Persistable(s) by { LiveIsPersistable(s); }
  }

  lemma LiveIsPersistable(s: State)
    requires Live(s)
    ensures Persistable(s)
  {
    hide Live;
    InvIsPersistable(s);
  }

  // ----- what v2 runs keep

  /** The result was verified by the coordinator on the target branch, in the current workspace. */
  predicate VerifiedByCoordinator(s: State) {
    && s.policy.targetBranch.Some?
    && s.result.branch == s.policy.targetBranch
    && s.result.workspace.Some?
    && s.result.payload.Some?
    && (forall e | e in s.result.evidence :: e.cwd == s.result.workspace.value)
    && ParseEvidence(s.result.payload.value) == Ok(s.result.evidence)
  }

  /** The result comes with the list of its changed files, which every revalidation reads. */
  predicate ChangesOnRecord(s: State) {
    s.result.payload.Some? && CommandTexts(GetArray(s.result.payload.value, "changed_files")).Ok?
  }

  /** What holds in addition while every message has come from v2 normalisation. */
  predicate V2Fits(s: State) {
    && (s.result.sha.Some? ==> ChangesOnRecord(s))
    && match s.nextAction
      case RequestPrimaryIntegration => s.result.sha.Some? ==> CorrectionOpen(s)
      case RequestPrimaryVerification =>
        s.policy.targetBranch.Some? && s.result.branch == s.policy.targetBranch
      case RequestReviewerResultVerdict => VerifiedByCoordinator(s)
      case RevalidateAndAccept => VerifiedByCoordinator(s)
      case _ => true
  }

  /** The correction does not depend on the status of the run. */
  lemma V2FitsDependsOn(s: State, t: State)
    requires t.nextAction == s.nextAction && t.plan == s.plan && t.result == s.result
    requires t.round == s.round && t.acceptedResult == s.acceptedResult
    requires t.policy == s.policy || s.nextAction == RequestPrimaryContract
    ensures V2Fits(t) == V2Fits(s)
  {
    hide HasCorrectableResult, ReviewerFeedbackRetained, MachineFeedbackMatches, Passing, ParseEvidence;
    if t.policy == s.policy {
      CorrectableDependsOn(s, t);
    }
  }

  lemma StatusKeepsV2(s: State, e: Event, next: State)
    requires Live(s) && V2Fits(s) && Perform(s, e) == Ok(next) && ActionPending(next)
    requires !e.Deliver? && !e.Respond? && !e.RetryRun?
    ensures V2Fits(next)
  {
    hide Live, V2Fits, CorrectionOpen, FreezeTests, TrimAll, RetryTarget;
    if e.PrepareWorkspace? {
      WorkspaceKeepsV2(s, next);
    } else {
      V2FitsDependsOn(s, next);
    }
  }

  lemma WorkspaceKeepsV2(s: State, next: State)
    requires V2Fits(s) && PrepareVerificationWorkspace(s) == Ok(next)
    ensures V2Fits(next)
  {
  }

  // ----- the messages of a v2 response

  /** `m` is the message that `action` expects, made from a response with this body. */
  predicate MadeFrom(s: State, body: string, w: World, m: Message) {
    match s.nextAction
    case RequestPrimaryContract => ContractMessage(s, "PRIMARY", w) == Ok(m)
    case RequestReviewerContract => ContractMessage(s, "REVIEWER", w) == Ok(m)
    case RequestPrimaryPlan => PlanMessage(s, body) == Ok(m)
    case RequestReviewerPlanVerdict =>
      PlanApprovalMessage(s, body) == Ok(m) || ChangesMessage(s, body, false) == Ok(m)
    case RequestPrimaryIntegration => IntegrationMessage(s, body, w) == Ok(m)
    case RequestPrimaryVerification =>
      && VerificationMessage(s, body).Ok?
      && VerifiedMessage(s, VerificationMessage(s, body).value, w) == Ok(m)
    case RequestReviewerResultVerdict =>
      ResultApprovalMessage(s, body) == Ok(m) || ChangesMessage(s, body, true) == Ok(m)
    case _ => false
  }

  function Promoted(s: State, r: Response, w: World): Response {
    PromotePatchLimit(s.nextAction, r, w.patchRecorded)
  }

  /** A response that is not a refusal becomes a valid message of the kind its action expects. */
  lemma ResponseKind(s: State, r: Response, w: World, m: Message)
    requires Normalize(s, r, w) == Ok(m)
    ensures if Promoted(s, r, w).signal == SignalBlocked then m == BlockedMessageOf(s, Promoted(s, r, w))
            else MadeFrom(s, Promoted(s, r, w).body, w, m)
  {
    hide Valid, PostPatchBody;
  }

  lemma VerifiedEvidence(s: State, body: string, w: World, m: Message)
    requires VerificationMessage(s, body).Ok?
    requires VerifiedMessage(s, VerificationMessage(s, body).value, w) == Ok(m)
    ensures w.outcomes.Ok? && |w.outcomes.value| == |s.policy.requiredTests|
    ensures s.result.workspace.Some? && m.payload.Object?
    ensures s.policy.requiredTests != [] ==>
      ParseEvidence(m.payload) == Ok(EvidenceUpTo(s, w, w.outcomes.value, |w.outcomes.value|))
    ensures GetString(m.payload, "verification_summary") == Some(body)
  {
    hide EvidenceValues, FailureValues, EvidenceUpTo, FailuresUpTo, ParseEntries;
    var outcomes := w.outcomes.value;
    var evidence := EvidenceUpTo(s, w, outcomes, |outcomes|);
    EvidenceIsParsed(s, w, outcomes);
    assert Get(m.payload, "test_evidence") == Some(EvidenceValues(evidence));
  }

  lemma EvidenceIsParsed(s: State, w: World, outcomes: seq<Outcome>)
    requires s.result.workspace.Some? && |outcomes| == |s.policy.requiredTests|
    ensures var evidence := EvidenceUpTo(s, w, outcomes, |outcomes|);
      && |evidence| == |outcomes|
      && EvidenceValues(evidence).Array?
      && |EvidenceValues(evidence).items| == |outcomes|
      && ParseEntries(EvidenceValues(evidence).items) == Some(evidence)
      && forall e | e in evidence :: e.cwd == s.result.workspace.value
  {
    EntriesRoundTrip(EvidenceUpTo(s, w, outcomes, |outcomes|));
  }

  lemma VerifiedFailures(s: State, body: string, w: World, m: Message)
    requires VerificationMessage(s, body).Ok?
    requires VerifiedMessage(s, VerificationMessage(s, body).value, w) == Ok(m)
    requires w.outcomes.Ok? && |w.outcomes.value| == |s.policy.requiredTests|
    requires s.result.workspace.Some?
    requires !Passing(EvidenceUpTo(s, w, w.outcomes.value, |w.outcomes.value|))
    ensures var failures := FailuresUpTo(s, w, w.outcomes.value, |w.outcomes.value|);
      && Get(m.payload, "verification_failures") == Some(FailureValues(failures))
      && CanonicalFailures(FailureValues(failures),
           EvidenceUpTo(s, w, w.outcomes.value, |w.outcomes.value|)) == Some(FailureValues(failures))
  {
    hide EvidenceValues, FailureValues, EvidenceUpTo, FailuresUpTo, Passing, CanonicalFailures;
    var outcomes := w.outcomes.value;
    var evidence := EvidenceUpTo(s, w, outcomes, |outcomes|);
    FailuresMatchEvidence(s, w, outcomes, |outcomes|);
    PassingHasNoFailures(evidence);
    CoordinatorFailuresAreCanonical(FailuresUpTo(s, w, outcomes, |outcomes|), evidence);
  }

  /** A failed verification below the round limit opens its own correction. */
  lemma FailureOpensCorrection(s: State, body: string, w: World, m: Message, next: State)
    requires Live(s) && s.nextAction == RequestPrimaryVerification && V2Fits(s)
    requires VerificationMessage(s, body).Ok?
    requires VerifiedMessage(s, VerificationMessage(s, body).value, w) == Ok(m)
    requires ApplyVerification(s, m) == Ok(next) && next.nextAction == RequestPrimaryIntegration
    ensures CorrectionOpen(next)
  {
    hide Live, VerificationMessage, VerifiedMessage, ParseEvidence, CanonicalFailures, FailureValues,
      EvidenceUpTo, FailuresUpTo, Complete, CanonicalHash;
    VerificationIsPlanned(s);
    VerifiedEvidence(s, body, w, m);
    EvidenceIsParsed(s, w, w.outcomes.value);
    VerifiedFailures(s, body, w, m);
  }

  lemma VerificationIsPlanned(s: State)
    requires Live(s) && s.nextAction == RequestPrimaryVerification
    ensures s.plan.approved && s.plan.payload.Some? && s.plan.approval.Some?
    ensures s.policy.requiredTests != [] && HasResultIdentity(s) && s.acceptedResult.None?
    ensures s.round >= 1 && s.phase == Verify
  {
    hide PlanShape, CanonicalHash, Complete, Passing, DistinctNonblank;
  }

  lemma VerifiedKeepsChanges(s: State, body: string, w: World, m: Message)
    requires VerificationMessage(s, body).Ok?
    requires VerifiedMessage(s, VerificationMessage(s, body).value, w) == Ok(m)
    ensures s.result.payload.Some?
    ensures Get(m.payload, "changed_files") == Get(s.result.payload.value, "changed_files")
  {
    hide EvidenceUpTo, FailuresUpTo, EvidenceValues, FailureValues;
  }

  lemma VerificationKeepsV2(s: State, body: string, w: World, m: Message, next: State)
    requires Live(s) && s.nextAction == RequestPrimaryVerification && V2Fits(s)
    requires VerificationMessage(s, body).Ok?
    requires VerifiedMessage(s, VerificationMessage(s, body).value, w) == Ok(m)
    requires ApplyVerification(s, m) == Ok(next) && next.status == Running
    ensures V2Fits(next)
  {
    hide Live, VerificationMessage, VerifiedMessage, ParseEvidence, CorrectionOpen, EvidenceUpTo,
      Complete, MachineFeedback, Passing, CommandTexts;
    VerifiedKeepsChanges(s, body, w, m);
    if next.nextAction == RequestPrimaryIntegration {
      FailureOpensCorrection(s, body, w, m, next);
    } else {
      VerificationIsPlanned(s);
      VerifiedEvidence(s, body, w, m);
      EvidenceIsParsed(s, w, w.outcomes.value);
    }
  }

  /** A reviewer's changes to a verified result, below the limits, open a correction. */
  lemma ChangesOpenCorrection(s: State, body: string, m: Message, next: State)
    requires Live(s) && s.nextAction == RequestReviewerResultVerdict && VerifiedByCoordinator(s)
    requires ChangesMessage(s, body, true) == Ok(m)
    requires ApplyChangesRequired(s, m) == Ok(next) && next.status == Running
    ensures CorrectionOpen(next) && next.nextAction == RequestPrimaryIntegration
    ensures next.result.payload == s.result.payload
  {
    hide Live, ParseEvidence, Complete, Passing, Fingerprint, CountReview, ReviewerFeedbackRetained,
      Markdown, RejectedPlan;
    VerdictIsPlanned(s);
    assert Passing(next.result.evidence);
    MarkdownIsRetained(next, body);
  }

  lemma MarkdownIsRetained(s: State, body: string)
    requires s.result.feedback == Some(Markdown("feedback", body)) && !Blank(body)
    ensures ReviewerFeedbackRetained(s)
  {
    var fields := Markdown("feedback", body).fields;
    assert fields["format"] == String("markdown");
    assert fields["feedback"] == String(body);
  }

  lemma VerdictIsPlanned(s: State)
    requires Live(s) && s.nextAction == RequestReviewerResultVerdict
    ensures s.plan.approved && s.plan.payload.Some? && s.plan.approval.Some?
    ensures s.policy.requiredTests != [] && HasResultIdentity(s) && s.acceptedResult.None?
    ensures s.result.evidence != [] && Passing(s.result.evidence)
    ensures Complete(s.policy.requiredTests, s.result.evidence)
    ensures s.round >= 1 && s.phase == ResultReview && s.result.approvedSha.None?
  {
    hide PlanShape, CanonicalHash, DistinctNonblank;
  }

  lemma VerdictKeepsV2(s: State, body: string, m: Message, next: State)
    requires Live(s) && s.nextAction == RequestReviewerResultVerdict && V2Fits(s)
    requires ResultApprovalMessage(s, body) == Ok(m) || ChangesMessage(s, body, true) == Ok(m)
    requires ApplyMessage(s, m) == Ok(next) && next.status == Running
    ensures V2Fits(next)
  {
    hide Live, ParseEvidence, CorrectionOpen, ApplyChangesRequired, Valid, VerifyImmutableEnvelope,
      CommandTexts;
    assert s.result.sha.Some? by { VerdictIsPlanned(s); }
    if ChangesMessage(s, body, true) == Ok(m) {
      assert ApplyChangesRequired(s, m) == Ok(next);
      ChangesOpenCorrection(s, body, m, next);
    }
  }

  lemma IntegrationKeepsV2(s: State, body: string, w: World, m: Message, next: State)
    requires Live(s) && s.nextAction == RequestPrimaryIntegration
    requires IntegrationMessage(s, body, w) == Ok(m) && ApplyMessage(s, m) == Ok(next)
    ensures V2Fits(next)
  {
    hide Live, CorrectionOpen, ParseEvidence, Valid, VerifyImmutableEnvelope, ApplyVerification;
    RunningIsClean(s);
  }

  lemma PlanningKeepsV2(s: State, body: string, w: World, m: Message, next: State)
    requires Live(s) && MadeFrom(s, body, w, m) && ApplyMessage(s, m) == Ok(next)
    requires s.nextAction in {RequestPrimaryContract, RequestReviewerContract, RequestPrimaryPlan,
                              RequestReviewerPlanVerdict}
    requires next.status == Running
    ensures V2Fits(next)
  {
    hide CorrectionOpen, ParseEvidence, Valid, VerifyImmutableEnvelope, ApplyIntegration,
      StringArrayField, FreezeTests, Fingerprint, CanonicalHash, DistinctNonblank, ResultFits, PlanFits;
    assert s.result.sha.None? by { PlanningHasNoResult(s); }
  }

  lemma PlanningHasNoResult(s: State)
    requires Live(s)
    requires s.nextAction in {RequestPrimaryContract, RequestReviewerContract, RequestPrimaryPlan,
                              RequestReviewerPlanVerdict}
    ensures s.result.sha.None?
  {
    hide PlanShape, CanonicalHash, DistinctNonblank;
  }
}
