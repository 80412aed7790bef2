/** What v2 normalisation produces, the state machine accepts. */
module Acceptance {
  import opened Wrappers
  import opened Text
  import opened Canonical
  import opened RunTypes
  import opened Protocol
  import opened Participants
  import opened Machine
  import opened Retries
  import opened Normalisation
  import opened Invariant
  import opened Steps
  import opened Runs
  import opened Recovery
  import opened Evidences
  import opened Windows

  /** Facts as the daemon freezes them: a run id and two commit ids. */
  predicate FactsFit(f: Facts) {
    IsRunId(f.runId) && IsSha(f.primarySha) && IsSha(f.reviewerSha)
  }

  /** What goes into every envelope is well formed. */
  predicate EnvelopeFits(s: State) {
    && FactsFit(s.facts)
    && (s.plan.revision.Some? ==> 1 <= s.plan.revision.value)
    && NonemptyIfPresent(s.policy.targetBranch)
    && NonemptyIfPresent(s.result.branch)
    && (s.result.sha.Some? ==> IsSha(s.result.sha.value))
  }

  lemma IdentityComesFromMessage(s: State, m: Message, next: State)
    requires ApplyMessage(s, m) == Ok(next)
    ensures Valid(m) && next.facts == s.facts
    ensures || (next.result.branch == s.result.branch && next.result.sha == s.result.sha)
            || (next.result.branch == m.envelope.branch && next.result.sha == m.envelope.sha)
    ensures next.policy.targetBranch == s.policy.targetBranch
    ensures next.plan.revision in {s.plan.revision, Some(1)}
      || (s.plan.revision.Some? && next.plan.revision == Some(s.plan.revision.value + 1))
  {
    hide Valid, VerifyImmutableEnvelope, ParseEvidence, Complete, Passing, Fingerprint,
      StringArrayField, MachineFeedback, FreezeTests, CanonicalHash;
  }

  lemma MessageKeepsEnvelope(s: State, m: Message, next: State)
    requires EnvelopeFits(s) && ApplyMessage(s, m) == Ok(next)
    ensures EnvelopeFits(next)
  {
    hide FactsFit, IsSha, IsRunId, ApplyMessage, InvariantsHold;
    IdentityComesFromMessage(s, m, next);
  }

  lemma StepKeepsEnvelope(s: State, e: Event, next: State)
    requires EnvelopeFits(s) && Perform(s, e) == Ok(next)
    ensures EnvelopeFits(next)
  {
    hide Normalize, ApplyMessage, RetryTarget, FreezeTests, TrimAll, IsSha, FactsFit;
    if e.Deliver? {
      MessageKeepsEnvelope(s, e.message, next);
    } else if e.Respond? {
      MessageKeepsEnvelope(s, Normalize(s, e.response, e.world).value, next);
    }
  }

  lemma {:induction false} RunKeepsEnvelope(r: Run, n: nat)
    requires IsRun(r) && FactsFit(r.facts) && n <= |r.events|
    ensures EnvelopeFits(r.states[n])
  {
    hide Step, Perform, FactsFit;
    if n > 0 {
      RunKeepsEnvelope(r, n - 1);
      StepOf(r, n - 1);
      StepKeepsEnvelope(r.states[n - 1], r.events[n - 1], r.states[n]);
    }
  }

  /** The one report the state machine turns down: a correction that changed nothing. */
  predicate UnchangedSha(s: State, m: Message) {
    && m.envelope.messageType == IntegrationReady
    && s.phase == Integrate
    && m.envelope.sha == s.result.sha
  }

  lemma RefusalIsAccepted(s: State, r: Response)
    requires Live(s) && s.status == Running && EnvelopeFits(s)
    requires r.blockedReason.Some? ==> r.blockedReason.value != ""
    ensures ApplyMessage(s, BlockedMessageOf(s, r)).Ok?
  {
    hide Live, FactsFit;
    LiveHasRoundAndIdentity(s);
    assert FactsFit(s.facts) ==>
      IsRunId(s.facts.runId) && IsSha(s.facts.primarySha) && IsSha(s.facts.reviewerSha) by { FactsAre(s.facts); }
  }

  lemma FactsAre(f: Facts)
    ensures FactsFit(f) <==> IsRunId(f.runId) && IsSha(f.primarySha) && IsSha(f.reviewerSha)
  {
  }

  lemma LiveHasRoundAndIdentity(s: State)
    requires Live(s)
    ensures 1 <= s.round && s.result.branch.Some? == s.result.sha.Some?
  {
    hide PlanFits, ActionFits;
  }

  lemma ContractIsAccepted(s: State, role: string, w: World, m: Message)
    requires Live(s) && s.status == Running && Valid(m) && ContractMessage(s, role, w) == Ok(m)
    requires s.nextAction in {RequestPrimaryContract, RequestReviewerContract}
    requires role == if s.nextAction == RequestPrimaryContract then "PRIMARY" else "REVIEWER"
    ensures ApplyMessage(s, m).Ok?
  {
    hide Common, SchemaAccepts, FreezeTests, CanonicalHash;
  }

  lemma PlanIsAccepted(s: State, body: string, m: Message)
    requires Live(s) && s.status == Running && Valid(m) && PlanMessage(s, body) == Ok(m)
    requires s.nextAction == RequestPrimaryPlan
    ensures ApplyMessage(s, m).Ok?
  {
    hide Common, SchemaAccepts, FreezeTests, CanonicalHash, Markdown;
  }

  lemma PlanApprovalIsAccepted(s: State, body: string, m: Message)
    requires Live(s) && s.status == Running && Valid(m) && PlanApprovalMessage(s, body) == Ok(m)
    requires s.nextAction == RequestReviewerPlanVerdict
    ensures ApplyMessage(s, m).Ok?
  {
    hide SchemaAccepts, CanonicalHash, PlanShape, ResultFits, DistinctNonblank;
  }

  lemma ChangesAreAccepted(s: State, body: string, resultReview: bool, m: Message)
    requires Live(s) && s.status == Running && Valid(m) && ChangesMessage(s, body, resultReview) == Ok(m)
    requires s.nextAction == if resultReview then RequestReviewerResultVerdict else RequestReviewerPlanVerdict
    ensures ApplyMessage(s, m).Ok?
  {
    hide SchemaAccepts, Common, Fingerprint, CountReview, Markdown;
  }

  lemma IntegrationIsAccepted(s: State, body: string, w: World, m: Message)
    requires Live(s) && s.status == Running && Valid(m) && IntegrationMessage(s, body, w) == Ok(m)
    requires s.nextAction == RequestPrimaryIntegration
    ensures ApplyMessage(s, m).Ok? <==> !UnchangedSha(s, m)
  {
    hide SchemaAccepts, Common, Markdown, ApplyVerification;
  }

  lemma VerificationIsAccepted(s: State, body: string, w: World, m: Message)
    requires Live(s) && s.status == Running && s.nextAction == RequestPrimaryVerification
    requires VerificationMessage(s, body).Ok? && Valid(VerificationMessage(s, body).value)
    requires VerifiedMessage(s, VerificationMessage(s, body).value, w) == Ok(m)
    requires IsAbsolute(STATE_ROOT) && !Blank(w.turnId)
    ensures ApplyMessage(s, m).Ok?
  {
    hide Live, Complete, ParseEvidence, EvidenceUpTo, FailuresUpTo, SchemaAccepts, CorrectionOpen,
      DistinctNonblank, Blank, Passing, MachineFeedback, IsAbsolute;
    VerificationIsPlanned(s);
    ResultIsOnTarget(s);
    VerifiedEvidence(s, body, w, m);
    WorkspaceIsAbsolute(s);
    CoordinatorEvidenceIsComplete(s, w, w.outcomes.value);
    RunningIsClean(s);
    VerifiedIsValid(s, body, w, m);
  }

  lemma ResultIsOnTarget(s: State)
    requires Live(s) && s.result.sha.Some?
    ensures s.result.branch.Some? && s.result.payload.Some? && s.result.payload.value.Object?
    ensures s.policy.targetBranch.Some? ==> s.result.branch == s.policy.targetBranch
  {
    hide PlanFits, ActionFits;
  }

  lemma VerifiedIsValid(s: State, body: string, w: World, m: Message)
    requires VerificationMessage(s, body).Ok? && Valid(VerificationMessage(s, body).value)
    requires VerifiedMessage(s, VerificationMessage(s, body).value, w) == Ok(m)
    ensures Valid(m) && m.envelope == VerificationMessage(s, body).value.envelope
  {
    hide EvidenceUpTo, FailuresUpTo, IsRunId, IsSha;
  }

  lemma WorkspaceIsAbsolute(s: State)
    requires Live(s) && s.result.workspace.Some? && IsAbsolute(STATE_ROOT)
    ensures IsAbsolute(s.result.workspace.value)
    ensures DistinctNonblank(s.policy.requiredTests)
  {
    hide PlanFits, ActionFits;
  }

  lemma ResultApprovalIsAccepted(s: State, body: string, m: Message)
    requires Live(s) && s.status == Running && Valid(m) && ResultApprovalMessage(s, body) == Ok(m)
    requires s.nextAction == RequestReviewerResultVerdict
    ensures ApplyMessage(s, m).Ok?
  {
    hide SchemaAccepts, Common;
  }

  /** A normalised response other than a refusal, to any pending action. */
  lemma AnswerIsAccepted(s: State, r: Response, w: World, m: Message)
    requires Live(s) && s.status == Running
    requires Normalize(s, r, w) == Ok(m) && Promoted(s, r, w).signal != SignalBlocked
    requires IsAbsolute(STATE_ROOT) && !Blank(w.turnId)
    ensures ApplyMessage(s, m).Ok? <==> !UnchangedSha(s, m)
  {
    hide Live, ApplyMessage, Normalize, Promoted, Valid, ContractMessage, PlanMessage,
      PlanApprovalMessage, ChangesMessage, IntegrationMessage, VerificationMessage, VerifiedMessage,
      ResultApprovalMessage;
    ResponseKind(s, r, w, m);
    RunningIsClean(s);
    var body := Promoted(s, r, w).body;
    if s.nextAction == RequestPrimaryVerification {
      PlainIsValid(s, r, w);
      VerificationIsAccepted(s, body, w, m);
    } else {
      NormalizedIsValid(s, r, w, m);
      if s.nextAction == RequestPrimaryIntegration {
        IntegrationIsAccepted(s, body, w, m);
      } else {
        OtherAnswerIsAccepted(s, body, w, m);
      }
    }
  }

  lemma OtherAnswerIsAccepted(s: State, body: string, w: World, m: Message)
    requires Live(s) && s.status == Running && Valid(m) && MadeFrom(s, body, w, m)
    requires s.nextAction !in {RequestPrimaryVerification, RequestPrimaryIntegration}
    ensures ApplyMessage(s, m).Ok?
  {
    hide Live, ApplyMessage, Valid, ContractMessage, PlanMessage, PlanApprovalMessage, ChangesMessage,
      ResultApprovalMessage;
    match s.nextAction
    case RequestPrimaryContract => ContractIsAccepted(s, "PRIMARY", w, m);
    case RequestReviewerContract => ContractIsAccepted(s, "REVIEWER", w, m);
    case RequestPrimaryPlan => PlanIsAccepted(s, body, m);
    case RequestReviewerPlanVerdict =>
      if PlanApprovalMessage(s, body) == Ok(m) {
        PlanApprovalIsAccepted(s, body, m);
      } else {
        ChangesAreAccepted(s, body, false, m);
      }
    case RequestReviewerResultVerdict =>
      if ResultApprovalMessage(s, body) == Ok(m) {
        ResultApprovalIsAccepted(s, body, m);
      } else {
        ChangesAreAccepted(s, body, true, m);
      }
  }

  lemma NormalizedIsValid(s: State, r: Response, w: World, m: Message)
    requires Normalize(s, r, w) == Ok(m) && Promoted(s, r, w).signal != SignalBlocked
    requires s.nextAction != RequestPrimaryVerification
    ensures Valid(m)
  {
    hide Valid, MarkerMessage, PostPatchBody;
  }

  lemma PlainIsValid(s: State, r: Response, w: World)
    requires Normalize(s, r, w).Ok? && Promoted(s, r, w).signal != SignalBlocked
    requires s.nextAction == RequestPrimaryVerification
    ensures VerificationMessage(s, Promoted(s, r, w).body).Ok?
    ensures Valid(VerificationMessage(s, Promoted(s, r, w).body).value)
  {
    hide Valid, VerificationMessage, VerifyEvidence;
  }

  /** In every run, whatever v1 envelopes came before, a response that normalises is applied, unless it
      reports the commit that is already there. The daemon's own inputs are as it makes them: frozen
      facts, an absolute state root, a turn id and, in a refusal, a reason. */
  lemma NormalizedIsAccepted(run: Run, n: nat, r: Response, w: World, m: Message)
    requires IsRun(run) && FactsFit(run.facts) && n < |run.states|
    requires run.states[n].status == Running && Normalize(run.states[n], r, w) == Ok(m)
    requires IsAbsolute(STATE_ROOT) && !Blank(w.turnId)
    requires r.blockedReason.Some? ==> r.blockedReason.value != ""
    ensures ApplyMessage(run.states[n], m).Ok? <==> !UnchangedSha(run.states[n], m)
    ensures ApplyMessage(run.states[n], m).Err? ==>
      ApplyMessage(run.states[n], m) == Err(StaleIntegrationSha)
  {
    hide Inv, Live, Step, EnvelopeFits, ApplyMessage, Normalize, FactsFit, Blank, IsAbsolute;
    var s := run.states[n];
    RunKeeps(run, n);
    OnlyLiveIsDriven(s);
    RunKeepsEnvelope(run, n);
    if Promoted(s, r, w).signal == SignalBlocked {
      ResponseKind(s, r, w, m);
      PromotionKeepsReason(s, r, w);
      RefusalIsAccepted(s, Promoted(s, r, w));
    } else {
      AnswerIsAccepted(s, r, w, m);
      if UnchangedSha(s, m) {
        UnchangedIsStale(s, r, w, m);
      }
    }
  }

  lemma PromotionKeepsReason(s: State, r: Response, w: World)
    ensures Promoted(s, r, w).signal == SignalBlocked ==> Promoted(s, r, w) == r
  {
    hide PostPatchBody;
  }

  lemma UnchangedIsStale(s: State, r: Response, w: World, m: Message)
    requires Live(s) && s.status == Running && UnchangedSha(s, m)
    requires Normalize(s, r, w) == Ok(m) && Promoted(s, r, w).signal != SignalBlocked
    ensures ApplyMessage(s, m) == Err(StaleIntegrationSha)
  {
    hide Valid, Normalize, Promoted, Common, Markdown, ApplyVerification, VerifyImmutableEnvelope;
    ResponseKind(s, r, w, m);
    RunningIsClean(s);
    IntegrationActionFits(s);
    NormalizedIsValid(s, r, w, m);
    ImmutableHolds(s, Promoted(s, r, w).body, w, m);
  }

  lemma IntegrationActionFits(s: State)
    requires Live(s) && s.phase == Integrate
    ensures s.nextAction == RequestPrimaryIntegration && s.plan.approved
  {
    hide Common;
  }

  lemma ImmutableHolds(s: State, body: string, w: World, m: Message)
    requires IntegrationMessage(s, body, w) == Ok(m)
    ensures VerifyImmutableEnvelope(s, m).Pass?
  {
    hide Markdown;
  }
}
