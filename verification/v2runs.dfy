/** Whole runs without v1 envelopes: the patch window is exact and no normalised message is lost. */
module V2Runs {
  import opened Wrappers
  import opened RunTypes
  import opened Protocol
  import opened Participants
  import opened Machine
  import opened Retries
  import opened Normalisation
  import opened Invariant
  import opened Steps
  import opened Runs
  import opened Recovery
  import opened Progress
  import opened Windows

  /** A run in which every message has come from v2 normalisation. */
  ghost predicate IsV2Run(r: Run) {
    IsRun(r) && forall n | 0 <= n < |r.events| :: !r.events[n].Deliver?
  }

  lemma ResponseKeepsV2(s: State, r: Response, w: World, m: Message, next: State)
    requires Live(s) && V2Fits(s) && Normalize(s, r, w) == Ok(m)
    requires ApplyMessage(s, m) == Ok(next) && next.status == Running
    ensures V2Fits(next)
  {
    hide Live, V2Fits, Normalize, ApplyMessage, Promoted;
    ResponseKind(s, r, w, m);
    var body := Promoted(s, r, w).body;
    if Promoted(s, r, w).signal == SignalBlocked {
      assert next.status == Blocked by { BlockedMessageBlocks(s, m, next); }
    } else if s.nextAction == RequestPrimaryVerification {
      VerificationIsPlanned(s);
      MessageIsVerification(s, m, VerificationMessage(s, body).value, w, next);
      VerificationKeepsV2(s, body, w, m, next);
    } else if s.nextAction == RequestReviewerResultVerdict {
      VerdictKeepsV2(s, body, m, next);
    } else if s.nextAction == RequestPrimaryIntegration {
      IntegrationKeepsV2(s, body, w, m, next);
    } else {
      PlanningKeepsV2(s, body, w, m, next);
    }
  }

  lemma BlockedMessageBlocks(s: State, m: Message, next: State)
    requires m.envelope.messageType == BlockedMessage && ApplyMessage(s, m) == Ok(next)
    ensures next.status == Blocked
  {
  }

  lemma MessageIsVerification(s: State, m: Message, plain: Message, w: World, next: State)
    requires s.phase == Verify && plain.envelope.messageType == IntegrationReady
    requires VerifiedMessage(s, plain, w) == Ok(m) && ApplyMessage(s, m) == Ok(next)
    ensures ApplyVerification(s, m) == Ok(next)
  {
    hide Valid, VerifyImmutableEnvelope, ApplyVerification;
  }

  /** A retried patch rejection always opens a correction. */
  lemma PatchRetryOpensCorrection(blocked: State, next: State)
    requires ApplyRetry(ResultReviewPatchNotAuthorized, blocked) == Ok(next)
    ensures CorrectionOpen(next) && next.nextAction == RequestPrimaryIntegration
  {
    hide HasCorrectableResult, ReviewerFeedbackRetained, MachineFeedbackMatches, Passing, Persistable;
    CorrectableDependsOn(blocked, next);
  }

  lemma {:induction false} V2RunKeeps(r: Run, n: nat)
    requires IsV2Run(r) && n <= |r.events|
    ensures ActionPending(r.states[n]) ==> V2Fits(r.states[n])
  {
    hide Inv, Live, Step, V2Fits, Perform, Restored, ApplyRetry;
    if n > 0 && ActionPending(r.states[n]) {
      var s, e, next := r.states[n - 1], r.events[n - 1], r.states[n];
      V2RunKeeps(r, n - 1);
      RunKeeps(r, n - 1);
      StepOf(r, n - 1);
      if e.RetryRun? {
        RetryRestores(r, n - 1);
        V2RunKeeps(r, n - 2);
        RetryKeepsV2(r, n);
      } else {
        ActionWasPending(s, e, next);
        OnlyLiveIsDriven(s);
        LiveStepKeepsV2(s, e, next);
      }
    } else if n == 0 {
      assert V2Fits(Initial(r.facts)) by { InitialV2(r.facts); }
    }
  }

  lemma InitialV2(facts: Facts)
    ensures V2Fits(Initial(facts))
  {
  }

  lemma ActionWasPending(s: State, e: Event, next: State)
    requires Perform(s, e) == Ok(next) && ActionPending(next) && !e.RetryRun?
    ensures ActionPending(s)
  {
    hide Normalize, ApplyMessage;
    if e.Deliver? {
      DeliveryNeedsRunning(s, e.message);
    } else if e.Respond? {
      DeliveryNeedsRunning(s, Normalize(s, e.response, e.world).value);
    }
  }

  lemma LiveStepKeepsV2(s: State, e: Event, next: State)
    requires Live(s) && V2Fits(s) && Perform(s, e) == Ok(next) && ActionPending(next)
    requires !e.Deliver? && !e.RetryRun?
    ensures V2Fits(next)
  {
    hide Live, V2Fits, Normalize, ApplyMessage, RetryTarget, FreezeTests, TrimAll;
    if e.Respond? {
      var m := Normalize(s, e.response, e.world).value;
      MessageLeavesRunning(s, m, next);
      ResponseKeepsV2(s, e.response, e.world, m, next);
    } else {
      StatusKeepsV2(s, e, next);
    }
  }

  lemma RetryKeepsV2(r: Run, n: nat)
    requires IsV2Run(r) && 1 < n <= |r.events| && r.events[n - 1].RetryRun?
    requires V2Fits(r.states[n - 2])
    requires r.states[n] == Restored(r.states[n - 2].(status := Running), r.events[n - 1].kind)
    ensures V2Fits(r.states[n])
  {
    hide Step, ApplyRetry, CorrectionOpen, VerifiedByCoordinator, CommandTexts;
    if r.events[n - 1].kind == ResultReviewPatchNotAuthorized {
      StepOf(r, n - 1);
      PatchRetryOpensCorrection(r.states[n - 1], r.states[n]);
    } else {
      SameV2(r.states[n - 2], r.states[n], r.events[n - 1].kind);
    }
  }

  lemma SameV2(s: State, next: State, kind: Retry)
    requires V2Fits(s) && kind != ResultReviewPatchNotAuthorized
    requires next == Restored(s.(status := Running), kind)
    ensures V2Fits(next)
  {
    hide V2Fits;
    V2FitsDependsOn(s, next);
  }

  /** The patch window is exact: whenever the integration action is running, either there is no
      result yet or a recognised correction is open, and never both. */
  lemma PatchWindowIsExact(r: Run, n: nat)
    requires IsV2Run(r) && n < |r.states| && IntegrationRequested(r.states[n])
    ensures InitialIntegration(r.states[n]) <==> !ActiveCorrectivePatchRequest(r.states[n])
    ensures ActiveCorrectivePatchRequest(r.states[n]) <==> CorrectionOpen(r.states[n])
  {
    hide Inv, Step, Live, InitialIntegration, ActiveCorrectivePatchRequest, CorrectionOpen;
    RunKeeps(r, n);
    OnlyLiveIsDriven(r.states[n]);
    V2RunKeeps(r, n);
    CorrectionIsRecognised(r.states[n]);
  }
}
