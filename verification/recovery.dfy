/** A retry is the inverse of the block it recovers from. */
module Recovery {
  import opened Wrappers
  import opened RunTypes
  import opened Protocol
  import opened Machine
  import opened Retries
  import opened Normalisation
  import opened Invariant
  import opened Steps
  import opened Prompts
  import opened Runs

  /** Where a retry leads from a run that was blocked in `s`: back to `s`. The one exception is
      the patch rejection, whose guard also fits a reviewer's verdict turn: it always leads to the
      correction, so it leads back to `s` only if that was an integration turn. */
  function Restored(s: State, kind: Retry): State {
    if kind == ResultReviewPatchNotAuthorized
    then s.(phase := Integrate, nextAction := RequestPrimaryIntegration)
    else s
  }

  /** Blocking a running state and then retrying gives back that state, field for field, except
      for a patch rejection in a verdict turn. */
  lemma RetryUndoesBlock(s: State, reason: string, error: Option<Diagnostic>, kind: Retry)
    requires Live(s) && s.status == Running
    requires error.Some? ==> error.value.action == s.nextAction
    requires RetryTarget(kind, BlockWith(s.(lastError := error), reason)).Ok?
    ensures ApplyRetry(kind, BlockWith(s.(lastError := error), reason)) == Ok(Restored(s, kind))
    ensures Restored(s, kind) == s <==>
      !(kind == ResultReviewPatchNotAuthorized && s.nextAction == RequestReviewerResultVerdict)
  {
    hide Live, RetryTarget, ApplyRetry, BlockedInAction, BlockedIn;
    var blocked := BlockWith(s.(lastError := error), reason);
    BlockKeeps(s, reason, error);
    RetryFindsAction(kind, blocked, s.nextAction);
    RetryKeeps(kind, blocked);
    RunningIsClean(s);
    if kind == ResultReviewPatchNotAuthorized {
      PatchRejectionFinds(blocked, s.nextAction);
    }
  }

  lemma RunningIsClean(s: State)
    requires Live(s)
    ensures s.phase == PhaseOf(s.nextAction)
    ensures s.status != PausedUserAction ==> s.reasonCode.None? && s.lastError.None?
  {
    hide Common, ActionFits;
  }

  /** On the run object alone the exception is real: a verdict turn on a verified correction, rejected
      with this reason, comes back as an integration turn. The coordinator keeps this retry from such
      runs by a check on the accepted turn, see `RetryRestoresExactly`. */
  lemma PatchRejectionMovesVerdict(s: State)
    requires Live(s) && s.status == Running && s.nextAction == RequestReviewerResultVerdict
    requires HasCorrectableResult(s) && ReviewerFeedbackRetained(s)
    ensures ApplyRetry(ResultReviewPatchNotAuthorized, BlockWith(s, "PATCH_NOT_AUTHORIZED"))
      == Ok(s.(phase := Integrate, nextAction := RequestPrimaryIntegration))
  {
    hide Live, ApplyRetry, HasCorrectableResult, ReviewerFeedbackRetained, Passing, BlockedInAction;
    var blocked := BlockWith(s, "PATCH_NOT_AUTHORIZED");
    RunningIsClean(s);
    assert s.(lastError := None) == s;
    BlockKeeps(s, "PATCH_NOT_AUTHORIZED", None);
    CorrectableDependsOn(s, blocked);
    assert Passing(s.result.evidence) by { VerdictIsPassing(s); }
    RetryKeeps(ResultReviewPatchNotAuthorized, blocked);
  }

  lemma VerdictIsPassing(s: State)
    requires Live(s) && s.nextAction == RequestReviewerResultVerdict
    ensures Passing(s.result.evidence)
  {
  }

  lemma CorrectableDependsOn(s: State, t: State)
    requires t.plan == s.plan && t.policy == s.policy && t.result == s.result
    requires t.round == s.round && t.acceptedResult == s.acceptedResult
    ensures HasCorrectableResult(t) == HasCorrectableResult(s)
    ensures ReviewerFeedbackRetained(t) == ReviewerFeedbackRetained(s)
    ensures MachineFeedbackMatches(t) == MachineFeedbackMatches(s)
  {
    hide CanonicalFailures, Complete, ParseEvidence, MACHINE_VERIFICATION_SUMMARY;
  }

  // ----- in a run

  predicate OutOfRoundsReason(reason: Option<string>) {
    reason == Some("NO_PROGRESS") || reason == Some("ROUND_LIMIT")
  }

  /** `next` is `s` blocked with its pending action's own diagnostic, if it has one. */
  predicate BlocksOnly(s: State, next: State) {
    && s.status in {Running, WaitingThread}
    && next.reasonCode.Some?
    && next == BlockWith(s.(lastError := next.lastError), next.reasonCode.value)
    && (next.lastError.Some? ==> next.lastError.value.action == s.nextAction)
  }

  /** A state blocked for a retryable reason was blocked by its last step, and by nothing else. */
  lemma BlockedByLastStep(s: State, e: Event, next: State)
    requires Inv(s) && Perform(s, e) == Ok(next) && next.status == Blocked
    requires !OutOfRoundsReason(next.reasonCode)
    ensures Live(s) && BlocksOnly(s, next)
  {
    hide Live, OutOfRounds, BlockedIn, Ended, RetryTarget, Normalize, ApplyMessage;
    if e.Deliver? {
      DeliveryBlocks(s, e.message, next);
    } else if e.Respond? {
      DeliveryBlocks(s, Normalize(s, e.response, e.world).value, next);
    } else {
      OnlyFailureBlocks(s, e, next);
    }
  }

  lemma DeliveryBlocks(s: State, m: Message, next: State)
    requires Inv(s) && ApplyMessage(s, m) == Ok(next) && next.status == Blocked
    requires !OutOfRoundsReason(next.reasonCode)
    ensures Live(s) && BlocksOnly(s, next)
  {
    hide Live, OutOfRounds, BlockedIn, Ended, ApplyMessage;
    DeliveryNeedsRunning(s, m);
    OnlyLiveIsDriven(s);
    RunningIsClean(s);
    BlockedByMessage(s, m, next);
  }

  lemma DeliveryNeedsRunning(s: State, m: Message)
    requires ApplyMessage(s, m).Ok?
    ensures s.status == Running
  {
  }

  lemma OnlyFailureBlocks(s: State, e: Event, next: State)
    requires Inv(s) && Perform(s, e) == Ok(next) && next.status == Blocked
    requires !OutOfRoundsReason(next.reasonCode) && !e.Deliver? && !e.Respond?
    ensures Live(s) && BlocksOnly(s, next)
  {
    hide Live, OutOfRounds, BlockedIn, Ended, RetryTarget, Normalize, ApplyMessage;
    if e.FailStep? {
      OnlyLiveIsDriven(s);
    } else {
      OthersDoNotBlock(s, e, next);
    }
  }

  lemma OthersDoNotBlock(s: State, e: Event, next: State)
    requires Perform(s, e) == Ok(next) && next.status == Blocked
    requires !e.Deliver? && !e.Respond? && !e.FailStep?
    ensures e == StepsExhausted && next.reasonCode == Some("NO_PROGRESS")
  {
    hide RetryTarget, Normalize, ApplyMessage;
  }

  lemma BlockedByMessage(s: State, m: Message, next: State)
    requires s.status == Running && s.lastError.None?
    requires ApplyMessage(s, m) == Ok(next) && next.status == Blocked
    requires !OutOfRoundsReason(next.reasonCode)
    ensures BlocksOnly(s, next)
  {
    hide Valid, VerifyImmutableEnvelope, ParseEvidence, Complete, Passing, Fingerprint,
      StringArrayField, MachineFeedback;
  }

  /** In every run, a retry is preceded by the step that blocked it, and leads back to the state
      before that step, field for field, except that a run that was waiting for its thread is
      running again, and that a patch rejection in a verdict turn opens a correction. */
  lemma RetryRestores(r: Run, n: nat)
    requires IsRun(r) && n < |r.events| && r.events[n].RetryRun?
    ensures n > 0 && r.states[n - 1].status in {Running, WaitingThread}
    ensures r.states[n + 1] == Restored(r.states[n - 1].(status := Running), r.events[n].kind)
    ensures r.states[n + 1] == r.states[n - 1].(status := Running) <==>
      !(&& r.events[n].kind == ResultReviewPatchNotAuthorized
        && r.states[n - 1].nextAction == RequestReviewerResultVerdict)
  {
    hide Inv, Live, Perform, BlockedInAction, RetryTarget, Persistable, Restored;
    var kind, blocked := r.events[n].kind, r.states[n];
    RunKeeps(r, n);
    StepOf(r, n);
    RetryStep(blocked, kind, r.states[n + 1]);
    assert n > 0 by { assert r.states[0] == Initial(r.facts); }
    var s := r.states[n - 1];
    RunKeeps(r, n - 1);
    StepOf(r, n - 1);
    BlockedByLastStep(s, r.events[n - 1], blocked);
    var origin := s.(status := Running);
    RunningIsClean(s);
    assert Live(origin) by { LiveWhenIdle(s); }
    assert blocked == BlockWith(origin.(lastError := blocked.lastError), blocked.reasonCode.value);
    RetryUndoesBlock(origin, blocked.reasonCode.value, blocked.lastError, kind);
  }

  lemma RetryStep(s: State, kind: Retry, next: State)
    requires Inv(s) && Step(s, RetryRun(kind)) == Ok(next)
    ensures RetryTarget(kind, s).Ok? && ApplyRetry(kind, s) == Ok(next)
    ensures s.status == Blocked && !OutOfRoundsReason(s.reasonCode)
  {
    hide Inv, RetryTarget, Persistable;
    RetryNeedsReason(kind, s);
    ReasonsAreNotExhaustion(kind);
  }

  lemma LiveWhenIdle(s: State)
    requires Live(s) && s.status in {Running, WaitingThread}
    ensures Live(s.(status := Running))
  {
    hide PlanFits, ResultFits;
  }

  // ----- the accepted turn that a patch rejection is checked against

  predicate IsAnswer(e: Event) {
    e.Deliver? || e.Respond?
  }

  /** The retries that take the accepted turn back and ask for it again. */
  predicate TakesBack(e: Event) {
    && e.RetryRun?
    && e.kind in {ExecutionToolUnavailable, VerificationEnvironment, CorrectivePatchTool,
                  ResultReviewPatchNotAuthorized}
  }

  /** The answers that are on record as accepted before step `n`, by the steps that applied them. */
  function AcceptedTurns(r: Run, n: nat): (turns: seq<nat>)
    requires HasShape(r) && n <= |r.events|
    ensures forall i | 0 <= i < |turns| :: turns[i] < n && IsAnswer(r.events[turns[i]])
  {
    if n == 0 then []
    else
      var before := AcceptedTurns(r, n - 1);
      if IsAnswer(r.events[n - 1]) then before + [n - 1]
      else if TakesBack(r.events[n - 1]) && before != [] then before[..|before| - 1]
      else before
  }

  function LatestAccepted(r: Run, n: nat): (k: Option<nat>)
    requires HasShape(r) && n <= |r.events|
    ensures k.Some? ==> k.value < n && IsAnswer(r.events[k.value])
  {
    var turns := AcceptedTurns(r, n);
    if turns == [] then None else Some(turns[|turns| - 1])
  }

  /** The latest accepted turn is the Primary's, in this phase and in the round of the blocked run. */
  predicate FromTurn(r: Run, n: nat, phase: Phase)
    requires HasShape(r) && n <= |r.events|
  {
    && LatestAccepted(r, n).Some?
    && var turn := r.states[LatestAccepted(r, n).value];
      && ActionRole(turn.nextAction) == Some(Primary)
      && turn.phase == phase
      && turn.round == r.states[n].round
  }

  /** What the coordinator asks of the latest accepted turn before it retries. */
  predicate PassesTurnCheck(r: Run, n: nat, kind: Retry)
    requires HasShape(r) && n <= |r.events|
  {
    match kind
    case ExecutionToolUnavailable => FromTurn(r, n, Integrate)
    case CorrectivePatchTool => FromTurn(r, n, Integrate)
    case ResultReviewPatchNotAuthorized => FromTurn(r, n, Integrate)
    case VerificationEnvironment => FromTurn(r, n, Verify)
    case _ => true
  }

  /** Every retry of a rejected patch has passed that check. */
  predicate AcceptedTurnsAreChecked(r: Run)
    requires HasShape(r)
  {
    forall n | 0 <= n < |r.events| && r.events[n] == RetryRun(ResultReviewPatchNotAuthorized) ::
      FromTurn(r, n, Integrate)
  }

  lemma CorrectionNeedsNoError(s: State, kind: Retry)
    requires kind in {CorrectivePatchTool, ResultReviewPatchNotAuthorized} && RetryTarget(kind, s).Ok?
    ensures s.lastError.None?
  {
    hide HasCorrectableResult, Passing, ReviewerFeedbackRetained, MachineFeedbackMatches;
  }

  lemma FailureLeavesError(s: State, e: Event, next: State)
    requires Perform(s, e) == Ok(next) && next.status == Blocked
    requires !OutOfRoundsReason(next.reasonCode) && !IsAnswer(e)
    ensures next.lastError.Some?
  {
    hide RetryTarget, Normalize, ApplyMessage;
    if !e.FailStep? {
      OthersDoNotBlock(s, e, next);
    }
  }

  /** The turn whose answer blocked the run is the one on record, so a corrective retry passes the check
      exactly if the run was blocked in an integration. That is so for an unavailable tool, and not for a
      patch rejected in a verdict turn. */
  lemma CheckMeansIntegration(r: Run, n: nat, kind: Retry)
    requires IsRun(r) && n < |r.states| && RetryTarget(kind, r.states[n]).Ok?
    requires kind in {CorrectivePatchTool, ResultReviewPatchNotAuthorized}
    ensures n > 0
    ensures PassesTurnCheck(r, n, kind) <==> r.states[n - 1].nextAction == RequestPrimaryIntegration
    ensures r.states[n - 1].nextAction == RequestPrimaryIntegration
      || (kind == ResultReviewPatchNotAuthorized && r.states[n - 1].nextAction == RequestReviewerResultVerdict)
  {
    hide Inv, Live, Step, Perform, RetryTarget, BlockedIn, BlockedInAction, FromTurn;
    var blocked := r.states[n];
    RetryNeedsReason(kind, blocked);
    ReasonsAreNotExhaustion(kind);
    CorrectionNeedsNoError(blocked, kind);
    assert n > 0 by { assert r.states[0] == Initial(r.facts); }
    var s, e := r.states[n - 1], r.events[n - 1];
    RunKeeps(r, n - 1);
    StepOf(r, n - 1);
    BlockedByLastStep(s, e, blocked);
    if !IsAnswer(e) {
      FailureLeavesError(s, e, blocked);
    }
    OnlyLiveIsDriven(s);
    IntegrationPhaseIsItsAction(s);
    LiveIsBlockedIn(s, blocked);
    RetryFindsAction(kind, blocked, s.nextAction);
    CorrectionsIntegrate(kind, blocked);
    AnswerIsLatest(r, n);
  }

  lemma CorrectionsIntegrate(kind: Retry, s: State)
    requires kind in {CorrectivePatchTool, ResultReviewPatchNotAuthorized} && RetryTarget(kind, s).Ok?
    ensures RetryTarget(kind, s) == Ok(RequestPrimaryIntegration)
  {
    hide HasCorrectableResult, Passing, ReviewerFeedbackRetained, MachineFeedbackMatches;
  }

  lemma AnswerIsLatest(r: Run, n: nat)
    requires HasShape(r) && 0 < n <= |r.events| && IsAnswer(r.events[n - 1])
    requires r.states[n].round == r.states[n - 1].round
    ensures FromTurn(r, n, Integrate) <==>
      ActionRole(r.states[n - 1].nextAction) == Some(Primary) && r.states[n - 1].phase == Integrate
  {
    hide ActionRole;
  }

  lemma LiveIsBlockedIn(s: State, blocked: State)
    requires Live(s) && BlocksOnly(s, blocked)
    ensures BlockedIn(blocked, s.nextAction) && blocked.round == s.round
  {
    hide PlanFits, ResultFits;
  }

  lemma CheckedRejectionWasIntegration(r: Run, n: nat)
    requires IsRun(r) && n < |r.events| && r.events[n] == RetryRun(ResultReviewPatchNotAuthorized)
    requires FromTurn(r, n, Integrate)
    ensures n > 0 && r.states[n - 1].nextAction == RequestPrimaryIntegration
  {
    hide Step, RetryTarget, FromTurn, Inv, Perform;
    RunKeeps(r, n);
    StepOf(r, n);
    RetryStep(r.states[n], ResultReviewPatchNotAuthorized, r.states[n + 1]);
    CheckMeansIntegration(r, n, ResultReviewPatchNotAuthorized);
  }

  lemma IntegrationPhaseIsItsAction(s: State)
    requires Live(s)
    ensures s.phase == Integrate <==> s.nextAction == RequestPrimaryIntegration
  {
    hide Common, ActionFits;
  }

  /** With the coordinator's check on accepted turns, every retry of every run leads back to the state
      before the block, field for field, except that a waiting run is running again. */
  lemma RetryRestoresExactly(r: Run, n: nat)
    requires IsRun(r) && AcceptedTurnsAreChecked(r) && n < |r.events| && r.events[n].RetryRun?
    ensures n > 0 && r.states[n - 1].status in {Running, WaitingThread}
    ensures r.states[n + 1] == r.states[n - 1].(status := Running)
  {
    hide Step, Restored, FromTurn;
    RetryRestores(r, n);
    if r.events[n].kind == ResultReviewPatchNotAuthorized {
      CheckedRejectionWasIntegration(r, n);
    }
  }
}
