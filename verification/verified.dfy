/** What a verification leaves behind: evidence that says what the commands did, and the verdict that
    follows from it. */
module Verifications {
  import opened Wrappers
  import opened RunTypes
  import opened Protocol
  import opened Participants
  import opened Machine
  import opened Normalisation
  import opened Invariant
  import opened Steps
  import opened Runs
  import opened Windows
  import opened V2Runs

  /** Every recorded exit code is zero. */
  predicate AllSucceeded(records: seq<Result<CommandRecord>>)
    requires AreFinished(records, |records|)
  {
    forall i | 0 <= i < |records| :: records[i].value.exitCode == Some(0)
  }

  lemma PassingMeansSuccess(s: State, w: World, records: seq<Result<CommandRecord>>, evidence: seq<Evidence>)
    requires s.result.workspace.Some? && |records| == |s.policy.requiredTests|
    requires AreFinished(records, |records|)
    requires EvidenceIsOfRecords(s, w, records, |records|, evidence)
    ensures Passing(evidence) <==> AllSucceeded(records)
  {
    hide ItemId;
    if Passing(evidence) {
      forall i | 0 <= i < |records| ensures records[i].value.exitCode == Some(0) {
        assert evidence[i] in evidence;
      }
    }
  }

  /** What follows from the evidence of a verification that is applied. */
  lemma VerificationOutcome(s: State, m: Message, evidence: seq<Evidence>, next: State)
    requires Live(s) && s.status == Running && s.nextAction == RequestPrimaryVerification
    requires ParseEvidence(m.payload) == Ok(evidence) && ApplyVerification(s, m) == Ok(next)
    ensures next.result.evidence == evidence && next.result.sha == s.result.sha
    ensures next.phase == ResultReview <==> Passing(evidence)
    ensures next.phase == ResultReview ==> next.nextAction == RequestReviewerResultVerdict && next.round == s.round
    ensures next.phase != ResultReview && s.round < s.limits.maxRounds ==>
      next.nextAction == RequestPrimaryIntegration && next.round == s.round + 1 && next.status == Running
    ensures next.phase != ResultReview && s.round == s.limits.maxRounds ==>
      next.status == Blocked && next.reasonCode == Some("ROUND_LIMIT")
  {
    hide ParseEvidence, Complete, Passing, MachineFeedback, PlanFits, ResultFits, DistinctNonblank;
  }

  lemma VerificationIsApplied(s: State, r: Response, w: World, next: State)
    requires Live(s) && s.nextAction == RequestPrimaryVerification && r.signal == SignalVerification
    requires Perform(s, Respond(r, w)) == Ok(next)
    ensures w.outcomes.Ok? && |w.outcomes.value| == |s.policy.requiredTests| && s.result.workspace.Some?
    ensures Normalize(s, r, w).Ok? && ApplyVerification(s, Normalize(s, r, w).value) == Ok(next)
    ensures ParseEvidence(Normalize(s, r, w).value.payload)
      == Ok(EvidenceUpTo(s, w, w.outcomes.value, |w.outcomes.value|))
  {
    hide Live, Normalize, VerificationMessage, VerifiedMessage, ParseEvidence, EvidenceUpTo,
      ApplyVerification, Valid, VerifyImmutableEnvelope;
    var m := Normalize(s, r, w).value;
    ResponseKind(s, r, w, m);
    VerificationIsPlanned(s);
    VerifiedEvidence(s, r.body, w, m);
    PlainIsReport(s, r.body);
    MessageIsVerification(s, m, VerificationMessage(s, r.body).value, w, next);
  }

  lemma PlainIsReport(s: State, body: string)
    requires VerificationMessage(s, body).Ok?
    ensures VerificationMessage(s, body).value.envelope.messageType == IntegrationReady
  {
  }

  /** In every run, the evidence that a v2 verification puts on record says of each frozen command what
      its own record says, and the result goes to its verdict exactly if all of them exited with zero.
      Otherwise a correction follows, or the run has no round left. */
  lemma VerificationFollowsRecords(run: Run, n: nat, r: Response, w: World, records: seq<Result<CommandRecord>>)
    requires IsRun(run) && n < |run.events| && run.events[n] == Respond(r, w)
    requires run.states[n].nextAction == RequestPrimaryVerification && r.signal == SignalVerification
    requires AreFinished(records, |records|) && w.outcomes == Ok(OutcomesOf(records))
    ensures var s, next := run.states[n], run.states[n + 1];
      && s.result.workspace.Some? && |records| == |s.policy.requiredTests|
      && EvidenceIsOfRecords(s, w, records, |records|, next.result.evidence)
      && (next.phase == ResultReview <==> AllSucceeded(records))
      && (!AllSucceeded(records) ==>
          if s.round < s.limits.maxRounds then next.nextAction == RequestPrimaryIntegration
          else next.status == Blocked && next.reasonCode == Some("ROUND_LIMIT"))
  {
    hide Inv, Live, Step, Perform, Normalize, ApplyVerification, ParseEvidence, EvidenceUpTo, Passing,
      EvidenceIsOfRecords, AllSucceeded, OutcomeOf;
    var s, next := run.states[n], run.states[n + 1];
    RunKeeps(run, n);
    StepOf(run, n);
    assert s.status == Running by { AnswerNeedsRunning(s, r, w); }
    OnlyLiveIsDriven(s);
    VerificationIsApplied(s, r, w, next);
    var evidence := EvidenceUpTo(s, w, w.outcomes.value, |w.outcomes.value|);
    VerificationOutcome(s, Normalize(s, r, w).value, evidence, next);
    EvidenceTellsRecords(s, w, records, |records|);
    PassingMeansSuccess(s, w, records, evidence);
    assert 1 <= s.round <= s.limits.maxRounds by { RoundIsInBounds(s); }
  }

  lemma RoundIsInBounds(s: State)
    requires Live(s)
    ensures 1 <= s.round <= s.limits.maxRounds
  {
    hide PlanFits, ResultFits, ActionFits;
  }

  lemma AnswerNeedsRunning(s: State, r: Response, w: World)
    requires Perform(s, Respond(r, w)).Ok?
    ensures s.status == Running
  {
    hide Normalize;
  }
}
