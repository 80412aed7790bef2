/** What each request tells its participant: the records of the run as the messages so far left them. */
module Requests {
  import opened Wrappers
  import opened Json
  import opened Canonical
  import opened RunTypes
  import opened Machine
  import opened Invariant
  import opened Steps
  import opened Runs
  import opened Prompts
  import opened Histories

  // ----- single fields

  predicate Tells(payload: Value, key: string, value: Option<Value>) {
    Get(payload, key) == Some(if value.Some? then value.value else Null)
  }

  predicate TellsText(payload: Value, key: string, text: Option<string>) {
    Get(payload, key) == Some(if text.Some? then String(text.value) else Null)
  }

  predicate TellsTexts(payload: Value, key: string, texts: seq<string>) {
    var items := GetArray(payload, key);
    && items.Some?
    && |items.value| == |texts|
    && forall i | 0 <= i < |texts| :: items.value[i] == String(texts[i])
  }

  /** One field of a whole that is on record. */
  predicate TellsPart(payload: Value, key: string, whole: Option<Value>, part: string) {
    whole.Some? && Tells(payload, key, Get(whole.value, part))
  }

  // ----- what each action is asked with

  predicate TellsContracts(s: State, payload: Value) {
    && s.plan.primaryContract.Some?
    && s.plan.reviewerContract.Some?
    && Tells(payload, "primary_contract", s.plan.primaryContract)
    && Tells(payload, "reviewer_contract", s.plan.reviewerContract)
  }

  predicate TellsPlan(s: State, payload: Value) {
    && TellsPart(payload, "approved_plan", s.plan.payload, "plan")
    && TellsPart(payload, "coverage_matrix", s.plan.payload, "coverage_matrix")
  }

  predicate TellsResult(s: State, payload: Value) {
    && TellsPart(payload, "integration_evidence", s.result.payload, "integration_evidence")
    && TellsPart(payload, "changed_files", s.result.payload, "changed_files")
    && TellsText(payload, "integration_branch", s.result.branch)
    && TellsText(payload, "integration_sha", s.result.sha)
  }

  /** The plan goes to its verdict whole, with its hash. */
  ghost predicate TellsWholePlan(s: State, payload: Value) {
    && s.plan.payload.Some?
    && GetString(payload, "plan_hash") == Some(CanonicalHash(s.plan.payload.value))
    && forall key :: key != "plan_hash" ==> Get(payload, key) == Get(s.plan.payload.value, key)
  }

  ghost predicate TellsRecords(s: State, payload: Value) {
    match s.nextAction
    case RequestPrimaryPlan =>
      && TellsContracts(s, payload)
      && Tells(payload, "previous_plan", s.plan.payload)
      && Tells(payload, "review_feedback", s.plan.feedback)
      && TellsText(payload, "target_integration_branch", s.policy.targetBranch)
      && TellsTexts(payload, "required_test_commands", s.policy.requiredTests)
    case RequestReviewerPlanVerdict =>
      TellsWholePlan(s, payload)
    case RequestPrimaryIntegration =>
      && TellsContracts(s, payload)
      && TellsPlan(s, payload)
      && s.plan.approval.Some?
      && Tells(payload, "approval", s.plan.approval)
      && TellsText(payload, "target_integration_branch", s.policy.targetBranch)
      && TellsText(payload, "previous_integration_sha", s.result.sha)
      && Tells(payload, "result_feedback", s.result.feedback)
    case RequestPrimaryVerification =>
      && TellsResult(s, payload)
      && TellsTexts(payload, "required_test_commands", s.policy.requiredTests)
      && TellsText(payload, "verification_worktree", s.result.workspace)
    case RequestReviewerResultVerdict =>
      && TellsContracts(s, payload)
      && TellsPlan(s, payload)
      && TellsResult(s, payload)
      && ParseEvidence(payload) == Ok(s.result.evidence)
    case _ => true
  }

  lemma PlanTells(s: State)
    requires s.nextAction == RequestPrimaryPlan && BuildActionPayload(s, s.nextAction).Ok?
    ensures TellsRecords(s, BuildActionPayload(s, s.nextAction).value)
  {
    var payload := BuildActionPayload(s, s.nextAction).value;
    assert payload.fields["required_test_commands"] == Strings(s.policy.requiredTests);
  }

  lemma PlanVerdictTells(s: State)
    requires s.nextAction == RequestReviewerPlanVerdict && BuildActionPayload(s, s.nextAction).Ok?
    ensures TellsRecords(s, BuildActionPayload(s, s.nextAction).value)
  {
    hide CanonicalHash;
  }

  lemma IntegrationTells(s: State)
    requires s.nextAction == RequestPrimaryIntegration && BuildActionPayload(s, s.nextAction).Ok?
    ensures TellsRecords(s, BuildActionPayload(s, s.nextAction).value)
  {
  }

  lemma VerificationTells(s: State)
    requires s.nextAction == RequestPrimaryVerification && BuildActionPayload(s, s.nextAction).Ok?
    ensures TellsRecords(s, BuildActionPayload(s, s.nextAction).value)
  {
    var payload := BuildActionPayload(s, s.nextAction).value;
    assert payload.fields["required_test_commands"] == Strings(s.policy.requiredTests);
  }

  lemma SameEvidence(a: Value, b: Value)
    requires Get(a, "test_evidence") == Get(b, "test_evidence")
    ensures ParseEvidence(a) == ParseEvidence(b)
  {
    hide ParseEntries;
  }

  lemma NoEvidence(v: Value)
    requires Get(v, "test_evidence").None?
    ensures ParseEvidence(v).Err?
  {
    hide ParseEntries;
  }

  lemma VerdictTellsPlan(s: State)
    requires ResultVerdictPayload(s).Ok?
    ensures TellsContracts(s, ResultVerdictPayload(s).value) && TellsPlan(s, ResultVerdictPayload(s).value)
  {
  }

  lemma VerdictTellsResult(s: State)
    requires ResultVerdictPayload(s).Ok?
    ensures TellsResult(s, ResultVerdictPayload(s).value)
  {
  }

  lemma VerdictTellsEvidence(s: State)
    requires ResultVerdictPayload(s).Ok? && s.result.evidence != [] && ResultIsWhole(s)
    ensures ParseEvidence(ResultVerdictPayload(s).value) == Ok(s.result.evidence)
  {
    hide ParseEvidence;
    var payload := ResultVerdictPayload(s).value;
    if Get(s.result.payload.value, "test_evidence").Some? {
      SameEvidence(payload, s.result.payload.value);
    } else {
      NoEvidence(s.result.payload.value);
    }
  }

  lemma ResultVerdictTells(s: State)
    requires s.nextAction == RequestReviewerResultVerdict && BuildActionPayload(s, s.nextAction).Ok?
    requires s.result.evidence != [] && ResultIsWhole(s)
    ensures TellsRecords(s, BuildActionPayload(s, s.nextAction).value)
  {
    hide ResultVerdictPayload, TellsContracts, TellsPlan, TellsResult, ParseEvidence, ResultIsWhole;
    VerdictTellsPlan(s);
    VerdictTellsResult(s);
    VerdictTellsEvidence(s);
  }

  // ----- in every run

  /** The round was opened by a step of this kind. */
  predicate OpenedBy(r: Run, n: nat, source: Source)
    requires HasShape(r) && n <= |r.events|
  {
    var k := LatestStep(r, n, source);
    k.Some? && r.states[k.value + 1].round == r.states[n].round
  }

  /** In every run, a pending action is asked for with what the run has on record: contracts, plan and
      approval as they were delivered last, the result as it was reported last with its branch and
      commit, the evidence of its verification, the frozen commands and the workspace. A plan of a later
      round is asked for with the review that opened this round, and a correction with the review or the
      failure that opened it. */
  lemma RequestTellsRecords(r: Run, n: nat)
    requires IsRun(r) && n <= |r.events|
    requires r.states[n].status == Running && ModelAction(r.states[n].nextAction)
    ensures BuildActionPayload(r.states[n], r.states[n].nextAction).Ok?
    ensures var s := r.states[n];
      && TellsRecords(s, BuildActionPayload(s, s.nextAction).value)
      && s.plan.primaryContract == Latest(r, n, ContractBy(RequestPrimaryContract))
      && s.plan.reviewerContract == Latest(r, n, ContractBy(RequestReviewerContract))
      && s.plan.payload == Latest(r, n, PlanBrought)
      && s.plan.feedback == Latest(r, n, PlanReviewBrought)
      && s.result.payload == Latest(r, n, ResultBrought)
      && s.result.feedback == Latest(r, n, FeedbackBrought)
      && (s.nextAction == RequestPrimaryIntegration ==> s.plan.approval == Latest(r, n, ApprovalBrought))
      && (s.nextAction == RequestPrimaryPlan && s.round > 1 ==> OpenedBy(r, n, PlanReviewBrought))
      && (s.nextAction == RequestPrimaryIntegration && s.result.sha.Some? ==> OpenedBy(r, n, FeedbackBrought))
  {
    hide Inv, Live, Step, Linked, TellsRecords, BuildActionPayload, ContractBy, PlanBrought, ApprovalBrought,
      PlanReviewBrought, ResultBrought, FeedbackBrought, Latest, LatestStep, ResultIsWhole;
    var s := r.states[n];
    ReachableStateCanBeAsked(r, n);
    RunKeeps(r, n);
    OnlyLiveIsDriven(s);
    RecordsAreLatest(r, n);
    FeedbackOpenedRound(r, n);
    FeedbackIsThere(s);
    LatestHasStep(r, n, PlanReviewBrought);
    LatestHasStep(r, n, FeedbackBrought);
    match s.nextAction
    case RequestPrimaryPlan => PlanTells(s);
    case RequestReviewerPlanVerdict => PlanVerdictTells(s);
    case RequestPrimaryIntegration => IntegrationTells(s);
    case RequestPrimaryVerification => VerificationTells(s);
    case RequestReviewerResultVerdict => ResultVerdictTells(s);
    case _ => ContractTellsNothing(s);
  }

  lemma ContractTellsNothing(s: State)
    requires s.nextAction in {RequestPrimaryContract, RequestReviewerContract}
    ensures forall payload :: TellsRecords(s, payload)
  {
  }

  lemma FeedbackIsThere(s: State)
    requires Live(s)
    ensures s.nextAction == RequestPrimaryPlan && s.round > 1 ==> s.plan.feedback.Some? && s.result.sha.None?
    ensures s.nextAction == RequestPrimaryIntegration && s.result.sha.Some? ==> s.result.feedback.Some?
    ensures s.nextAction == RequestPrimaryIntegration ==> s.plan.approved
    ensures s.nextAction == RequestReviewerResultVerdict ==> s.result.evidence != []
  {
    hide PlanFits, ResultFits, DistinctNonblank, Passing;
  }

  lemma LatestHasStep(r: Run, n: nat, source: Source)
    requires HasShape(r) && n <= |r.events|
    ensures Latest(r, n, source).Some? ==> LatestStep(r, n, source).Some?
  {
    hide LatestStep;
  }
}
