/** The request made for each pending action: its payload, its role and their validation. */
module Prompts {
  import opened Wrappers
  import opened Json
  import opened Canonical
  import opened RunTypes
  import opened Machine
  import opened Invariant
  import opened Steps
  import opened Runs

  function ActionRole(action: NextAction): Option<Role> {
    match action
    case RequestPrimaryContract => Some(Primary)
    case RequestPrimaryPlan => Some(Primary)
    case RequestPrimaryIntegration => Some(Primary)
    case RequestPrimaryVerification => Some(Primary)
    case RequestReviewerContract => Some(Reviewer)
    case RequestReviewerPlanVerdict => Some(Reviewer)
    case RequestReviewerResultVerdict => Some(Reviewer)
    case RevalidateAndAccept => None
    case WaitForUser => None
    case Stop => None
  }

  predicate ModelAction(action: NextAction) {
    action !in {RevalidateAndAccept, WaitForUser, Stop}
  }

  function RequiredPayloadFields(action: NextAction): set<string> {
    match action
    case RequestPrimaryPlan => {"primary_contract", "reviewer_contract"}
    case RequestReviewerPlanVerdict =>
      {"primary_contract", "reviewer_contract", "plan", "coverage_matrix", "test_commands", "plan_hash"}
    case RequestPrimaryIntegration =>
      {"primary_contract", "reviewer_contract", "approved_plan", "coverage_matrix", "approval",
       "target_integration_branch"}
    case RequestPrimaryVerification =>
      {"integration_evidence", "changed_files", "required_test_commands", "verification_worktree",
       "integration_branch", "integration_sha"}
    case RequestReviewerResultVerdict =>
      {"primary_contract", "reviewer_contract", "approved_plan", "coverage_matrix",
       "integration_evidence", "test_evidence", "changed_files", "integration_branch",
       "integration_sha"}
    case _ => {}
  }

  function OrNull(v: Option<Value>): Value {
    match v
    case Some(value) => value
    case None => Null
  }

  function Available(v: Option<Value>): Result<Value> {
    match v
    case Some(value) => Ok(value)
    case None => Err(HistoryUnavailable)
  }

  function PlanPayload(s: State): Result<Value> {
    var primary :- Available(s.plan.primaryContract);
    var reviewer :- Available(s.plan.reviewerContract);
    Ok(Object(map[
      "primary_contract" := primary,
      "reviewer_contract" := reviewer,
      "previous_plan" := OrNull(s.plan.payload),
      "review_feedback" := OrNull(s.plan.feedback),
      "target_integration_branch" := OptionalString(s.policy.targetBranch),
      "required_test_commands" := Strings(s.policy.requiredTests)]))
  }

  function PlanVerdictPayload(s: State): Result<Value> {
    var plan :- Available(s.plan.payload);
    var _ :- Need(plan.Object?, InvalidState);
    Ok(Object(plan.fields["plan_hash" := String(CanonicalHash(plan))]))
  }

  function IntegrationPayload(s: State): Result<Value> {
    var plan :- Available(s.plan.payload);
    var approval :- Available(s.plan.approval);
    var primary :- Available(s.plan.primaryContract);
    var reviewer :- Available(s.plan.reviewerContract);
    Ok(Object(map[
      "primary_contract" := primary,
      "reviewer_contract" := reviewer,
      "approved_plan" := GetOr(plan, "plan", Null),
      "coverage_matrix" := GetOr(plan, "coverage_matrix", Null),
      "approval" := approval,
      "target_integration_branch" := OptionalString(s.policy.targetBranch),
      "previous_integration_sha" := OptionalString(s.result.sha),
      "result_feedback" := OrNull(s.result.feedback)]))
  }

  function VerificationPayload(s: State): Result<Value> {
    var integration :- Available(s.result.payload);
    Ok(Object(map[
      "integration_evidence" := GetOr(integration, "integration_evidence", Null),
      "changed_files" := GetOr(integration, "changed_files", Null),
      "required_test_commands" := Strings(s.policy.requiredTests),
      "verification_worktree" := OptionalString(s.result.workspace),
      "integration_branch" := OptionalString(s.result.branch),
      "integration_sha" := OptionalString(s.result.sha)]))
  }

  function ResultVerdictPayload(s: State): Result<Value> {
    var plan :- Available(s.plan.payload);
    var integration :- Available(s.result.payload);
    var primary :- Available(s.plan.primaryContract);
    var reviewer :- Available(s.plan.reviewerContract);
    Ok(Object(map[
      "primary_contract" := primary,
      "reviewer_contract" := reviewer,
      "approved_plan" := GetOr(plan, "plan", Null),
      "coverage_matrix" := GetOr(plan, "coverage_matrix", Null),
      "integration_evidence" := GetOr(integration, "integration_evidence", Null),
      "test_evidence" := GetOr(integration, "test_evidence", Null),
      "changed_files" := GetOr(integration, "changed_files", Null),
      "integration_branch" := OptionalString(s.result.branch),
      "integration_sha" := OptionalString(s.result.sha)]))
  }

  function BuildActionPayload(s: State, action: NextAction): Result<Value> {
    match action
    case RequestPrimaryContract => Ok(Object(map["task_context" :=
      String("derive the complete primary contract from this task and frozen SHA")]))
    case RequestReviewerContract => Ok(Object(map["task_context" :=
      String("derive the complete reviewer contract from this task and frozen SHA")]))
    case RequestPrimaryPlan => PlanPayload(s)
    case RequestReviewerPlanVerdict => PlanVerdictPayload(s)
    case RequestPrimaryIntegration => IntegrationPayload(s)
    case RequestPrimaryVerification => VerificationPayload(s)
    case RequestReviewerResultVerdict => ResultVerdictPayload(s)
    case _ => Err(InvalidState)
  }

  /** `validate_request`; only whether it accepts is modelled, not which error it reports. */
  predicate ValidRequest(role: Role, action: NextAction, s: State, payload: Value) {
    && s.status == Running
    && s.nextAction == action
    && ActionRole(action) == Some(role)
    && payload.Object?
    && RequiredPayloadFields(action) <= payload.fields.Keys
  }

  /** The contracts in a request are the recorded ones: their hashes are on record. */
  predicate SendsContracts(s: State, payload: Value) {
    var primary, reviewer := Get(payload, "primary_contract"), Get(payload, "reviewer_contract");
    && primary.Some? && Some(CanonicalHash(primary.value)) == s.plan.primaryContractHash
    && reviewer.Some? && Some(CanonicalHash(reviewer.value)) == s.plan.reviewerContractHash
  }

  /** The plan in a request is the approved one, with the approval that names its hash. */
  predicate SendsApprovedPlan(s: State, payload: Value) {
    && s.plan.payload.Some?
    && Get(payload, "approved_plan") == Get(s.plan.payload.value, "plan")
    && Get(payload, "coverage_matrix") == Get(s.plan.payload.value, "coverage_matrix")
  }

  predicate SendsApproval(s: State, payload: Value) {
    var approval := Get(payload, "approval");
    approval.Some? && GetString(approval.value, "approved_plan_hash") == s.plan.hash
  }

  /** Nothing but the pending action of a running run is asked, nobody but its participant, and not without
      a field that it needs. */
  lemma OnlyThePendingIsAsked(role: Role, action: NextAction, s: State, payload: Value)
    requires ValidRequest(role, action, s, payload)
    ensures s.status == Running && action == s.nextAction && ModelAction(action)
    ensures role == Reviewer <==>
      action in {RequestReviewerContract, RequestReviewerPlanVerdict, RequestReviewerResultVerdict}
    ensures action in {RequestPrimaryPlan, RequestReviewerPlanVerdict, RequestPrimaryIntegration,
                       RequestReviewerResultVerdict} ==>
      Get(payload, "primary_contract").Some? && Get(payload, "reviewer_contract").Some?
    ensures action == RequestReviewerPlanVerdict ==>
      Get(payload, "plan").Some? && Get(payload, "test_commands").Some? && Get(payload, "plan_hash").Some?
    ensures action in {RequestPrimaryIntegration, RequestReviewerResultVerdict} ==>
      Get(payload, "approved_plan").Some? && Get(payload, "coverage_matrix").Some?
    ensures action == RequestPrimaryIntegration ==>
      Get(payload, "approval").Some? && Get(payload, "target_integration_branch").Some?
    ensures action in {RequestPrimaryVerification, RequestReviewerResultVerdict} ==>
      && Get(payload, "integration_evidence").Some?
      && Get(payload, "changed_files").Some?
      && Get(payload, "integration_branch").Some?
      && Get(payload, "integration_sha").Some?
    ensures action == RequestPrimaryVerification ==>
      Get(payload, "required_test_commands").Some? && Get(payload, "verification_worktree").Some?
    ensures action == RequestReviewerResultVerdict ==> Get(payload, "test_evidence").Some?
  {
    assert forall key | key in RequiredPayloadFields(action) :: key in payload.fields;
  }

  // ----- every reachable running state can be asked

  lemma PlanningCanBeAsked(s: State)
    requires Live(s) && s.nextAction in {RequestPrimaryPlan, RequestReviewerPlanVerdict}
    ensures BuildActionPayload(s, s.nextAction).Ok?
    ensures var payload := BuildActionPayload(s, s.nextAction).value;
      && payload.Object?
      && RequiredPayloadFields(s.nextAction) <= payload.fields.Keys
      && (s.nextAction == RequestReviewerPlanVerdict ==> GetString(payload, "plan_hash") == s.plan.hash)
      && (s.nextAction == RequestPrimaryPlan ==> SendsContracts(s, payload))
  {
    hide ResultFits, DistinctNonblank, CanonicalHash;
  }

  lemma IntegrationCanBeAsked(s: State)
    requires Live(s) && s.nextAction == RequestPrimaryIntegration
    ensures BuildActionPayload(s, s.nextAction).Ok?
    ensures var payload := BuildActionPayload(s, s.nextAction).value;
      && payload.Object?
      && RequiredPayloadFields(s.nextAction) <= payload.fields.Keys
      && SendsContracts(s, payload)
      && SendsApprovedPlan(s, payload)
      && SendsApproval(s, payload)
  {
    hide ResultFits, DistinctNonblank, CanonicalHash;
  }

  lemma VerificationCanBeAsked(s: State)
    requires Live(s) && s.nextAction == RequestPrimaryVerification
    ensures BuildActionPayload(s, s.nextAction).Ok?
    ensures var payload := BuildActionPayload(s, s.nextAction).value;
      && payload.Object?
      && RequiredPayloadFields(s.nextAction) <= payload.fields.Keys
      && GetString(payload, "integration_sha") == s.result.sha
      && s.result.sha.Some?
  {
    hide DistinctNonblank, CanonicalHash, PlanFits, Complete, Passing;
  }

  lemma ResultVerdictCanBeAsked(s: State)
    requires Live(s) && s.nextAction == RequestReviewerResultVerdict
    ensures BuildActionPayload(s, s.nextAction).Ok?
    ensures var payload := BuildActionPayload(s, s.nextAction).value;
      && payload.Object?
      && RequiredPayloadFields(s.nextAction) <= payload.fields.Keys
      && GetString(payload, "integration_sha") == s.result.sha
      && s.result.sha.Some?
      && SendsContracts(s, payload)
      && SendsApprovedPlan(s, payload)
  {
    hide Live, CanonicalHash;
    VerdictHasAll(s);
  }

  lemma VerdictHasAll(s: State)
    requires Live(s) && s.nextAction == RequestReviewerResultVerdict
    ensures s.plan.payload.Some? && PlanShape(s.plan.payload.value)
    ensures s.plan.primaryContract.Some? && s.plan.reviewerContract.Some?
    ensures ContractFits(s.plan.primaryContract, s.plan.primaryContractHash)
    ensures ContractFits(s.plan.reviewerContract, s.plan.reviewerContractHash)
    ensures s.result.payload.Some? && s.result.sha.Some?
  {
    hide DistinctNonblank, CanonicalHash, Complete, Passing, PlanShape;
  }

  /** In every run, under arbitrary valid messages, a running state with a model action can be
      asked: its payload can be built and the request for its role is valid. The verdict on a plan
      is asked for with the hash an approval must name; an integration and the verdict on it with
      the recorded contracts and the approved plan. */
  lemma ReachableStateCanBeAsked(r: Run, n: nat)
    requires IsRun(r) && n < |r.states|
    requires r.states[n].status == Running && ModelAction(r.states[n].nextAction)
    ensures BuildActionPayload(r.states[n], r.states[n].nextAction).Ok?
    ensures ActionRole(r.states[n].nextAction) == Some(
      if r.states[n].nextAction in {RequestReviewerContract, RequestReviewerPlanVerdict, RequestReviewerResultVerdict}
      then Reviewer else Primary)
    ensures ValidRequest(ActionRole(r.states[n].nextAction).value, r.states[n].nextAction, r.states[n],
      BuildActionPayload(r.states[n], r.states[n].nextAction).value)
    ensures r.states[n].nextAction == RequestReviewerPlanVerdict ==>
      GetString(BuildActionPayload(r.states[n], r.states[n].nextAction).value, "plan_hash")
        == r.states[n].plan.hash
    ensures r.states[n].nextAction in {RequestPrimaryIntegration, RequestReviewerResultVerdict} ==>
      && SendsContracts(r.states[n], BuildActionPayload(r.states[n], r.states[n].nextAction).value)
      && SendsApprovedPlan(r.states[n], BuildActionPayload(r.states[n], r.states[n].nextAction).value)
    ensures r.states[n].nextAction == RequestPrimaryIntegration ==>
      SendsApproval(r.states[n], BuildActionPayload(r.states[n], r.states[n].nextAction).value)
  {
    hide Inv, Step, Live, SendsContracts, SendsApprovedPlan, SendsApproval, PlanPayload,
      PlanVerdictPayload, IntegrationPayload, VerificationPayload, ResultVerdictPayload;
    var s := r.states[n];
    RunKeeps(r, n);
    OnlyLiveIsDriven(s);
    if s.nextAction in {RequestPrimaryPlan, RequestReviewerPlanVerdict} {
      PlanningCanBeAsked(s);
    } else if s.nextAction == RequestPrimaryIntegration {
      IntegrationCanBeAsked(s);
    } else if s.nextAction == RequestPrimaryVerification {
      VerificationCanBeAsked(s);
    } else if s.nextAction == RequestReviewerResultVerdict {
      ResultVerdictCanBeAsked(s);
    }
  }
}
