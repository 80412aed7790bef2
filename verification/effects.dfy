/** What one step can do to the parts of a run that acceptance rests on. */
module Effects {
  import opened Wrappers
  import opened Json
  import opened Canonical
  import opened RunTypes
  import opened Protocol
  import opened Machine
  import opened Retries
  import opened Normalisation
  import opened Invariant
  import opened Steps

  /** The protocol message a step delivers, if it delivers one. */
  function MessageOf(s: State, e: Event): Option<Message> {
    match e
    case Deliver(m) => Some(m)
    case Respond(r, w) =>
      var m := Normalize(s, r, w);
      if m.Ok? then Some(m.value) else None
    case _ => None
  }

  predicate Delivers(s: State, e: Event, messageType: MessageType) {
    MessageOf(s, e).Some? && MessageOf(s, e).value.envelope.messageType == messageType
  }

  /** An approval that names the hash of the plan on the table and both frozen commits. */
  predicate ApprovesPlan(s: State, e: Event) {
    && Delivers(s, e, ApprovedPlan)
    && var payload := MessageOf(s, e).value.payload;
      && s.plan.payload.Some?
      && GetString(payload, "approved_plan_hash") == Some(CanonicalHash(s.plan.payload.value))
      && GetString(payload, "approved_primary_sha") == Some(s.facts.primarySha)
      && GetString(payload, "approved_reviewer_sha") == Some(s.facts.reviewerSha)
      && LeavesNothingOpen(s, payload)
  }

  /** An approval is of the current revision and lists nothing that is not covered. */
  predicate LeavesNothingOpen(s: State, payload: Value) {
    && s.plan.revision.Some?
    && Get(payload, "approved_plan_revision") == Some(Number(s.plan.revision.value))
    && GetArray(payload, "uncovered_items") == Some([])
  }

  /** A report of a new integration commit. */
  predicate ReportsIntegration(s: State, e: Event, sha: Option<string>) {
    && Delivers(s, e, IntegrationReady)
    && s.phase == Integrate
    && MessageOf(s, e).value.envelope.sha == sha
    && s.result.sha != sha
  }

  /** Evidence reported while `sha` is the current commit. */
  predicate ReportsEvidence(s: State, e: Event, sha: Option<string>, evidence: seq<Evidence>) {
    && Delivers(s, e, IntegrationReady)
    && s.phase == Verify
    && sha.Some?
    && s.result.sha == sha
    && MessageOf(s, e).value.envelope.sha == sha
    && ParseEvidence(MessageOf(s, e).value.payload) == Ok(evidence)
    && Complete(s.policy.requiredTests, evidence)
  }

  /** An approval of exactly the current, verified commit of the current branch. */
  predicate ApprovesResult(s: State, e: Event, sha: Option<string>) {
    && Delivers(s, e, ApprovedResult)
    && s.phase == ResultReview
    && s.result.evidence != []
    && s.result.sha == sha
    && var m := MessageOf(s, e).value;
      && m.envelope.sha == sha
      && GetString(m.payload, "approved_integration_sha") == sha
      && GetString(m.payload, "approved_integration_branch") == s.result.branch
      && GetString(m.payload, "approved_primary_sha") == Some(s.facts.primarySha)
      && GetString(m.payload, "approved_reviewer_sha") == Some(s.facts.reviewerSha)
      && LeavesNothingOpen(s, m.payload)
  }

  /** An approved plan stays, with the policy frozen with it. */
  predicate PlanEffect(s: State, e: Event, next: State) {
    if s.plan.approved then next.plan == s.plan && next.policy == s.policy
    else next.plan.approved ==>
      ApprovesPlan(s, e) && next.plan.payload == s.plan.payload && next.policy == s.policy
  }

  predicate ShaEffect(s: State, e: Event, next: State) {
    && (s.result.sha.Some? ==> next.result.sha.Some?)
    && (next.result.sha.Some? ==>
        && s.plan.approved
        && (next.result.sha == s.result.sha || ReportsIntegration(s, e, next.result.sha)))
  }

  predicate EvidenceEffect(s: State, e: Event, next: State) {
    next.result.evidence != [] ==>
      && next.result.sha == s.result.sha
      && (|| next.result.evidence == s.result.evidence
          || ReportsEvidence(s, e, next.result.sha, next.result.evidence))
  }

  predicate ApprovalEffect(s: State, e: Event, next: State) {
    next.result.approvedSha.Some? ==>
      && next.result.sha == s.result.sha
      && next.result.evidence == s.result.evidence
      && (|| next.result.approvedSha == s.result.approvedSha
          || ApprovesResult(s, e, next.result.sha))
  }

  predicate TestsEffect(s: State, next: State) {
    s.policy.requiredTests <= next.policy.requiredTests
  }

  predicate Effect(s: State, e: Event, next: State) {
    && next.facts == s.facts
    && next.limits == s.limits
    && PlanEffect(s, e, next)
    && ShaEffect(s, e, next)
    && EvidenceEffect(s, e, next)
    && ApprovalEffect(s, e, next)
    && TestsEffect(s, next)
  }

  /** Neither the plan, nor the policy, nor the result, nor the review count is touched. */
  predicate Untouched(s: State, next: State) {
    && next.facts == s.facts
    && next.limits == s.limits
    && next.plan == s.plan
    && next.policy == s.policy
    && next.result.(workspace := s.result.workspace) == s.result
    && next.review == s.review
  }

  lemma UntouchedEffect(s: State, e: Event, next: State)
    requires Inv(s) && Untouched(s, next)
    ensures Effect(s, e, next)
  {
    hide Delivers, MessageOf, ReportsIntegration, ReportsEvidence, ApprovesResult, ApprovesPlan;
    InvIsCommon(s);
  }

  /** Before integration there is no result, and before review no approval. */
  predicate Staged(s: State) {
    && (s.result.sha.Some? ==> s.plan.approved)
    && (s.phase in {Contract, PlanReview} ==> s.result.sha.None?)
    && (s.phase in {Contract, PlanReview} ==> !s.plan.approved)
    && (s.result.sha.None? ==> s.result.evidence == [] && s.result.approvedSha.None?)
    && (s.phase == Verify ==> s.result.sha.Some?)
    && (s.phase == ResultReview ==> s.result.evidence != [])
    && (s.phase == Contract && s.nextAction == RequestPrimaryContract && s.policy.targetBranch.None?
        ==> s.policy.requiredTests == [])
  }

  lemma LiveIsStaged(s: State)
    requires Live(s)
    ensures Staged(s)
  {
    hide PlanShape, CanonicalHash, Complete, Passing, DistinctNonblank, VerificationPath;
  }

  lemma ConfigureEffect(s: State, e: Event)
    requires Staged(s) && e.Configure? && ConfigureIntegration(s, e.branch, e.commands).Ok?
    ensures Effect(s, e, ConfigureIntegration(s, e.branch, e.commands).value)
  {
  }

  lemma ContractEffect(s: State, e: Event, m: Message)
    requires Live(s) && Staged(s) && IsObjectField(m.payload, "contract") && ApplyContract(s, m).Ok?
    ensures Effect(s, e, ApplyContract(s, m).value)
  {
    hide Live, MessageOf, Delivers, CanonicalHash;
    assert DistinctNonblank(s.policy.requiredTests) by { TestsAreDistinct(s); }
    var contract := Get(m.payload, "contract").value;
    StringArrayFieldIsTrimmed(contract, "tests");
    FreezeExtends(s.policy.requiredTests, StringArrayField(contract, "tests").value);
  }

  lemma TestsAreDistinct(s: State)
    requires Live(s)
    ensures DistinctNonblank(s.policy.requiredTests)
  {
  }

  lemma PlanReadyEffect(s: State, e: Event, m: Message)
    requires Live(s) && Staged(s) && ApplyPlan(s, m).Ok?
    ensures Effect(s, e, ApplyPlan(s, m).value)
  {
    hide Live, MessageOf, Delivers, CanonicalHash;
    assert DistinctNonblank(s.policy.requiredTests) by { TestsAreDistinct(s); }
    if Get(m.payload, "test_commands").Some? {
      StringArrayFieldIsTrimmed(m.payload, "test_commands");
      FreezeExtends(s.policy.requiredTests, StringArrayField(m.payload, "test_commands").value);
    }
  }

  lemma ChangesEffect(s: State, e: Event, m: Message)
    requires Staged(s) && MessageOf(s, e) == Some(m) && Delivers(s, e, ChangesRequired)
    requires ApplyChangesRequired(s, m).Ok?
    ensures Effect(s, e, ApplyChangesRequired(s, m).value)
  {
    hide MessageOf, Delivers, Fingerprint, CountReview;
  }

  lemma ApprovedPlanEffect(s: State, e: Event, m: Message)
    requires Live(s) && Staged(s) && MessageOf(s, e) == Some(m) && Delivers(s, e, ApprovedPlan)
    requires ApprovalBinds(m) && VerifyImmutableEnvelope(s, m).Pass? && ApplyPlanApproval(s, m).Ok?
    ensures Effect(s, e, ApplyPlanApproval(s, m).value)
  {
    hide Live, MessageOf, Delivers;
    assert s.plan.payload.Some? && s.plan.hash == Some(CanonicalHash(s.plan.payload.value)) by {
      PlanHashFits(s);
    }
    assert ApprovesPlan(s, e);
  }

  lemma PlanHashFits(s: State)
    requires Live(s) && s.plan.hash.Some?
    ensures s.plan.payload.Some? && s.plan.hash == Some(CanonicalHash(s.plan.payload.value))
  {
  }

  lemma IntegrationEffect(s: State, e: Event, m: Message)
    requires Staged(s) && MessageOf(s, e) == Some(m) && Delivers(s, e, IntegrationReady)
    requires s.phase == Integrate && ApplyIntegration(s, m).Ok?
    ensures Effect(s, e, ApplyIntegration(s, m).value)
  {
    hide MessageOf, Delivers;
    assert ReportsIntegration(s, e, m.envelope.sha);
  }

  lemma VerificationEffect(s: State, e: Event, m: Message)
    requires Staged(s) && MessageOf(s, e) == Some(m) && Delivers(s, e, IntegrationReady)
    requires s.phase == Verify && s.plan.approved && ApplyVerification(s, m).Ok?
    ensures Effect(s, e, ApplyVerification(s, m).value)
  {
    hide MessageOf, Delivers, ParseEvidence, Complete, Passing;
    assert ReportsEvidence(s, e, s.result.sha, ApplyVerification(s, m).value.result.evidence);
  }

  lemma ApprovedResultEffect(s: State, e: Event, m: Message)
    requires Staged(s) && MessageOf(s, e) == Some(m) && Delivers(s, e, ApprovedResult)
    requires m.envelope.messageType == ApprovedResult && Valid(m) && VerifyImmutableEnvelope(s, m).Pass?
    requires ApplyResultApproval(s, m).Ok?
    ensures Effect(s, e, ApplyResultApproval(s, m).value)
  {
    hide MessageOf, Delivers;
    assert ApprovesResult(s, e, s.result.sha);
  }

  lemma DeliveryEffect(s: State, e: Event, m: Message)
    requires Inv(s) && MessageOf(s, e) == Some(m) && ApplyMessage(s, m).Ok?
    ensures Effect(s, e, ApplyMessage(s, m).value)
  {
    hide Live, MessageOf, Effect;
    OnlyLiveIsDriven(s);
    LiveIsStaged(s);
    assert Delivers(s, e, m.envelope.messageType);
    match m.envelope.messageType
    case ContractReady => ContractEffect(s, e, m);
    case PlanReady => PlanReadyEffect(s, e, m);
    case ChangesRequired => ChangesEffect(s, e, m);
    case ApprovedPlan => ApprovedPlanEffect(s, e, m);
    case IntegrationReady =>
      if s.phase == Integrate {
        IntegrationEffect(s, e, m);
      } else {
        assert ApplyIntegration(s, m) == ApplyVerification(s, m);
        VerificationEffect(s, e, m);
      }
    case ApprovedResult => ApprovedResultEffect(s, e, m);
    case BlockedMessage => UntouchedEffect(s, e, ApplyMessage(s, m).value);
  }

  /** Every step, under any message, has only these effects. */
  lemma StepEffect(s: State, e: Event)
    requires Inv(s) && Step(s, e).Ok?
    ensures Effect(s, e, Step(s, e).value)
  {
    hide Inv, Live, Persistable, Normalize, ApplyMessage, RetryTarget, Effect;
    match e
    case Configure(_, _) =>
      OnlyLiveIsDriven(s);
      LiveIsStaged(s);
      ConfigureEffect(s, e);
    case Deliver(m) => DeliveryEffect(s, e, m);
    case Respond(r, w) => DeliveryEffect(s, e, Normalize(s, r, w).value);
    case _ => UntouchedEffect(s, e, Step(s, e).value);
  }
}
