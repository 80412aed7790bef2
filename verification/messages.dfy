/** Which messages a run accepts, where they lead, and how a stale one is refused. */
module Messages {
  import opened Wrappers
  import opened Text
  import opened Json
  import opened Canonical
  import opened RunTypes
  import opened Protocol
  import opened Machine
  import opened Invariant
  import opened Recovery

  // ----- which messages are accepted

  predicate IsOfRun(s: State, m: Message) {
    && m.envelope.runId == s.facts.runId
    && m.envelope.primarySha == s.facts.primarySha
    && m.envelope.reviewerSha == s.facts.reviewerSha
  }

  predicate IsOfRound(s: State, m: Message) {
    m.envelope.round == s.round && m.envelope.planRevision == s.plan.revision
  }

  predicate IsOfResult(s: State, m: Message) {
    m.envelope.branch == s.result.branch && m.envelope.sha == s.result.sha
  }

  /** A report of work that is not itself tested: a new commit, without evidence of its own. */
  predicate ReportsNewCommit(s: State, m: Message) {
    && m.envelope.phase == Integrate
    && m.envelope.sha != s.result.sha
    && GetArray(m.payload, "test_evidence") in {None, Some([])}
  }

  /** Evidence for the commit on record: each frozen command exactly once. */
  predicate ReportsEvidence(s: State, m: Message) {
    && m.envelope.phase == Verify
    && IsOfResult(s, m)
    && ParseEvidence(m.payload).Ok?
    && Complete(s.policy.requiredTests, ParseEvidence(m.payload).value)
  }

  /** The message answers the pending action, or is one that its phase admits. */
  predicate IsExpected(s: State, m: Message) {
    var action := s.nextAction;
    match m.envelope.messageType
    case ContractReady =>
      && action in {RequestPrimaryContract, RequestReviewerContract}
      && m.envelope.round == 1
      && Get(m.payload, "role") in {None,
           Some(String(if action == RequestPrimaryContract then "PRIMARY" else "REVIEWER"))}
    case PlanReady =>
      action == RequestPrimaryPlan && IsOfRound(s, m)
    case ApprovedPlan =>
      && action in {RequestPrimaryPlan, RequestReviewerPlanVerdict}
      && IsOfRound(s, m)
      && s.plan.payload.Some?
      && GetString(m.payload, "approved_plan_hash") == Some(CanonicalHash(s.plan.payload.value))
    case IntegrationReady =>
      && IsOfRound(s, m)
      && s.policy.targetBranch in {None, m.envelope.branch}
      && (if action == RequestPrimaryIntegration then ReportsNewCommit(s, m)
          else action == RequestPrimaryVerification && ReportsEvidence(s, m))
    case ApprovedResult =>
      && action in {RequestReviewerResultVerdict, RevalidateAndAccept}
      && IsOfRound(s, m)
      && IsOfResult(s, m)
    case ChangesRequired =>
      && action in {RequestPrimaryPlan, RequestReviewerPlanVerdict, RequestReviewerResultVerdict,
                    RevalidateAndAccept}
      && IsOfRound(s, m)
      && (action in {RequestReviewerResultVerdict, RevalidateAndAccept} ==> IsOfResult(s, m))
    case BlockedMessage =>
      m.envelope.phase == s.phase && IsOfRound(s, m) && IsOfResult(s, m)
  }

  // ----- where they lead

  /** The diagram of the protocol: the action that is pending next, or why the run is blocked. */
  predicate LeadsTo(s: State, m: Message, next: State) {
    match m.envelope.messageType
    case ContractReady =>
      Pends(next, if s.nextAction == RequestPrimaryContract then RequestReviewerContract else RequestPrimaryPlan)
    case PlanReady => Pends(next, RequestReviewerPlanVerdict)
    case ApprovedPlan => Pends(next, RequestPrimaryIntegration)
    case IntegrationReady =>
      if s.nextAction == RequestPrimaryIntegration then Pends(next, RequestPrimaryVerification)
      else if forall e | e in Reported(m.payload) :: e.exitCode == 0
      then Pends(next, RequestReviewerResultVerdict)
      else if s.round < s.limits.maxRounds then Pends(next, RequestPrimaryIntegration)
      else BlocksFor(next, "ROUND_LIMIT")
    case ApprovedResult => Pends(next, RevalidateAndAccept)
    case ChangesRequired =>
      || BlocksFor(next, "NO_PROGRESS")
      || (s.round == s.limits.maxRounds && BlocksFor(next, "ROUND_LIMIT"))
      || (s.round < s.limits.maxRounds
          && Pends(next, if s.phase == PlanReview then RequestPrimaryPlan else RequestPrimaryIntegration))
    case BlockedMessage =>
      m.envelope.reasonCode.Some? && BlocksFor(next, m.envelope.reasonCode.value)
  }

  function Reported(payload: Value): seq<Evidence> {
    match ParseEvidence(payload)
    case Ok(evidence) => evidence
    case Err(_) => []
  }

  predicate Pends(next: State, action: NextAction) {
    next.status == Running && next.nextAction == action
  }

  predicate BlocksFor(next: State, reason: string) {
    next.status == Blocked && next.nextAction == Stop && next.reasonCode == Some(reason)
  }

  // ----- one kind of message at a time

  lemma ContractIsAccepted(s: State, m: Message)
    requires Live(s) && Valid(m) && m.envelope.messageType == ContractReady
    ensures ApplyContract(s, m).Ok? <==> IsExpected(s, m)
    ensures ApplyContract(s, m).Ok? && s.status == Running ==> LeadsTo(s, m, ApplyContract(s, m).value)
  {
    hide SchemaAccepts, CanonicalHash, FreezeTests, PlanFits, ResultFits, ActionFits;
    var contract := Get(m.payload, "contract");
    assert NonemptyStringArray(contract.value, "tests") == StringArrayField(contract.value, "tests").Ok? by {
      FieldIsRead(contract.value, "tests");
    }
  }

  lemma FieldIsRead(v: Value, field: string)
    ensures NonemptyStringArray(v, field) == StringArrayField(v, field).Ok?
  {
    hide Blank;
  }

  lemma PlanIsAccepted(s: State, m: Message)
    requires Live(s) && s.status == Running && Valid(m) && m.envelope.messageType == PlanReady
    ensures ApplyPlan(s, m).Ok? <==> IsExpected(s, m)
    ensures ApplyPlan(s, m).Ok? ==> LeadsTo(s, m, ApplyPlan(s, m).value)
  {
    hide CanonicalHash, FreezeTests, PlanFits, ResultFits, ActionFits, NonemptyStringArray, StringArrayField,
      IsRunId, IsSha;
    FieldIsRead(m.payload, "test_commands");
    ArrayIsThere(m.payload, "test_commands");
  }

  lemma ArrayIsThere(v: Value, field: string)
    ensures NonemptyStringArray(v, field) ==> Get(v, field).Some?
  {
  }

  lemma PlanApprovalIsAccepted(s: State, m: Message)
    requires Live(s) && s.status == Running && Valid(m) && m.envelope.messageType == ApprovedPlan
    ensures ApplyPlanApproval(s, m).Ok? <==> IsExpected(s, m)
    ensures ApplyPlanApproval(s, m).Ok? ==> LeadsTo(s, m, ApplyPlanApproval(s, m).value)
  {
    hide SchemaAccepts, CanonicalHash, PlanShape, ResultFits, ActionFits, DistinctNonblank;
  }

  lemma IntegrationIsAccepted(s: State, m: Message)
    requires Live(s) && s.status == Running && Valid(m) && m.envelope.messageType == IntegrationReady
    ensures ApplyIntegration(s, m).Ok? <==> IsExpected(s, m)
    ensures ApplyIntegration(s, m).Ok? ==> LeadsTo(s, m, ApplyIntegration(s, m).value)
  {
    hide SchemaAccepts, CanonicalHash, PlanFits, ResultFits, ParseEvidence, Complete, MachineFeedback,
      DistinctNonblank;
  }

  lemma ResultApprovalIsAccepted(s: State, m: Message)
    requires Live(s) && s.status == Running && Valid(m) && m.envelope.messageType == ApprovedResult
    ensures ApplyResultApproval(s, m).Ok? <==> IsExpected(s, m)
    ensures ApplyResultApproval(s, m).Ok? ==> LeadsTo(s, m, ApplyResultApproval(s, m).value)
  {
    hide Valid, PlanFits, ResultFits, ActionFits;
  }

  lemma ChangesAreAccepted(s: State, m: Message)
    requires Live(s) && s.status == Running && m.envelope.messageType == ChangesRequired
    ensures ApplyChangesRequired(s, m).Ok? <==> IsExpected(s, m)
    ensures ApplyChangesRequired(s, m).Ok? ==> LeadsTo(s, m, ApplyChangesRequired(s, m).value)
  {
    hide Fingerprint, CountReview, PlanFits, ResultFits, ActionFits, DistinctNonblank;
  }

  lemma RefusalIsAccepted(s: State, m: Message)
    requires Live(s) && m.envelope.messageType == BlockedMessage
    ensures VerifyBlockedEnvelope(s, m).Pass? <==> IsExpected(s, m)
  {
    hide PlanFits, ActionFits, DistinctNonblank, Complete, Passing;
  }

  /** In a live running state a message is accepted exactly if it is valid, of this run and expected, and
      it leads where the diagram says. */
  lemma AcceptsExactly(s: State, m: Message)
    requires Live(s) && s.status == Running
    ensures ApplyMessage(s, m).Ok? <==> Valid(m) && IsOfRun(s, m) && IsExpected(s, m)
    ensures ApplyMessage(s, m).Ok? ==> LeadsTo(s, m, ApplyMessage(s, m).value)
  {
    hide Live, SchemaAccepts, VerifyBlockedEnvelope, ApplyContract, ApplyPlan, ApplyPlanApproval,
      ApplyIntegration, ApplyResultApproval, ApplyChangesRequired, IsExpected, ParseEvidence, LeadsTo;
    if Valid(m) && IsOfRun(s, m) {
      match m.envelope.messageType
      case ContractReady => ContractIsAccepted(s, m);
      case PlanReady => PlanIsAccepted(s, m);
      case ApprovedPlan => PlanApprovalIsAccepted(s, m);
      case IntegrationReady => IntegrationIsAccepted(s, m);
      case ApprovedResult => ResultApprovalIsAccepted(s, m);
      case ChangesRequired => ChangesAreAccepted(s, m);
      case BlockedMessage =>
        RefusalIsAccepted(s, m);
        RefusalLeads(s, m);
    }
  }

  lemma RefusalLeads(s: State, m: Message)
    requires m.envelope.messageType == BlockedMessage && HasReason(m.envelope)
    ensures LeadsTo(s, m, BlockWith(s, m.envelope.reasonCode.value))
  {
  }

  // ----- what an accepted message carries

  predicate ApprovesAll(s: State, payload: Value) {
    && s.plan.revision.Some? && 0 < s.plan.revision.value
    && Get(payload, "approved_plan_revision") == Some(Number(s.plan.revision.value))
    && GetString(payload, "approved_primary_sha") == Some(s.facts.primarySha)
    && GetString(payload, "approved_reviewer_sha") == Some(s.facts.reviewerSha)
    && Get(payload, "uncovered_items") == Some(Array([]))
  }

  /** What later steps can rely on. */
  predicate IsWhole(s: State, m: Message) {
    var e, p := m.envelope, m.payload;
    && e.protocol == "worktree-merge-consensus/v1"
    && p.Object?
    && match e.messageType
      case ContractReady =>
        && e.phase == s.phase && e.branch.None? && e.sha.None?
        && IsObjectField(p, "contract")
        && NonemptyStringArray(Get(p, "contract").value, "tests")
      case PlanReady =>
        && e.phase == s.phase && e.branch.None? && e.sha.None?
        && s.plan.revision.Some? && 0 < s.plan.revision.value
        && IsObjectField(p, "primary_contract") && IsObjectField(p, "reviewer_contract")
        && IsObjectField(p, "plan") && GetArray(p, "coverage_matrix").Some?
        && NonemptyStringArray(p, "test_commands")
      case ApprovedPlan =>
        && e.phase == s.phase && e.branch.None? && e.sha.None?
        && ApprovesAll(s, p)
        && GetString(p, "approved_plan_hash").Some? && IsHex(GetString(p, "approved_plan_hash").value, 64)
      case IntegrationReady =>
        && e.phase == s.phase
        && e.branch.Some? && e.branch.value != ""
        && e.sha.Some? && IsSha(e.sha.value)
      case ApprovedResult =>
        && e.phase == s.phase
        && ApprovesAll(s, p)
        && GetString(p, "approved_integration_branch") == s.result.branch
        && GetString(p, "approved_integration_sha") == s.result.sha
      case ChangesRequired =>
        && e.phase in {PlanReview, ResultReview}
        && (e.phase == ResultReview ==> e.branch.Some? && e.sha.Some?)
        && (e.phase == PlanReview ==> e.branch.None? && e.sha.None?)
        && s.plan.revision.Some? && 0 < s.plan.revision.value
        && e.reasonCode.Some? && e.reasonCode.value != ""
      case BlockedMessage => e.reasonCode.Some? && e.reasonCode.value != ""
  }

  lemma AcceptedIsWhole(s: State, m: Message)
    requires Live(s) && s.status == Running && ApplyMessage(s, m).Ok?
    ensures IsWhole(s, m)
  {
    hide Live, IsRunId, IsSha, IsHex, NonemptyStringArray, CanonicalHash, ApplyMessage, ParseEvidence, Complete;
    AcceptsExactly(s, m);
    RunningIsClean(s);
    var kind := m.envelope.messageType;
    assert kind in {ContractReady, PlanReady, ApprovedPlan} ==> IsWhole(s, m);
    assert kind == IntegrationReady ==> IsWhole(s, m);
    assert kind == ApprovedResult ==> IsWhole(s, m);
    assert kind == ChangesRequired ==> IsWhole(s, m);
  }

  // ----- the end

  /** Revalidation accepts an approved result, whenever it is pending, and freezes what was verified. */
  lemma RevalidatesExactly(s: State)
    requires Live(s)
    ensures AcceptAfterRevalidation(s).Ok? <==> s.status == Running && s.nextAction == RevalidateAndAccept
    ensures AcceptAfterRevalidation(s).Ok? ==>
      var next := AcceptAfterRevalidation(s).value;
      && next.status == Accepted && next.nextAction == Stop && next.result == s.result && next.plan == s.plan
      && s.result.branch.Some? && s.result.sha.Some?
      && next.acceptedResult == Some(AcceptedResult(s.result.branch.value, s.result.sha.value,
           s.facts.primarySha, s.facts.reviewerSha, s.result.evidence))
  {
    hide PlanFits, DistinctNonblank;
  }

  // ----- the configuration

  /** A run is configured once, before its first message, with a branch and commands that say something. */
  lemma ConfiguresExactly(s: State, branch: string, commands: seq<string>)
    requires Live(s)
    ensures ConfigureIntegration(s, branch, commands).Ok? <==>
      && s.status == Running
      && s.nextAction == RequestPrimaryContract
      && s.policy.targetBranch.None?
      && !Blank(branch)
      && forall c | c in commands :: !Blank(c)
    ensures ConfigureIntegration(s, branch, commands).Ok? ==>
      var next := ConfigureIntegration(s, branch, commands).value;
      && next.policy.targetBranch == Some(branch)
      && next == s.(policy := next.policy)
  {
    hide Blank, FreezeTests, TrimAll, PlanFits, ResultFits, ActionFits;
    assert (forall c | c in commands :: !Blank(c)) <==> forall i | 0 <= i < |commands| :: !Blank(commands[i]) by {
      assert forall i | 0 <= i < |commands| :: commands[i] in commands;
    }
  }

  // ----- pausing, waiting and going on

  /** A run is paused while it is driven, resumed while it is paused, waits while it runs, and runs again
      when its thread is idle; nothing else changes but the reason and, on resuming, the last error. */
  lemma StatusMoves(s: State, reason: string)
    ensures Pause(s, reason) == (
      if s.status == Running || s.status == WaitingThread
      then Ok(s.(status := PausedUserAction, reasonCode := Some(reason))) else Err(RunNotActive))
    ensures Resume(s) == (
      if s.status == PausedUserAction then Ok(s.(status := Running, reasonCode := None, lastError := None))
      else Err(NotPaused))
    ensures WaitForThread(s) == (
      if s.status == Running then Ok(s.(status := WaitingThread)) else Err(RunNotActive))
    ensures ThreadBecameIdle(s) == (
      if s.status == WaitingThread then Ok(s.(status := Running)) else Err(NotWaitingThread))
    ensures Pause(s, reason).Ok? ==>
      Resume(Pause(s, reason).value) == Ok(s.(status := Running, reasonCode := None, lastError := None))
    ensures WaitForThread(s).Ok? ==> ThreadBecameIdle(WaitForThread(s).value) == Ok(s)
  {
  }

  // ----- how a stale message is refused

  /** An otherwise acceptable message that is stale in one respect is refused for that respect. */
  lemma StaleIsNamed(s: State, m: Message, stale: Message)
    requires Live(s) && ApplyMessage(s, m).Ok? && Valid(stale) && stale.payload == m.payload
    ensures (exists id :: id != s.facts.runId && stale.envelope == m.envelope.(runId := id)) ==>
      ApplyMessage(s, stale) == Err(StaleRunId)
    ensures (exists sha :: sha != s.facts.primarySha && stale.envelope == m.envelope.(primarySha := sha)) ==>
      ApplyMessage(s, stale) == Err(StalePrimarySha)
    ensures (exists sha :: sha != s.facts.reviewerSha && stale.envelope == m.envelope.(reviewerSha := sha)) ==>
      ApplyMessage(s, stale) == Err(StaleReviewerSha)
    ensures (exists n :: n != m.envelope.round && stale.envelope == m.envelope.(round := n)) ==>
      ApplyMessage(s, stale) == Err(StaleRound)
    ensures m.envelope.messageType != ContractReady ==>
      (exists n :: n != m.envelope.planRevision && stale.envelope == m.envelope.(planRevision := n)) ==>
        ApplyMessage(s, stale) == Err(StalePlanRevision)
  {
    hide Live, Valid, ParseEvidence, Complete, Passing, CountReview, Fingerprint, StringArrayField, FreezeTests;
  }
}
