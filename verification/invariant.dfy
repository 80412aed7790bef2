/** The inductive invariant of a run: what every reachable state satisfies. */
module Invariant {
  import opened Wrappers
  import opened Text
  import opened Json
  import opened Canonical
  import opened RunTypes
  import opened Protocol
  import opened Machine
  import opened Retries

  const STATE_ROOT: string

  /** Where the clone of one integration result is verified. */
  function VerificationPath(runId: string, sha: string): string {
    STATE_ROOT + "/verification/" + runId + "-" + sha
  }

  predicate PlanShape(plan: Value) {
    && plan.Object?
    && IsObjectField(plan, "primary_contract")
    && IsObjectField(plan, "reviewer_contract")
    && IsObjectField(plan, "plan")
    && GetArray(plan, "coverage_matrix").Some?
    && GetArray(plan, "test_commands").Some?
  }

  /** A recorded contract is an object and comes with its hash. */
  predicate ContractFits(contract: Option<Value>, hash: Option<string>) {
    match contract
    case Some(c) => c.Object? && hash == Some(CanonicalHash(c))
    case None => hash.None?
  }

  /** Approval binds the current plan by its hash, and the plan comes with its contracts. */
  predicate PlanFits(p: Plan) {
    && p.payload.Some? == p.hash.Some?
    && (p.payload.Some? ==>
        && PlanShape(p.payload.value)
        && p.hash == Some(CanonicalHash(p.payload.value))
        && p.revision.Some?)
    && p.approved == p.approval.Some?
    && (p.approved ==>
        p.payload.Some? && GetString(p.approval.value, "approved_plan_hash") == p.hash)
    && ContractFits(p.primaryContract, p.primaryContractHash)
    && ContractFits(p.reviewerContract, p.reviewerContractHash)
    && (p.revision.Some? ==> p.primaryContract.Some? && p.reviewerContract.Some?)
  }

  /** Evidence, approval and workspace all belong to the current integration SHA. */
  predicate ResultFits(r: Integration, policy: Policy, runId: string) {
    && r.branch.Some? == r.sha.Some? == r.payload.Some?
    && (r.sha.Some? ==>
        r.payload.value.Object? && (policy.targetBranch.Some? ==> r.branch == policy.targetBranch))
    && (r.sha.None? ==> r.workspace.None? && r.evidence == [] && r.approvedSha.None?)
    && (r.evidence != [] ==> Complete(policy.requiredTests, r.evidence))
    && (r.approvedSha.Some? ==> r.approvedSha == r.sha && r.evidence != [] && Passing(r.evidence))
    && (r.workspace.Some? ==> r.workspace.value == VerificationPath(runId, r.sha.value))
  }

  predicate Common(s: State) {
    && s.limits.schemaVersion == RUN_STATE_SCHEMA_VERSION
    && 1 <= s.round <= s.limits.maxRounds
    && 1 <= s.limits.noProgressRounds <= 255
    && DistinctNonblank(s.policy.requiredTests)
    && PlanFits(s.plan)
    && ResultFits(s.result, s.policy, s.facts.runId)
    && (s.plan.revision.Some? ==>
        s.policy.requiredTests != [] && 1 <= s.plan.revision.value <= s.limits.maxRounds)
    && (s.result.sha.Some? ==> s.plan.approved)
    && (s.review.streak == 0) == s.review.fingerprint.None?
  }

  /** Each round has its own plan revision, and every later one answers the feedback on the last. */
  predicate PlanIsUnderReview(s: State) {
    && s.plan.revision == Some(s.round)
    && !s.plan.approved
    && (s.round > 1 ==> s.plan.feedback.Some?)
  }

  /** What the pending action alone says about the rest of the state. */
  predicate ActionFits(s: State) {
    match s.nextAction
    case RequestPrimaryContract =>
      && s.round == 1
      && s.plan.revision.None?
      && s.review.fingerprint.None?
      && (s.policy.targetBranch.None? ==> s.policy.requiredTests == [])
    case RequestReviewerContract =>
      && s.round == 1
      && s.plan.revision.None?
      && s.review.fingerprint.None?
      && s.plan.primaryContract.Some?
      && s.policy.requiredTests != []
    case RequestPrimaryPlan =>
      PlanIsUnderReview(s)
    case RequestReviewerPlanVerdict =>
      PlanIsUnderReview(s) && s.plan.payload.Some?
    case RequestPrimaryIntegration =>
      && s.plan.approved
      && (s.result.sha.Some? ==>
          s.result.evidence != [] && s.round > 1 && s.result.approvedSha.None? && s.result.feedback.Some?)
    case RequestPrimaryVerification =>
      s.result.sha.Some? && s.result.evidence == []
    case RequestReviewerResultVerdict =>
      s.result.sha.Some? && s.result.evidence != [] && Passing(s.result.evidence) && s.result.approvedSha.None?
    case RevalidateAndAccept =>
      s.result.sha.Some? && s.result.approvedSha == s.result.sha
    case WaitForUser => false
    case Stop => false
  }

  /** A state in which an action is pending. */
  predicate Live(s: State) {
    && Common(s)
    && s.status in {Running, WaitingThread, PausedUserAction}
    && s.phase == PhaseOf(s.nextAction)
    && s.acceptedResult.None?
    && s.review.streak < s.limits.noProgressRounds
    && ActionFits(s)
    && (s.status != PausedUserAction ==> s.reasonCode.None? && s.lastError.None?)
  }

  /** The run was blocked while `action` was pending. */
  predicate BlockedIn(s: State, action: NextAction) {
    && Live(Unblocked(s, action))
    && (s.lastError.Some? ==> s.lastError.value.action == action)
  }

  predicate Halted(s: State) {
    s.phase == BlockedPhase && s.nextAction == Stop && s.reasonCode.Some? && s.acceptedResult.None?
  }

  /** Blocked by the round limit or the no-progress detector: no retry is offered. */
  predicate OutOfRounds(s: State) {
    && Common(s)
    && s.status == Blocked
    && Halted(s)
    && s.reasonCode.value in {"NO_PROGRESS", "ROUND_LIMIT"}
  }

  predicate BlockedInAction(s: State) {
    s.status == Blocked && Halted(s) && exists action :: BlockedIn(s, action)
  }

  predicate Ended(s: State) {
    && Common(s)
    && match s.status
      case Accepted => Persistable(s)
      case Cancelled =>
        s.phase == CancelledPhase && s.nextAction == Stop && s.acceptedResult.None?
      case IncompatibleCodex => Halted(s)
      case _ => false
  }

  predicate Inv(s: State) {
    Live(s) || OutOfRounds(s) || BlockedInAction(s) || Ended(s)
  }

  lemma InitialInv(facts: Facts)
    ensures Inv(Initial(facts))
  {
  }

  /** A reachable state can always be persisted and loaded again. */
  lemma InvIsPersistable(s: State)
    requires Inv(s)
    ensures Persistable(s)
  {
  }

  // ----- frozen test commands

  predicate TrimmedNonblank(commands: seq<string>) {
    forall i | 0 <= i < |commands| :: Trimmed(commands[i]) && commands[i] != ""
  }

  lemma AppendKeepsDistinct(required: seq<string>, c: string)
    requires DistinctNonblank(required) && Trimmed(c) && c != ""
    ensures DistinctNonblank(if c in required then required else required + [c])
  {
    hide TrimStart, TrimEnd;
    TrimIsProjection(c);
  }

  /** Freezing only ever appends, keeps the commands distinct, and adds exactly the new ones. */
  lemma {:induction false} FreezeExtends(required: seq<string>, commands: seq<string>)
    requires DistinctNonblank(required) && TrimmedNonblank(commands)
    ensures DistinctNonblank(FreezeTests(required, commands))
    ensures required <= FreezeTests(required, commands)
    ensures forall c :: c in FreezeTests(required, commands) <==> c in required || c in commands
    decreases commands
  {
    hide DistinctNonblank, Trimmed;
    if commands != [] {
      var c := commands[0];
      var next := if c in required then required else required + [c];
      AppendKeepsDistinct(required, c);
      assert TrimmedNonblank(commands[1..]);
      FreezeExtends(next, commands[1..]);
      assert commands == [c] + commands[1..];
    }
  }

  lemma StringArrayFieldIsTrimmed(v: Value, field: string)
    requires StringArrayField(v, field).Ok?
    ensures TrimmedNonblank(StringArrayField(v, field).value)
    ensures StringArrayField(v, field).value != []
  {
    var values := GetArray(v, field).value;
    forall i | 0 <= i < |values|
      ensures Trimmed(Trim(values[i].s)) && Trim(values[i].s) != ""
    {
      TrimIsProjection(values[i].s);
    }
  }

  // ----- each operation keeps the invariant, under any valid message

  lemma ConfiguredTestsAreDistinct(commands: seq<string>)
    requires forall i | 0 <= i < |commands| :: !Blank(commands[i])
    ensures DistinctNonblank(FreezeTests([], TrimAll(commands)))
  {
    forall i | 0 <= i < |commands|
      ensures Trimmed(TrimAll(commands)[i]) && TrimAll(commands)[i] != ""
    {
      TrimIsProjection(commands[i]);
    }
    FreezeExtends([], TrimAll(commands));
  }

  lemma ConfigureKeeps(s: State, branch: string, commands: seq<string>)
    requires Live(s) && ConfigureIntegration(s, branch, commands).Ok?
    ensures Live(ConfigureIntegration(s, branch, commands).value)
  {
    hide FreezeTests, DistinctNonblank, TrimAll, PlanShape, Complete, Passing;
    ConfiguredTestsAreDistinct(commands);
  }

  lemma ContractKeeps(s: State, m: Message)
    requires Live(s) && s.status == Running && ApplyContract(s, m).Ok?
    requires IsObjectField(m.payload, "contract")
    ensures Live(ApplyContract(s, m).value)
  {
    var contract := Get(m.payload, "contract").value;
    StringArrayFieldIsTrimmed(contract, "tests");
    var tests := StringArrayField(contract, "tests").value;
    FreezeExtends(s.policy.requiredTests, tests);
    assert tests[0] in FreezeTests(s.policy.requiredTests, tests);
  }

  lemma PlanKeeps(s: State, m: Message)
    requires Live(s) && s.status == Running && ApplyPlan(s, m).Ok?
    requires PlanShape(m.payload)
    ensures Live(ApplyPlan(s, m).value)
  {
    StringArrayFieldIsTrimmed(m.payload, "test_commands");
    FreezeExtends(s.policy.requiredTests, StringArrayField(m.payload, "test_commands").value);
  }

  lemma PlanApprovalKeeps(s: State, m: Message)
    requires Live(s) && s.status == Running && ApplyPlanApproval(s, m).Ok?
    ensures Live(ApplyPlanApproval(s, m).value)
  {
    hide PlanShape, DistinctNonblank, Complete, CanonicalHash;
  }

  lemma IntegrationResultKeeps(s: State, m: Message)
    requires Live(s) && s.status == Running && s.phase == Integrate
    requires m.payload.Object? && ApplyIntegration(s, m).Ok?
    ensures Live(ApplyIntegration(s, m).value)
  {
    hide PlanFits, DistinctNonblank, CanonicalHash;
  }

  lemma VerificationKeeps(s: State, m: Message)
    requires Live(s) && s.status == Running && s.phase == Verify
    requires m.payload.Object? && ApplyVerification(s, m).Ok?
    ensures var next := ApplyVerification(s, m).value;
      if next.status == Running then Live(next) else OutOfRounds(next)
  {
    VerifiedIsCommon(s, m);
    if ApplyVerification(s, m).value.status == Running {
      VerifiedIsLive(s, m);
    }
  }

  lemma VerifiedIsCommon(s: State, m: Message)
    requires Live(s) && s.status == Running && s.phase == Verify
    requires m.payload.Object? && ApplyVerification(s, m).Ok?
    ensures Common(ApplyVerification(s, m).value)
  {
    hide Complete, PlanShape, DistinctNonblank, CanonicalHash, ParseEvidence;
  }

  lemma VerifiedIsLive(s: State, m: Message)
    requires Live(s) && s.status == Running && s.phase == Verify
    requires ApplyVerification(s, m).Ok? && ApplyVerification(s, m).value.status == Running
    requires Common(ApplyVerification(s, m).value)
    ensures Live(ApplyVerification(s, m).value)
  {
    hide PlanShape, DistinctNonblank, CanonicalHash, ParseEvidence;
  }

  lemma ResultApprovalKeeps(s: State, m: Message)
    requires Live(s) && s.status == Running && ApplyResultApproval(s, m).Ok?
    ensures Live(ApplyResultApproval(s, m).value)
  {
    hide PlanFits, DistinctNonblank, Complete;
  }

  lemma ChangesKeep(s: State, m: Message)
    requires Live(s) && s.status == Running && ApplyChangesRequired(s, m).Ok?
    ensures var next := ApplyChangesRequired(s, m).value;
      if next.status == Running then Live(next) else OutOfRounds(next)
  {
    ChangesAreCommon(s, m);
    if ApplyChangesRequired(s, m).value.status == Running {
      ChangesAreLive(s, m);
    } else {
      ChangesRunOut(s, m);
    }
  }

  lemma ChangesRunOut(s: State, m: Message)
    requires Live(s) && s.status == Running && ApplyChangesRequired(s, m).Ok?
    requires ApplyChangesRequired(s, m).value.status != Running
    requires Common(ApplyChangesRequired(s, m).value)
    ensures OutOfRounds(ApplyChangesRequired(s, m).value)
  {
    hide Common, Fingerprint;
  }

  lemma ChangesAreCommon(s: State, m: Message)
    requires Live(s) && s.status == Running && ApplyChangesRequired(s, m).Ok?
    ensures Common(ApplyChangesRequired(s, m).value)
  {
    hide Complete, PlanShape, DistinctNonblank, CanonicalHash, Fingerprint;
  }

  lemma ChangesAreLive(s: State, m: Message)
    requires Live(s) && s.status == Running && ApplyChangesRequired(s, m).Ok?
    requires ApplyChangesRequired(s, m).value.status == Running
    requires Common(ApplyChangesRequired(s, m).value)
    ensures Live(ApplyChangesRequired(s, m).value)
  {
    hide PlanShape, DistinctNonblank, CanonicalHash, Fingerprint, Complete;
  }

  lemma BlockKeeps(s: State, reason: string, error: Option<Diagnostic>)
    requires Live(s) && s.status in {Running, WaitingThread}
    requires error.Some? ==> error.value.action == s.nextAction
    ensures BlockedIn(BlockWith(s.(lastError := error), reason), s.nextAction)
    ensures BlockedInAction(BlockWith(s.(lastError := error), reason))
  {
    var blocked := BlockWith(s.(lastError := error), reason);
    var origin := s.(status := Running);
    assert Unblocked(blocked, s.nextAction) == origin;
    assert Live(origin);
    assert BlockedIn(blocked, s.nextAction);
  }

  lemma MessageKeeps(s: State, m: Message)
    requires Live(s) && ApplyMessage(s, m).Ok?
    ensures Inv(ApplyMessage(s, m).value)
  {
    match m.envelope.messageType
    case ContractReady => ContractKeeps(s, m);
    case PlanReady => PlanKeeps(s, m);
    case ChangesRequired => ChangesKeep(s, m);
    case ApprovedPlan => PlanApprovalKeeps(s, m);
    case IntegrationReady =>
      if s.phase == Integrate {
        IntegrationResultKeeps(s, m);
      } else {
        assert ApplyIntegration(s, m) == ApplyVerification(s, m);
        VerificationKeeps(s, m);
      }
    case ApprovedResult => ResultApprovalKeeps(s, m);
    case BlockedMessage =>
      assert s.(lastError := None) == s;
      BlockKeeps(s, m.envelope.reasonCode.value, None);
  }
}
