/** The run as the program holds it: one object whose methods assign its fields in place. Each
    method is proved against the function that specifies it. */
module RunStates {
  import opened Wrappers
  import opened Text
  import opened Json
  import opened Canonical
  import opened RunTypes
  import opened Protocol
  import opened Machine
  import opened Retries
  import opened Invariant
  import opened Steps

  /** Success leads to the specified state and reports its action; an error changes nothing. */
  predicate Refines(before: State, after: State, r: Result<NextAction>, spec: Result<State>) {
    match spec
    case Ok(next) => after == next && r == Ok(next.nextAction)
    case Err(code) => after == before && r == Err(code)
  }

  class RunState {
    const facts: Facts
    var limits: Limits
    var phase: Phase
    var status: RunStatus
    var nextAction: NextAction
    var round: nat
    var reasonCode: Option<string>
    var lastError: Option<Diagnostic>
    var policy: Policy
    var plan: Plan
    var result: Integration
    var review: Review
    var acceptedResult: Option<AcceptedResult>

    /** The state these fields hold. */
    function View(): State
      reads this
    {
      State(facts, limits, phase, status, nextAction, round, reasonCode, lastError, policy, plan,
            result, review, acceptedResult)
    }

    constructor (facts: Facts)
      ensures View() == Initial(facts)
    {
      this.facts := facts;
      limits := Limits(RUN_STATE_SCHEMA_VERSION, DEFAULT_MAX_REVIEW_ROUNDS, DEFAULT_NO_PROGRESS_ROUNDS);
      phase, status, nextAction, round := Contract, Running, RequestPrimaryContract, 1;
      reasonCode, lastError, acceptedResult := None, None, None;
      policy, plan, result, review := Policy(None, []), NO_PLAN, NO_RESULT, Review(None, 0);
    }

    method ConfigureIntegration(targetBranch: string, testCommands: seq<string>)
      returns (r: Result<NextAction>)
      modifies this`policy
      ensures Refines(old(View()), View(), r,
        Machine.ConfigureIntegration(old(View()), targetBranch, testCommands))
    {
      if status != Running {
        return Err(RunNotActive);
      }
      if phase != Contract || nextAction != RequestPrimaryContract || policy.targetBranch.Some? {
        return Err(PolicyAlreadyFrozen);
      }
      if Blank(targetBranch) {
        return Err(InvalidBranchName);
      }
      if exists i | 0 <= i < |testCommands| :: Blank(testCommands[i]) {
        return Err(InvalidTestCommand);
      }
      var normalizedTests: seq<string> := [];
      ghost var trimmed := TrimAll(testCommands);
      for i := 0 to |testCommands|
        invariant FreezeTests(normalizedTests, trimmed[i..]) == FreezeTests([], trimmed)
      {
        var command := Trim(testCommands[i]);
        assert trimmed[i..][0] == command && trimmed[i..][1..] == trimmed[i + 1..];
        if command !in normalizedTests {
          normalizedTests := normalizedTests + [command];
        }
      }
      policy := policy.(targetBranch := Some(targetBranch), requiredTests := normalizedTests);
      r := Ok(nextAction);
    }

    method FreezeTestCommands(commands: seq<string>)
      modifies this`policy
      ensures policy == old(policy).(
        requiredTests := FreezeTests(old(policy.requiredTests), commands))
    {
      for i := 0 to |commands|
        invariant policy.targetBranch == old(policy.targetBranch)
        invariant FreezeTests(policy.requiredTests, commands[i..])
          == FreezeTests(old(policy.requiredTests), commands)
      {
        assert commands[i..][0] == commands[i] && commands[i..][1..] == commands[i + 1..];
        if commands[i] !in policy.requiredTests {
          policy := policy.(requiredTests := policy.requiredTests + [commands[i]]);
        }
      }
    }

    method Block(reason: string) returns (action: NextAction)
      modifies this`status, this`phase, this`reasonCode, this`nextAction
      ensures View() == BlockWith(old(View()), reason) && action == Stop
    {
      status := Blocked;
      phase := BlockedPhase;
      reasonCode := Some(reason);
      nextAction := Stop;
      action := nextAction;
    }

    method ApplyMessage(m: Message) returns (r: Result<NextAction>)
      modifies this
      ensures Refines(old(View()), View(), r, Machine.ApplyMessage(old(View()), m))
    {
      hide Valid, Machine.ApplyContract, Machine.ApplyPlan, Machine.ApplyChangesRequired,
        Machine.ApplyPlanApproval, Machine.ApplyIntegration, Machine.ApplyResultApproval;
      if status != Running {
        return Err(RunNotActive);
      }
      if !Valid(m) {
        return Err(InvalidResponse);
      }
      if m.envelope.runId != facts.runId {
        return Err(StaleRunId);
      }
      if m.envelope.primarySha != facts.primarySha {
        return Err(StalePrimarySha);
      }
      if m.envelope.reviewerSha != facts.reviewerSha {
        return Err(StaleReviewerSha);
      }
      match m.envelope.messageType
      case ContractReady => r := ApplyContract(m);
      case PlanReady => r := ApplyPlan(m);
      case ChangesRequired => r := ApplyChangesRequired(m);
      case ApprovedPlan => r := ApplyPlanApproval(m);
      case IntegrationReady => r := ApplyIntegration(m);
      case ApprovedResult => r := ApplyResultApproval(m);
      case BlockedMessage => r := ApplyBlocked(m);
    }

    method ApplyBlocked(m: Message) returns (r: Result<NextAction>)
      modifies this
      ensures var s := old(View());
        Refines(s, View(), r,
          if VerifyBlockedEnvelope(s, m).Fail? then Err(VerifyBlockedEnvelope(s, m).code)
          else Ok(BlockWith(s, if m.envelope.reasonCode.Some? then m.envelope.reasonCode.value
                               else "INVALID_RESPONSE")))
    {
      if m.envelope.phase != phase {
        return Err(WrongPhase);
      }
      if m.envelope.round != round {
        return Err(StaleRound);
      }
      if m.envelope.planRevision != plan.revision {
        return Err(StalePlanRevision);
      }
      if result.sha.Some? {
        if m.envelope.branch != result.branch {
          return Err(StaleIntegrationBranch);
        }
        if m.envelope.sha != result.sha {
          return Err(StaleIntegrationSha);
        }
      } else if m.envelope.branch.Some? || m.envelope.sha.Some? {
        return Err(StaleIntegrationSha);
      }
      var reason := if m.envelope.reasonCode.Some? then m.envelope.reasonCode.value
                    else "INVALID_RESPONSE";
      var action := Block(reason);
      r := Ok(action);
    }

    method ApplyContract(m: Message) returns (r: Result<NextAction>)
      modifies this
      ensures Refines(old(View()), View(), r, Machine.ApplyContract(old(View()), m))
    {
      hide CanonicalHash, StringArrayField, FreezeTests;
      if phase != Contract {
        return Err(WrongPhase);
      }
      if m.envelope.round != 1 {
        return Err(StaleRound);
      }
      if nextAction !in {RequestPrimaryContract, RequestReviewerContract} {
        return Err(UnexpectedMessage);
      }
      var expectedRole := if nextAction == RequestPrimaryContract then "PRIMARY" else "REVIEWER";
      var role := Get(m.payload, "role");
      if role.Some? {
        if !role.value.String? {
          return Err(InvalidResponse);
        }
        if role.value.s != expectedRole {
          return Err(UnexpectedRole);
        }
      }
      var contract := Get(m.payload, "contract");
      if contract.None? {
        return Err(InvalidResponse);
      }
      var tests := StringArrayField(contract.value, "tests");
      if tests.Err? {
        return Err(tests.code);
      }
      if nextAction == RequestPrimaryContract {
        plan := plan.(
          primaryContractHash := Some(CanonicalHash(contract.value)),
          primaryContract := contract);
        FreezeTestCommands(tests.value);
        nextAction := RequestReviewerContract;
      } else {
        plan := plan.(
          reviewerContractHash := Some(CanonicalHash(contract.value)),
          reviewerContract := contract);
        FreezeTestCommands(tests.value);
        phase := PlanReview;
        round := 1;
        plan := plan.(revision := Some(1));
        nextAction := RequestPrimaryPlan;
      }
      r := Ok(nextAction);
    }

    method ApplyPlan(m: Message) returns (r: Result<NextAction>)
      modifies this
      ensures Refines(old(View()), View(), r, Machine.ApplyPlan(old(View()), m))
    {
      hide Machine.RecordPlan;
      if phase != PlanReview {
        return Err(WrongPhase);
      }
      if m.envelope.round != round {
        return Err(StaleRound);
      }
      if m.envelope.planRevision != plan.revision {
        return Err(StalePlanRevision);
      }
      if nextAction != RequestPrimaryPlan {
        return Err(UnexpectedMessage);
      }
      r := RecordPlan(m.payload);
    }

    method RecordPlan(payload: Value) returns (r: Result<NextAction>)
      modifies this
      ensures Refines(old(View()), View(), r, Machine.RecordPlan(old(View()), payload))
    {
      hide CanonicalHash;
      if status != Running {
        return Err(RunNotActive);
      }
      if phase != PlanReview {
        return Err(WrongPhase);
      }
      if !payload.Object? {
        return Err(InvalidResponse);
      }
      if Get(payload, "test_commands").Some? {
        var commands := StringArrayField(payload, "test_commands");
        if commands.Err? {
          return Err(commands.code);
        }
        FreezeTestCommands(commands.value);
      }
      plan := plan.(hash := Some(CanonicalHash(payload)), payload := Some(payload));
      nextAction := RequestReviewerPlanVerdict;
      r := Ok(nextAction);
    }

    /** The approval is recorded before integration is requested, which cannot fail any more. */
    method ApplyPlanApproval(m: Message) returns (r: Result<NextAction>)
      requires status == Running
      modifies this
      ensures Refines(old(View()), View(), r, Machine.ApplyPlanApproval(old(View()), m))
    {
      if phase != PlanReview {
        return Err(WrongPhase);
      }
      if m.envelope.round != round {
        return Err(StaleRound);
      }
      if m.envelope.planRevision != plan.revision {
        return Err(StalePlanRevision);
      }
      if plan.hash.None? {
        return Err(PlanMissing);
      }
      var approvedHash := GetString(m.payload, "approved_plan_hash");
      if approvedHash.None? {
        return Err(InvalidResponse);
      }
      if plan.hash != approvedHash {
        return Err(StalePlanHash);
      }
      plan := plan.(approved := true, approval := Some(m.payload));
      r := RequestIntegration();
    }

    method RequestIntegration() returns (r: Result<NextAction>)
      modifies this`phase, this`nextAction
      ensures Refines(old(View()), View(), r, Machine.RequestIntegration(old(View())))
    {
      if status != Running {
        return Err(RunNotActive);
      }
      if phase != PlanReview {
        return Err(WrongPhase);
      }
      if !plan.approved {
        return Err(PlanNotApproved);
      }
      phase := Integrate;
      nextAction := RequestPrimaryIntegration;
      r := Ok(nextAction);
    }

    method ApplyIntegration(m: Message) returns (r: Result<NextAction>)
      modifies this
      ensures Refines(old(View()), View(), r, Machine.ApplyIntegration(old(View()), m))
    {
      hide ApplyIntegrationResult, Machine.ApplyVerification;
      if phase !in {Integrate, Verify} {
        return Err(WrongPhase);
      }
      if m.envelope.round != round {
        return Err(StaleRound);
      }
      if m.envelope.planRevision != plan.revision {
        return Err(StalePlanRevision);
      }
      if !plan.approved {
        return Err(PlanNotApproved);
      }
      if m.envelope.branch.None? {
        return Err(InvalidResponse);
      }
      if policy.targetBranch.Some? && policy.targetBranch != m.envelope.branch {
        return Err(UnexpectedIntegrationBranch);
      }
      if m.envelope.sha.None? {
        return Err(InvalidResponse);
      }
      if phase == Integrate {
        r := ApplyNewResult(m);
      } else {
        r := ApplyVerification(m);
      }
    }

    method ApplyNewResult(m: Message) returns (r: Result<NextAction>)
      requires phase == Integrate
      modifies this
      ensures Refines(old(View()), View(), r, ApplyIntegrationResult(old(View()), m))
    {
      if m.envelope.phase != Integrate {
        return Err(WrongPhase);
      }
      var selfReported := GetArray(m.payload, "test_evidence");
      if selfReported.Some? && selfReported.value != [] {
        return Err(InvalidResponse);
      }
      if result.sha == m.envelope.sha {
        return Err(StaleIntegrationSha);
      }
      var isInitialResultReview := result.sha.None?;
      result := result.(
        branch := m.envelope.branch,
        sha := m.envelope.sha,
        payload := Some(m.payload),
        evidence := [],
        workspace := None,
        approvedSha := None);
      phase := Verify;
      if isInitialResultReview {
        round := 1;
        review := review.(fingerprint := None, streak := 0);
      }
      nextAction := RequestPrimaryVerification;
      r := Ok(nextAction);
    }

    method ApplyVerification(m: Message) returns (r: Result<NextAction>)
      requires phase == Verify
      modifies this
      ensures Refines(old(View()), View(), r, Machine.ApplyVerification(old(View()), m))
    {
      hide ParseEvidence, Complete;
      if m.envelope.phase != Verify {
        return Err(WrongPhase);
      }
      if m.envelope.branch != result.branch {
        return Err(StaleIntegrationBranch);
      }
      if m.envelope.sha != result.sha {
        return Err(StaleIntegrationSha);
      }
      var evidence := ParseEvidence(m.payload);
      if evidence.Err? {
        return Err(evidence.code);
      }
      if !Complete(policy.requiredTests, evidence.value) {
        return Err(TestFailure);
      }
      if !Passing(evidence.value) {
        result := result.(
          evidence := evidence.value,
          payload := Some(m.payload),
          approvedSha := None,
          feedback := Some(MachineFeedback(m.payload)));
        if round >= limits.maxRounds {
          var action := Block("ROUND_LIMIT");
          return Ok(action);
        }
        round := round + 1;
        phase := Integrate;
        nextAction := RequestPrimaryIntegration;
        return Ok(nextAction);
      }
      result := result.(
        evidence := evidence.value,
        payload := Some(m.payload),
        approvedSha := None);
      phase := ResultReview;
      nextAction := RequestReviewerResultVerdict;
      r := Ok(nextAction);
    }

    method ApplyResultApproval(m: Message) returns (r: Result<NextAction>)
      modifies this
      ensures Refines(old(View()), View(), r, Machine.ApplyResultApproval(old(View()), m))
    {
      if phase != ResultReview {
        return Err(WrongPhase);
      }
      if m.envelope.round != round {
        return Err(StaleRound);
      }
      if m.envelope.planRevision != plan.revision {
        return Err(StalePlanRevision);
      }
      if m.envelope.branch != result.branch {
        return Err(StaleIntegrationBranch);
      }
      if m.envelope.sha != result.sha {
        return Err(StaleIntegrationSha);
      }
      result := result.(approvedSha := m.envelope.sha);
      nextAction := RevalidateAndAccept;
      r := Ok(nextAction);
    }

    method ApplyChangesRequired(m: Message) returns (r: Result<NextAction>)
      modifies this
      ensures Refines(old(View()), View(), r, Machine.ApplyChangesRequired(old(View()), m))
    {
      hide Fingerprint, SaturatingIncrement;
      if phase !in {PlanReview, ResultReview} {
        return Err(WrongPhase);
      }
      if m.envelope.round != round {
        return Err(StaleRound);
      }
      if m.envelope.planRevision != plan.revision {
        return Err(StalePlanRevision);
      }
      if phase == ResultReview {
        if m.envelope.branch != result.branch {
          return Err(StaleIntegrationBranch);
        }
        if m.envelope.sha != result.sha {
          return Err(StaleIntegrationSha);
        }
      }
      var fingerprint := Fingerprint(plan.hash, m.payload);
      if review.fingerprint == Some(fingerprint) {
        review := review.(streak := SaturatingIncrement(review.streak));
      } else {
        review := review.(fingerprint := Some(fingerprint), streak := 1);
      }
      if review.streak >= limits.noProgressRounds {
        var action := Block("NO_PROGRESS");
        return Ok(action);
      }
      if round >= limits.maxRounds {
        var action := Block("ROUND_LIMIT");
        return Ok(action);
      }
      round := round + 1;
      result := result.(approvedSha := None);
      if phase == PlanReview {
        plan := plan.(
          feedback := Some(m.payload),
          revision := if plan.revision.Some? then Some(plan.revision.value + 1) else None,
          approved := false,
          approval := None);
        nextAction := RequestPrimaryPlan;
      } else {
        result := result.(feedback := Some(m.payload));
        phase := Integrate;
        nextAction := RequestPrimaryIntegration;
      }
      r := Ok(nextAction);
    }

    method Pause(reason: string) returns (r: Result<NextAction>)
      modifies this`status, this`reasonCode
      ensures Refines(old(View()), View(), r, Machine.Pause(old(View()), reason))
    {
      if status !in {Running, WaitingThread} {
        return Err(RunNotActive);
      }
      status := PausedUserAction;
      reasonCode := Some(reason);
      r := Ok(nextAction);
    }

    method Resume() returns (r: Result<NextAction>)
      modifies this`status, this`reasonCode, this`lastError
      ensures Refines(old(View()), View(), r, Machine.Resume(old(View())))
    {
      if status != PausedUserAction {
        return Err(NotPaused);
      }
      status := Running;
      reasonCode := None;
      lastError := None;
      r := Ok(nextAction);
    }

    method RecordError(diagnostic: Diagnostic)
      modifies this`lastError
      ensures View() == old(View()).(lastError := Some(diagnostic))
    {
      lastError := Some(diagnostic);
    }

    method WaitForThread() returns (r: Result<NextAction>)
      modifies this`status
      ensures Refines(old(View()), View(), r, Machine.WaitForThread(old(View())))
    {
      if status != Running {
        return Err(RunNotActive);
      }
      status := WaitingThread;
      r := Ok(nextAction);
    }

    method ThreadBecameIdle() returns (r: Result<NextAction>)
      modifies this`status
      ensures Refines(old(View()), View(), r, Machine.ThreadBecameIdle(old(View())))
    {
      if status != WaitingThread {
        return Err(NotWaitingThread);
      }
      status := Running;
      r := Ok(nextAction);
    }

    method Cancel() returns (action: NextAction)
      modifies this`status, this`phase, this`reasonCode, this`nextAction
      ensures View() == Machine.Cancel(old(View())) && action == Stop
    {
      status := Cancelled;
      phase := CancelledPhase;
      reasonCode := None;
      nextAction := Stop;
      action := nextAction;
    }

    method MarkIncompatible(reason: string) returns (action: NextAction)
      modifies this`status, this`phase, this`reasonCode, this`nextAction
      ensures View() == Machine.MarkIncompatible(old(View()), reason) && action == Stop
    {
      status := IncompatibleCodex;
      phase := BlockedPhase;
      reasonCode := Some(reason);
      nextAction := Stop;
      action := nextAction;
    }

    method AcceptAfterRevalidation() returns (r: Result<NextAction>)
      modifies this
      ensures Refines(old(View()), View(), r, Machine.AcceptAfterRevalidation(old(View())))
    {
      if status != Running {
        return Err(RunNotActive);
      }
      if nextAction != RevalidateAndAccept || result.approvedSha != result.sha {
        return Err(ResultNotApproved);
      }
      if !Complete(policy.requiredTests, result.evidence) || !Passing(result.evidence) {
        return Err(TestFailure);
      }
      if result.branch.None? || result.sha.None? {
        return Err(InvalidState);
      }
      var accepted := AcceptedResult(result.branch.value, result.sha.value,
        facts.primarySha, facts.reviewerSha, result.evidence);
      status := Accepted;
      phase := AcceptedPhase;
      reasonCode := None;
      nextAction := Stop;
      acceptedResult := Some(accepted);
      r := Ok(nextAction);
    }

    /** All thirteen retries: the guards differ, the assignments are the same. The state is validated
        only after it has been assigned; for a reachable state the validation never fails, so the
        retry is atomic. */
    method RetryBlocked(kind: Retry) returns (r: Result<NextAction>)
      modifies this`status, this`phase, this`nextAction, this`reasonCode, this`lastError
      ensures var s, target := old(View()), RetryTarget(kind, old(View()));
        match target
        case Err(code) => View() == s && r == Err(code)
        case Ok(action) =>
          && View() == Unblocked(s, action)
          && r == if Persistable(View()) then Ok(action) else Err(IncompatibleState)
      ensures Inv(old(View())) ==> Refines(old(View()), View(), r, ApplyRetry(kind, old(View())))
      ensures Inv(old(View())) && r.Ok? ==> Live(View())
    {
      hide RetryTarget, Inv, Live;
      var target := RetryTarget(kind, View());
      if target.Err? {
        return Err(target.code);
      }
      status := Running;
      phase := PhaseOf(target.value);
      nextAction := target.value;
      reasonCode := None;
      lastError := None;
      if Inv(old(View())) {
        RetryKeeps(kind, old(View()));
      }
      if !Persistable(View()) {
        return Err(IncompatibleState);
      }
      r := Ok(nextAction);
    }

    method PrepareVerificationWorkspace() returns (r: Result<NextAction>)
      requires status in {Running, WaitingThread} && nextAction == RequestPrimaryVerification
      modifies this`result
      ensures Refines(old(View()), View(), r, Steps.PrepareVerificationWorkspace(old(View())))
    {
      if result.sha.None? {
        return Err(InvalidState);
      }
      var destination := VerificationPath(facts.runId, result.sha.value);
      if result.workspace.Some? && result.workspace.value != destination {
        return Err(InvalidState);
      }
      result := result.(workspace := Some(destination));
      r := Ok(nextAction);
    }
  }
}
