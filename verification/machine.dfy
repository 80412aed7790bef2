/** The run state machine as functions on state values. `Ok` carries the next state;
    an `Err` carries no state, so a rejected operation leaves the run as it was. */
module Machine {
  import opened Wrappers
  import opened Text
  import opened Json
  import opened Ordering
  import opened Canonical
  import opened RunTypes
  import opened Protocol

  const PARTICIPANT_SERVER := "worktreeMergeConsensusParticipant"
  /** The fixed text of the source; only that it is fixed matters here. */
  const MACHINE_VERIFICATION_SUMMARY: string

  // ----- guards shared by the operations

  function RequireRunning(s: State): Check {
    Need(s.status == Running, RunNotActive)
  }

  function RequirePhase(s: State, phase: Phase): Check {
    Need(s.phase == phase, WrongPhase)
  }

  function RequireRound(m: Message, round: nat): Check {
    Need(m.envelope.round == round, StaleRound)
  }

  function RequirePlanRevision(s: State, m: Message): Check {
    Need(m.envelope.planRevision == s.plan.revision, StalePlanRevision)
  }

  function RequireCurrentIntegration(s: State, m: Message): Check {
    if m.envelope.branch != s.result.branch then Fail(StaleIntegrationBranch)
    else Need(m.envelope.sha == s.result.sha, StaleIntegrationSha)
  }

  function VerifyImmutableEnvelope(s: State, m: Message): Check {
    if m.envelope.runId != s.facts.runId then Fail(StaleRunId)
    else if m.envelope.primarySha != s.facts.primarySha then Fail(StalePrimarySha)
    else Need(m.envelope.reviewerSha == s.facts.reviewerSha, StaleReviewerSha)
  }

  function VerifyBlockedEnvelope(s: State, m: Message): Check {
    if m.envelope.phase != s.phase then Fail(WrongPhase)
    else if m.envelope.round != s.round then Fail(StaleRound)
    else if m.envelope.planRevision != s.plan.revision then Fail(StalePlanRevision)
    else if s.result.sha.Some? then RequireCurrentIntegration(s, m)
    else Need(NoIntegration(m.envelope), StaleIntegrationSha)
  }

  // ----- test commands and their evidence

  function StringArrayField(v: Value, field: string): Result<seq<string>> {
    match GetArray(v, field)
    case Some(values) =>
      if values != [] && NonblankStrings(values)
      then Ok(seq(|values|, i requires 0 <= i < |values| => Trim(values[i].s)))
      else Err(InvalidResponse)
    case None => Err(InvalidResponse)
  }

  /** Appends, in order, the commands that are not there yet. */
  function FreezeTests(required: seq<string>, commands: seq<string>): seq<string>
    decreases commands
  {
    if commands == [] then required
    else
      var c := commands[0];
      FreezeTests(if c in required then required else required + [c], commands[1..])
  }

  predicate IsAbsolute(path: string) {
    path != "" && path[0] == '/'
  }

  predicate EvidenceEntryValid(e: Evidence) {
    !Blank(e.command) && !Blank(e.turnId) && !Blank(e.itemId) && IsAbsolute(e.cwd)
  }

  function CountCommand(evidence: seq<Evidence>, command: string): nat {
    if evidence == [] then 0
    else (if evidence[0].command == command then 1 else 0) + CountCommand(evidence[1..], command)
  }

  predicate DistinctNonblank(commands: seq<string>) {
    && (forall i | 0 <= i < |commands| :: !Blank(commands[i]))
    && (forall i, j | 0 <= i < j < |commands| :: commands[i] != commands[j])
  }

  /** Terminal evidence for every frozen command, exactly once. */
  predicate Complete(required: seq<string>, evidence: seq<Evidence>) {
    && required != []
    && |evidence| == |required|
    && DistinctNonblank(required)
    && (forall e | e in evidence :: EvidenceEntryValid(e))
    && (forall c | c in required :: CountCommand(evidence, c) == 1)
  }

  predicate Passing(evidence: seq<Evidence>) {
    forall e | e in evidence :: e.exitCode == 0
  }

  function Int64(v: Option<Value>): Option<int> {
    match v
    case Some(Number(n)) =>
      if -0x8000_0000_0000_0000 <= n < 0x8000_0000_0000_0000 then Some(n) else None
    case _ => None
  }

  function ParseFields(
    command: Option<Value>, exitCode: Option<Value>, turnId: Option<Value>,
    itemId: Option<Value>, cwd: Option<Value>): Option<Evidence>
  {
    match (command, Int64(exitCode), turnId, itemId, cwd)
    case (Some(String(c)), Some(x), Some(String(t)), Some(String(i)), Some(String(w))) =>
      Some(Evidence(c, x, t, i, w))
    case _ => None
  }

  /** A derived deserialiser also reads a struct from the array of its fields. */
  function ParseEvidenceEntry(v: Value): Option<Evidence> {
    match v
    case Object(_) =>
      ParseFields(Get(v, "command"), Get(v, "exit_code"), Get(v, "turn_id"),
                  Get(v, "item_id"), Get(v, "cwd"))
    case Array(a) =>
      if |a| == 5 then ParseFields(Some(a[0]), Some(a[1]), Some(a[2]), Some(a[3]), Some(a[4]))
      else None
    case _ => None
  }

  function ParseEntries(values: seq<Value>): Option<seq<Evidence>> {
    if values == [] then Some([])
    else
      match (ParseEvidenceEntry(values[0]), ParseEntries(values[1..]))
      case (Some(first), Some(rest)) => Some([first] + rest)
      case _ => None
  }

  function ParseEvidence(payload: Value): Result<seq<Evidence>> {
    match GetArray(payload, "test_evidence")
    case Some(values) =>
      var parsed := ParseEntries(values);
      if values != [] && parsed.Some? then Ok(parsed.value) else Err(InvalidResponse)
    case None => Err(InvalidResponse)
  }

  // ----- the operations of a run

  function ConfigureIntegration(s: State, branch: string, commands: seq<string>): Result<State> {
    var _ :- RequireRunning(s);
    var _ :- Need(s.phase == Contract && s.nextAction == RequestPrimaryContract && s.policy.targetBranch.None?,
            PolicyAlreadyFrozen);
    var _ :- Need(!Blank(branch), InvalidBranchName);
    var _ :- Need(forall i | 0 <= i < |commands| :: !Blank(commands[i]), InvalidTestCommand);
    Ok(s.(policy := Policy(Some(branch), FreezeTests([], TrimAll(commands)))))
  }

  function TrimAll(texts: seq<string>): seq<string> {
    seq(|texts|, i requires 0 <= i < |texts| => Trim(texts[i]))
  }

  function BlockWith(s: State, reason: string): State {
    s.(status := Blocked, phase := BlockedPhase, reasonCode := Some(reason), nextAction := Stop)
  }

  function ApplyMessage(s: State, m: Message): Result<State> {
    var _ :- RequireRunning(s);
    var _ :- Need(Valid(m), InvalidResponse);
    var _ :- VerifyImmutableEnvelope(s, m);
    match m.envelope.messageType
    case ContractReady => ApplyContract(s, m)
    case PlanReady => ApplyPlan(s, m)
    case ChangesRequired => ApplyChangesRequired(s, m)
    case ApprovedPlan => ApplyPlanApproval(s, m)
    case IntegrationReady => ApplyIntegration(s, m)
    case ApprovedResult => ApplyResultApproval(s, m)
    case BlockedMessage =>
      var _ :- VerifyBlockedEnvelope(s, m);
      Ok(BlockWith(s, if m.envelope.reasonCode.Some? then m.envelope.reasonCode.value
                      else "INVALID_RESPONSE"))
  }

  function ApplyContract(s: State, m: Message): Result<State> {
    var _ :- RequirePhase(s, Contract);
    var _ :- RequireRound(m, 1);
    var _ :- Need(s.nextAction in {RequestPrimaryContract, RequestReviewerContract}, UnexpectedMessage);
    var primary := s.nextAction == RequestPrimaryContract;
    var role := Get(m.payload, "role");
    var _ :- Need(role.Some? ==> role.value.String?, InvalidResponse);
    var _ :- Need(role.Some? ==> role.value.s == if primary then "PRIMARY" else "REVIEWER",
            UnexpectedRole);
    var contract := Get(m.payload, "contract");
    var _ :- Need(contract.Some?, InvalidResponse);
    var tests :- StringArrayField(contract.value, "tests");
    var hash := Some(CanonicalHash(contract.value));
    var required := FreezeTests(s.policy.requiredTests, tests);
    var policy := s.policy.(requiredTests := required);
    Ok(if primary
       then s.(policy := policy,
               plan := s.plan.(primaryContract := contract, primaryContractHash := hash),
               nextAction := RequestReviewerContract)
       else s.(policy := policy,
               plan := s.plan.(reviewerContract := contract, reviewerContractHash := hash,
                               revision := Some(1)),
               phase := PlanReview, round := 1, nextAction := RequestPrimaryPlan))
  }

  function ApplyPlan(s: State, m: Message): Result<State> {
    var _ :- RequirePhase(s, PlanReview);
    var _ :- RequireRound(m, s.round);
    var _ :- RequirePlanRevision(s, m);
    var _ :- Need(s.nextAction == RequestPrimaryPlan, UnexpectedMessage);
    RecordPlan(s, m.payload)
  }

  function RecordPlan(s: State, payload: Value): Result<State> {
    var _ :- RequireRunning(s);
    var _ :- RequirePhase(s, PlanReview);
    var _ :- Need(payload.Object?, InvalidResponse);
    var commands :-
      if Get(payload, "test_commands").Some? then StringArrayField(payload, "test_commands")
      else Ok([]);
    Ok(s.(policy := s.policy.(requiredTests := FreezeTests(s.policy.requiredTests, commands)),
          plan := s.plan.(payload := Some(payload), hash := Some(CanonicalHash(payload))),
          nextAction := RequestReviewerPlanVerdict))
  }

  function ApplyPlanApproval(s: State, m: Message): Result<State> {
    var _ :- RequirePhase(s, PlanReview);
    var _ :- RequireRound(m, s.round);
    var _ :- RequirePlanRevision(s, m);
    var _ :- Need(s.plan.hash.Some?, PlanMissing);
    var approved := GetString(m.payload, "approved_plan_hash");
    var _ :- Need(approved.Some?, InvalidResponse);
    var _ :- Need(s.plan.hash == approved, StalePlanHash);
    RequestIntegration(s.(plan := s.plan.(approved := true, approval := Some(m.payload))))
  }

  function RequestIntegration(s: State): Result<State> {
    var _ :- RequireRunning(s);
    var _ :- RequirePhase(s, PlanReview);
    var _ :- Need(s.plan.approved, PlanNotApproved);
    Ok(s.(phase := Integrate, nextAction := RequestPrimaryIntegration))
  }

  function ApplyIntegration(s: State, m: Message): Result<State> {
    var _ :- Need(s.phase in {Integrate, Verify}, WrongPhase);
    var _ :- RequireRound(m, s.round);
    var _ :- RequirePlanRevision(s, m);
    var _ :- Need(s.plan.approved, PlanNotApproved);
    var _ :- Need(m.envelope.branch.Some?, InvalidResponse);
    var _ :- Need(s.policy.targetBranch.Some? ==> s.policy.targetBranch == m.envelope.branch,
            UnexpectedIntegrationBranch);
    var _ :- Need(m.envelope.sha.Some?, InvalidResponse);
    if s.phase == Integrate then ApplyIntegrationResult(s, m) else ApplyVerification(s, m)
  }

  function ApplyIntegrationResult(s: State, m: Message): Result<State> {
    var _ :- Need(m.envelope.phase == Integrate, WrongPhase);
    var selfReported := GetArray(m.payload, "test_evidence");
    var _ :- Need(selfReported.Some? ==> selfReported.value == [], InvalidResponse);
    var _ :- Need(s.result.sha != m.envelope.sha, StaleIntegrationSha);
    var initial := s.result.sha.None?;
    Ok(s.(result := FreshResult(s.result, m),
          review := if initial then Review(None, 0) else s.review,
          round := if initial then 1 else s.round,
          phase := Verify, nextAction := RequestPrimaryVerification))
  }

  /** A new result drops the evidence, the workspace and the approval of the one before. */
  function FreshResult(previous: Integration, m: Message): Integration {
    Integration(m.envelope.branch, m.envelope.sha, Some(m.payload), [], None, None, previous.feedback)
  }

  function MachineFeedback(payload: Value): Value {
    Object(map[
      "format" := String("machine_verification"),
      "summary" := String(MACHINE_VERIFICATION_SUMMARY),
      "failed_tests" := GetOr(payload, "verification_failures", Array([])),
      "verification_summary" := GetOr(payload, "verification_summary", Null)])
  }

  function ApplyVerification(s: State, m: Message): Result<State> {
    var _ :- Need(m.envelope.phase == Verify, WrongPhase);
    var _ :- RequireCurrentIntegration(s, m);
    var evidence :- ParseEvidence(m.payload);
    var _ :- Need(Complete(s.policy.requiredTests, evidence), TestFailure);
    var judged := s.result.(evidence := evidence, payload := Some(m.payload), approvedSha := None);
    Ok(if Passing(evidence) then
         s.(result := judged, phase := ResultReview, nextAction := RequestReviewerResultVerdict)
       else
         var failed := judged.(feedback := Some(MachineFeedback(m.payload)));
         if s.round >= s.limits.maxRounds then BlockWith(s.(result := failed), "ROUND_LIMIT")
         else s.(result := failed, round := s.round + 1, phase := Integrate,
                 nextAction := RequestPrimaryIntegration))
  }

  function ApplyResultApproval(s: State, m: Message): Result<State> {
    var _ :- RequirePhase(s, ResultReview);
    var _ :- RequireRound(m, s.round);
    var _ :- RequirePlanRevision(s, m);
    var _ :- RequireCurrentIntegration(s, m);
    Ok(s.(result := s.result.(approvedSha := m.envelope.sha), nextAction := RevalidateAndAccept))
  }

  // ----- review feedback and the no-progress detector

  function TrimmedIds(ids: seq<Value>): seq<string> {
    if ids == [] then []
    else
      (if ids[0].String? && !Blank(ids[0].s) then [Trim(ids[0].s)] else []) + TrimmedIds(ids[1..])
  }

  function NormalizedIssueHash(payload: Value): string {
    match GetArray(payload, "issue_ids")
    case Some(ids) => CanonicalHash(Strings(Dedup(Sort(TrimmedIds(ids)))))
    case None => CanonicalHash(payload)
  }

  function Fingerprint(planHash: Option<string>, payload: Value): string {
    CanonicalHash(Object(map[
      "plan" := OptionalString(planHash),
      "issues" := String(NormalizedIssueHash(payload))]))
  }

  function SaturatingIncrement(n: nat): nat {
    if n >= 255 then 255 else n + 1
  }

  /** Records a review fingerprint: a repetition lengthens the streak, anything else restarts it. */
  function CountReview(review: Review, fingerprint: string): Review {
    if review.fingerprint == Some(fingerprint)
    then Review(review.fingerprint, SaturatingIncrement(review.streak))
    else Review(Some(fingerprint), 1)
  }

  function ApplyChangesRequired(s: State, m: Message): Result<State> {
    var _ :- Need(s.phase in {PlanReview, ResultReview}, WrongPhase);
    var _ :- RequireRound(m, s.round);
    var _ :- RequirePlanRevision(s, m);
    var _ :- if s.phase == ResultReview then RequireCurrentIntegration(s, m) else Pass;
    var review := CountReview(s.review, Fingerprint(s.plan.hash, m.payload));
    Ok(if review.streak >= s.limits.noProgressRounds then
         BlockWith(s.(review := review), "NO_PROGRESS")
       else if s.round >= s.limits.maxRounds then
         BlockWith(s.(review := review), "ROUND_LIMIT")
       else if s.phase == PlanReview then
         s.(review := review, round := s.round + 1, plan := RejectedPlan(s.plan, m.payload),
            result := s.result.(approvedSha := None), nextAction := RequestPrimaryPlan)
       else
         s.(review := review, round := s.round + 1,
            result := s.result.(approvedSha := None, feedback := Some(m.payload)),
            phase := Integrate, nextAction := RequestPrimaryIntegration))
  }

  function RejectedPlan(plan: Plan, feedback: Value): Plan {
    plan.(revision := if plan.revision.Some? then Some(plan.revision.value + 1) else None,
          approved := false, approval := None, feedback := Some(feedback))
  }

  // ----- status changes

  function Pause(s: State, reason: string): Result<State> {
    var _ :- Need(s.status in {Running, WaitingThread}, RunNotActive);
    Ok(s.(status := PausedUserAction, reasonCode := Some(reason)))
  }

  function Resume(s: State): Result<State> {
    var _ :- Need(s.status == PausedUserAction, NotPaused);
    Ok(s.(status := Running, reasonCode := None, lastError := None))
  }

  function WaitForThread(s: State): Result<State> {
    var _ :- RequireRunning(s);
    Ok(s.(status := WaitingThread))
  }

  function ThreadBecameIdle(s: State): Result<State> {
    var _ :- Need(s.status == WaitingThread, NotWaitingThread);
    Ok(s.(status := Running))
  }

  function MarkIncompatible(s: State, reason: string): State {
    s.(status := IncompatibleCodex, phase := BlockedPhase, reasonCode := Some(reason),
       nextAction := Stop)
  }

  function Cancel(s: State): State {
    s.(status := Cancelled, phase := CancelledPhase, reasonCode := None, nextAction := Stop)
  }

  // ----- acceptance and persistence

  function ExpectedResult(s: State): Option<AcceptedResult> {
    if s.result.branch.Some? && s.result.sha.Some? then
      Some(AcceptedResult(s.result.branch.value, s.result.sha.value, s.facts.primarySha, s.facts.reviewerSha,
                          s.result.evidence))
    else None
  }

  function AcceptAfterRevalidation(s: State): Result<State> {
    var _ :- RequireRunning(s);
    var _ :- Need(s.nextAction == RevalidateAndAccept && s.result.approvedSha == s.result.sha, ResultNotApproved);
    var _ :- Need(Complete(s.policy.requiredTests, s.result.evidence) && Passing(s.result.evidence), TestFailure);
    var _ :- Need(ExpectedResult(s).Some?, InvalidState);
    Ok(s.(status := Accepted, phase := AcceptedPhase, reasonCode := None, nextAction := Stop,
          acceptedResult := ExpectedResult(s)))
  }

  /** What a persisted state must satisfy to be loaded again. */
  predicate Persistable(s: State) {
    && s.limits.schemaVersion == RUN_STATE_SCHEMA_VERSION
    && (s.nextAction in
          {RequestPrimaryVerification, RequestReviewerResultVerdict, RevalidateAndAccept} ==>
        s.result.payload.Some? && s.result.branch.Some? && s.result.sha.Some?)
    && (s.result.evidence != [] ==> Complete(s.policy.requiredTests, s.result.evidence))
    && (s.nextAction in {RequestReviewerResultVerdict, RevalidateAndAccept} ==>
        Complete(s.policy.requiredTests, s.result.evidence) && Passing(s.result.evidence))
    && (if s.status == Accepted then
          && s.phase == AcceptedPhase
          && s.nextAction == Stop
          && s.result.approvedSha == s.result.sha
          && Complete(s.policy.requiredTests, s.result.evidence)
          && Passing(s.result.evidence)
          && ExpectedResult(s).Some?
          && s.acceptedResult == ExpectedResult(s)
        else s.acceptedResult.None?)
  }
}
