/** How the coordinator turns a participant's v2 response into a protocol message. Everything it
    looks up outside the run state (Git, the policy, the command runner) is an input here. */
module Normalisation {
  import opened Wrappers
  import opened Text
  import opened Json
  import opened Canonical
  import opened RunTypes
  import opened Protocol
  import opened Participants
  import opened Retries

  type Int32 = n: int | -0x8000_0000 <= n < 0x8000_0000

  /** What one frozen command left behind: its exit code and its bounded output. */
  datatype Outcome = Outcome(exitCode: Int32, output: string)

  datatype World = World(
    contract: Option<Value>,                       // the JSON in the body of a contract response
    patchRecorded: bool,                           // this request already used its patch
    gitResult: Result<(string, seq<string>)>,      // head and changed files of the target branch
    audit: Check,                                  // the audit of the integration turn
    gitCheck: Check,                               // the final check of branch, head and files
    requestHash: string,
    turnId: string,
    outcomes: Result<seq<Outcome>>)                // of the frozen commands, in order

  /** `validate_test_command`, the execution policy. */
  const TEST_COMMAND_ALLOWED: string -> bool

  function AuthoritativeEnvelope(
    s: State, messageType: MessageType, reason: Option<string>, branch: Option<string>,
    sha: Option<string>): Envelope
  {
    Envelope(PROTOCOL_V1, s.facts.runId, messageType, s.phase, s.round, s.facts.primarySha,
             s.facts.reviewerSha, s.plan.revision, branch, sha, reason)
  }

  function PromotePatchLimit(action: NextAction, r: Response, patchRecorded: bool): Response {
    if && action == RequestPrimaryIntegration
       && r.signal == SignalBlocked
       && r.blockedReason == Some("PATCH_LIMIT_REACHED")
       && patchRecorded
    then Response(SignalIntegration, None, PostPatchBody(Trim(r.body)))
    else r
  }

  const HANDED_OVER :=
    "The clean committed result is being handed to coordinator-owned verification "
    + "without repeating the patch."

  const PATCH_USED_UP :=
    "The Primary reported that the request-bound patch allowance was exhausted "
    + "after one successful patch. "
  const PATCH_HAS_DEFECT :=
    "The Primary reported a known post-patch defect after exhausting this request's "
    + "patch allowance. "
  const KNOWN_ISSUE := "\n\nKnown issue reported by Primary:\n\n"

  function PostPatchBody(evidence: string): string {
    if evidence == "" then PATCH_USED_UP + HANDED_OVER
    else PATCH_HAS_DEFECT + HANDED_OVER + KNOWN_ISSUE + evidence
  }

  function Markdown(key: string, body: string): Value {
    Object(map["format" := String("markdown")][key := String(body)])
  }

  function RevisionValue(s: State): Value {
    match s.plan.revision
    case Some(n) => Number(n)
    case None => Null
  }

  function ContractMessage(s: State, role: string, w: World): Result<Message> {
    var _ :- Need(w.contract.Some? && w.contract.value.Object?, InvalidResponse);
    Ok(Message(AuthoritativeEnvelope(s, ContractReady, None, None, None),
      Object(map["role" := String(role), "contract" := w.contract.value])))
  }

  function PlanMessage(s: State, body: string): Result<Message> {
    var _ :- Need(!Blank(body), InvalidResponse);
    var _ :- Need(s.plan.primaryContract.Some? && s.plan.reviewerContract.Some?, HistoryUnavailable);
    Ok(Message(AuthoritativeEnvelope(s, PlanReady, None, None, None),
      Object(map[
        "primary_contract" := s.plan.primaryContract.value,
        "reviewer_contract" := s.plan.reviewerContract.value,
        "plan" := Markdown("content", body),
        "coverage_matrix" := Array([]),
        "test_commands" := Strings(s.policy.requiredTests)])))
  }

  function PlanApprovalMessage(s: State, body: string): Result<Message> {
    var _ :- Need(s.plan.payload.Some?, HistoryUnavailable);
    Ok(Message(AuthoritativeEnvelope(s, ApprovedPlan, None, None, None),
      Object(map[
        "approved_plan_revision" := RevisionValue(s),
        "approved_primary_sha" := String(s.facts.primarySha),
        "approved_reviewer_sha" := String(s.facts.reviewerSha),
        "approved_plan_hash" := String(CanonicalHash(s.plan.payload.value)),
        "uncovered_items" := Array([]),
        "review_markdown" := String(body)])))
  }

  function ChangesMessage(s: State, body: string, resultReview: bool): Result<Message> {
    var _ :- Need(!Blank(body), InvalidResponse);
    var _ :- Need(resultReview ==> s.result.branch.Some? && s.result.sha.Some?, InvalidState);
    Ok(Message(
      AuthoritativeEnvelope(s, ChangesRequired, Some("REVIEW_CHANGES_REQUIRED"),
        if resultReview then s.result.branch else None, if resultReview then s.result.sha else None),
      Markdown("feedback", body)))
  }

  function IntegrationMessage(s: State, body: string, w: World): Result<Message> {
    var _ :- Need(s.policy.targetBranch.Some?, InvalidState);
    var result :- w.gitResult;
    Ok(Message(
      AuthoritativeEnvelope(s, IntegrationReady, None, s.policy.targetBranch, Some(result.0)),
      Object(map[
        "changed_files" := Strings(result.1),
        "integration_evidence" := Markdown("summary", body)])))
  }

  function VerificationMessage(s: State, body: string): Result<Message> {
    var _ :- Need(s.result.payload.Some?, HistoryUnavailable);
    var _ :- Need(s.result.payload.value.Object?, InvalidState);
    Ok(Message(AuthoritativeEnvelope(s, IntegrationReady, None, s.result.branch, s.result.sha),
      Object(s.result.payload.value.fields["verification_summary" := String(body)])))
  }

  function ResultApprovalMessage(s: State, body: string): Result<Message> {
    var _ :- Need(s.result.branch.Some? && s.result.sha.Some?, InvalidState);
    Ok(Message(AuthoritativeEnvelope(s, ApprovedResult, None, s.result.branch, s.result.sha),
      Object(map[
        "approved_plan_revision" := RevisionValue(s),
        "approved_primary_sha" := String(s.facts.primarySha),
        "approved_reviewer_sha" := String(s.facts.reviewerSha),
        "approved_integration_branch" := String(s.result.branch.value),
        "approved_integration_sha" := String(s.result.sha.value),
        "uncovered_items" := Array([]),
        "review_markdown" := String(body)])))
  }

  function BlockedMessageOf(s: State, r: Response): Message {
    Message(
      AuthoritativeEnvelope(s, BlockedMessage,
        Some(if r.blockedReason.Some? then r.blockedReason.value else "PARTICIPANT_BLOCKED"),
        s.result.branch, s.result.sha),
      Markdown("feedback", r.body))
  }

  function MarkerMessage(s: State, r: Response, w: World): Result<Message> {
    match (s.nextAction, r.signal)
    case (_, SignalBlocked) => Ok(BlockedMessageOf(s, r))
    case (RequestPrimaryContract, SignalContract) => ContractMessage(s, "PRIMARY", w)
    case (RequestReviewerContract, SignalContract) => ContractMessage(s, "REVIEWER", w)
    case (RequestPrimaryPlan, SignalPlan) => PlanMessage(s, r.body)
    case (RequestReviewerPlanVerdict, SignalApproved) => PlanApprovalMessage(s, r.body)
    case (RequestReviewerPlanVerdict, SignalChanges) => ChangesMessage(s, r.body, false)
    case (RequestPrimaryIntegration, SignalIntegration) => IntegrationMessage(s, r.body, w)
    case (RequestPrimaryVerification, SignalVerification) => VerificationMessage(s, r.body)
    case (RequestReviewerResultVerdict, SignalApproved) => ResultApprovalMessage(s, r.body)
    case (RequestReviewerResultVerdict, SignalChanges) => ChangesMessage(s, r.body, true)
    case _ => Err(InvalidResponse)
  }

  /** Every message is validated before it is used, except a blocked one, which the state machine
      validates itself. */
  function NormalizedMessage(s: State, r: Response, w: World): Result<Message> {
    var _ :- Need(r.signal in AllowedSignals(s.nextAction), InvalidResponse);
    var promoted := PromotePatchLimit(s.nextAction, r, w.patchRecorded);
    var m :- MarkerMessage(s, promoted, w);
    var _ :- Need(promoted.signal == SignalBlocked || Valid(m), InvalidResponse);
    Ok(m)
  }

  // ----- the coordinator's own evidence

  function DecimalDigit(n: nat): char
    requires n < 10
  {
    "0123456789"[n]
  }

  function Decimal(n: nat): string {
    if n < 10 then [DecimalDigit(n)] else Decimal(n / 10) + [DecimalDigit(n % 10)]
  }

  function ItemId(requestHash: string, index: nat): string {
    "coordinator-command/" + requestHash + "/" + Decimal(index)
  }

  /** The evidence of command number `i`, run in the verification workspace. */
  function EvidenceAt(s: State, w: World, outcomes: seq<Outcome>, i: nat): Evidence
    requires s.result.workspace.Some? && i < |outcomes| && i < |s.policy.requiredTests|
  {
    Evidence(s.policy.requiredTests[i], outcomes[i].exitCode, w.turnId, ItemId(w.requestHash, i),
             s.result.workspace.value)
  }

  function EvidenceUpTo(s: State, w: World, outcomes: seq<Outcome>, n: nat): seq<Evidence>
    requires s.result.workspace.Some? && n <= |outcomes| && n <= |s.policy.requiredTests|
  {
    seq(n, i requires 0 <= i < n => EvidenceAt(s, w, outcomes, i))
  }

  function FailuresUpTo(s: State, w: World, outcomes: seq<Outcome>, n: nat): seq<Failure>
    requires s.result.workspace.Some? && n <= |outcomes| && n <= |s.policy.requiredTests|
  {
    if n == 0 then []
    else
      var e := EvidenceAt(s, w, outcomes, n - 1);
      FailuresUpTo(s, w, outcomes, n - 1)
      + if e.exitCode == 0 then []
        else [Failure(e.command, e.exitCode, e.itemId, outcomes[n - 1].output)]
  }

  function EvidenceValue(e: Evidence): Value {
    Object(map[
      "command" := String(e.command),
      "exit_code" := Number(e.exitCode),
      "turn_id" := String(e.turnId),
      "item_id" := String(e.itemId),
      "cwd" := String(e.cwd)])
  }

  function EvidenceValues(evidence: seq<Evidence>): Value {
    Array(seq(|evidence|, i requires 0 <= i < |evidence| => EvidenceValue(evidence[i])))
  }

  /** The canonical payload of a verification: the current one, with the coordinator's evidence. */
  function VerifiedPayload(current: map<string, Value>, summary: Option<Value>,
    evidence: seq<Evidence>, failures: seq<Failure>): Value
  {
    var proved := current["test_evidence" := EvidenceValues(evidence)];
    var judged := if failures == [] then proved - {"verification_failures"}
                  else proved["verification_failures" := FailureValues(failures)];
    Object(if summary.Some? then judged["verification_summary" := summary.value] else judged)
  }

  function CommandTexts(v: Option<seq<Value>>): Result<seq<string>> {
    if v.Some? && forall i | 0 <= i < |v.value| :: v.value[i].String?
    then Ok(seq(|v.value|, i requires 0 <= i < |v.value| => v.value[i].s))
    else Err(InvalidResponse)
  }

  function DeclaredTests(m: Message): Result<seq<string>> {
    match m.envelope.messageType
    case ContractReady => CommandTexts(GetArray(GetOr(m.payload, "contract", Null), "tests"))
    case PlanReady => CommandTexts(GetArray(m.payload, "test_commands"))
    case _ => Ok([])
  }

  predicate AllAdmitted(commands: seq<string>) {
    forall i | 0 <= i < |commands| :: TEST_COMMAND_ALLOWED(commands[i])
  }

  function VerifyEvidence(s: State, m: Message, w: World): Result<Message> {
    if m.envelope.messageType in {ContractReady, PlanReady} then
      var commands :- DeclaredTests(m);
      var _ :- Need(AllAdmitted(commands), InvalidTestCommand);
      Ok(m)
    else if m.envelope.messageType != IntegrationReady then Ok(m)
    else
      var proved :- match s.nextAction
        case RequestPrimaryIntegration =>
          var _ :- w.audit;
          Ok(m)
        case RequestPrimaryVerification => VerifiedMessage(s, m, w)
        case _ => Err(InvalidResponse);
      var _ :- CommandTexts(GetArray(proved.payload, "changed_files"));
      var _ :- w.gitCheck;
      Ok(proved)
  }

  function VerifiedMessage(s: State, m: Message, w: World): Result<Message> {
    var outcomes :- w.outcomes;
    var _ :- Need(s.result.workspace.Some? && |outcomes| == |s.policy.requiredTests|, InvalidState);
    var _ :- Need(s.result.payload.Some?, HistoryUnavailable);
    var _ :- Need(s.result.payload.value.Object?, InvalidState);
    var n := |outcomes|;
    Ok(m.(payload := VerifiedPayload(
      s.result.payload.value.fields, Get(m.payload, "verification_summary"),
      EvidenceUpTo(s, w, outcomes, n), FailuresUpTo(s, w, outcomes, n))))
  }

  /** The message that a v2 response becomes before it reaches the state machine. */
  function Normalize(s: State, r: Response, w: World): Result<Message> {
    var m :- NormalizedMessage(s, r, w);
    VerifyEvidence(s, m, w)
  }

  // ----- running the frozen commands

  /** What the store has on record for a command once it has run. */
  datatype CommandRecord =
    CommandRecord(exitCode: Option<Int32>, stdout: Option<string>, stderr: Option<string>)

  /** The words of a command line, when it can be split into words. */
  const SPLIT_COMMAND: string -> Option<seq<string>>

  /** The end of a long output, behind a mark. */
  const BOUNDED_OUTPUT: string -> string

  predicate Runnable(command: string) {
    TEST_COMMAND_ALLOWED(command) && SPLIT_COMMAND(command).Some? && SPLIT_COMMAND(command).value != []
  }

  predicate IsFinished(record: CommandRecord) {
    record.exitCode.Some? && record.stdout.Some? && record.stderr.Some?
  }

  function OutcomeOf(record: CommandRecord): Outcome
    requires IsFinished(record)
  {
    var out, err := record.stdout.value, record.stderr.value;
    Outcome(record.exitCode.value,
            BOUNDED_OUTPUT(out + (if out == "" || err == "" then "" else "\n") + err))
  }

  /** The command runs, and its claim, its execution and its record all succeed. */
  predicate Runs(command: string, record: Result<CommandRecord>) {
    Runnable(command) && record.Ok? && IsFinished(record.value)
  }

  function Refusal(command: string, record: Result<CommandRecord>): Code
    requires !Runs(command, record)
  {
    if !Runnable(command) then InvalidTestCommand
    else if record.Err? then record.code
    else InvalidState
  }

  function OutcomesOf(records: seq<Result<CommandRecord>>): seq<Outcome>
    requires forall r | r in records :: r.Ok? && IsFinished(r.value)
  {
    seq(|records|, i requires 0 <= i < |records| => OutcomeOf(records[i].value))
  }

  predicate AllRun(commands: seq<string>, records: seq<Result<CommandRecord>>, n: nat)
    requires n <= |commands| == |records|
  {
    forall i | 0 <= i < n :: Runs(commands[i], records[i])
  }

  /** Command `i` is the first that does not run. */
  predicate FirstRefused(commands: seq<string>, records: seq<Result<CommandRecord>>, i: nat)
    requires |commands| == |records|
  {
    i < |commands| && AllRun(commands, records, i) && !Runs(commands[i], records[i])
  }

  predicate AreFinished(records: seq<Result<CommandRecord>>, n: nat) {
    n <= |records| && forall i | 0 <= i < n :: records[i].Ok? && IsFinished(records[i].value)
  }

  /** The commands below `n` whose record has a nonzero exit code, in order. */
  function FailedAt(records: seq<Result<CommandRecord>>, n: nat): (at: seq<nat>)
    requires AreFinished(records, n)
    ensures forall j | 0 <= j < |at| :: at[j] < n && records[at[j]].value.exitCode != Some(0)
    ensures forall i: nat | i < n :: records[i].value.exitCode != Some(0) ==> i in at
    ensures forall j, k | 0 <= j < k < |at| :: at[j] < at[k]
  {
    if n == 0 then []
    else FailedAt(records, n - 1) + if records[n - 1].value.exitCode == Some(0) then [] else [n - 1]
  }

  /** Both streams, on lines of their own if both say something. */
  function BothStreams(record: CommandRecord): string
    requires IsFinished(record)
  {
    if record.stdout.value == "" then record.stderr.value
    else if record.stderr.value == "" then record.stdout.value
    else record.stdout.value + "\n" + record.stderr.value
  }

  /** One piece of evidence for each of the first `n` commands, with its own exit code. */
  predicate EvidenceIsOfRecords(s: State, w: World, records: seq<Result<CommandRecord>>, n: nat,
                                evidence: seq<Evidence>)
    requires s.result.workspace.Some? && AreFinished(records, n) && n <= |s.policy.requiredTests|
  {
    && |evidence| == n
    && forall i | 0 <= i < n ::
      && evidence[i].command == s.policy.requiredTests[i]
      && evidence[i].exitCode == records[i].value.exitCode.value
      && evidence[i].turnId == w.turnId
      && evidence[i].itemId == ItemId(w.requestHash, i)
      && evidence[i].cwd == s.result.workspace.value
  }

  /** One failure for each of the first `n` commands that failed, with its own output. */
  predicate FailuresAreOfRecords(s: State, w: World, records: seq<Result<CommandRecord>>, n: nat,
                                 failures: seq<Failure>)
    requires AreFinished(records, n) && n <= |s.policy.requiredTests|
  {
    var at := FailedAt(records, n);
    && |failures| == |at|
    && forall j | 0 <= j < |at| ::
      && failures[j].command == s.policy.requiredTests[at[j]]
      && failures[j].exitCode == records[at[j]].value.exitCode.value
      && failures[j].itemId == ItemId(w.requestHash, at[j])
      && failures[j].output == BOUNDED_OUTPUT(BothStreams(records[at[j]].value))
  }

  /** `execute_frozen_verification`: one record per frozen command, in order, collected into the
      evidence and, for the commands that failed, the failures. It is refused by the first command
      that is not admitted, or whose claim, execution or record fails. */
  method ExecuteFrozenVerification(s: State, w: World, records: seq<Result<CommandRecord>>)
    returns (r: Result<(seq<Evidence>, seq<Failure>)>)
    requires |records| == |s.policy.requiredTests|
    ensures r.Ok? <==>
      s.result.workspace.Some? && AllRun(s.policy.requiredTests, records, |records|)
    ensures r.Ok? ==>
      && r.value.0 == EvidenceUpTo(s, w, OutcomesOf(records), |records|)
      && r.value.1 == FailuresUpTo(s, w, OutcomesOf(records), |records|)
    ensures r.Ok? ==>
      && AreFinished(records, |records|)
      && EvidenceIsOfRecords(s, w, records, |records|, r.value.0)
      && FailuresAreOfRecords(s, w, records, |records|, r.value.1)
    ensures r.Err? && s.result.workspace.None? ==> r.code == InvalidState
    ensures r.Err? && s.result.workspace.Some? ==>
      exists i | 0 <= i < |records| ::
        FirstRefused(s.policy.requiredTests, records, i)
        && r.code == Refusal(s.policy.requiredTests[i], records[i])
  {
    hide Runnable, OutcomeOf, ItemId, EvidenceIsOfRecords, FailuresAreOfRecords;
    if s.result.workspace.None? {
      return Err(InvalidState);
    }
    var commands := s.policy.requiredTests;
    var evidence: seq<Evidence> := [];
    var failures: seq<Failure> := [];
    for i := 0 to |commands|
      invariant AllRun(commands, records, i)
      invariant evidence == EvidenceUpTo(s, w, OutcomesOf(records[..i]), i)
      invariant failures == FailuresUpTo(s, w, OutcomesOf(records[..i]), i)
    {
      var command := commands[i];
      if !Runs(command, records[i]) {
        assert FirstRefused(commands, records, i);
        return Err(Refusal(command, records[i]));
      }
      var outcome := OutcomeOf(records[i].value);
      OutcomesExtend(s, w, records, i);
      var e := Evidence(command, outcome.exitCode, w.turnId, ItemId(w.requestHash, i),
                        s.result.workspace.value);
      if e.exitCode != 0 {
        failures := failures + [Failure(command, e.exitCode, e.itemId, outcome.output)];
      }
      evidence := evidence + [e];
    }
    assert records[..|records|] == records;
    EvidenceTellsRecords(s, w, records, |records|);
    FailuresTellRecords(s, w, records, |records|);
    r := Ok((evidence, failures));
  }

  lemma OutcomeIsOfRecord(record: CommandRecord)
    requires IsFinished(record)
    ensures OutcomeOf(record).exitCode == record.exitCode.value
    ensures OutcomeOf(record).output == BOUNDED_OUTPUT(BothStreams(record))
  {
    var out, err := record.stdout.value, record.stderr.value;
    assert out + "" + err == if out == "" then err else out + err;
    assert out + "" == out;
  }

  lemma EvidenceTellsRecords(s: State, w: World, records: seq<Result<CommandRecord>>, n: nat)
    requires s.result.workspace.Some? && AreFinished(records, |records|)
    requires n <= |records| == |s.policy.requiredTests|
    ensures EvidenceIsOfRecords(s, w, records, n, EvidenceUpTo(s, w, OutcomesOf(records), n))
  {
    hide OutcomeOf, ItemId;
    forall i | 0 <= i < n
      ensures OutcomeOf(records[i].value).exitCode == records[i].value.exitCode.value
    {
      OutcomeIsOfRecord(records[i].value);
    }
  }

  lemma {:induction false} FailuresTellRecords(s: State, w: World, records: seq<Result<CommandRecord>>, n: nat)
    requires s.result.workspace.Some? && AreFinished(records, |records|)
    requires n <= |records| == |s.policy.requiredTests|
    ensures FailuresAreOfRecords(s, w, records, n, FailuresUpTo(s, w, OutcomesOf(records), n))
  {
    hide OutcomeOf, ItemId, BothStreams;
    if n > 0 {
      FailuresTellRecords(s, w, records, n - 1);
      OutcomeIsOfRecord(records[n - 1].value);
      var before, e := FailedAt(records, n - 1), EvidenceAt(s, w, OutcomesOf(records), n - 1);
      assert FailedAt(records, n) == if e.exitCode == 0 then before else before + [n - 1];
    }
  }

  lemma OutcomesExtend(s: State, w: World, records: seq<Result<CommandRecord>>, i: nat)
    requires s.result.workspace.Some? && i < |records| == |s.policy.requiredTests|
    requires AllRun(s.policy.requiredTests, records, i + 1)
    ensures forall r | r in records[..i + 1] :: r.Ok? && IsFinished(r.value)
    ensures OutcomesOf(records[..i + 1]) == OutcomesOf(records[..i]) + [OutcomeOf(records[i].value)]
    ensures EvidenceUpTo(s, w, OutcomesOf(records[..i + 1]), i)
      == EvidenceUpTo(s, w, OutcomesOf(records[..i]), i)
    ensures FailuresUpTo(s, w, OutcomesOf(records[..i + 1]), i)
      == FailuresUpTo(s, w, OutcomesOf(records[..i]), i)
  {
    hide OutcomeOf;
    var longer, shorter := OutcomesOf(records[..i + 1]), OutcomesOf(records[..i]);
    assert longer == shorter + [OutcomeOf(records[i].value)];
    SameFailures(s, w, longer, shorter, i);
  }

  lemma {:induction false} SameFailures(s: State, w: World, a: seq<Outcome>, b: seq<Outcome>, n: nat)
    requires s.result.workspace.Some? && n <= |a| && n <= |b| && n <= |s.policy.requiredTests|
    requires forall i | 0 <= i < n :: a[i] == b[i]
    ensures FailuresUpTo(s, w, a, n) == FailuresUpTo(s, w, b, n)
  {
    if n > 0 {
      SameFailures(s, w, a, b, n - 1);
    }
  }
}
