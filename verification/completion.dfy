/** From every ready state the participants can reach acceptance, so accepted runs exist. */
module Completion {
  import opened Wrappers
  import opened Text
  import opened Json
  import opened Canonical
  import opened RunTypes
  import opened Protocol
  import opened Participants
  import opened Machine
  import opened Retries
  import opened Normalisation
  import opened Invariant
  import opened Steps
  import opened Runs
  import opened Progress
  import opened Windows
  import opened V2Runs
  import opened Acceptance
  import opened Drivers

  const CHECK := "check"

  function Repeat(c: char, n: nat): string {
    seq(n, i requires 0 <= i < n => c)
  }

  /** A commit that is not the current one. */
  function OtherSha(sha: Option<string>): string {
    if sha == Some(Repeat('0', 40)) then Repeat('1', 40) else Repeat('0', 40)
  }

  function Passes(n: nat): seq<Outcome> {
    seq(n, i requires 0 <= i < n => Outcome(0, ""))
  }

  /** A surrounding in which nothing goes wrong. */
  function KindWorld(s: State): World {
    World(
      Some(Object(map["tests" := Strings([CHECK])])), false, Ok((OtherSha(s.result.sha), [])),
      Pass, Pass, "", "turn",
      Ok(Passes(|s.policy.requiredTests|)))
  }

  /** The response that moves the pending action forward. */
  function KindResponse(action: NextAction): Response {
    match action
    case RequestPrimaryContract => Response(SignalContract, None, "")
    case RequestReviewerContract => Response(SignalContract, None, "")
    case RequestPrimaryPlan => Response(SignalPlan, None, CHECK)
    case RequestReviewerPlanVerdict => Response(SignalApproved, None, "")
    case RequestPrimaryIntegration => Response(SignalIntegration, None, "")
    case RequestPrimaryVerification => Response(SignalVerification, None, "")
    case RequestReviewerResultVerdict => Response(SignalApproved, None, "")
    case _ => Response(SignalBlocked, None, "")
  }

  /** What the surroundings must be: an absolute state root, digests of 64 hex digits, and a policy
      that admits the frozen commands and one more. */
  ghost predicate Hospitable(s: State) {
    && IsAbsolute(STATE_ROOT)
    && (forall d: Doc :: IsHex(SHA256_HEX(d), 64))
    && TEST_COMMAND_ALLOWED(CHECK)
    && (forall c | c in s.policy.requiredTests :: TEST_COMMAND_ALLOWED(c))
  }

  /** A result that awaits its verification lists its changed files. */
  predicate Readable(s: State) {
    s.nextAction == RequestPrimaryVerification ==> ChangesOnRecord(s)
  }

  predicate Ready(s: State) {
    && Live(s)
    && s.status == Running
    && Readable(s)
    && EnvelopeFits(s)
    && s.policy.targetBranch.Some?
    && TrimmedNonblank(s.policy.requiredTests)
  }

  lemma ShasFit(sha: Option<string>)
    ensures IsSha(OtherSha(sha)) && Some(OtherSha(sha)) != sha
  {
    assert Repeat('0', 40)[0] == '0' && Repeat('1', 40)[0] == '1';
  }

  lemma CheckIsVisible()
    ensures !Blank(CHECK) && Trim(CHECK) == CHECK
  {
    assert Trimmed(CHECK);
    TrimIsProjection(CHECK);
  }

  lemma TurnIsVisible()
    ensures !Blank("turn")
  {
    assert Trimmed("turn");
    TrimIsProjection("turn");
  }

  // ----- each kind response is normalised

  lemma EnvelopeIsSound(s: State, messageType: MessageType, reason: Option<string>,
                        branch: Option<string>, sha: Option<string>, payload: Value)
    requires EnvelopeFits(s) && 1 <= s.round && payload.Object? && NonemptyIfPresent(reason)
    requires NonemptyIfPresent(branch) && (sha.Some? ==> IsSha(sha.value))
    ensures var m := Message(AuthoritativeEnvelope(s, messageType, reason, branch, sha), payload);
      m.envelope.protocol == PROTOCOL_V1 && SchemaAccepts(m)
  {
    hide IsRunId, IsSha;
  }

  lemma RoundIsPositive(s: State)
    requires Live(s)
    ensures 1 <= s.round && s.phase == PhaseOf(s.nextAction)
  {
    hide PlanFits, ResultFits, ActionFits;
  }

  /** A valid message of the pending action is what its response normalises to, once it is audited. */
  lemma AuditRemains(s: State, m: Message)
    requires ModelActionPending(s) && Valid(m)
    requires MarkerMessage(s, KindResponse(s.nextAction), KindWorld(s)) == Ok(m)
    ensures Normalize(s, KindResponse(s.nextAction), KindWorld(s))
      == VerifyEvidence(s, m, KindWorld(s))
  {
    hide Valid, MarkerMessage, VerifyEvidence, KindWorld;
  }

  predicate ModelActionPending(s: State) {
    s.nextAction !in {RevalidateAndAccept, WaitForUser, Stop}
  }

  function KindContract(role: string): Value {
    Object(map["role" := String(role), "contract" := Object(map["tests" := Strings([CHECK])])])
  }

  lemma KindContractHolds(role: string)
    ensures var p := KindContract(role);
      && IsObjectField(p, "contract")
      && NonemptyStringArray(p.fields["contract"], "tests")
      && CommandTexts(GetArray(GetOr(p, "contract", Null), "tests")) == Ok([CHECK])
  {
    CheckIsVisible();
    var contract := KindContract(role).fields["contract"];
    assert contract.fields["tests"] == Strings([CHECK]);
    assert Strings([CHECK]).items == [String(CHECK)];
    CommandsOfStrings([CHECK]);
  }

  lemma CommandsOfStrings(texts: seq<string>)
    ensures CommandTexts(Some(Strings(texts).items)) == Ok(texts)
  {
    var read := CommandTexts(Some(Strings(texts).items)).value;
    assert read == texts;
  }

  lemma ContractNormalises(s: State)
    requires Ready(s) && s.nextAction in {RequestPrimaryContract, RequestReviewerContract}
    requires TEST_COMMAND_ALLOWED(CHECK)
    ensures Normalize(s, KindResponse(s.nextAction), KindWorld(s)).Ok?
  {
    hide Live, Readable, EnvelopeFits, KindContract, SchemaAccepts, NonemptyStringArray, CommandTexts;
    var role := if s.nextAction == RequestPrimaryContract then "PRIMARY" else "REVIEWER";
    RoundIsPositive(s);
    KindContractHolds(role);
    var m := Message(AuthoritativeEnvelope(s, ContractReady, None, None, None), KindContract(role));
    ContractIs(s, role);
    EnvelopeIsSound(s, ContractReady, None, None, None, KindContract(role));
    assert Valid(m);
    AuditRemains(s, m);
  }

  lemma ContractIs(s: State, role: string)
    ensures KindContract(role).Object?
    ensures ContractMessage(s, role, KindWorld(s))
      == Ok(Message(AuthoritativeEnvelope(s, ContractReady, None, None, None), KindContract(role)))
  {
  }

  function KindPlan(s: State): Value
    requires s.plan.primaryContract.Some? && s.plan.reviewerContract.Some?
  {
    Object(map[
      "primary_contract" := s.plan.primaryContract.value,
      "reviewer_contract" := s.plan.reviewerContract.value,
      "plan" := Markdown("content", CHECK),
      "coverage_matrix" := Array([]),
      "test_commands" := Strings(s.policy.requiredTests)])
  }

  lemma ContractsAreThere(s: State)
    requires Live(s) && s.nextAction == RequestPrimaryPlan
    ensures s.plan.primaryContract.Some? && s.plan.primaryContract.value.Object?
    ensures s.plan.reviewerContract.Some? && s.plan.reviewerContract.value.Object?
    ensures s.policy.requiredTests != [] && DistinctNonblank(s.policy.requiredTests)
    ensures s.plan.revision.Some? && 0 < s.plan.revision.value
  {
    hide ResultFits, PlanShape, CanonicalHash;
  }

  lemma KindPlanHolds(s: State)
    requires s.plan.primaryContract.Some? && s.plan.primaryContract.value.Object?
    requires s.plan.reviewerContract.Some? && s.plan.reviewerContract.value.Object?
    requires s.policy.requiredTests != [] && DistinctNonblank(s.policy.requiredTests)
    ensures PlanShape(KindPlan(s)) && NonemptyStringArray(KindPlan(s), "test_commands")
    ensures CommandTexts(GetArray(KindPlan(s), "test_commands")) == Ok(s.policy.requiredTests)
  {
    hide Markdown;
    var p, tests := KindPlan(s), s.policy.requiredTests;
    assert p.fields["test_commands"] == Strings(tests);
    assert p.fields["coverage_matrix"] == Array([]);
    assert p.fields["plan"] == Markdown("content", CHECK);
    assert Markdown("content", CHECK).Object? by { MarkdownIsObject("content", CHECK); }
    CommandsOfStrings(tests);
  }

  lemma MarkdownIsObject(key: string, body: string)
    ensures Markdown(key, body).Object?
  {
  }

  lemma PlanNormalises(s: State)
    requires Ready(s) && Hospitable(s) && s.nextAction == RequestPrimaryPlan
    ensures Normalize(s, KindResponse(s.nextAction), KindWorld(s)).Ok?
  {
    hide Live, Readable, EnvelopeFits, KindPlan, SchemaAccepts, NonemptyStringArray, CommandTexts,
      KindWorld, DistinctNonblank, Blank;
    RoundIsPositive(s);
    ContractsAreThere(s);
    KindPlanHolds(s);
    var m := Message(AuthoritativeEnvelope(s, PlanReady, None, None, None), KindPlan(s));
    PlanIs(s);
    EnvelopeIsSound(s, PlanReady, None, None, None, KindPlan(s));
    assert Valid(m);
    AuditRemains(s, m);
    assert forall i | 0 <= i < |s.policy.requiredTests| ::
      s.policy.requiredTests[i] in s.policy.requiredTests;
  }

  lemma PlanIs(s: State)
    requires s.plan.primaryContract.Some? && s.plan.reviewerContract.Some?
    ensures PlanMessage(s, CHECK)
      == Ok(Message(AuthoritativeEnvelope(s, PlanReady, None, None, None), KindPlan(s)))
  {
    CheckIsVisible();
  }

  lemma PlanApprovalNormalises(s: State)
    requires Ready(s) && Hospitable(s) && s.nextAction == RequestReviewerPlanVerdict
    ensures Normalize(s, KindResponse(s.nextAction), KindWorld(s)).Ok?
  {
    hide Live, Readable, EnvelopeFits, SchemaAccepts, KindWorld, CanonicalHash;
    RoundIsPositive(s);
    PlanIsThere(s);
    var m := PlanApprovalMessage(s, "").value;
    EnvelopeIsSound(s, ApprovedPlan, None, None, None, m.payload);
    assert IsHex(CanonicalHash(s.plan.payload.value), 64) by { HashIsHex(s.plan.payload.value, s); }
    ApprovalPayload(s);
    assert Valid(m);
    AuditRemains(s, m);
  }

  lemma PlanIsThere(s: State)
    requires Live(s) && s.nextAction == RequestReviewerPlanVerdict
    ensures s.plan.payload.Some? && s.plan.revision.Some? && 0 < s.plan.revision.value
  {
    hide ResultFits, PlanShape, CanonicalHash;
  }

  lemma HashIsHex(v: Value, s: State)
    requires Hospitable(s)
    ensures IsHex(CanonicalHash(v), 64)
  {
    hide IsHex, CanonicalDoc;
  }

  lemma ApprovalPayload(s: State)
    requires s.plan.payload.Some? && s.plan.revision.Some?
    ensures var p := PlanApprovalMessage(s, "").value.payload;
      && Get(p, "approved_plan_revision") == Some(Number(s.plan.revision.value))
      && GetString(p, "approved_primary_sha") == Some(s.facts.primarySha)
      && GetString(p, "approved_reviewer_sha") == Some(s.facts.reviewerSha)
      && GetString(p, "approved_plan_hash") == Some(CanonicalHash(s.plan.payload.value))
      && Get(p, "uncovered_items") == Some(Array([]))
  {
    hide CanonicalHash;
  }

  lemma IntegrationNormalises(s: State)
    requires Ready(s) && Hospitable(s) && s.nextAction == RequestPrimaryIntegration
    ensures Normalize(s, KindResponse(s.nextAction), KindWorld(s)).Ok?
    ensures !UnchangedSha(s, Normalize(s, KindResponse(s.nextAction), KindWorld(s)).value)
  {
    hide Live, Readable, EnvelopeFits, SchemaAccepts, OtherSha, Markdown, Strings, CommandTexts;
    RoundIsPositive(s);
    ShasFit(s.result.sha);
    var m := IntegrationMessage(s, "", KindWorld(s)).value;
    var sha := Some(OtherSha(s.result.sha));
    assert NonemptyIfPresent(s.policy.targetBranch) by { TargetIsNonempty(s); }
    EnvelopeIsSound(s, IntegrationReady, None, s.policy.targetBranch, sha, m.payload);
    assert IsSha(OtherSha(s.result.sha)) && OtherSha(s.result.sha) != "";
    assert Valid(m);
    AuditRemains(s, m);
    CommandsOfStrings([]);
    assert GetArray(m.payload, "changed_files") == Some(Strings([]).items) by { StringsAreArray([]); }
  }

  lemma StringsAreArray(texts: seq<string>)
    ensures Strings(texts).Array?
  {
  }

  lemma TargetIsNonempty(s: State)
    requires EnvelopeFits(s)
    ensures NonemptyIfPresent(s.policy.targetBranch) && NonemptyIfPresent(s.result.branch)
    ensures s.result.sha.Some? ==> IsSha(s.result.sha.value)
  {
    hide FactsFit;
  }

  lemma VerificationNormalises(s: State)
    requires Ready(s) && Hospitable(s) && s.nextAction == RequestPrimaryVerification
    requires s.result.workspace.Some?
    ensures Normalize(s, KindResponse(s.nextAction), KindWorld(s)).Ok?
  {
    hide Live, EnvelopeFits, SchemaAccepts, CommandTexts, EvidenceUpTo, FailuresUpTo, VerifiedPayload,
      CorrectionOpen, ResultFits;
    RoundIsPositive(s);
    VerificationIsPlanned(s);
    PayloadIsObject(s);
    TargetIsNonempty(s);
    var m := VerificationMessage(s, "").value;
    EnvelopeIsSound(s, IntegrationReady, None, s.result.branch, s.result.sha, m.payload);
    ShaIsNonempty(s.result.sha.value);
    assert Valid(m);
    AuditRemains(s, m);
    var verified := VerifiedMessage(s, m, KindWorld(s));
    assert verified.Ok?;
    VerifiedKeepsChanges(s, "", KindWorld(s), verified.value);
  }

  lemma PayloadIsObject(s: State)
    requires Live(s) && s.result.sha.Some?
    ensures s.result.payload.Some? && s.result.payload.value.Object?
  {
    hide PlanFits, ActionFits;
  }

  lemma ShaIsNonempty(sha: string)
    ensures IsSha(sha) ==> sha != ""
  {
  }

  lemma ResultApprovalNormalises(s: State)
    requires Ready(s) && s.nextAction == RequestReviewerResultVerdict
    ensures Normalize(s, KindResponse(s.nextAction), KindWorld(s)).Ok?
  {
    hide Live, Readable, EnvelopeFits, SchemaAccepts, KindWorld;
    RoundIsPositive(s);
    VerdictIsPlanned(s);
    RevisionIsPositive(s);
    TargetIsNonempty(s);
    var m := ResultApprovalMessage(s, "").value;
    EnvelopeIsSound(s, ApprovedResult, None, s.result.branch, s.result.sha, m.payload);
    ShaIsNonempty(s.result.sha.value);
    ResultApprovalPayload(s);
    assert Valid(m);
    AuditRemains(s, m);
  }

  lemma RevisionIsPositive(s: State)
    requires Live(s) && EnvelopeFits(s) && s.plan.approved
    ensures s.plan.revision.Some? && 0 < s.plan.revision.value
  {
    hide ResultFits, PlanShape, CanonicalHash, ActionFits, FactsFit;
  }

  lemma ResultApprovalPayload(s: State)
    requires s.result.branch.Some? && s.result.sha.Some? && s.plan.revision.Some?
    ensures var p := ResultApprovalMessage(s, "").value.payload;
      && Get(p, "approved_plan_revision") == Some(Number(s.plan.revision.value))
      && GetString(p, "approved_primary_sha") == Some(s.facts.primarySha)
      && GetString(p, "approved_reviewer_sha") == Some(s.facts.reviewerSha)
      && GetString(p, "approved_integration_branch") == s.result.branch
      && GetString(p, "approved_integration_sha") == s.result.sha
      && Get(p, "uncovered_items") == Some(Array([]))
  {
  }

  // ----- and leaves the run running

  lemma KindNormalises(s: State)
    requires Ready(s) && Hospitable(s) && ModelActionPending(s)
    requires s.nextAction == RequestPrimaryVerification ==> s.result.workspace.Some?
    ensures Normalize(s, KindResponse(s.nextAction), KindWorld(s)).Ok?
    ensures !UnchangedSha(s, Normalize(s, KindResponse(s.nextAction), KindWorld(s)).value)
  {
    hide Live, Readable, EnvelopeFits, Normalize, KindWorld, UnchangedSha, Hospitable;
    assert TEST_COMMAND_ALLOWED(CHECK) by { CheckIsAllowed(s); }
    match s.nextAction
    case RequestPrimaryContract =>
      ContractNormalises(s);
      OnlyIntegrationIsUnchanged(s);
    case RequestReviewerContract =>
      ContractNormalises(s);
      OnlyIntegrationIsUnchanged(s);
    case RequestPrimaryPlan =>
      PlanNormalises(s);
      OnlyIntegrationIsUnchanged(s);
    case RequestReviewerPlanVerdict =>
      PlanApprovalNormalises(s);
      OnlyIntegrationIsUnchanged(s);
    case RequestPrimaryIntegration => IntegrationNormalises(s);
    case RequestPrimaryVerification =>
      VerificationNormalises(s);
      OnlyIntegrationIsUnchanged(s);
    case RequestReviewerResultVerdict =>
      ResultApprovalNormalises(s);
      OnlyIntegrationIsUnchanged(s);
  }

  lemma CheckIsAllowed(s: State)
    requires Hospitable(s)
    ensures TEST_COMMAND_ALLOWED(CHECK)
  {
  }

  lemma OnlyIntegrationIsUnchanged(s: State)
    requires Live(s) && s.nextAction != RequestPrimaryIntegration
    ensures forall m :: !UnchangedSha(s, m)
  {
    hide Common, ActionFits;
  }

  lemma KindIsPromoted(s: State)
    requires ModelActionPending(s)
    ensures Promoted(s, KindResponse(s.nextAction), KindWorld(s)) == KindResponse(s.nextAction)
    ensures KindResponse(s.nextAction).signal != SignalBlocked
  {
  }

  /** The kind message is applied and leaves the run running. */
  lemma KindIsApplied(s: State, m: Message)
    requires Ready(s) && Hospitable(s) && ModelActionPending(s)
    requires s.nextAction == RequestPrimaryVerification ==> s.result.workspace.Some?
    requires Normalize(s, KindResponse(s.nextAction), KindWorld(s)) == Ok(m)
    ensures ApplyMessage(s, m).Ok? && ApplyMessage(s, m).value.status == Running
  {
    hide Live, Readable, EnvelopeFits, Normalize, ApplyMessage, Promoted, MadeFrom, UnchangedSha, Blank;
    var r, w := KindResponse(s.nextAction), KindWorld(s);
    KindNormalises(s);
    KindIsPromoted(s);
    TurnIsVisible();
    AnswerIsAccepted(s, r, w, m);
    ResponseKind(s, r, w, m);
    var next := ApplyMessage(s, m).value;
    if s.nextAction == RequestPrimaryVerification {
      KindVerificationRuns(s, m, next);
    } else {
      KindIsNoRejection(s, m);
      KindMessageRuns(s, r.body, w, m, next);
    }
  }

  lemma KindMessageRuns(s: State, body: string, w: World, m: Message, next: State)
    requires Live(s) && MadeFrom(s, body, w, m) && s.nextAction != RequestPrimaryVerification
    requires m.envelope.messageType != ChangesRequired
    requires ApplyMessage(s, m) == Ok(next)
    ensures next.status == Running
  {
    hide Common, Valid, Markdown, ApplyVerification, StringArrayField, FreezeTests, CanonicalHash,
      VerifyImmutableEnvelope;
  }

  lemma KindIsNoRejection(s: State, m: Message)
    requires ModelActionPending(s) && s.nextAction != RequestPrimaryVerification
    requires Normalize(s, KindResponse(s.nextAction), KindWorld(s)) == Ok(m)
    ensures m.envelope.messageType != ChangesRequired
  {
    hide Valid, Markdown, CanonicalHash, KindWorld, CommandTexts;
  }

  lemma KindVerificationRuns(s: State, m: Message, next: State)
    requires Live(s) && s.nextAction == RequestPrimaryVerification
    requires MadeFrom(s, "", KindWorld(s), m) && ApplyMessage(s, m) == Ok(next)
    ensures next.status == Running
  {
    hide Live, Valid, VerificationMessage, VerifiedMessage, ParseEvidence, EvidenceUpTo, Complete,
      MachineFeedback, VerifyImmutableEnvelope, KindWorld;
    VerificationIsPlanned(s);
    VerifiedEvidence(s, "", KindWorld(s), m);
    PassesPass(s);
    VerificationIsReported(s, "");
    MessageIsVerification(s, m, VerificationMessage(s, "").value, KindWorld(s), next);
  }

  lemma VerificationIsReported(s: State, body: string)
    requires VerificationMessage(s, body).Ok?
    ensures VerificationMessage(s, body).value.envelope.messageType == IntegrationReady
  {
  }

  lemma PassesPass(s: State)
    requires s.result.workspace.Some?
    ensures KindWorld(s).outcomes == Ok(Passes(|s.policy.requiredTests|))
    ensures Passing(EvidenceUpTo(s, KindWorld(s), Passes(|s.policy.requiredTests|), |s.policy.requiredTests|))
  {
  }

  // ----- readiness is kept

  lemma {:induction false} FreezeKeepsTrimmed(required: seq<string>, commands: seq<string>)
    requires TrimmedNonblank(required) && TrimmedNonblank(commands)
    ensures TrimmedNonblank(FreezeTests(required, commands))
    decreases commands
  {
    if commands != [] {
      FreezeKeepsTrimmed(if commands[0] in required then required else required + [commands[0]], commands[1..]);
    }
  }

  /** Only declarations touch the frozen commands, and they add trimmed ones. */
  lemma MessageKeepsTrimmed(s: State, m: Message, next: State)
    requires TrimmedNonblank(s.policy.requiredTests) && ApplyMessage(s, m) == Ok(next)
    ensures TrimmedNonblank(next.policy.requiredTests)
    ensures m.envelope.messageType !in {ContractReady, PlanReady} ==> next.policy == s.policy
  {
    hide Valid, VerifyImmutableEnvelope, ParseEvidence, Complete, Passing, Fingerprint, TrimmedNonblank,
      StringArrayField, MachineFeedback, FreezeTests, CanonicalHash, VerifyBlockedEnvelope, CountReview;
    if m.envelope.messageType == ContractReady {
      var contract := Get(m.payload, "contract").value;
      StringArrayFieldIsTrimmed(contract, "tests");
      FreezeKeepsTrimmed(s.policy.requiredTests, StringArrayField(contract, "tests").value);
    } else if m.envelope.messageType == PlanReady {
      if Get(m.payload, "test_commands").Some? {
        StringArrayFieldIsTrimmed(m.payload, "test_commands");
        FreezeKeepsTrimmed(s.policy.requiredTests, StringArrayField(m.payload, "test_commands").value);
      } else {
        FreezeNothing(s.policy.requiredTests);
      }
    }
  }

  lemma FreezeNothing(required: seq<string>)
    ensures FreezeTests(required, []) == required
  {
  }

  lemma StepKeepsTrimmed(s: State, e: Event, next: State)
    requires TrimmedNonblank(s.policy.requiredTests) && Perform(s, e) == Ok(next)
    ensures TrimmedNonblank(next.policy.requiredTests)
  {
    hide Normalize, ApplyMessage, RetryTarget, FreezeTests, TrimAll, TrimmedNonblank;
    if e.Deliver? {
      MessageKeepsTrimmed(s, e.message, next);
    } else if e.Respond? {
      MessageKeepsTrimmed(s, Normalize(s, e.response, e.world).value, next);
    } else if e.Configure? {
      ConfiguredTestsAreTrimmed(e.commands);
    }
  }

  lemma ConfiguredTestsAreTrimmed(commands: seq<string>)
    requires forall i | 0 <= i < |commands| :: !Blank(commands[i])
    ensures TrimmedNonblank(FreezeTests([], TrimAll(commands)))
  {
    forall i | 0 <= i < |commands|
      ensures Trimmed(TrimAll(commands)[i]) && TrimAll(commands)[i] != ""
    {
      TrimIsProjection(commands[i]);
    }
    FreezeKeepsTrimmed([], TrimAll(commands));
  }

  lemma {:induction false} RunKeepsTrimmed(r: Run, n: nat)
    requires IsRun(r) && n <= |r.events|
    ensures TrimmedNonblank(r.states[n].policy.requiredTests)
  {
    hide Step, Perform, Linked;
    if n > 0 {
      RunKeepsTrimmed(r, n - 1);
      StepOf(r, n - 1);
      StepKeepsTrimmed(r.states[n - 1], r.events[n - 1], r.states[n]);
    }
  }

  /** The kind declarations add no command that the policy does not admit. */
  lemma KindKeepsHospitable(s: State, m: Message, next: State)
    requires Ready(s) && Hospitable(s) && ModelActionPending(s)
    requires Normalize(s, KindResponse(s.nextAction), KindWorld(s)) == Ok(m)
    requires ApplyMessage(s, m) == Ok(next)
    ensures Hospitable(next)
  {
    hide Live, Readable, EnvelopeFits, Normalize, ApplyMessage, MadeFrom, Promoted, TrimmedNonblank;
    MessageKeepsTrimmed(s, m, next);
    KindIsPromoted(s);
    ResponseKind(s, KindResponse(s.nextAction), KindWorld(s), m);
    if s.nextAction in {RequestPrimaryContract, RequestReviewerContract} {
      ContractAdds(s, m, next);
    } else if s.nextAction == RequestPrimaryPlan {
      PlanAdds(s, m, next);
    } else {
      OthersDeclareNothing(s, KindResponse(s.nextAction).body, KindWorld(s), m);
    }
  }

  lemma OthersDeclareNothing(s: State, body: string, w: World, m: Message)
    requires MadeFrom(s, body, w, m)
    requires s.nextAction !in {RequestPrimaryContract, RequestReviewerContract, RequestPrimaryPlan}
    ensures m.envelope.messageType !in {ContractReady, PlanReady}
  {
    hide Markdown, CanonicalHash, EvidenceUpTo, FailuresUpTo, VerifiedPayload;
  }

  lemma ContractAdds(s: State, m: Message, next: State)
    requires Ready(s) && s.nextAction in {RequestPrimaryContract, RequestReviewerContract}
    requires MadeFrom(s, "", KindWorld(s), m) && ApplyMessage(s, m) == Ok(next)
    ensures forall c | c in next.policy.requiredTests :: c in s.policy.requiredTests || c == CHECK
  {
    hide Readable, EnvelopeFits, Valid, VerifyImmutableEnvelope, FreezeTests, StringArrayField,
      CanonicalHash, KindContract, ResultFits, PlanFits, DistinctNonblank;
    var role := if s.nextAction == RequestPrimaryContract then "PRIMARY" else "REVIEWER";
    ContractIs(s, role);
    KindContractTests(role);
    var tests := StringArrayField(KindContract(role).fields["contract"], "tests").value;
    FreezeExtends(s.policy.requiredTests, tests);
  }

  lemma KindContractTests(role: string)
    ensures Get(KindContract(role), "contract").Some?
    ensures StringArrayField(KindContract(role).fields["contract"], "tests") == Ok([CHECK])
    ensures TrimmedNonblank([CHECK])
  {
    CheckIsVisible();
    KindContractHolds(role);
    var contract := KindContract(role).fields["contract"];
    assert Strings([CHECK]).items == [String(CHECK)];
    assert StringArrayField(contract, "tests").value == [CHECK];
    assert Trimmed(CHECK);
  }

  lemma PlanAdds(s: State, m: Message, next: State)
    requires Ready(s) && s.nextAction == RequestPrimaryPlan
    requires MadeFrom(s, CHECK, KindWorld(s), m) && ApplyMessage(s, m) == Ok(next)
    ensures forall c | c in next.policy.requiredTests :: c in s.policy.requiredTests
  {
    hide Live, Readable, EnvelopeFits, Valid, VerifyImmutableEnvelope, FreezeTests, StringArrayField,
      CanonicalHash, KindPlan, DistinctNonblank, TrimmedNonblank;
    ContractsAreThere(s);
    PlanIs(s);
    KindPlanTests(s);
    FreezeExtends(s.policy.requiredTests, s.policy.requiredTests);
    RoundIsPositive(s);
  }

  lemma KindPlanTests(s: State)
    requires s.plan.primaryContract.Some? && s.plan.primaryContract.value.Object?
    requires s.plan.reviewerContract.Some? && s.plan.reviewerContract.value.Object?
    requires s.policy.requiredTests != [] && DistinctNonblank(s.policy.requiredTests)
    requires TrimmedNonblank(s.policy.requiredTests)
    ensures StringArrayField(KindPlan(s), "test_commands") == Ok(s.policy.requiredTests)
    ensures Get(KindPlan(s), "test_commands").Some? && KindPlan(s).Object?
  {
    hide KindPlan;
    KindPlanHolds(s);
    var tests := s.policy.requiredTests;
    var values := GetArray(KindPlan(s), "test_commands").value;
    forall i | 0 <= i < |tests| ensures Trim(tests[i]) == tests[i] {
      TrimIsProjection(tests[i]);
    }
    assert CommandTexts(Some(values)).value == tests;
    assert forall i | 0 <= i < |tests| :: values[i].s == CommandTexts(Some(values)).value[i];
    assert StringArrayField(KindPlan(s), "test_commands").value == tests;
  }

  // ----- the way to acceptance

  lemma RunningIsReady(s: State)
    requires Inv(s) && s.status == Running && Readable(s) && EnvelopeFits(s)
    requires s.policy.targetBranch.Some? && TrimmedNonblank(s.policy.requiredTests)
    ensures Ready(s)
  {
    hide Inv, Live, Readable, EnvelopeFits;
    OnlyLiveIsDriven(s);
  }

  /** Only an integration leads to a verification, and the kind one lists its changed files. */
  lemma KindIsReadable(s: State, m: Message, next: State)
    requires Ready(s) && ModelActionPending(s)
    requires Normalize(s, KindResponse(s.nextAction), KindWorld(s)) == Ok(m)
    requires ApplyMessage(s, m) == Ok(next) && next.status == Running && Live(next)
    ensures Readable(next)
  {
    hide Live, Readable, EnvelopeFits, Normalize, ApplyMessage, V2Fits, Promoted, TrimmedNonblank;
    var r, w := KindResponse(s.nextAction), KindWorld(s);
    KindIsPromoted(s);
    ResponseKind(s, r, w, m);
    if s.nextAction == RequestPrimaryIntegration {
      IntegrationKeepsV2(s, r.body, w, m, next);
      V2IsReadable(next);
    } else {
      OnlyIntegrationIsVerified(s, m, next);
    }
  }

  lemma V2IsReadable(s: State)
    requires Live(s) && V2Fits(s)
    ensures Readable(s)
  {
    hide Common, CommandTexts, CorrectionOpen;
  }

  lemma OnlyIntegrationIsVerified(s: State, m: Message, next: State)
    requires Live(s) && s.nextAction != RequestPrimaryIntegration
    requires ApplyMessage(s, m) == Ok(next) && next.status == Running
    ensures Readable(next)
  {
    hide Valid, VerifyImmutableEnvelope, ParseEvidence, Complete, Passing, Fingerprint, StringArrayField,
      MachineFeedback, FreezeTests, CanonicalHash, VerifyBlockedEnvelope, CountReview, ChangesOnRecord,
      PlanFits, ResultFits, DistinctNonblank;
  }

  lemma WorkspaceKeepsPayload(s: State, next: State)
    requires Steps.PrepareVerificationWorkspace(s) == Ok(next)
    ensures Readable(next) == Readable(s)
  {
    hide CommandTexts;
  }

  /** The kind response to the pending action is one successful step. */
  lemma KindStep(s: State) returns (e: Event, next: State)
    requires Ready(s) && Hospitable(s) && ModelActionPending(s)
    requires s.nextAction == RequestPrimaryVerification ==> s.result.workspace.Some?
    ensures e.Respond? && Step(s, e) == Ok(next)
    ensures Ready(next) && Hospitable(next) && Measure(next) < Measure(s)
  {
    hide Inv, Live, Readable, EnvelopeFits, Normalize, ApplyMessage, Hospitable, Measure, Step, KindWorld,
      KindResponse, TrimmedNonblank;
    var r, w := KindResponse(s.nextAction), KindWorld(s);
    KindNormalises(s);
    var m := Normalize(s, r, w).value;
    KindIsApplied(s, m);
    e, next := Respond(r, w), ApplyMessage(s, m).value;
    assert Perform(s, e) == Ok(next);
    LiveIsInv(s);
    PerformedStep(s, e, next);
    OnlyLiveIsDriven(next);
    KindIsReadable(s, m, next);
    MessageKeepsEnvelope(s, m, next);
    IdentityComesFromMessage(s, m, next);
    MessageKeepsTrimmed(s, m, next);
    KindKeepsHospitable(s, m, next);
    RunningIsReady(next);
    MessageDescends(s, m, next);
  }

  lemma LiveIsInv(s: State)
    requires Live(s)
    ensures Inv(s)
  {
    hide Live;
  }

  lemma WorkspaceStep(s: State) returns (next: State)
    requires Ready(s) && Hospitable(s)
    requires s.nextAction == RequestPrimaryVerification && s.result.workspace.None?
    ensures Step(s, PrepareWorkspace) == Ok(next)
    ensures Ready(next) && Hospitable(next) && Measure(next) == Measure(s)
    ensures next.result.workspace.Some? && next.nextAction == s.nextAction
  {
    hide Inv, Live, Readable, EnvelopeFits, Step, TrimmedNonblank, Measure;
    VerificationIsPlanned(s);
    next := Steps.PrepareVerificationWorkspace(s).value;
    assert Perform(s, PrepareWorkspace) == Ok(next);
    LiveIsInv(s);
    PerformedStep(s, PrepareWorkspace, next);
    assert Readable(next) by { WorkspaceKeepsPayload(s, next); }
    StepKeepsEnvelope(s, PrepareWorkspace, next);
    RunningIsReady(next);
    MeasureDependsOn(s, next);
  }

  lemma LastStep(s: State) returns (next: State)
    requires Ready(s) && s.nextAction == RevalidateAndAccept
    ensures Step(s, Revalidated) == Ok(next) && next.status == Accepted
  {
    hide Inv, Live, Step, Readable, EnvelopeFits, Complete, Passing;
    ApprovedIsVerified(s);
    next := AcceptAfterRevalidation(s).value;
    assert Perform(s, Revalidated) == Ok(next);
    LiveIsInv(s);
    PerformedStep(s, Revalidated, next);
  }

  lemma ApprovedIsVerified(s: State)
    requires Live(s) && s.nextAction == RevalidateAndAccept
    ensures s.result.approvedSha == s.result.sha && s.result.branch.Some? && s.result.sha.Some?
    ensures Complete(s.policy.requiredTests, s.result.evidence) && Passing(s.result.evidence)
  {
    hide PlanFits, DistinctNonblank;
  }

  lemma OneStep(s: State, e: Event, t: State)
    requires Step(s, e) == Ok(t)
    ensures Follow(s, [e]) == Ok(t)
  {
    hide Step;
    assert [e][..0] == [];
    FollowNothing(s);
  }

  lemma LiveActions(s: State)
    requires Live(s)
    ensures ModelActionPending(s) || s.nextAction == RevalidateAndAccept
  {
    hide Common;
  }

  /** From every ready state the participants can reach acceptance, and no v1 envelope is needed. */
  lemma {:induction false} CanBeAccepted(s: State) returns (events: seq<Event>, t: State)
    requires Ready(s) && Hospitable(s)
    ensures Follow(s, events) == Ok(t) && t.status == Accepted
    ensures forall e | e in events :: e.Respond? || e.PrepareWorkspace? || e.Revalidated?
    decreases Measure(s), if s.result.workspace.None? then 1 else 0
  {
    hide Live, Readable, EnvelopeFits, Hospitable, Measure, Step, Follow, TrimmedNonblank;
    LiveActions(s);
    MeasureIsBounded(s);
    var e: Event, next: State, rest: seq<Event>;
    if s.nextAction == RevalidateAndAccept {
      t := LastStep(s);
      OneStep(s, Revalidated, t);
      events := [Revalidated];
    } else {
      if s.nextAction == RequestPrimaryVerification && s.result.workspace.None? {
        next := WorkspaceStep(s);
        e := PrepareWorkspace;
      } else {
        e, next := KindStep(s);
      }
      MeasureIsBounded(next);
      rest, t := CanBeAccepted(next);
      OneStep(s, e, next);
      Joined(s, [e], next, rest, t);
      events := [e] + rest;
    }
  }

  lemma ConfiguredStep(facts: Facts, branch: string) returns (next: State)
    requires FactsFit(facts) && !Blank(branch) && Hospitable(Initial(facts))
    ensures Step(Initial(facts), Configure(branch, [])) == Ok(next)
    ensures Ready(next) && Hospitable(next)
  {
    hide Inv, Step, Live, EnvelopeFits, FactsFit, Blank;
    var s, e := Initial(facts), Configure(branch, []);
    assert TrimAll([]) == [];
    next := s.(policy := Policy(Some(branch), []));
    assert Perform(s, e) == Ok(next) by { ConfigureFirst(s, branch); }
    InitialInv(facts);
    PerformedStep(s, e, next);
    assert EnvelopeFits(s) by { InitialEnvelope(facts); }
    StepKeepsEnvelope(s, e, next);
    RunningIsReady(next);
  }

  lemma ConfigureFirst(s: State, branch: string)
    requires s == Initial(s.facts) && !Blank(branch)
    ensures Perform(s, Configure(branch, [])) == Ok(s.(policy := Policy(Some(branch), [])))
  {
    assert TrimAll([]) == [];
  }

  lemma InitialEnvelope(facts: Facts)
    requires FactsFit(facts)
    ensures EnvelopeFits(Initial(facts))
  {
    hide FactsFit;
  }

  /** For any facts and any target branch there is an accepted run. */
  lemma SomeRunIsAccepted(facts: Facts, branch: string) returns (r: Run)
    requires FactsFit(facts) && !Blank(branch) && Hospitable(Initial(facts))
    ensures IsRun(r) && r.facts == facts && r.states[|r.events|].status == Accepted
    ensures r.events != [] && r.events[0] == Configure(branch, [])
  {
    hide Step, Ready, Hospitable, FactsFit, Blank, Follow, Initial;
    var first := ConfiguredStep(facts, branch);
    var rest, t := CanBeAccepted(first);
    OneStep(Initial(facts), Configure(branch, []), first);
    Joined(Initial(facts), [Configure(branch, [])], first, rest, t);
    r := FollowedIsRun(facts, [Configure(branch, [])] + rest, t);
  }
}
