/** Which v2 responses become messages, and what these messages say. */
module Responses {
  import opened Wrappers
  import opened Text
  import opened Json
  import opened Canonical
  import opened RunTypes
  import opened Protocol
  import opened Participants
  import opened Machine
  import opened Retries
  import opened Normalisation
  import opened Invariant
  import opened Steps
  import opened Runs
  import opened Recovery
  import opened Windows
  import opened Acceptance
  import opened Completion

  // ----- what a message says

  /** The identity in every envelope is that of the run. */
  predicate IsFromRun(s: State, m: Message) {
    var e := m.envelope;
    && e.protocol == "worktree-merge-consensus/v1"
    && e.runId == s.facts.runId
    && e.phase == s.phase
    && e.round == s.round
    && e.primarySha == s.facts.primarySha
    && e.reviewerSha == s.facts.reviewerSha
    && e.planRevision == s.plan.revision
  }

  predicate NamesResult(m: Message, branch: Option<string>, sha: Option<string>) {
    m.envelope.branch == branch && m.envelope.sha == sha
  }

  predicate SaysMarkdown(v: Value, key: string, body: string) {
    GetString(v, "format") == Some("markdown") && GetString(v, key) == Some(body)
  }

  predicate ListsTexts(v: Value, key: string, texts: seq<string>) {
    var items := GetArray(v, key);
    && items.Some?
    && |items.value| == |texts|
    && forall i | 0 <= i < |texts| :: items.value[i] == String(texts[i])
  }

  predicate NamesFrozenCommits(s: State, v: Value) {
    && s.plan.revision.Some?
    && Get(v, "approved_plan_revision") == Some(Number(s.plan.revision.value))
    && GetString(v, "approved_primary_sha") == Some(s.facts.primarySha)
    && GetString(v, "approved_reviewer_sha") == Some(s.facts.reviewerSha)
    && GetArray(v, "uncovered_items") == Some([])
  }

  /** The participant's text, and what the coordinator adds to it, for each message. */
  predicate SaysResponse(s: State, signal: Signal, body: string, w: World, m: Message) {
    var p := m.payload;
    match signal
    case SignalContract =>
      && m.envelope.messageType == ContractReady
      && NamesResult(m, None, None)
      && w.contract.Some?
      && Get(p, "contract") == w.contract
      && GetString(p, "role") == Some(if s.nextAction == RequestPrimaryContract then "PRIMARY" else "REVIEWER")
    case SignalPlan =>
      && m.envelope.messageType == PlanReady
      && NamesResult(m, None, None)
      && Get(p, "plan").Some? && SaysMarkdown(Get(p, "plan").value, "content", body)
      && s.plan.primaryContract.Some? && Get(p, "primary_contract") == s.plan.primaryContract
      && s.plan.reviewerContract.Some? && Get(p, "reviewer_contract") == s.plan.reviewerContract
      && ListsTexts(p, "test_commands", s.policy.requiredTests)
      && GetArray(p, "coverage_matrix") == Some([])
    case SignalApproved =>
      && NamesFrozenCommits(s, p)
      && GetString(p, "review_markdown") == Some(body)
      && if s.nextAction == RequestReviewerPlanVerdict then
           && m.envelope.messageType == ApprovedPlan
           && NamesResult(m, None, None)
           && s.plan.payload.Some?
           && GetString(p, "approved_plan_hash") == Some(CanonicalHash(s.plan.payload.value))
         else
           && m.envelope.messageType == ApprovedResult
           && s.result.branch.Some? && s.result.sha.Some?
           && NamesResult(m, s.result.branch, s.result.sha)
           && GetString(p, "approved_integration_branch") == s.result.branch
           && GetString(p, "approved_integration_sha") == s.result.sha
    case SignalChanges =>
      && m.envelope.messageType == ChangesRequired
      && m.envelope.reasonCode == Some("REVIEW_CHANGES_REQUIRED")
      && SaysMarkdown(p, "feedback", body)
      && if s.nextAction == RequestReviewerPlanVerdict then NamesResult(m, None, None)
         else NamesResult(m, s.result.branch, s.result.sha)
    case SignalIntegration =>
      && m.envelope.messageType == IntegrationReady
      && w.gitResult.Ok?
      && NamesResult(m, s.policy.targetBranch, Some(w.gitResult.value.0))
      && ListsTexts(p, "changed_files", w.gitResult.value.1)
      && Get(p, "integration_evidence").Some?
      && SaysMarkdown(Get(p, "integration_evidence").value, "summary", body)
    case SignalVerification =>
      && m.envelope.messageType == IntegrationReady
      && NamesResult(m, s.result.branch, s.result.sha)
      && s.result.payload.Some? && s.result.payload.value.Object? && p.Object?
      && GetString(p, "verification_summary") == Some(body)
      && forall key | key in p.fields.Keys + s.result.payload.value.fields.Keys ::
           key !in {"test_evidence", "verification_failures", "verification_summary"} ==>
             Get(p, key) == Get(s.result.payload.value, key)
    case SignalBlocked =>
      && m.envelope.messageType == BlockedMessage
      && NamesResult(m, s.result.branch, s.result.sha)
      && SaysMarkdown(p, "feedback", body)
  }

  /** The response counts as an integration: it says so, or it is the Primary's report that the one patch
      of this request is used up, after that patch was made. */
  predicate ReportsIntegration(s: State, r: Response, w: World) {
    && s.nextAction == RequestPrimaryIntegration
    && (|| r.signal == SignalIntegration
        || (r.signal == SignalBlocked && r.blockedReason == Some("PATCH_LIMIT_REACHED") && w.patchRecorded))
  }

  /** The body of such a report ends with what the Primary wrote. */
  lemma PostPatchEnds(evidence: string)
    ensures exists front :: PostPatchBody(evidence) == front + evidence
  {
    hide HANDED_OVER, PATCH_USED_UP, PATCH_HAS_DEFECT, KNOWN_ISSUE;
    var body := PostPatchBody(evidence);
    if evidence == "" {
      assert body == body + evidence;
    } else {
      assert body == (PATCH_HAS_DEFECT + HANDED_OVER + KNOWN_ISSUE) + evidence;
    }
  }

  lemma PromotionReports(s: State, r: Response, w: World)
    ensures ReportsIntegration(s, r, w) && r.signal == SignalBlocked ==>
      && Promoted(s, r, w).signal == SignalIntegration
      && exists front :: Promoted(s, r, w).body == front + Trim(r.body)
    ensures !(ReportsIntegration(s, r, w) && r.signal == SignalBlocked) ==> Promoted(s, r, w) == r
  {
    hide Trim, PostPatchBody;
    PostPatchEnds(Trim(r.body));
  }

  lemma MarkdownSays(key: string, body: string)
    requires key != "format"
    ensures Markdown(key, body).Object? && SaysMarkdown(Markdown(key, body), key, body)
  {
  }

  lemma StringsList(v: Value, key: string, texts: seq<string>)
    requires Get(v, key) == Some(Strings(texts))
    ensures ListsTexts(v, key, texts)
  {
  }

  lemma ContractSays(s: State, role: string, w: World, m: Message)
    requires s.nextAction in {RequestPrimaryContract, RequestReviewerContract}
    requires role == if s.nextAction == RequestPrimaryContract then "PRIMARY" else "REVIEWER"
    requires ContractMessage(s, role, w) == Ok(m)
    ensures IsFromRun(s, m) && SaysResponse(s, SignalContract, "", w, m)
    ensures forall body :: SaysResponse(s, SignalContract, body, w, m)
  {
  }

  lemma PlanSays(s: State, body: string, w: World, m: Message)
    requires PlanMessage(s, body) == Ok(m)
    ensures IsFromRun(s, m) && SaysResponse(s, SignalPlan, body, w, m)
  {
    hide Markdown, Blank, SaysMarkdown, ListsTexts;
    MarkdownSays("content", body);
    assert Get(m.payload, "test_commands") == Some(Strings(s.policy.requiredTests));
    StringsList(m.payload, "test_commands", s.policy.requiredTests);
  }

  lemma PlanApprovalSays(s: State, body: string, w: World, m: Message)
    requires s.plan.revision.Some? && s.nextAction == RequestReviewerPlanVerdict
    requires PlanApprovalMessage(s, body) == Ok(m)
    ensures IsFromRun(s, m) && SaysResponse(s, SignalApproved, body, w, m)
  {
    hide CanonicalHash;
  }

  lemma ResultApprovalSays(s: State, body: string, w: World, m: Message)
    requires s.plan.revision.Some? && s.nextAction != RequestReviewerPlanVerdict
    requires ResultApprovalMessage(s, body) == Ok(m)
    ensures IsFromRun(s, m) && SaysResponse(s, SignalApproved, body, w, m)
  {
    hide CanonicalHash;
  }

  lemma ChangesSay(s: State, body: string, w: World, m: Message)
    requires ChangesMessage(s, body, s.nextAction != RequestReviewerPlanVerdict) == Ok(m)
    ensures IsFromRun(s, m) && SaysResponse(s, SignalChanges, body, w, m)
  {
    hide Markdown, Blank, SaysMarkdown;
    MarkdownSays("feedback", body);
  }

  lemma IntegrationSays(s: State, body: string, w: World, m: Message)
    requires IntegrationMessage(s, body, w) == Ok(m)
    ensures IsFromRun(s, m) && SaysResponse(s, SignalIntegration, body, w, m)
  {
    hide Markdown, SaysMarkdown, ListsTexts;
    MarkdownSays("summary", body);
    StringsList(m.payload, "changed_files", w.gitResult.value.1);
  }

  lemma VerificationSays(s: State, body: string, w: World, m: Message)
    requires VerificationMessage(s, body).Ok?
    requires VerifiedMessage(s, VerificationMessage(s, body).value, w) == Ok(m)
    ensures IsFromRun(s, m) && SaysResponse(s, SignalVerification, body, w, m)
  {
    hide EvidenceUpTo, FailuresUpTo, EvidenceValues, FailureValues;
  }

  lemma BlockedSays(s: State, r: Response, w: World)
    ensures var m := BlockedMessageOf(s, r);
      && IsFromRun(s, m)
      && SaysResponse(s, SignalBlocked, r.body, w, m)
      && m.envelope.reasonCode
        == Some(if r.blockedReason.Some? then r.blockedReason.value else "PARTICIPANT_BLOCKED")
  {
    hide Markdown, SaysMarkdown;
    MarkdownSays("feedback", r.body);
  }

  lemma MadeFromSays(s: State, r: Response, w: World, m: Message)
    requires s.nextAction in {RequestReviewerPlanVerdict, RequestReviewerResultVerdict} ==> s.plan.revision.Some?
    requires MarkerMessage(s, r, w) == Ok(m) && r.signal != SignalVerification
    ensures IsFromRun(s, m) && SaysResponse(s, r.signal, r.body, w, m)
    ensures r.signal == SignalBlocked ==>
      m.envelope.reasonCode == Some(if r.blockedReason.Some? then r.blockedReason.value else "PARTICIPANT_BLOCKED")
  {
    hide ContractMessage, PlanMessage, PlanApprovalMessage, ChangesMessage, IntegrationMessage,
      ResultApprovalMessage, BlockedMessageOf, IsFromRun, SaysResponse;
    match r.signal
    case SignalContract =>
      ContractSays(s, if s.nextAction == RequestPrimaryContract then "PRIMARY" else "REVIEWER", w, m);
    case SignalPlan => PlanSays(s, r.body, w, m);
    case SignalApproved =>
      if s.nextAction == RequestReviewerPlanVerdict {
        PlanApprovalSays(s, r.body, w, m);
      } else {
        ResultApprovalSays(s, r.body, w, m);
      }
    case SignalChanges => ChangesSay(s, r.body, w, m);
    case SignalIntegration => IntegrationSays(s, r.body, w, m);
    case SignalBlocked => BlockedSays(s, r, w);
    case _ =>
  }

  lemma NormalizedIsMarker(s: State, r: Response, w: World, m: Message)
    requires Normalize(s, r, w) == Ok(m)
    ensures if Promoted(s, r, w).signal == SignalVerification then
        && VerificationMessage(s, Promoted(s, r, w).body).Ok?
        && VerifiedMessage(s, VerificationMessage(s, Promoted(s, r, w).body).value, w) == Ok(m)
      else MarkerMessage(s, Promoted(s, r, w), w) == Ok(m)
  {
    hide Valid, PostPatchBody;
  }

  /** What a v2 response becomes says what the participant said, on behalf of the run. */
  lemma MessageSaysResponse(s: State, r: Response, w: World, m: Message)
    requires Live(s) && Normalize(s, r, w) == Ok(m)
    ensures IsFromRun(s, m)
    ensures SaysResponse(s, Promoted(s, r, w).signal, Promoted(s, r, w).body, w, m)
    ensures Promoted(s, r, w).signal == SignalBlocked ==>
      m.envelope.reasonCode == Some(if r.blockedReason.Some? then r.blockedReason.value else "PARTICIPANT_BLOCKED")
  {
    hide Live, Normalize, MarkerMessage, VerificationMessage, VerifiedMessage, IsFromRun, SaysResponse,
      PostPatchBody;
    NormalizedIsMarker(s, r, w, m);
    PromotionReports(s, r, w);
    if Promoted(s, r, w).signal == SignalVerification {
      VerificationSays(s, Promoted(s, r, w).body, w, m);
    } else {
      VerdictHasRevision(s);
      MadeFromSays(s, Promoted(s, r, w), w, m);
    }
  }

  lemma VerdictHasRevision(s: State)
    requires Live(s)
    ensures s.nextAction in {RequestReviewerPlanVerdict, RequestReviewerResultVerdict} ==> s.plan.revision.Some?
  {
    hide PlanShape, CanonicalHash, DistinctNonblank, Complete, Passing;
  }

  // ----- which responses become messages

  /** A contract with at least one test command, all of them admitted. */
  predicate IsContract(contract: Option<Value>) {
    && contract.Some?
    && contract.value.Object?
    && var tests := GetArray(contract.value, "tests");
      && tests.Some?
      && tests.value != []
      && forall i | 0 <= i < |tests.value| ::
        tests.value[i].String? && !Blank(tests.value[i].s) && TEST_COMMAND_ALLOWED(tests.value[i].s)
  }

  /** The response is one that the pending action asks for, and what has to be looked up for it is in
      order. A refusal always is. */
  predicate Acceptable(s: State, r: Response, w: World) {
    if ReportsIntegration(s, r, w) then
      && s.policy.targetBranch.Some?
      && w.gitResult.Ok? && IsSha(w.gitResult.value.0)
      && w.audit.Pass?
      && w.gitCheck.Pass?
    else if r.signal == SignalBlocked then
      ModelActionPending(s)
    else
      match s.nextAction
      case RequestPrimaryContract => r.signal == SignalContract && IsContract(w.contract)
      case RequestReviewerContract => r.signal == SignalContract && IsContract(w.contract)
      case RequestPrimaryPlan =>
        && r.signal == SignalPlan
        && !Blank(r.body)
        && forall c | c in s.policy.requiredTests :: TEST_COMMAND_ALLOWED(c)
      case RequestReviewerPlanVerdict =>
        r.signal == SignalApproved || (r.signal == SignalChanges && !Blank(r.body))
      case RequestPrimaryVerification =>
        && r.signal == SignalVerification
        && s.result.workspace.Some?
        && w.outcomes.Ok? && |w.outcomes.value| == |s.policy.requiredTests|
        && ChangesOnRecord(s)
        && w.gitCheck.Pass?
      case RequestReviewerResultVerdict =>
        r.signal == SignalApproved || (r.signal == SignalChanges && !Blank(r.body))
      case _ => false
  }

  /** The message is valid once its invariants are, as its envelope and payload are sound. */
  lemma SoundIsValid(s: State, messageType: MessageType, reason: Option<string>,
                     branch: Option<string>, sha: Option<string>, payload: Value)
    requires Live(s) && EnvelopeFits(s) && payload.Object? && NonemptyIfPresent(reason)
    requires NonemptyIfPresent(branch) && (sha.Some? ==> IsSha(sha.value))
    ensures var m := Message(AuthoritativeEnvelope(s, messageType, reason, branch, sha), payload);
      Valid(m) <==> InvariantsHold(m)
  {
    hide Live, EnvelopeFits, SchemaAccepts, InvariantsHold;
    RoundIsPositive(s);
    EnvelopeIsSound(s, messageType, reason, branch, sha, payload);
  }

  lemma BadShaIsInvalid(m: Message)
    requires m.envelope.sha.Some? && !IsSha(m.envelope.sha.value)
    ensures !Valid(m)
  {
    hide InvariantsHold, IsSha, IsRunId;
  }

  lemma DeclarationIsVerified(s: State, m: Message, w: World, texts: seq<string>)
    requires m.envelope.messageType in {ContractReady, PlanReady} && DeclaredTests(m) == Ok(texts)
    ensures VerifyEvidence(s, m, w).Ok? <==> AllAdmitted(texts)
  {
    hide CommandTexts, DeclaredTests, AllAdmitted;
  }

  lemma ItemsAreAdmitted(items: seq<Value>, texts: seq<string>)
    requires |texts| == |items| && forall i | 0 <= i < |items| :: items[i] == String(texts[i])
    ensures AllAdmitted(texts) <==> forall i | 0 <= i < |items| :: TEST_COMMAND_ALLOWED(items[i].s)
  {
    if AllAdmitted(texts) {
      forall i | 0 <= i < |items| ensures TEST_COMMAND_ALLOWED(items[i].s) {
        assert items[i].s == texts[i];
      }
    }
    if forall i | 0 <= i < |items| :: TEST_COMMAND_ALLOWED(items[i].s) {
      forall i | 0 <= i < |texts| ensures TEST_COMMAND_ALLOWED(texts[i]) {
        assert items[i].s == texts[i];
      }
    }
  }

  lemma AdmittedMeans(commands: seq<string>)
    ensures AllAdmitted(commands) <==> forall c | c in commands :: TEST_COMMAND_ALLOWED(c)
  {
    if forall c | c in commands :: TEST_COMMAND_ALLOWED(c) {
      forall i | 0 <= i < |commands| ensures TEST_COMMAND_ALLOWED(commands[i]) {
        assert commands[i] in commands;
      }
    }
  }

  lemma ContractFollows(s: State, role: string, w: World)
    requires Live(s) && EnvelopeFits(s) && s.nextAction in {RequestPrimaryContract, RequestReviewerContract}
    ensures var m := ContractMessage(s, role, w);
      m.Ok? && Valid(m.value) && VerifyEvidence(s, m.value, w).Ok? <==> IsContract(w.contract)
  {
    hide Live, EnvelopeFits, Valid, SchemaAccepts, Blank, IsSha, AllAdmitted;
    RoundIsPositive(s);
    if w.contract.Some? && w.contract.value.Object? {
      var m := ContractMessage(s, role, w).value;
      SoundIsValid(s, ContractReady, None, None, None, m.payload);
      assert Get(m.payload, "contract") == w.contract && m.payload.fields["contract"] == w.contract.value;
      var tests := GetArray(w.contract.value, "tests");
      assert DeclaredTests(m) == CommandTexts(tests);
      if tests.Some? && forall i | 0 <= i < |tests.value| :: tests.value[i].String? {
        var texts := CommandTexts(tests).value;
        assert forall i | 0 <= i < |texts| :: texts[i] == tests.value[i].s;
        assert DeclaredTests(m) == Ok(texts) && |texts| == |tests.value|;
        assert InvariantsHold(m) <==> tests.value != [] && NonblankStrings(tests.value);
        DeclarationIsVerified(s, m, w, texts);
        ItemsAreAdmitted(tests.value, texts);
      }
    }
  }

  lemma PlanFollows(s: State, body: string, w: World)
    requires Live(s) && EnvelopeFits(s) && s.nextAction == RequestPrimaryPlan
    ensures var m := PlanMessage(s, body);
      m.Ok? && Valid(m.value) && VerifyEvidence(s, m.value, w).Ok? <==>
        !Blank(body) && forall c | c in s.policy.requiredTests :: TEST_COMMAND_ALLOWED(c)
  {
    hide Live, EnvelopeFits, Valid, SchemaAccepts, Blank, IsSha, Markdown, AllAdmitted, VerifyEvidence;
    RoundIsPositive(s);
    ContractsAreThere(s);
    MarkdownSays("content", body);
    if !Blank(body) {
      var m := PlanMessage(s, body).value;
      SoundIsValid(s, PlanReady, None, None, None, m.payload);
      assert Get(m.payload, "plan") == Some(Markdown("content", body));
      assert Get(m.payload, "coverage_matrix") == Some(Array([]));
      var tests := s.policy.requiredTests;
      assert Get(m.payload, "test_commands") == Some(Strings(tests));
      CommandsOfStrings(tests);
      DeclarationIsVerified(s, m, w, tests);
      AdmittedMeans(tests);
    }
  }

  lemma PlanApprovalFollows(s: State, body: string, w: World)
    requires Live(s) && EnvelopeFits(s) && s.nextAction == RequestReviewerPlanVerdict
    requires forall d: Doc :: IsHex(SHA256_HEX(d), 64)
    ensures PlanApprovalMessage(s, body).Ok? && Valid(PlanApprovalMessage(s, body).value)
    ensures VerifyEvidence(s, PlanApprovalMessage(s, body).value, w).Ok?
  {
    hide Live, EnvelopeFits, Valid, SchemaAccepts, IsSha, CanonicalHash;
    RoundIsPositive(s);
    PlanIsThere(s);
    ApprovalPayload(s);
    DigestIsHex(s.plan.payload.value);
    SoundIsValid(s, ApprovedPlan, None, None, None, PlanApprovalMessage(s, body).value.payload);
  }

  lemma DigestIsHex(v: Value)
    requires forall d: Doc :: IsHex(SHA256_HEX(d), 64)
    ensures IsHex(CanonicalHash(v), 64)
  {
    hide IsHex, CanonicalDoc;
  }

  lemma ChangesFollow(s: State, body: string, w: World)
    requires Live(s) && EnvelopeFits(s)
    requires s.nextAction in {RequestReviewerPlanVerdict, RequestReviewerResultVerdict}
    ensures var m := ChangesMessage(s, body, s.nextAction == RequestReviewerResultVerdict);
      m.Ok? && Valid(m.value) && VerifyEvidence(s, m.value, w).Ok? <==> !Blank(body)
  {
    hide Live, EnvelopeFits, Valid, SchemaAccepts, IsSha, Markdown, Blank;
    RoundIsPositive(s);
    VerdictIdentity(s);
    MarkdownSays("feedback", body);
    if !Blank(body) {
      var inResult := s.nextAction == RequestReviewerResultVerdict;
      SoundIsValid(s, ChangesRequired, Some("REVIEW_CHANGES_REQUIRED"),
        if inResult then s.result.branch else None, if inResult then s.result.sha else None,
        Markdown("feedback", body));
    }
  }

  lemma VerdictIdentity(s: State)
    requires Live(s) && EnvelopeFits(s)
    requires s.nextAction in {RequestReviewerPlanVerdict, RequestReviewerResultVerdict}
    ensures s.plan.revision.Some? && 0 < s.plan.revision.value
    ensures NonemptyIfPresent(s.result.branch) && (s.result.sha.Some? ==> IsSha(s.result.sha.value))
    ensures s.nextAction == RequestReviewerResultVerdict ==>
      s.result.branch.Some? && s.result.sha.Some? && s.result.sha.value != ""
  {
    hide PlanShape, CanonicalHash, DistinctNonblank, Complete, Passing, FactsFit;
  }

  lemma IntegrationFollows(s: State, body: string, w: World)
    requires Live(s) && EnvelopeFits(s) && s.nextAction == RequestPrimaryIntegration
    ensures var m := IntegrationMessage(s, body, w);
      m.Ok? && Valid(m.value) && VerifyEvidence(s, m.value, w).Ok? <==>
        && s.policy.targetBranch.Some?
        && w.gitResult.Ok? && IsSha(w.gitResult.value.0)
        && w.audit.Pass?
        && w.gitCheck.Pass?
  {
    hide Live, EnvelopeFits, Valid, SchemaAccepts, IsSha, Markdown, CommandTexts;
    RoundIsPositive(s);
    TargetIsNonempty(s);
    if s.policy.targetBranch.Some? && w.gitResult.Ok? {
      var m := IntegrationMessage(s, body, w).value;
      if IsSha(w.gitResult.value.0) {
        ShaIsNonempty(w.gitResult.value.0);
        SoundIsValid(s, IntegrationReady, None, s.policy.targetBranch, Some(w.gitResult.value.0), m.payload);
      } else {
        BadShaIsInvalid(m);
      }
      CommandsOfStrings(w.gitResult.value.1);
      assert Get(m.payload, "changed_files") == Some(Strings(w.gitResult.value.1));
    }
  }

  lemma VerificationFollows(s: State, body: string, w: World)
    requires Live(s) && EnvelopeFits(s) && s.nextAction == RequestPrimaryVerification
    ensures VerificationMessage(s, body).Ok? && Valid(VerificationMessage(s, body).value)
    ensures VerifyEvidence(s, VerificationMessage(s, body).value, w).Ok? <==>
      && s.result.workspace.Some?
      && w.outcomes.Ok? && |w.outcomes.value| == |s.policy.requiredTests|
      && ChangesOnRecord(s)
      && w.gitCheck.Pass?
  {
    hide Live, EnvelopeFits, Valid, SchemaAccepts, IsSha, CommandTexts, EvidenceUpTo, FailuresUpTo,
      VerifiedPayload;
    RoundIsPositive(s);
    VerificationIsPlanned(s);
    PayloadIsObject(s);
    TargetIsNonempty(s);
    var m := VerificationMessage(s, body).value;
    ShaIsNonempty(s.result.sha.value);
    SoundIsValid(s, IntegrationReady, None, s.result.branch, s.result.sha, m.payload);
    if VerifiedMessage(s, m, w).Ok? {
      VerifiedKeepsChanges(s, body, w, VerifiedMessage(s, m, w).value);
    }
  }

  lemma ResultApprovalFollows(s: State, body: string, w: World)
    requires Live(s) && EnvelopeFits(s) && s.nextAction == RequestReviewerResultVerdict
    ensures ResultApprovalMessage(s, body).Ok? && Valid(ResultApprovalMessage(s, body).value)
    ensures VerifyEvidence(s, ResultApprovalMessage(s, body).value, w).Ok?
  {
    hide Live, EnvelopeFits, Valid, SchemaAccepts, IsSha;
    RoundIsPositive(s);
    VerdictIdentity(s);
    ResultApprovalPayload(s);
    SoundIsValid(s, ApprovedResult, None, s.result.branch, s.result.sha,
      ResultApprovalMessage(s, body).value.payload);
  }

  lemma UnaskedIsRefused(s: State, r: Response, w: World)
    requires r.signal !in AllowedSignals(s.nextAction)
    ensures Normalize(s, r, w).Err?
  {
    hide Valid, PostPatchBody;
  }

  lemma RefusalFollows(s: State, r: Response, w: World)
    requires r.signal == SignalBlocked && !ReportsIntegration(s, r, w)
    ensures Normalize(s, r, w).Ok? <==> ModelActionPending(s)
  {
    hide Valid, PostPatchBody;
  }

  lemma AnswerFollows(s: State, r: Response, w: World)
    requires r.signal in AllowedSignals(s.nextAction) && Promoted(s, r, w).signal != SignalBlocked
    ensures Normalize(s, r, w).Ok? <==>
      && MarkerMessage(s, Promoted(s, r, w), w).Ok?
      && Valid(MarkerMessage(s, Promoted(s, r, w), w).value)
      && VerifyEvidence(s, MarkerMessage(s, Promoted(s, r, w), w).value, w).Ok?
  {
    hide Valid, PostPatchBody, MarkerMessage, VerifyEvidence;
  }

  /** In a live state, exactly the acceptable responses become messages. */
  lemma NormalizesExactly(s: State, r: Response, w: World)
    requires Live(s) && EnvelopeFits(s) && forall d: Doc :: IsHex(SHA256_HEX(d), 64)
    ensures Normalize(s, r, w).Ok? <==> Acceptable(s, r, w)
  {
    hide Live, EnvelopeFits, Normalize, Valid, VerifyEvidence, ContractMessage, PlanMessage,
      PlanApprovalMessage, ChangesMessage, IntegrationMessage, VerificationMessage, ResultApprovalMessage,
      IsContract, Blank, IsSha, IsHex, ChangesOnRecord, PostPatchBody;
    PromotionReports(s, r, w);
    if r.signal == SignalBlocked && !ReportsIntegration(s, r, w) {
      RefusalFollows(s, r, w);
    } else if r.signal !in AllowedSignals(s.nextAction) {
      UnaskedIsRefused(s, r, w);
    } else {
      AnswerFollows(s, r, w);
      var body := Promoted(s, r, w).body;
      match s.nextAction
      case RequestPrimaryContract => ContractFollows(s, "PRIMARY", w);
      case RequestReviewerContract => ContractFollows(s, "REVIEWER", w);
      case RequestPrimaryPlan => PlanFollows(s, body, w);
      case RequestReviewerPlanVerdict =>
        PlanApprovalFollows(s, body, w);
        ChangesFollow(s, body, w);
      case RequestPrimaryIntegration => IntegrationFollows(s, body, w);
      case RequestPrimaryVerification => VerificationFollows(s, body, w);
      case RequestReviewerResultVerdict =>
        ResultApprovalFollows(s, body, w);
        ChangesFollow(s, body, w);
      case _ =>
    }
  }

  // ----- and which are applied

  lemma UnchangedMeansSameCommit(s: State, r: Response, w: World, m: Message)
    requires Live(s) && Normalize(s, r, w) == Ok(m)
    ensures UnchangedSha(s, m) <==>
      ReportsIntegration(s, r, w) && w.gitResult.Ok? && Some(w.gitResult.value.0) == s.result.sha
  {
    hide Live, Normalize, PostPatchBody, ListsTexts, SaysMarkdown, IsFromRun, NamesFrozenCommits;
    MessageSaysResponse(s, r, w, m);
    PromotionReports(s, r, w);
    RunningIsClean(s);
    SignalIsAsked(s, r, w);
  }

  lemma SignalIsAsked(s: State, r: Response, w: World)
    requires Normalize(s, r, w).Ok?
    ensures r.signal in AllowedSignals(s.nextAction)
  {
    hide Valid, PostPatchBody;
  }

  /** In every run, a v2 response is applied exactly if it is acceptable and does not report the commit
      that is already there. The daemon's own inputs are as it makes them: frozen facts, digests, an
      absolute state root, a turn id and, in a refusal, a reason. */
  lemma ResponsesApplyExactly(run: Run, n: nat, r: Response, w: World)
    requires IsRun(run) && FactsFit(run.facts) && n < |run.states| && run.states[n].status == Running
    requires forall d: Doc :: IsHex(SHA256_HEX(d), 64)
    requires IsAbsolute(STATE_ROOT) && !Blank(w.turnId)
    requires r.blockedReason.Some? ==> r.blockedReason.value != ""
    ensures var s := run.states[n];
      Perform(s, Respond(r, w)).Ok? <==>
        && Acceptable(s, r, w)
        && !(ReportsIntegration(s, r, w) && w.gitResult.Ok? && Some(w.gitResult.value.0) == s.result.sha)
  {
    hide Inv, Live, Step, EnvelopeFits, ApplyMessage, Normalize, FactsFit, Blank, IsAbsolute, IsHex,
      Acceptable, ReportsIntegration, UnchangedSha;
    var s := run.states[n];
    RunKeeps(run, n);
    OnlyLiveIsDriven(s);
    RunKeepsEnvelope(run, n);
    NormalizesExactly(s, r, w);
    if Normalize(s, r, w).Ok? {
      var m := Normalize(s, r, w).value;
      UnchangedMeansSameCommit(s, r, w, m);
      NormalizedIsAccepted(run, n, r, w, m);
    }
  }
}
