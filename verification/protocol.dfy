/** Validity of a protocol message: the checked-in JSON schema and the invariants beside it. */
module Protocol {
  import opened Wrappers
  import opened Text
  import opened Json
  import opened RunTypes

  predicate IsHexDigit(c: char) {
    '0' <= c <= '9' || 'a' <= c <= 'f' || 'A' <= c <= 'F'
  }

  predicate IsHex(s: string, length: nat) {
    |s| == length && forall i | 0 <= i < |s| :: IsHexDigit(s[i])
  }

  predicate IsSha(s: string) {
    IsHex(s, 40)
  }

  /** The UUID pattern of the schema. */
  predicate IsRunId(s: string) {
    |s| == 36 && forall i | 0 <= i < 36 ::
      if i in {8, 13, 18, 23} then s[i] == '-'
      else if i == 14 then '1' <= s[i] <= '8'
      else if i == 19 then s[i] in "89abAB"
      else IsHexDigit(s[i])
  }

  predicate NonemptyIfPresent(text: Option<string>) {
    text.Some? ==> text.value != ""
  }

  /** The schema, except for its payload clauses, which the invariants below repeat. */
  predicate SchemaAccepts(m: Message) {
    var e := m.envelope;
    && IsRunId(e.runId)
    && 1 <= e.round
    && IsSha(e.primarySha)
    && IsSha(e.reviewerSha)
    && (e.planRevision.Some? ==> 1 <= e.planRevision.value)
    && NonemptyIfPresent(e.branch)
    && (e.sha.Some? ==> IsSha(e.sha.value))
    && NonemptyIfPresent(e.reasonCode)
    && m.payload.Object?
  }

  predicate NoIntegration(e: Envelope) {
    e.branch.None? && e.sha.None?
  }

  predicate HasIntegration(e: Envelope) {
    e.branch.Some? && e.branch.value != "" && e.sha.Some? && e.sha.value != ""
  }

  predicate HasRevision(e: Envelope) {
    e.planRevision.Some? && 0 < e.planRevision.value
  }

  predicate HasReason(e: Envelope) {
    e.reasonCode.Some? && e.reasonCode.value != ""
  }

  predicate NonblankStrings(values: seq<Value>) {
    forall i | 0 <= i < |values| :: values[i].String? && !Blank(values[i].s)
  }

  predicate NonemptyStringArray(v: Value, key: string) {
    var values := GetArray(v, key);
    values.Some? && values.value != [] && NonblankStrings(values.value)
  }

  /** The identity fields an approval must repeat, and its empty list of uncovered items. */
  predicate ApprovalBinds(m: Message) {
    var e := m.envelope;
    && HasRevision(e)
    && Get(m.payload, "approved_plan_revision") == Some(Number(e.planRevision.value))
    && GetString(m.payload, "approved_primary_sha") == Some(e.primarySha)
    && GetString(m.payload, "approved_reviewer_sha") == Some(e.reviewerSha)
    && Get(m.payload, "uncovered_items") == Some(Array([]))
  }

  predicate IsObjectField(v: Value, key: string) {
    var found := Get(v, key);
    found.Some? && found.value.Object?
  }

  predicate InvariantsHold(m: Message) {
    var e := m.envelope;
    var p := m.payload;
    match e.messageType
    case ContractReady =>
      && e.phase == Contract
      && NoIntegration(e)
      && IsObjectField(p, "contract")
      && NonemptyStringArray(p.fields["contract"], "tests")
    case PlanReady =>
      && e.phase == PlanReview
      && NoIntegration(e)
      && HasRevision(e)
      && IsObjectField(p, "primary_contract")
      && IsObjectField(p, "reviewer_contract")
      && IsObjectField(p, "plan")
      && GetArray(p, "coverage_matrix").Some?
      && NonemptyStringArray(p, "test_commands")
    case ApprovedPlan =>
      && e.phase == PlanReview
      && NoIntegration(e)
      && ApprovalBinds(m)
      && GetString(p, "approved_plan_hash").Some?
      && IsHex(GetString(p, "approved_plan_hash").value, 64)
    case IntegrationReady =>
      && e.phase in {Integrate, Verify}
      && HasIntegration(e)
    case ApprovedResult =>
      && e.phase == ResultReview
      && HasIntegration(e)
      && ApprovalBinds(m)
      && GetString(p, "approved_integration_branch") == e.branch
      && GetString(p, "approved_integration_sha") == e.sha
    case ChangesRequired =>
      && e.phase in {PlanReview, ResultReview}
      && HasRevision(e)
      && HasReason(e)
      && (if e.phase == ResultReview then HasIntegration(e) else NoIntegration(e))
    case BlockedMessage =>
      HasReason(e)
  }

  predicate Valid(m: Message) {
    m.envelope.protocol == PROTOCOL_V1 && SchemaAccepts(m) && InvariantsHold(m)
  }
}
