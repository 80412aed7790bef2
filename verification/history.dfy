/** Where what a run has on record comes from: for every part, the latest message that brought it. */
module Histories {
  import opened Wrappers
  import opened Json
  import opened RunTypes
  import opened Protocol
  import opened Machine
  import opened Retries
  import opened Normalisation
  import opened Invariant
  import opened Steps
  import opened Effects
  import opened Runs
  import opened Recovery

  /** What a step brings: a value for one part of the record, or nothing. */
  type Source = (State, Event, State) -> Option<Value>

  function PayloadOf(s: State, e: Event): Value {
    match MessageOf(s, e)
    case Some(m) => m.payload
    case None => Null
  }

  /** The contract of the participant that is asked for it. */
  function ContractBy(action: NextAction): Source {
    (s: State, e: Event, next: State) =>
      if Delivers(s, e, ContractReady) && s.nextAction == action then Get(PayloadOf(s, e), "contract") else None
  }

  function PlanBrought(s: State, e: Event, next: State): Option<Value> {
    if Delivers(s, e, PlanReady) then Some(PayloadOf(s, e)) else None
  }

  function ApprovalBrought(s: State, e: Event, next: State): Option<Value> {
    if Delivers(s, e, ApprovedPlan) then Some(PayloadOf(s, e)) else None
  }

  /** A review of the plan that opens another round. */
  function PlanReviewBrought(s: State, e: Event, next: State): Option<Value> {
    if Delivers(s, e, ChangesRequired) && s.phase == PlanReview && next.status == Running
    then Some(PayloadOf(s, e)) else None
  }

  /** A report of a result, or of its verification. */
  function ResultBrought(s: State, e: Event, next: State): Option<Value> {
    if Delivers(s, e, IntegrationReady) then Some(PayloadOf(s, e)) else None
  }

  /** What the machine says of a failed verification: the failures and the summary that it reported. */
  function MachineSays(report: Value): Value {
    Object(map[
      "format" := String("machine_verification"),
      "summary" := String(MACHINE_VERIFICATION_SUMMARY),
      "failed_tests" := (match Get(report, "verification_failures")
                         case Some(failures) => failures
                         case None => Array([])),
      "verification_summary" := (match Get(report, "verification_summary")
                                 case Some(text) => text
                                 case None => Null)])
  }

  predicate ReportsFailure(report: Value) {
    ParseEvidence(report).Ok? && exists e | e in ParseEvidence(report).value :: e.exitCode != 0
  }

  /** A review of the result that opens another round, or a failed verification. */
  function FeedbackBrought(s: State, e: Event, next: State): Option<Value> {
    if Delivers(s, e, ChangesRequired) && s.phase == ResultReview && next.status == Running
    then Some(PayloadOf(s, e))
    else if Delivers(s, e, IntegrationReady) && s.phase == Verify && ReportsFailure(PayloadOf(s, e))
    then Some(MachineSays(PayloadOf(s, e)))
    else None
  }

  /** The latest step before `n` that brought something. */
  function LatestStep(r: Run, n: nat, source: Source): (k: Option<nat>)
    requires HasShape(r) && n <= |r.events|
    ensures k.Some? ==> k.value < n
    ensures k.Some? ==> source(r.states[k.value], r.events[k.value], r.states[k.value + 1]).Some?
  {
    if n == 0 then None
    else if source(r.states[n - 1], r.events[n - 1], r.states[n]).Some? then Some(n - 1)
    else LatestStep(r, n - 1, source)
  }

  lemma {:induction false} NothingSince(r: Run, n: nat, source: Source, i: nat)
    requires HasShape(r) && i < n <= |r.events|
    requires LatestStep(r, n, source).Some? ==> LatestStep(r, n, source).value < i
    ensures source(r.states[i], r.events[i], r.states[i + 1]).None?
  {
    if i < n - 1 {
      NothingSince(r, n - 1, source, i);
    }
  }

  /** And what it brought. */
  function Latest(r: Run, n: nat, source: Source): Option<Value>
    requires HasShape(r) && n <= |r.events|
  {
    match LatestStep(r, n, source)
    case Some(k) => source(r.states[k], r.events[k], r.states[k + 1])
    case None => None
  }

  // ----- what one message leaves on record

  function Or(brought: Option<Value>, before: Option<Value>): Option<Value> {
    if brought.Some? then brought else before
  }

  /** Every part of the record is what the step brought, or what it was. */
  predicate Records(s: State, e: Event, next: State) {
    && next.plan.primaryContract
      == Or(ContractBy(RequestPrimaryContract)(s, e, next), s.plan.primaryContract)
    && next.plan.reviewerContract
      == Or(ContractBy(RequestReviewerContract)(s, e, next), s.plan.reviewerContract)
    && next.plan.payload == Or(PlanBrought(s, e, next), s.plan.payload)
    && (next.plan.approved ==> next.plan.approval == Or(ApprovalBrought(s, e, next), s.plan.approval))
    && (next.plan.approved ==> s.plan.approved || ApprovalBrought(s, e, next).Some?)
    && next.plan.feedback == Or(PlanReviewBrought(s, e, next), s.plan.feedback)
    && next.result.payload == Or(ResultBrought(s, e, next), s.result.payload)
    && next.result.feedback == Or(FeedbackBrought(s, e, next), s.result.feedback)
  }

  /** The evidence on record is what the payload of the result says. */
  predicate ResultIsWhole(s: State) {
    s.result.evidence != [] ==>
      s.result.payload.Some? && ParseEvidence(s.result.payload.value) == Ok(s.result.evidence)
  }

  lemma MessageIs(s: State, e: Event, m: Message)
    requires MessageOf(s, e) == Some(m)
    ensures PayloadOf(s, e) == m.payload
    ensures forall kind :: Delivers(s, e, kind) <==> kind == m.envelope.messageType
  {
    hide MessageOf;
  }

  lemma MachineSaysFeedback(report: Value)
    ensures MachineFeedback(report) == MachineSays(report)
  {
  }

  lemma FailureMeansNotPassing(m: Message)
    requires ParseEvidence(m.payload).Ok?
    ensures ReportsFailure(m.payload) <==> !Passing(ParseEvidence(m.payload).value)
  {
    hide ParseEvidence;
  }

  /** The same for a message as such. */
  predicate Leaves(s: State, m: Message, next: State) {
    var kind, brought := m.envelope.messageType, Some(m.payload);
    && next.plan.primaryContract == (
      if kind == ContractReady && s.nextAction == RequestPrimaryContract
      then Or(Get(m.payload, "contract"), s.plan.primaryContract) else s.plan.primaryContract)
    && next.plan.reviewerContract == (
      if kind == ContractReady && s.nextAction == RequestReviewerContract
      then Or(Get(m.payload, "contract"), s.plan.reviewerContract) else s.plan.reviewerContract)
    && next.plan.payload == (if kind == PlanReady then brought else s.plan.payload)
    && (next.plan.approved ==>
        next.plan.approval == (if kind == ApprovedPlan then brought else s.plan.approval))
    && (next.plan.approved ==> s.plan.approved || kind == ApprovedPlan)
    && next.plan.feedback == (
      if kind == ChangesRequired && s.phase == PlanReview && next.status == Running then brought
      else s.plan.feedback)
    && next.result.payload == (if kind == IntegrationReady then brought else s.result.payload)
    && next.result.feedback == (
      if kind == ChangesRequired && s.phase == ResultReview && next.status == Running then brought
      else if kind == IntegrationReady && s.phase == Verify && ReportsFailure(m.payload)
      then Some(MachineSays(m.payload))
      else s.result.feedback)
    && (ResultIsWhole(s) ==> ResultIsWhole(next))
  }

  lemma DeclarationLeaves(s: State, m: Message, next: State)
    requires s.status == Running && m.envelope.messageType in {ContractReady, PlanReady}
    requires if m.envelope.messageType == ContractReady then ApplyContract(s, m) == Ok(next)
             else ApplyPlan(s, m) == Ok(next)
    ensures Leaves(s, m, next)
  {
    hide ParseEvidence, StringArrayField, FreezeTests, MachineSays, ReportsFailure;
  }

  lemma ChangesLeave(s: State, m: Message, next: State)
    requires s.status == Running && m.envelope.messageType == ChangesRequired
    requires ApplyChangesRequired(s, m) == Ok(next)
    ensures Leaves(s, m, next)
  {
    hide ParseEvidence, Fingerprint, CountReview, MachineSays, ReportsFailure;
  }

  lemma ApprovalLeaves(s: State, m: Message, next: State)
    requires m.envelope.messageType in {ApprovedPlan, ApprovedResult}
    requires if m.envelope.messageType == ApprovedPlan then ApplyPlanApproval(s, m) == Ok(next)
             else ApplyResultApproval(s, m) == Ok(next)
    ensures Leaves(s, m, next)
  {
    hide ParseEvidence, MachineSays, ReportsFailure;
  }

  lemma ResultLeaves(s: State, m: Message, next: State)
    requires m.envelope.messageType == IntegrationReady && s.phase == Integrate
    requires ApplyIntegrationResult(s, m) == Ok(next)
    ensures Leaves(s, m, next)
  {
    hide ParseEvidence, MachineSays, ReportsFailure;
  }

  lemma VerificationLeaves(s: State, m: Message, next: State)
    requires m.envelope.messageType == IntegrationReady && s.phase == Verify
    requires ApplyVerification(s, m) == Ok(next)
    ensures Leaves(s, m, next)
  {
    hide ParseEvidence, Complete, Passing, ReportsFailure, MachineSays, MachineFeedback;
    MachineSaysFeedback(m.payload);
    FailureMeansNotPassing(m);
  }

  lemma MessageLeaves(s: State, m: Message, next: State)
    requires ApplyMessage(s, m) == Ok(next)
    ensures Leaves(s, m, next)
  {
    hide Valid, VerifyImmutableEnvelope, VerifyBlockedEnvelope, ApplyContract, ApplyPlan, ApplyPlanApproval,
      ApplyResultApproval, ApplyChangesRequired, ApplyIntegrationResult, ApplyVerification, ParseEvidence,
      MachineSays, ReportsFailure, Leaves;
    match m.envelope.messageType
    case ContractReady => DeclarationLeaves(s, m, next);
    case PlanReady => DeclarationLeaves(s, m, next);
    case ChangesRequired => ChangesLeave(s, m, next);
    case ApprovedPlan => ApprovalLeaves(s, m, next);
    case ApprovedResult => ApprovalLeaves(s, m, next);
    case IntegrationReady =>
      if s.phase == Verify {
        VerificationLeaves(s, m, next);
      } else {
        ResultLeaves(s, m, next);
      }
    case BlockedMessage => BlockLeaves(s, m);
  }

  lemma BlockLeaves(s: State, m: Message)
    requires m.envelope.messageType == BlockedMessage
    ensures forall reason :: Leaves(s, m, BlockWith(s, reason))
  {
    hide ParseEvidence, MachineSays, ReportsFailure;
  }

  lemma LeavesIsRecords(s: State, e: Event, m: Message, next: State)
    requires MessageOf(s, e) == Some(m) && Leaves(s, m, next)
    ensures Records(s, e, next) && (ResultIsWhole(s) ==> ResultIsWhole(next))
  {
    hide MessageOf, ParseEvidence, Delivers, PayloadOf, MachineSays, ReportsFailure, ResultIsWhole;
    MessageIs(s, e, m);
  }

  lemma StepRecords(s: State, e: Event, next: State)
    requires Perform(s, e) == Ok(next)
    ensures Records(s, e, next) && (ResultIsWhole(s) ==> ResultIsWhole(next))
  {
    hide Normalize, ApplyMessage, RetryTarget, Records, FreezeTests, TrimAll, ParseEvidence, Leaves;
    if e.Deliver? || e.Respond? {
      var m := MessageOf(s, e).value;
      MessageLeaves(s, m, next);
      LeavesIsRecords(s, e, m, next);
    } else {
      QuietRecords(s, e, next);
    }
  }

  lemma QuietRecords(s: State, e: Event, next: State)
    requires Perform(s, e) == Ok(next) && !e.Deliver? && !e.Respond?
    ensures Records(s, e, next)
  {
    hide Normalize, RetryTarget, FreezeTests, TrimAll, MachineSays, ReportsFailure;
  }

  // ----- over a run

  lemma LatestIs(r: Run, n: nat, source: Source)
    requires HasShape(r) && 0 < n <= |r.events|
    ensures Latest(r, n, source)
      == Or(source(r.states[n - 1], r.events[n - 1], r.states[n]), Latest(r, n - 1, source))
  {
  }

  /** In every run, the contracts, the plan, its approval, the result and the feedback on record are
      those that were brought last, and the evidence is what the last report says. */
  lemma {:induction false} RecordsAreLatest(r: Run, n: nat)
    requires IsRun(r) && n <= |r.events|
    ensures var s := r.states[n];
      && s.plan.primaryContract == Latest(r, n, ContractBy(RequestPrimaryContract))
      && s.plan.reviewerContract == Latest(r, n, ContractBy(RequestReviewerContract))
      && s.plan.payload == Latest(r, n, PlanBrought)
      && (s.plan.approved ==> s.plan.approval == Latest(r, n, ApprovalBrought))
      && s.plan.feedback == Latest(r, n, PlanReviewBrought)
      && s.result.payload == Latest(r, n, ResultBrought)
      && s.result.feedback == Latest(r, n, FeedbackBrought)
      && ResultIsWhole(s)
  {
    hide Step, Perform, Linked, Latest, ResultIsWhole, ContractBy, PlanBrought, ApprovalBrought,
      PlanReviewBrought, ResultBrought, FeedbackBrought;
    if n == 0 {
      NothingOnRecord(r);
    } else {
      RecordsAreLatest(r, n - 1);
      StepOf(r, n - 1);
      StepRecords(r.states[n - 1], r.events[n - 1], r.states[n]);
      LatestIs(r, n, ContractBy(RequestPrimaryContract));
      LatestIs(r, n, ContractBy(RequestReviewerContract));
      LatestIs(r, n, PlanBrought);
      LatestIs(r, n, ApprovalBrought);
      LatestIs(r, n, PlanReviewBrought);
      LatestIs(r, n, ResultBrought);
      LatestIs(r, n, FeedbackBrought);
    }
  }

  lemma NothingOnRecord(r: Run)
    requires IsRun(r)
    ensures r.states[0] == Initial(r.facts) && ResultIsWhole(r.states[0])
    ensures forall source: Source :: Latest(r, 0, source) == None
  {
    hide Step, Linked;
  }

  // ----- the round that a feedback opened

  /** A round ends only with feedback, except that the first result starts the count afresh. */
  predicate RoundEffect(s: State, e: Event, next: State) {
    && (FeedbackBrought(s, e, next).Some? ==> s.result.sha.Some? && next.result.sha.Some?)
    && (PlanReviewBrought(s, e, next).Some? ==>
        s.result.sha.None? && next.result.sha.None? && next.round == s.round + 1)
    && (s.result.sha.Some? ==> next.result.sha.Some?)
    && (s.result.sha.Some? && FeedbackBrought(s, e, next).None? ==> next.round == s.round)
    && (next.result.sha.None? && PlanReviewBrought(s, e, next).None? ==> next.round == s.round)
    && (FeedbackBrought(s, e, next).Some? && next.status == Running ==> next.round == s.round + 1)
  }

  /** The same for a message as such. */
  predicate LeavesRound(s: State, m: Message, next: State) {
    var kind := m.envelope.messageType;
    var onPlan := kind == ChangesRequired && s.phase == PlanReview && next.status == Running;
    var onResult := || (kind == ChangesRequired && s.phase == ResultReview && next.status == Running)
      || (kind == IntegrationReady && s.phase == Verify && ReportsFailure(m.payload));
    && (onResult ==> s.result.sha.Some? && next.result.sha.Some?)
    && (onPlan ==> s.result.sha.None? && next.result.sha.None? && next.round == s.round + 1)
    && (s.result.sha.Some? ==> next.result.sha.Some?)
    && (s.result.sha.Some? && !onResult ==> next.round == s.round)
    && (next.result.sha.None? && !onPlan ==> next.round == s.round)
    && (onResult && next.status == Running ==> next.round == s.round + 1)
  }

  lemma DeclarationRound(s: State, m: Message, next: State)
    requires Live(s) && Staged(s)
    requires m.envelope.messageType in {ContractReady, PlanReady}
    requires if m.envelope.messageType == ContractReady then ApplyContract(s, m) == Ok(next)
             else ApplyPlan(s, m) == Ok(next)
    ensures LeavesRound(s, m, next)
  {
    hide StringArrayField, FreezeTests, PlanFits, ResultFits, ReportsFailure;
  }

  lemma ChangesRound(s: State, m: Message, next: State)
    requires Staged(s) && s.status == Running && m.envelope.messageType == ChangesRequired
    requires ApplyChangesRequired(s, m) == Ok(next)
    ensures LeavesRound(s, m, next)
  {
    hide Fingerprint, CountReview, ReportsFailure;
  }

  lemma VerificationRound(s: State, m: Message, next: State)
    requires Staged(s) && s.phase == Verify && ApplyVerification(s, m) == Ok(next)
    requires m.envelope.messageType == IntegrationReady
    ensures LeavesRound(s, m, next)
  {
    hide ParseEvidence, Complete, Passing, MachineFeedback, ReportsFailure;
    FailureMeansNotPassing(m);
  }

  lemma MessageRound(s: State, m: Message, next: State)
    requires Live(s) && Staged(s) && ApplyMessage(s, m) == Ok(next)
    ensures LeavesRound(s, m, next)
  {
    hide Live, Valid, VerifyImmutableEnvelope, VerifyBlockedEnvelope, ApplyContract, ApplyPlan,
      ApplyChangesRequired, ApplyVerification, ReportsFailure;
    match m.envelope.messageType
    case ContractReady => DeclarationRound(s, m, next);
    case PlanReady => DeclarationRound(s, m, next);
    case ChangesRequired => ChangesRound(s, m, next);
    case IntegrationReady =>
      if s.phase == Verify {
        VerificationRound(s, m, next);
      }
    case _ =>
  }

  lemma LeavesIsRound(s: State, e: Event, m: Message, next: State)
    requires MessageOf(s, e) == Some(m) && LeavesRound(s, m, next)
    ensures RoundEffect(s, e, next)
  {
    hide MessageOf, Delivers, PayloadOf, MachineSays, ReportsFailure;
    MessageIs(s, e, m);
  }

  lemma QuietRound(s: State, e: Event, next: State)
    requires Perform(s, e) == Ok(next) && !e.Deliver? && !e.Respond?
    ensures RoundEffect(s, e, next)
  {
    hide Normalize, RetryTarget, FreezeTests, TrimAll, MachineSays, ReportsFailure;
  }

  lemma StepRound(s: State, e: Event, next: State)
    requires Inv(s) && Perform(s, e) == Ok(next)
    ensures RoundEffect(s, e, next)
  {
    hide Inv, Live, Normalize, ApplyMessage, RetryTarget, RoundEffect, FreezeTests, TrimAll, LeavesRound;
    if e.Deliver? || e.Respond? {
      var m := MessageOf(s, e).value;
      DeliveryNeedsRunning(s, m);
      OnlyLiveIsDriven(s);
      LiveIsStaged(s);
      MessageRound(s, m, next);
      LeavesIsRound(s, e, m, next);
    } else {
      QuietRound(s, e, next);
    }
  }

  lemma LatestStepIs(r: Run, n: nat, source: Source)
    requires HasShape(r) && n <= |r.events|
    ensures LatestStep(r, n, source) ==
      if n == 0 then None
      else if source(r.states[n - 1], r.events[n - 1], r.states[n]).Some? then Some(n - 1)
      else LatestStep(r, n - 1, source)
  {
  }

  /** The round that a run is in was opened by the latest feedback on its result, if there is one; before
      the first result, by the latest feedback on the plan. */
  lemma {:induction false} FeedbackOpenedRound(r: Run, n: nat)
    requires IsRun(r) && n <= |r.events|
    ensures var s, k, p := r.states[n], LatestStep(r, n, FeedbackBrought), LatestStep(r, n, PlanReviewBrought);
      && (k.Some? ==> s.result.sha.Some? && s.round == r.states[k.value + 1].round)
      && (s.result.sha.None? ==> s.round == if p.Some? then r.states[p.value + 1].round else 1)
  {
    hide Inv, Step, Perform, Linked, FeedbackBrought, PlanReviewBrought, LatestStep;
    LatestStepIs(r, n, FeedbackBrought);
    LatestStepIs(r, n, PlanReviewBrought);
    if n > 0 {
      FeedbackOpenedRound(r, n - 1);
      RunKeeps(r, n - 1);
      StepOf(r, n - 1);
      StepRound(r.states[n - 1], r.events[n - 1], r.states[n]);
    }
  }
}
