/** Whole runs: every sequence of steps from the initial state, under arbitrary valid messages. */
module Runs {
  import opened Wrappers
  import opened Json
  import opened Canonical
  import opened RunTypes
  import opened Protocol
  import opened Machine
  import opened Retries
  import opened Normalisation
  import opened Invariant
  import opened Steps
  import opened Effects

  datatype Run = Run(facts: Facts, states: seq<State>, events: seq<Event>)

  predicate HasShape(r: Run) {
    |r.states| == |r.events| + 1
  }

  /** `states[i]` is the run before `events[i]`. */
  predicate Linked(r: Run, i: nat)
    requires HasShape(r) && i < |r.events|
  {
    Step(r.states[i], r.events[i]) == Ok(r.states[i + 1])
  }

  predicate IsRun(r: Run) {
    && HasShape(r)
    && r.states[0] == Initial(r.facts)
    && forall i | 0 <= i < |r.events| :: Linked(r, i)
  }

  lemma StepOf(r: Run, n: nat)
    requires IsRun(r) && n < |r.events|
    ensures Step(r.states[n], r.events[n]) == Ok(r.states[n + 1])
    ensures Perform(r.states[n], r.events[n]) == Ok(r.states[n + 1])
  {
    hide Perform, Persistable;
    assert Linked(r, n);
  }

  lemma {:induction false} RunKeeps(r: Run, n: nat)
    requires IsRun(r) && n < |r.states|
    ensures Inv(r.states[n])
    ensures r.states[n].facts == r.facts
    ensures r.states[n].limits == Initial(r.facts).limits
  {
    hide Inv, Step, Effect;
    if n == 0 {
      InitialInv(r.facts);
    } else {
      RunKeeps(r, n - 1);
      RunStep(r, n - 1);
    }
  }

  lemma RunStep(r: Run, n: nat)
    requires IsRun(r) && n < |r.events| && Inv(r.states[n])
    ensures Inv(r.states[n + 1])
    ensures Effect(r.states[n], r.events[n], r.states[n + 1])
    ensures r.states[n + 1].facts == r.states[n].facts
    ensures r.states[n + 1].limits == r.states[n].limits
  {
    hide Inv, Step, PlanEffect, ShaEffect, EvidenceEffect, ApprovalEffect, TestsEffect;
    StepOf(r, n);
    StepKeeps(r.states[n], r.events[n]);
    StepEffect(r.states[n], r.events[n]);
  }

  /** Every state of a run can be saved and loaded again. While it runs, nothing is wrong with it, its
      phase is that of its action and its review streak is below the limit. */
  lemma ReachableStates(r: Run, n: nat)
    requires IsRun(r) && n < |r.states|
    ensures Persistable(r.states[n])
    ensures r.states[n].status == Running ==>
      && r.states[n].review.streak < r.states[n].limits.noProgressRounds
      && r.states[n].reasonCode.None?
      && r.states[n].lastError.None?
      && r.states[n].phase == PhaseOf(r.states[n].nextAction)
    ensures 1 <= r.states[n].round <= DEFAULT_MAX_REVIEW_ROUNDS
    ensures r.states[n].plan.approved ==>
      && r.states[n].plan.payload.Some?
      && r.states[n].plan.hash == Some(CanonicalHash(r.states[n].plan.payload.value))
      && r.states[n].plan.approval.Some?
      && GetString(r.states[n].plan.approval.value, "approved_plan_hash") == r.states[n].plan.hash
  {
    hide Persistable, ActionFits, ResultFits, BlockedIn;
    RunKeeps(r, n);
    InvIsPersistable(r.states[n]);
    InvIsCommon(r.states[n]);
  }

  /** In every run, contracts and plan are held together with their own hashes, and a plan revision is
      at most the round limit; while the plan is under review its revision is the round, and every
      revision after the first answers a feedback. */
  lemma ReachablePlans(r: Run, n: nat)
    requires IsRun(r) && n < |r.states|
    ensures var s := r.states[n];
      && ContractFits(s.plan.primaryContract, s.plan.primaryContractHash)
      && ContractFits(s.plan.reviewerContract, s.plan.reviewerContractHash)
      && (s.plan.payload.Some? ==> s.plan.hash == Some(CanonicalHash(s.plan.payload.value)))
      && (s.plan.revision.Some? ==> 1 <= s.plan.revision.value <= DEFAULT_MAX_REVIEW_ROUNDS)
      && (s.status == Running && s.phase == PlanReview ==>
          s.plan.revision == Some(s.round) && (s.round > 1 ==> s.plan.feedback.Some?))
  {
    hide ResultFits, CanonicalHash, DistinctNonblank, Inv, Step;
    RunKeeps(r, n);
    InvIsCommon(r.states[n]);
    if r.states[n].status == Running {
      OnlyLiveIsDriven(r.states[n]);
    }
  }

  /** In every run, evidence is complete and, like the approval and the workspace, belongs to the
      integration commit that is there; and there is a commit only under an approved plan. */
  lemma ReachableResults(r: Run, n: nat)
    requires IsRun(r) && n < |r.states|
    ensures var s := r.states[n];
      && (s.result.evidence != [] ==>
          s.result.sha.Some? && Complete(s.policy.requiredTests, s.result.evidence))
      && (s.result.approvedSha.Some? ==>
          s.result.approvedSha == s.result.sha && Passing(s.result.evidence))
      && (s.result.workspace.Some? ==>
          s.result.sha.Some?
          && s.result.workspace.value == VerificationPath(r.facts.runId, s.result.sha.value))
      && (s.result.sha.Some? ==>
          s.plan.approved && (s.policy.targetBranch.Some? ==> s.result.branch == s.policy.targetBranch))
  {
    hide PlanFits, Complete, Passing, DistinctNonblank, Inv, Step;
    RunKeeps(r, n);
    InvIsCommon(r.states[n]);
  }

  // ----- acceptance

  /** The plan approved at `p` is still the plan, with the same frozen policy, up to `n`. */
  ghost predicate PlanMilestone(r: Run, n: nat, p: nat) {
    && p < n < |r.states| == |r.events| + 1
    && ApprovesPlan(r.states[p], r.events[p])
    && r.states[p].plan.payload == r.states[n].plan.payload
    && (forall k | p < k <= n :: r.states[k].plan == r.states[n].plan)
    && (forall k | p <= k <= n :: r.states[k].policy == r.states[n].policy)
  }

  ghost predicate IntegrationMilestone(r: Run, n: nat, i: nat) {
    && i < n < |r.states| == |r.events| + 1
    && ReportsIntegration(r.states[i], r.events[i], r.states[n].result.sha)
    && forall k | i < k <= n :: r.states[k].result.sha == r.states[n].result.sha
  }

  ghost predicate EvidenceMilestone(r: Run, n: nat, v: nat) {
    && v < n < |r.states| == |r.events| + 1
    && ReportsEvidence(r.states[v], r.events[v], r.states[n].result.sha, r.states[n].result.evidence)
    && forall k | v < k <= n :: r.states[k].result.evidence == r.states[n].result.evidence
  }

  ghost predicate ApprovalMilestone(r: Run, n: nat, w: nat) {
    && w < n < |r.states| == |r.events| + 1
    && ApprovesResult(r.states[w], r.events[w], r.states[n].result.sha)
    && forall k | w < k <= n :: r.states[k].result.approvedSha == r.states[n].result.approvedSha
  }

  /** Whatever acceptance rests on was brought about by a message of the right kind, in order. */
  ghost predicate Milestones(r: Run, n: nat, p: nat, i: nat, v: nat, w: nat)
    requires n < |r.states| == |r.events| + 1
  {
    var s := r.states[n];
    && (s.plan.approved ==> PlanMilestone(r, n, p))
    && (s.result.sha.Some? ==> s.plan.approved && p < i && IntegrationMilestone(r, n, i))
    && (s.result.evidence != [] ==> s.result.sha.Some? && i < v && EvidenceMilestone(r, n, v))
    && (s.result.approvedSha.Some? ==>
        s.result.evidence != [] && v < w && ApprovalMilestone(r, n, w))
  }

  lemma PlanMilestoneStep(r: Run, n: nat, p: nat) returns (p': nat)
    requires IsRun(r) && n < |r.events|
    requires PlanEffect(r.states[n], r.events[n], r.states[n + 1])
    requires r.states[n].plan.approved ==> PlanMilestone(r, n, p)
    ensures r.states[n + 1].plan.approved ==> PlanMilestone(r, n + 1, p')
    ensures r.states[n + 1].plan.approved && r.states[n].plan == r.states[n + 1].plan ==> p' == p
  {
    hide Step, ApprovesPlan;
    p' := if r.states[n].plan.approved && r.states[n].plan == r.states[n + 1].plan
             && r.states[n].policy == r.states[n + 1].policy then p else n;
  }

  lemma {:induction false} RunMilestones(r: Run, n: nat) returns (p: nat, i: nat, v: nat, w: nat)
    requires IsRun(r) && n < |r.states|
    ensures Milestones(r, n, p, i, v, w)
  {
    hide Step, Inv, ApprovesPlan, ReportsIntegration, ReportsEvidence, ApprovesResult,
      TestsEffect, PlanMilestone, IntegrationMilestone, EvidenceMilestone, ApprovalMilestone;
    if n == 0 {
      p, i, v, w := 0, 0, 0, 0;
    } else {
      p, i, v, w := RunMilestones(r, n - 1);
      RunKeeps(r, n - 1);
      RunStep(r, n - 1);
      p, i, v, w := NextMilestones(r, n - 1, p, i, v, w);
    }
  }

  lemma IntegrationMilestoneStep(r: Run, n: nat, i: nat) returns (i': nat)
    requires IsRun(r) && n < |r.events|
    requires ShaEffect(r.states[n], r.events[n], r.states[n + 1])
    requires r.states[n].result.sha.Some? ==> IntegrationMilestone(r, n, i)
    ensures r.states[n + 1].result.sha.Some? ==> IntegrationMilestone(r, n + 1, i')
    ensures i' == if r.states[n].result.sha == r.states[n + 1].result.sha then i else n
  {
    hide Step, ReportsIntegration;
    i' := if r.states[n].result.sha == r.states[n + 1].result.sha then i else n;
  }

  lemma EvidenceMilestoneStep(r: Run, n: nat, v: nat) returns (v': nat)
    requires IsRun(r) && n < |r.events|
    requires EvidenceEffect(r.states[n], r.events[n], r.states[n + 1])
    requires r.states[n].result.evidence != [] ==> EvidenceMilestone(r, n, v)
    ensures r.states[n + 1].result.evidence != [] ==> EvidenceMilestone(r, n + 1, v')
    ensures v' == if r.states[n].result.evidence == r.states[n + 1].result.evidence then v else n
  {
    hide Step, ReportsEvidence;
    v' := if r.states[n].result.evidence == r.states[n + 1].result.evidence then v else n;
  }

  lemma ApprovalMilestoneStep(r: Run, n: nat, w: nat) returns (w': nat)
    requires IsRun(r) && n < |r.events|
    requires ApprovalEffect(r.states[n], r.events[n], r.states[n + 1])
    requires r.states[n].result.approvedSha.Some? ==> ApprovalMilestone(r, n, w)
    ensures r.states[n + 1].result.approvedSha.Some? ==> ApprovalMilestone(r, n + 1, w')
    ensures w' == if r.states[n].result.approvedSha == r.states[n + 1].result.approvedSha then w else n
  {
    hide Step, ApprovesResult;
    w' := if r.states[n].result.approvedSha == r.states[n + 1].result.approvedSha then w else n;
  }

  lemma MilestonesAreEarlier(r: Run, n: nat, p: nat, i: nat, v: nat, w: nat)
    requires n < |r.states| == |r.events| + 1 && Milestones(r, n, p, i, v, w)
    ensures r.states[n].plan.approved ==> p < n
    ensures r.states[n].result.sha.Some? ==> i < n
    ensures r.states[n].result.evidence != [] ==> v < n
  {
    hide ApprovesPlan, ReportsIntegration, ReportsEvidence, ApprovesResult;
  }

  lemma NextMilestones(r: Run, n: nat, p: nat, i: nat, v: nat, w: nat)
    returns (p': nat, i': nat, v': nat, w': nat)
    requires IsRun(r) && n < |r.events| && |r.states| == |r.events| + 1
    requires Milestones(r, n, p, i, v, w)
    requires Effect(r.states[n], r.events[n], r.states[n + 1])
    ensures Milestones(r, n + 1, p', i', v', w')
  {
    hide IsRun, ApprovesPlan, ReportsIntegration, TestsEffect, PlanMilestone,
      IntegrationMilestone, EvidenceMilestone, ApprovalMilestone;
    MilestonesAreEarlier(r, n, p, i, v, w);
    p' := PlanMilestoneStep(r, n, p);
    i' := IntegrationMilestoneStep(r, n, i);
    v' := EvidenceMilestoneStep(r, n, v);
    w' := ApprovalMilestoneStep(r, n, w);
  }

  /** Nothing follows acceptance. */
  lemma AcceptedIsFinal(s: State, e: Event)
    requires Inv(s) && s.status == Accepted
    ensures Step(s, e).Err?
  {
    hide Persistable, ApplyMessage, Normalize, RetryTarget, Common;
    if EndsAccepted(s, e) {
      SaveRefusesOnlyEndingAccepted(s, e);
    } else if e.RetryRun? && RetryTarget(e.kind, s).Ok? {
      RetryNeedsReason(e.kind, s);
    } else {
      assert Perform(s, e).Err? by { AcceptedPerformsNothing(s, e); }
    }
  }

  lemma AcceptedPerformsNothing(s: State, e: Event)
    requires s.status == Accepted && !EndsAccepted(s, e)
    requires e.RetryRun? ==> RetryTarget(e.kind, s).Err?
    ensures Perform(s, e).Err?
  {
    hide Normalize, RetryTarget;
  }

  lemma AcceptedRunIsLong(r: Run)
    requires IsRun(r) && r.states[|r.events|].status == Accepted
    ensures HasShape(r) && |r.events| > 0
  {
    hide Linked;
  }

  /** An accepted run: a plan approval naming the hash of the plan and both frozen commits; then a
      report of the accepted commit; then, while that commit was current, evidence in which every
      frozen command passed exactly once; then an approval naming that commit; then revalidation.
      In between neither the plan, nor the frozen commands, nor the commit changed. */
  lemma AcceptedRun(r: Run) returns (p: nat, i: nat, v: nat, w: nat)
    requires IsRun(r) && r.states[|r.events|].status == Accepted
    ensures p < i < v < w < |r.events| - 1
    ensures PlanMilestone(r, |r.events|, p)
    ensures IntegrationMilestone(r, |r.events|, i)
    ensures EvidenceMilestone(r, |r.events|, v)
    ensures ApprovalMilestone(r, |r.events|, w)
    ensures r.events[|r.events| - 1] == Revalidated
    ensures AcceptedOn(r.states[|r.events|], r.facts)
  {
    hide Step, Perform, Effect, PlanMilestone, IntegrationMilestone, EvidenceMilestone,
      ApprovalMilestone, AcceptedOn, Inv, IsRun;
    var n := |r.events|;
    AcceptedRunIsLong(r);
    p, i, v, w := RunMilestones(r, n);
    RunKeeps(r, n);
    RunKeeps(r, n - 1);
    StepOf(r, n - 1);
    OnlyRevalidationAccepts(r.states[n - 1], r.events[n - 1]);
    AcceptedFits(r.states[n]);
    ApprovalPrecedes(r, n, w);
  }

  /** The accepted result is the verified commit, with one passing test for each frozen command. */
  predicate AcceptedOn(s: State, facts: Facts) {
    && Complete(s.policy.requiredTests, s.result.evidence)
    && Passing(s.result.evidence)
    && s.result.branch.Some?
    && s.result.sha.Some?
    && s.acceptedResult == Some(AcceptedResult(
        s.result.branch.value, s.result.sha.value, facts.primarySha, facts.reviewerSha,
        s.result.evidence))
  }

  lemma AcceptedFits(s: State)
    requires Inv(s) && s.status == Accepted
    ensures AcceptedOn(s, s.facts)
  {
    hide Complete, Passing, BlockedIn, Common;
  }

  lemma OnlyRevalidationAccepts(s: State, e: Event)
    requires Inv(s) && Step(s, e).Ok? && Step(s, e).value.status == Accepted
    ensures e == Revalidated
    ensures Step(s, e).value.result == s.result && s.status == Running
    ensures Step(s, e).value.result.approvedSha.Some?
    ensures s.nextAction == RevalidateAndAccept
  {
    hide Persistable, Normalize, RetryTarget, PlanFits, Fingerprint;
    if s.status == Accepted {
      AcceptedIsFinal(s, e);
    } else if e.RetryRun? {
    } else {
      OnlyAcceptanceAccepts(s, e);
      assert Live(s);
    }
  }

  lemma OnlyAcceptanceAccepts(s: State, e: Event)
    requires s.status != Accepted && Perform(s, e).Ok? && Perform(s, e).value.status == Accepted
    ensures e == Revalidated
  {
    hide Normalize, RetryTarget, Fingerprint, ParseEvidence, Complete, Passing, Valid, StringArrayField;
  }

  /** The approval came before the revalidation, which leaves the result as it is. */
  lemma ApprovalPrecedes(r: Run, n: nat, w: nat)
    requires IsRun(r) && 0 < n == |r.events| && ApprovalMilestone(r, n, w)
    requires r.events[n - 1] == Revalidated
    ensures w < n - 1
  {
    hide Step;
  }
}
