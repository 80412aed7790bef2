/** Termination with a number: how many successful steps a run can make. */
module Progress {
  import opened Wrappers
  import opened RunTypes
  import opened Protocol
  import opened Participants
  import opened Machine
  import opened Retries
  import opened Normalisation
  import opened Invariant
  import opened Steps
  import opened Runs
  import opened Recovery

  /** The steps a run has left. A correction costs three steps and a round, a rejected plan two. */
  function Measure(s: State): int {
    var limit, left := s.limits.maxRounds, s.limits.maxRounds - s.round;
    match s.nextAction
    case RequestPrimaryContract => 5 * limit + 3
    case RequestReviewerContract => 5 * limit + 2
    case RequestPrimaryPlan => 3 * limit + 2 * left + 3
    case RequestReviewerPlanVerdict => 3 * limit + 2 * left + 2
    case RequestPrimaryIntegration =>
      if s.result.sha.None? then 3 * limit + 1 else 3 * left + 4
    case RequestPrimaryVerification => 3 * left + 3
    case RequestReviewerResultVerdict => 3 * left + 2
    case RevalidateAndAccept => 1
    case WaitForUser => 0
    case Stop => 0
  }

  /** The driver answers the pending action: a model action by a message, the last one by itself. */
  predicate Answers(s: State, e: Event) {
    || (e.Deliver? && s.nextAction != RevalidateAndAccept)
    || e.Respond?
    || e.Revalidated?
  }

  /** The answer took the run further. */
  predicate Advances(s: State, e: Event, next: State) {
    Answers(s, e) && next.status in {Running, Accepted}
  }

  lemma MeasureIsBounded(s: State)
    requires Live(s)
    ensures 1 <= Measure(s) <= 5 * s.limits.maxRounds + 3
  {
    hide PlanFits, ResultFits;
  }

  lemma MeasureDependsOn(s: State, t: State)
    requires t.limits == s.limits && t.round == s.round && t.nextAction == s.nextAction
    requires t.result.sha == s.result.sha
    ensures Measure(t) == Measure(s)
  {
  }

  lemma ReviewDescends(s: State, m: Message, next: State)
    requires Live(s) && s.nextAction != RevalidateAndAccept
    requires ApplyMessage(s, m) == Ok(next) && next.status == Running
    requires m.envelope.messageType in {ChangesRequired, ApprovedPlan, ApprovedResult}
    ensures Measure(next) < Measure(s)
  {
    hide PlanFits, ResultFits, Valid, Fingerprint, VerifyImmutableEnvelope, DistinctNonblank;
  }

  lemma WorkDescends(s: State, m: Message, next: State)
    requires Live(s) && s.nextAction != RevalidateAndAccept
    requires ApplyMessage(s, m) == Ok(next) && next.status == Running
    requires m.envelope.messageType !in {ChangesRequired, ApprovedPlan, ApprovedResult}
    ensures Measure(next) < Measure(s)
  {
    hide PlanFits, ResultFits, Valid, VerifyImmutableEnvelope, DistinctNonblank, ParseEvidence,
      Complete, Passing, StringArrayField, FreezeTests, MachineFeedback, VerifyBlockedEnvelope;
  }

  /** A message that leaves the run running has cost at least one of its remaining steps. */
  lemma MessageDescends(s: State, m: Message, next: State)
    requires Live(s) && s.nextAction != RevalidateAndAccept
    requires ApplyMessage(s, m) == Ok(next) && next.status == Running
    ensures Measure(next) < Measure(s)
  {
    hide ApplyMessage, Live, Measure;
    if m.envelope.messageType in {ChangesRequired, ApprovedPlan, ApprovedResult} {
      ReviewDescends(s, m, next);
    } else {
      WorkDescends(s, m, next);
    }
  }

  // ----- over whole runs

  lemma AdvanceDescends(s: State, e: Event, next: State)
    requires Inv(s) && Perform(s, e) == Ok(next) && Advances(s, e, next)
    ensures Live(s) && Measure(next) < Measure(s)
  {
    hide Inv, Live, Measure, Normalize, ApplyMessage, RetryTarget;
    AnswerNeedsRunning(s, e);
    OnlyLiveIsDriven(s);
    if e.Revalidated? {
      MeasureIsBounded(s);
      assert Measure(next) == 0 by { AcceptedHasNoStepLeft(s, next); }
    } else {
      var m := if e.Deliver? then e.message else Normalize(s, e.response, e.world).value;
      MessageLeavesRunning(s, m, next);
      MessageDescends(s, m, next);
    }
  }

  lemma AnswerNeedsRunning(s: State, e: Event)
    requires Perform(s, e).Ok? && Answers(s, e)
    ensures s.status == Running
    ensures e.Respond? ==> s.nextAction != RevalidateAndAccept
  {
    hide Normalize, MarkerMessage;
    if e.Deliver? {
      DeliveryNeedsRunning(s, e.message);
    } else if e.Respond? {
      DeliveryNeedsRunning(s, Normalize(s, e.response, e.world).value);
      ResponseIsAllowed(s, e.response, e.world);
    }
  }

  lemma ResponseIsAllowed(s: State, response: Response, w: World)
    requires Normalize(s, response, w).Ok?
    ensures response.signal in AllowedSignals(s.nextAction)
  {
    hide MarkerMessage, VerifyEvidence, PromotePatchLimit;
  }

  lemma AcceptedHasNoStepLeft(s: State, next: State)
    requires AcceptAfterRevalidation(s) == Ok(next)
    ensures Measure(next) == 0
  {
  }

  lemma MessageLeavesRunning(s: State, m: Message, next: State)
    requires ApplyMessage(s, m) == Ok(next)
    ensures next.status in {Running, Blocked}
  {
    hide Valid, ParseEvidence, Complete, Passing, Fingerprint, StringArrayField, MachineFeedback;
  }

  predicate ActionPending(s: State) {
    s.status in {Running, WaitingThread, PausedUserAction}
  }

  /** Apart from an answer, only a retry changes what is left to do in a run that goes on. */
  lemma OtherStepsKeepMeasure(s: State, e: Event, next: State)
    requires Inv(s) && Perform(s, e) == Ok(next) && !Advances(s, e, next)
    requires ActionPending(next) && !e.RetryRun?
    requires e.Deliver? ==> s.nextAction != RevalidateAndAccept
    ensures ActionPending(s) && Measure(next) == Measure(s)
  {
    hide Inv, Measure, Normalize, ApplyMessage, RetryTarget, FreezeTests, TrimAll;
    if e.Deliver? {
      MessageLeavesRunning(s, e.message, next);
    } else if e.Respond? {
      MessageLeavesRunning(s, Normalize(s, e.response, e.world).value, next);
    } else {
      MeasureDependsOn(s, next);
    }
  }

  /** The successful steps among the first `n` events. */
  function Advanced(r: Run, n: nat): nat
    requires HasShape(r) && n <= |r.events|
  {
    if n == 0 then 0
    else Advanced(r, n - 1) + if Advances(r.states[n - 1], r.events[n - 1], r.states[n]) then 1 else 0
  }

  /** A patch rejection that was retried although it had interrupted a verdict. */
  predicate Detour(s: State, e: Event, blockedIn: NextAction) {
    && e == RetryRun(ResultReviewPatchNotAuthorized)
    && blockedIn == RequestReviewerResultVerdict
  }

  function Detours(r: Run, n: nat): nat
    requires HasShape(r) && n <= |r.events|
  {
    if n <= 1 then 0
    else
      Detours(r, n - 1)
      + if Detour(r.states[n - 1], r.events[n - 1], r.states[n - 2].nextAction) then 1 else 0
  }

  /** The driver never asks a participant while the result is only to be revalidated. */
  predicate DriverAsks(r: Run)
    requires HasShape(r)
  {
    forall n | 0 <= n < |r.events| && r.events[n].Deliver? ::
      r.states[n].nextAction != RevalidateAndAccept
  }

  lemma InitialMeasure(facts: Facts)
    ensures Measure(Initial(facts)) == 33
  {
  }

  lemma RestoredMeasure(s: State, kind: Retry)
    requires Live(s)
    requires Restored(s, kind) != s ==> s.nextAction == RequestReviewerResultVerdict
    ensures Measure(Restored(s, kind)) ==
      Measure(s) + if kind == ResultReviewPatchNotAuthorized
                      && s.nextAction == RequestReviewerResultVerdict then 2 else 0
  {
    hide PlanFits, ResultFits;
  }

  /** What has been done and what is left never exceed the budget of the initial state, with two
      more steps for each detour. */
  lemma {:induction false} BudgetHolds(r: Run, n: nat)
    requires IsRun(r) && DriverAsks(r) && n <= |r.events|
    ensures ActionPending(r.states[n]) ==>
      Advanced(r, n) + Measure(r.states[n]) <= 33 + 2 * Detours(r, n)
    ensures Advanced(r, n) <= 33 + 2 * Detours(r, n)
  {
    hide Inv, Live, Step, Measure, Advances, Restored;
    RunKeeps(r, n);
    if n == 0 {
      InitialMeasure(r.facts);
    } else {
      BudgetHolds(r, n - 1);
      RunKeeps(r, n - 1);
      var s, e, next := r.states[n - 1], r.events[n - 1], r.states[n];
      StepOf(r, n - 1);
      if Advances(s, e, next) {
        AdvanceFits(r, n);
      } else if e.RetryRun? {
        if n > 1 {
          BudgetHolds(r, n - 2);
        }
        RetryFits(r, n);
      } else if ActionPending(next) {
        OtherStepsKeepMeasure(s, e, next);
      }
    }
  }

  lemma AdvanceFits(r: Run, n: nat)
    requires IsRun(r) && 0 < n <= |r.events|
    requires Inv(r.states[n - 1]) && Inv(r.states[n])
    requires Advances(r.states[n - 1], r.events[n - 1], r.states[n])
    ensures ActionPending(r.states[n - 1])
    ensures Measure(r.states[n]) < Measure(r.states[n - 1])
    ensures 0 <= Measure(r.states[n])
  {
    hide Inv, Step, Measure, Perform;
    var s, e, next := r.states[n - 1], r.events[n - 1], r.states[n];
    StepOf(r, n - 1);
    AdvanceDescends(s, e, next);
    assert ActionPending(s) by { AnswerNeedsRunning(s, e); }
    if next.status == Running {
      OnlyLiveIsDriven(next);
      MeasureIsBounded(next);
    } else {
      assert next.nextAction == Stop by { AcceptedStops(next); }
      assert Measure(next) == 0 by { StoppedHasNoStepLeft(next); }
    }
  }

  lemma AcceptedStops(s: State)
    requires Inv(s) && s.status == Accepted
    ensures s.nextAction == Stop
  {
    hide Common, Complete, Passing, BlockedIn;
  }

  lemma StoppedHasNoStepLeft(s: State)
    requires s.nextAction == Stop
    ensures Measure(s) == 0
  {
  }

  lemma RetryFits(r: Run, n: nat)
    requires IsRun(r) && DriverAsks(r) && 0 < n <= |r.events| && r.events[n - 1].RetryRun?
    requires n > 1 && ActionPending(r.states[n - 2]) ==>
      Advanced(r, n - 2) + Measure(r.states[n - 2]) <= 33 + 2 * Detours(r, n - 2)
    ensures Advanced(r, n) + Measure(r.states[n]) <= 33 + 2 * Detours(r, n)
  {
    hide Inv, Live, Step, Measure, Restored;
    RetryRestores(r, n - 1);
    var origin, kind := r.states[n - 2].(status := Running), r.events[n - 1].kind;
    RunKeeps(r, n - 2);
    OnlyLiveIsDriven(r.states[n - 2]);
    LiveWhenIdle(r.states[n - 2]);
    MeasureDependsOn(r.states[n - 2], origin);
    RetryNeedsBlocked(r, n - 1);
    RestoredMeasure(origin, kind);
  }

  lemma RetryNeedsBlocked(r: Run, n: nat)
    requires IsRun(r) && n < |r.events| && r.events[n].RetryRun?
    ensures r.states[n].status == Blocked
  {
    hide Inv, RetryTarget, Persistable;
    RunKeeps(r, n);
    StepOf(r, n);
    RetryStep(r.states[n], r.events[n].kind, r.states[n + 1]);
  }

  /** A run, whatever its participants answer and however often it fails, pauses, blocks and is
      retried, makes at most 33 successful steps, and two more for each detour. */
  lemma StepsAreBounded(r: Run)
    requires IsRun(r) && DriverAsks(r)
    ensures Advanced(r, |r.events|) <= 33 + 2 * Detours(r, |r.events|)
  {
    BudgetHolds(r, |r.events|);
  }

  lemma {:induction false} CheckedRunsTakeNoDetour(r: Run, n: nat)
    requires IsRun(r) && AcceptedTurnsAreChecked(r) && n <= |r.events|
    ensures Detours(r, n) == 0
  {
    hide Step, FromTurn, Linked;
    if n > 1 {
      CheckedRunsTakeNoDetour(r, n - 1);
      if r.events[n - 1] == RetryRun(ResultReviewPatchNotAuthorized) {
        CheckedRejectionWasIntegration(r, n - 1);
      }
    }
  }

  /** With the coordinator's check on accepted turns, what has been done and what is left never exceed
      33, so no run makes more than 33 successful steps. */
  lemma CheckedStepsAreBounded(r: Run, n: nat)
    requires IsRun(r) && DriverAsks(r) && AcceptedTurnsAreChecked(r) && n <= |r.events|
    ensures ActionPending(r.states[n]) ==> Advanced(r, n) + Measure(r.states[n]) <= 33
    ensures Advanced(r, n) <= 33
  {
    hide Step, Linked, AcceptedTurnsAreChecked, Measure;
    BudgetHolds(r, n);
    CheckedRunsTakeNoDetour(r, n);
  }
}
