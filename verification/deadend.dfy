/** Which states of a run still lead to acceptance, whatever the coordinator lets through. */
module DeadEnds {
  import opened Wrappers
  import opened Json
  import opened RunTypes
  import opened Protocol
  import opened Participants
  import opened Machine
  import opened Retries
  import opened Normalisation
  import opened Invariant
  import opened Steps
  import opened Runs
  import opened Recovery
  import opened Progress
  import opened Windows
  import opened Acceptance
  import opened Drivers
  import opened Completion

  // ----- what the coordinator lets through

  /** What decides whether a stopped run is resumed or retried: anything that may depend on the run so
      far, its messages and its records. */
  type Admission = (Run, Event) -> bool

  function Cut(r: Run, n: nat): Run
    requires n < |r.states| && n <= |r.events|
  {
    Run(r.facts, r.states[..n + 1], r.events[..n])
  }

  predicate Admitted(r: Run, n: nat, admits: Admission)
    requires HasShape(r) && n < |r.events|
  {
    r.events[n].RetryRun? || r.events[n].ResumeRun? ==> admits(Cut(r, n), r.events[n])
  }

  predicate Obeys(r: Run, admits: Admission)
    requires HasShape(r)
  {
    forall n | 0 <= n < |r.events| :: Admitted(r, n, admits)
  }

  /** The run is driven, or it is resumed or retried as soon as it is asked for. */
  ghost predicate CanGoOn(r: Run, n: nat, admits: Admission)
    requires HasShape(r) && n < |r.states|
  {
    || Driven(r.states[n])
    || (r.states[n].status == PausedUserAction && admits(Cut(r, n), ResumeRun))
    || exists kind: Retry :: RetryTarget(kind, r.states[n]).Ok? && admits(Cut(r, n), RetryRun(kind))
  }

  /** The result that awaits its verification does not list its changed files. */
  predicate Unread(s: State) {
    s.result.sha.Some? && s.result.evidence == [] && !ChangesOnRecord(s)
  }

  /** `q` is `r` up to step `n`, and goes on with v2 responses only. */
  predicate Continues(r: Run, n: nat, q: Run)
    requires HasShape(r) && n < |r.states|
  {
    && IsRun(q)
    && n <= |q.events|
    && Cut(q, n) == Cut(r, n)
    && forall i | n <= i < |q.events| :: !q.events[i].Deliver?
  }

  predicate EndsAccepted(q: Run)
    requires HasShape(q)
  {
    q.states[|q.events|].status == Accepted
  }

  /** A continuation that obeys the same rules and ends in acceptance. */
  predicate LeadsToAcceptance(r: Run, n: nat, q: Run, admits: Admission)
    requires HasShape(r) && n < |r.states|
  {
    Continues(r, n, q) && Obeys(q, admits) && EndsAccepted(q)
  }

  // ----- the way on

  /** A run with one more step at its end. */
  lemma AnotherStep(r: Run, n: nat, q: Run, e: Event, next: State, admits: Admission) returns (p: Run)
    requires IsRun(r) && n < |r.states| && Continues(r, n, q) && Obeys(q, admits)
    requires !e.Deliver? && Step(q.states[|q.events|], e) == Ok(next)
    requires e.RetryRun? || e.ResumeRun? ==> admits(q, e)
    ensures Continues(r, n, p) && Obeys(p, admits) && p.events == q.events + [e]
    ensures p.states == q.states + [next]
  {
    hide Step;
    p := Run(q.facts, q.states + [next], q.events + [e]);
    var k := |q.events|;
    forall i | 0 <= i < |p.events| ensures Linked(p, i) && Admitted(p, i, admits) {
      if i < k {
        assert Linked(q, i) && Admitted(q, i, admits);
        assert Cut(p, i) == Cut(q, i);
      } else {
        assert Cut(p, k) == q;
      }
    }
    assert Cut(p, n) == Cut(q, n);
  }

  lemma JustCut(r: Run, n: nat, admits: Admission)
    requires IsRun(r) && Obeys(r, admits) && n < |r.states|
    ensures Continues(r, n, Cut(r, n)) && Obeys(Cut(r, n), admits)
  {
    hide Step;
    var q := Cut(r, n);
    forall i | 0 <= i < n ensures Linked(q, i) && Admitted(q, i, admits) {
      assert Linked(r, i) && Admitted(r, i, admits);
      assert Cut(q, i) == Cut(r, i);
    }
    assert Cut(q, n) == q;
  }

  /** Steps that need no leave are taken one after the other. */
  lemma {:induction false} Extended(r: Run, n: nat, q: Run, events: seq<Event>, t: State, admits: Admission)
    returns (p: Run)
    requires IsRun(r) && n < |r.states| && Continues(r, n, q) && Obeys(q, admits)
    requires Follow(q.states[|q.events|], events) == Ok(t)
    requires forall e | e in events :: e.Respond? || e.PrepareWorkspace? || e.Revalidated?
    ensures Continues(r, n, p) && Obeys(p, admits) && p.states[|p.events|] == t
    decreases |events|
  {
    hide Step, Obeys, Continues;
    assert HasShape(q) by { ContinuationHasShape(r, n, q); }
    if events == [] {
      p := q;
    } else {
      var front, last := events[..|events| - 1], events[|events| - 1];
      var before := Follow(q.states[|q.events|], front).value;
      var shorter := Extended(r, n, q, front, before, admits);
      assert HasShape(shorter) by { ContinuationHasShape(r, n, shorter); }
      assert last in events;
      p := AnotherStep(r, n, shorter, last, t, admits);
    }
  }

  lemma ContinuationHasShape(r: Run, n: nat, q: Run)
    requires HasShape(r) && n < |r.states| && Continues(r, n, q)
    ensures HasShape(q) && IsRun(q) && n <= |q.events| && q.facts == r.facts
  {
  }

  lemma RunCanBeAccepted(r: Run, n: nat) returns (events: seq<Event>, t: State)
    requires IsRun(r) && FactsFit(r.facts) && n < |r.states|
    requires r.states[n].status == Running && r.states[n].policy.targetBranch.Some?
    requires Hospitable(r.states[n]) && !Unread(r.states[n])
    ensures Follow(r.states[n], events) == Ok(t) && t.status == Accepted
    ensures forall e | e in events :: e.Respond? || e.PrepareWorkspace? || e.Revalidated?
  {
    hide Inv, EnvelopeFits, Hospitable, TrimmedNonblank, Follow, FactsFit, Live, ChangesOnRecord;
    var s := r.states[n];
    RunKeeps(r, n);
    RunKeepsEnvelope(r, n);
    RunKeepsTrimmed(r, n);
    OnlyLiveIsDriven(s);
    VerificationHasNoEvidence(s);
    RunningIsReady(s);
    events, t := CanBeAccepted(s);
  }

  lemma VerificationHasNoEvidence(s: State)
    requires Live(s)
    ensures s.nextAction == RequestPrimaryVerification ==> s.result.sha.Some? && s.result.evidence == []
  {
    hide Common;
  }

  /** What makes a run running again: its thread is idle, the user resumes it, or it is retried. */
  lemma RunsAgain(r: Run, n: nat, admits: Admission) returns (e: Event, next: State)
    requires IsRun(r) && n < |r.states| && CanGoOn(r, n, admits) && r.states[n].status != Running
    ensures !e.Deliver? && Step(r.states[n], e) == Ok(next)
    ensures e.RetryRun? || e.ResumeRun? ==> admits(Cut(r, n), e)
    ensures next.status == Running && next.policy == r.states[n].policy && next.result == r.states[n].result
  {
    hide Inv, Step, RetryTarget, ApplyRetry, Live, Linked, Cut;
    var s := r.states[n];
    assert Inv(s) by { RunKeeps(r, n); }
    if s.status == WaitingThread {
      e, next := Idle, s.(status := Running);
    } else if s.status == PausedUserAction && admits(Cut(r, n), ResumeRun) {
      e, next := ResumeRun, s.(status := Running, reasonCode := None, lastError := None);
    } else {
      var kind: Retry :| RetryTarget(kind, s).Ok? && admits(Cut(r, n), RetryRun(kind));
      RetryKeeps(kind, s);
      RetryNeedsReason(kind, s);
      e, next := RetryRun(kind), Unblocked(s, RetryTarget(kind, s).value);
    }
    PerformedStep(s, e, next);
  }

  /** No state of a run with a frozen target branch is a dead end while it can go on and its result can
      be read: whatever has happened so far, under any messages, the participants can still reach
      acceptance with v2 responses, if the surroundings let them. */
  lemma NoDeadEnd(r: Run, n: nat, admits: Admission) returns (q: Run)
    requires IsRun(r) && Obeys(r, admits) && FactsFit(r.facts) && n < |r.states|
    requires r.states[n].policy.targetBranch.Some? && Hospitable(r.states[n])
    requires CanGoOn(r, n, admits) && !Unread(r.states[n])
    ensures LeadsToAcceptance(r, n, q, admits)
  {
    hide Hospitable, Follow, FactsFit, Step, CanGoOn, Linked, Obeys, Continues;
    q := Cut(r, n);
    JustCut(r, n, admits);
    assert HasShape(q) && q.states[n] == r.states[n];
    var s := r.states[n];
    if s.status != Running {
      var e, next := RunsAgain(r, n, admits);
      q := AnotherStep(r, n, q, e, next, admits);
      assert Hospitable(next) by { HospitableDependsOn(s, next); }
    }
    ContinuationHasShape(r, n, q);
    var events, t := RunCanBeAccepted(q, |q.events|);
    q := Extended(r, n, q, events, t, admits);
    ContinuationHasShape(r, n, q);
  }

  lemma HospitableDependsOn(s: State, t: State)
    requires Hospitable(s) && t.policy == s.policy
    ensures Hospitable(t)
  {
  }

  // ----- and every other state is a dead end

  lemma DeadEndStep(r: Run, n: nat, admits: Admission)
    requires IsRun(r) && Obeys(r, admits) && n < |r.events|
    requires !CanGoOn(r, n, admits) && r.states[n].status != Accepted
    ensures !CanGoOn(r, n + 1, admits) && r.states[n + 1].status != Accepted
  {
    hide RetryTarget, Normalize, ApplyMessage, Step, Linked;
    var s, e, next := r.states[n], r.events[n], r.states[n + 1];
    StepOf(r, n);
    assert Admitted(r, n, admits);
    assert !e.ResumeRun? by { ResumeNeedsPause(s, e, next); }
    assert !e.RetryRun? by {
      assert e.RetryRun? ==> RetryTarget(e.kind, s).Ok?;
    }
    StoppedStep(s, e, next);
    forall kind: Retry ensures RetryTarget(kind, next).Err? {
      if RetryTarget(kind, next).Ok? {
        RetryNeedsReason(kind, next);
        ReasonsAreNotExhaustion(kind);
      }
    }
  }

  lemma ResumeNeedsPause(s: State, e: Event, next: State)
    requires Perform(s, e) == Ok(next)
    ensures e.ResumeRun? ==> s.status == PausedUserAction
  {
    hide RetryTarget, Normalize, ApplyMessage;
  }

  /** A run that is not driven, resumed or retried can only be ended. */
  lemma StoppedStep(s: State, e: Event, next: State)
    requires Perform(s, e) == Ok(next) && !Driven(s) && !e.ResumeRun? && !e.RetryRun?
    ensures next.status == Cancelled || next == BlockWith(s, "NO_PROGRESS")
  {
    hide Normalize, ApplyMessage;
    if e.Deliver? {
      DeliveryNeedsRunning(s, e.message);
    } else if e.Respond? {
      DeliveryNeedsRunning(s, Normalize(s, e.response, e.world).value);
    }
  }

  /** From a state that cannot go on, no run that obeys the same rules gets accepted, whatever
      messages it brings. */
  lemma {:induction false} DeadEndStays(r: Run, n: nat, m: nat, admits: Admission)
    requires IsRun(r) && Obeys(r, admits) && n <= m < |r.states|
    requires !CanGoOn(r, n, admits) && r.states[n].status != Accepted
    ensures !CanGoOn(r, m, admits) && r.states[m].status != Accepted
    decreases m
  {
    hide CanGoOn, Obeys, Step;
    if n < m {
      DeadEndStays(r, n, m - 1, admits);
      DeadEndStep(r, m - 1, admits);
    }
  }

  /** Without v1 envelopes a result that cannot be read stays so, and is never verified. */
  lemma UnreadStep(s: State, e: Event, next: State)
    requires Inv(s) && Unread(s) && Perform(s, e) == Ok(next) && !e.Deliver?
    ensures Unread(next) && (next.status == Accepted ==> s.status == Accepted)
  {
    hide Inv, Live, CommandTexts, Normalize, ApplyMessage, RetryTarget;
    if e.Respond? {
      var m := Normalize(s, e.response, e.world).value;
      DeliveryNeedsRunning(s, m);
      OnlyLiveIsDriven(s);
      UnreadIsRefused(s, e.response, e.world, m);
      RefusalBlocks(s, m, next);
    } else if e.Revalidated? && s.status == Running {
      OnlyLiveIsDriven(s);
      UnreadAwaitsVerification(s);
    }
  }

  lemma UnreadIsRefused(s: State, r: Response, w: World, m: Message)
    requires Live(s) && Unread(s) && Normalize(s, r, w) == Ok(m)
    ensures m.envelope.messageType == BlockedMessage
  {
    hide Common, Valid, EvidenceUpTo, FailuresUpTo, CommandTexts;
    assert s.nextAction == RequestPrimaryVerification by { UnreadAwaitsVerification(s); }
    if m.envelope.messageType != BlockedMessage {
      VerifiedKeepsFiles(s, VerificationMessage(s, Promoted(s, r, w).body).value, w);
    }
  }

  lemma UnreadAwaitsVerification(s: State)
    requires Live(s) && Unread(s)
    ensures s.nextAction == RequestPrimaryVerification && s.result.payload.Some?
  {
    hide PlanFits, CommandTexts, DistinctNonblank, Complete;
    if s.nextAction in {RequestPrimaryContract, RequestReviewerContract, RequestPrimaryPlan,
                        RequestReviewerPlanVerdict} {
      PlanningHasNoResult(s);
    }
  }

  lemma VerifiedKeepsFiles(s: State, m: Message, w: World)
    requires VerifiedMessage(s, m, w).Ok?
    ensures GetArray(VerifiedMessage(s, m, w).value.payload, "changed_files")
      == GetArray(s.result.payload.value, "changed_files")
  {
    hide EvidenceUpTo, FailuresUpTo;
  }

  lemma RefusalBlocks(s: State, m: Message, next: State)
    requires m.envelope.messageType == BlockedMessage && ApplyMessage(s, m) == Ok(next)
    ensures next.status == Blocked && next.result == s.result
  {
  }

  lemma {:induction false} UnreadStays(r: Run, n: nat, m: nat)
    requires IsRun(r) && n <= m < |r.states| && Unread(r.states[n]) && r.states[n].status != Accepted
    requires forall i | n <= i < |r.events| :: !r.events[i].Deliver?
    ensures Unread(r.states[m]) && r.states[m].status != Accepted
    decreases m
  {
    hide Unread, Inv, Step, Perform;
    if n < m {
      UnreadStays(r, n, m - 1);
      RunKeeps(r, m - 1);
      StepOf(r, m - 1);
      UnreadStep(r.states[m - 1], r.events[m - 1], r.states[m]);
    }
  }

  lemma CutsAgree(r: Run, n: nat, q: Run, admits: Admission)
    requires HasShape(r) && n < |r.states| && Continues(r, n, q)
    ensures q.states[n] == r.states[n]
    ensures CanGoOn(q, n, admits) == CanGoOn(r, n, admits)
  {
    hide RetryTarget, Step;
    assert q.states[n] == Cut(q, n).states[n] == Cut(r, n).states[n];
  }

  /** Whatever the coordinator decides on, acceptance can be reached with v2 responses exactly from the
      states that are accepted, or that can go on and whose result can be read. */
  lemma AcceptanceIsOpen(r: Run, n: nat, admits: Admission)
    requires IsRun(r) && Obeys(r, admits) && FactsFit(r.facts) && n < |r.states|
    requires r.states[n].policy.targetBranch.Some? && Hospitable(r.states[n])
    ensures (exists q :: LeadsToAcceptance(r, n, q, admits))
      <==> r.states[n].status == Accepted || (CanGoOn(r, n, admits) && !Unread(r.states[n]))
  {
    hide Hospitable, FactsFit, CanGoOn, Linked, Obeys, Unread, Continues;
    var s := r.states[n];
    if s.status == Accepted {
      JustCut(r, n, admits);
      assert LeadsToAcceptance(r, n, Cut(r, n), admits);
    } else if CanGoOn(r, n, admits) && !Unread(s) {
      var q := NoDeadEnd(r, n, admits);
    } else if q :| LeadsToAcceptance(r, n, q, admits) {
      ContinuationHasShape(r, n, q);
      CutsAgree(r, n, q, admits);
      if !CanGoOn(r, n, admits) {
        DeadEndStays(q, n, |q.events|, admits);
      } else {
        GoesOnWithoutEnvelopes(r, n, q);
        UnreadStays(q, n, |q.events|);
      }
    }
  }

  lemma GoesOnWithoutEnvelopes(r: Run, n: nat, q: Run)
    requires HasShape(r) && n < |r.states| && Continues(r, n, q)
    ensures forall i | n <= i < |q.events| :: !q.events[i].Deliver?
  {
  }

  // ----- the check on accepted turns

  /** The check on the latest accepted turn, as the coordinator makes it before a retry. */
  predicate ChecksAcceptedTurn(q: Run, e: Event) {
    HasShape(q) && (e.RetryRun? ==> PassesTurnCheck(q, |q.events|, e.kind))
  }

  lemma {:induction false} AcceptedTurnsOfCut(r: Run, n: nat, k: nat)
    requires HasShape(r) && k <= n <= |r.events|
    ensures AcceptedTurns(Cut(r, n), k) == AcceptedTurns(r, k)
  {
    if k > 0 {
      AcceptedTurnsOfCut(r, n, k - 1);
    }
  }

  lemma CheckOfCut(r: Run, n: nat, kind: Retry)
    requires HasShape(r) && n <= |r.events|
    ensures PassesTurnCheck(Cut(r, n), n, kind) == PassesTurnCheck(r, n, kind)
  {
    AcceptedTurnsOfCut(r, n, n);
  }

  /** A run that obeys the coordinator's checks is checked in the sense of `RetryRestoresExactly`. */
  lemma ObeyedMeansChecked(r: Run)
    requires IsRun(r) && Obeys(r, ChecksAcceptedTurn)
    ensures AcceptedTurnsAreChecked(r)
  {
    hide FromTurn, Step, Linked;
    forall n | 0 <= n < |r.events| && r.events[n] == RetryRun(ResultReviewPatchNotAuthorized)
      ensures FromTurn(r, n, Integrate)
    {
      assert Admitted(r, n, ChecksAcceptedTurn);
      CheckOfCut(r, n, ResultReviewPatchNotAuthorized);
    }
  }

  /** A retry that the guard and the check on accepted turns both let through. For the corrective ones
      the check is spelled out: they must have interrupted an integration. */
  predicate RetryIsOpen(r: Run, n: nat, kind: Retry)
    requires HasShape(r) && n < |r.states|
  {
    && RetryTarget(kind, r.states[n]).Ok?
    && match kind
      case CorrectivePatchTool => true
      case ResultReviewPatchNotAuthorized => n > 0 && r.states[n - 1].nextAction == RequestPrimaryIntegration
      case _ => PassesTurnCheck(r, n, kind)
  }

  lemma CheckDecides(r: Run, n: nat, kind: Retry)
    requires IsRun(r) && n < |r.states|
    ensures RetryIsOpen(r, n, kind) <==>
      RetryTarget(kind, r.states[n]).Ok? && ChecksAcceptedTurn(Cut(r, n), RetryRun(kind))
  {
    hide PassesTurnCheck, Step, Linked, RetryTarget;
    CheckOfCut(r, n, kind);
    if kind in {CorrectivePatchTool, ResultReviewPatchNotAuthorized} && RetryTarget(kind, r.states[n]).Ok? {
      CheckMeansIntegration(r, n, kind);
    }
  }

  /** With the coordinator's checks on accepted turns, acceptance can be reached with v2 responses exactly
      from the states that are accepted, or whose result can be read and which are running, waiting,
      paused, or blocked with a retry open. */
  lemma CheckedAcceptanceIsOpen(r: Run, n: nat)
    requires IsRun(r) && Obeys(r, ChecksAcceptedTurn) && FactsFit(r.facts) && n < |r.states|
    requires r.states[n].policy.targetBranch.Some? && Hospitable(r.states[n])
    ensures (exists q :: LeadsToAcceptance(r, n, q, ChecksAcceptedTurn))
      <==> r.states[n].status == Accepted || (!Unread(r.states[n]) &&
            (ActionPending(r.states[n]) || exists kind :: RetryIsOpen(r, n, kind)))
  {
    hide Hospitable, FactsFit, Linked, Unread, Obeys, RetryIsOpen, LeadsToAcceptance, RetryTarget,
      ChecksAcceptedTurn;
    AcceptanceIsOpen(r, n, ChecksAcceptedTurn);
    assert ChecksAcceptedTurn(Cut(r, n), ResumeRun) by { ResumingIsUnchecked(Cut(r, n)); }
    forall kind ensures RetryIsOpen(r, n, kind) <==>
      RetryTarget(kind, r.states[n]).Ok? && ChecksAcceptedTurn(Cut(r, n), RetryRun(kind))
    {
      CheckDecides(r, n, kind);
    }
  }

  lemma ResumingIsUnchecked(q: Run)
    requires HasShape(q)
    ensures ChecksAcceptedTurn(q, ResumeRun)
  {
  }

  /** So a patch rejected in a verdict turn ends the run, although the run object would retry it:
      under any messages, no run that obeys the checks goes on from there to acceptance. */
  lemma RejectedVerdictIsDeadEnd(r: Run, n: nat, m: nat)
    requires IsRun(r) && Obeys(r, ChecksAcceptedTurn) && 0 < n <= m < |r.states|
    requires BlockedFor(r.states[n], "PATCH_NOT_AUTHORIZED")
    requires r.states[n - 1].nextAction == RequestReviewerResultVerdict
    ensures r.states[m].status != Accepted
  {
    hide Linked, Obeys, RetryTarget, ChecksAcceptedTurn;
    forall kind: Retry
      ensures !(RetryTarget(kind, r.states[n]).Ok? && ChecksAcceptedTurn(Cut(r, n), RetryRun(kind)))
    {
      CheckDecides(r, n, kind);
      if RetryTarget(kind, r.states[n]).Ok? {
        RetryNeedsReason(kind, r.states[n]);
      }
    }
    DeadEndStays(r, n, m, ChecksAcceptedTurn);
  }

  // ----- results that can be read

  predicate ListsChanges(m: Message) {
    CommandTexts(GetArray(m.payload, "changed_files")).Ok?
  }

  /** The coordinator also reads the changed files of the results that come in v1 envelopes. */
  predicate EnvelopesAreRead(r: Run) {
    forall n | 0 <= n < |r.events| ::
      r.events[n].Deliver? && r.events[n].message.envelope.messageType == IntegrationReady ==>
        ListsChanges(r.events[n].message)
  }

  lemma ResponseListsChanges(s: State, r: Response, w: World, m: Message)
    requires Normalize(s, r, w) == Ok(m) && m.envelope.messageType == IntegrationReady
    ensures ListsChanges(m)
  {
    hide NormalizedMessage, VerifiedMessage, CommandTexts;
  }

  lemma MessageBringsResult(s: State, m: Message, next: State)
    requires ApplyMessage(s, m) == Ok(next)
    ensures || (next.result.payload == s.result.payload && next.result.sha == s.result.sha)
            || (m.envelope.messageType == IntegrationReady && next.result.payload == Some(m.payload))
  {
    hide Valid, VerifyImmutableEnvelope, ParseEvidence, Complete, Passing, Fingerprint, StringArrayField,
      MachineFeedback, FreezeTests, VerifyBlockedEnvelope, CountReview;
  }

  lemma StepBringsResult(s: State, e: Event, next: State)
    requires Perform(s, e) == Ok(next) && (s.result.sha.Some? ==> ChangesOnRecord(s))
    requires e.Deliver? && e.message.envelope.messageType == IntegrationReady ==> ListsChanges(e.message)
    ensures next.result.sha.Some? ==> ChangesOnRecord(next)
  {
    hide Normalize, ApplyMessage, RetryTarget, CommandTexts;
    if e.Deliver? {
      MessageBringsResult(s, e.message, next);
    } else if e.Respond? {
      var m := Normalize(s, e.response, e.world).value;
      MessageBringsResult(s, m, next);
      if m.envelope.messageType == IntegrationReady {
        ResponseListsChanges(s, e.response, e.world, m);
      }
    }
  }

  /** In runs whose envelopes are read, which all v2 runs are, every result can be read. */
  lemma {:induction false} ResultsCanBeRead(r: Run, n: nat)
    requires IsRun(r) && EnvelopesAreRead(r) && n < |r.states|
    ensures !Unread(r.states[n])
    ensures r.states[n].result.sha.Some? ==> ChangesOnRecord(r.states[n])
  {
    hide Step, Perform, ChangesOnRecord, ListsChanges, Linked;
    if n > 0 {
      ResultsCanBeRead(r, n - 1);
      StepOf(r, n - 1);
      StepBringsResult(r.states[n - 1], r.events[n - 1], r.states[n]);
    }
  }
}
