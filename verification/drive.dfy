/** The driver: it advances one run object until it halts, within a fixed number of steps. */
module Drivers {
  import opened Wrappers
  import opened RunTypes
  import opened Participants
  import opened Machine
  import opened Normalisation
  import opened Invariant
  import opened Steps
  import opened Effects
  import opened Runs
  import opened Progress
  import opened Prompts
  import opened RunStates

  const MAX_DRIVER_STEPS: nat := 128

  /** What becomes of the turn of one driver step. */
  datatype Answer =
    | Envelope(message: Message)
    | Reply(response: Response, world: World)
    | RetryAction
    | Fault(error: Diagnostic, whileWaiting: bool)
    | UserNeeded                                   // the turn waits for an approval or for input
    | CancelledMeanwhile                           // another task has cancelled the stored run

  /** One step's surroundings: how often its thread is found busy first, and the answer. */
  datatype Turn = Turn(waits: nat, answer: Answer)

  const PERMISSION_REQUIRED := "PERMISSION_REQUIRED"

  /** How one step ended: with a new state, with the same action to be tried again, or in an error. */
  datatype Ending = Moved | TryAgain | Broken(error: Diagnostic)

  /** The diagnostic code of a state machine error; only that there is one matters here. */
  const CODE_TEXT: Code -> string

  function ErrorOf(code: Code, action: NextAction): Diagnostic {
    Diagnostic(CODE_TEXT(code), "", None, action, ActionRole(action), None, None, None, None, None, None)
  }

  predicate IsTestDeclarationAction(action: NextAction) {
    action in {RequestPrimaryContract, RequestReviewerContract, RequestPrimaryPlan}
  }

  function HaltFor(code: string, action: NextAction): Halt {
    if code == "COMMUNICATION_FAILURE" then HaltPaused
    else if code == "INVALID_TEST_COMMAND" && IsTestDeclarationAction(action) then HaltPaused
    else if code == "INCOMPATIBLE_CODEX" then HaltIncompatible
    else HaltBlocked
  }

  // ----- what the driver does is a sequence of steps

  /** Where a sequence of steps leads. */
  function Follow(s: State, events: seq<Event>): Result<State> {
    if events == [] then Ok(s)
    else
      var before :- Follow(s, events[..|events| - 1]);
      Step(before, events[|events| - 1])
  }

  lemma FollowExtends(s: State, events: seq<Event>, t: State, e: Event, u: State)
    requires Follow(s, events) == Ok(t) && Step(t, e) == Ok(u)
    ensures Follow(s, events + [e]) == Ok(u)
  {
    hide Step;
    assert (events + [e])[..|events|] == events;
  }

  lemma FollowNothing(s: State)
    ensures Follow(s, []) == Ok(s)
  {
  }

  lemma {:induction false} Joined(s: State, first: seq<Event>, t: State, second: seq<Event>, u: State)
    requires Follow(s, first) == Ok(t) && Follow(t, second) == Ok(u)
    ensures Follow(s, first + second) == Ok(u)
    decreases |second|
  {
    hide Step;
    if second == [] {
      assert first + second == first;
    } else {
      var front, last := second[..|second| - 1], second[|second| - 1];
      var v := Follow(t, front).value;
      Joined(s, first, t, front, v);
      FollowExtends(s, first + front, v, last, u);
      assert first + front + [last] == first + second;
    }
  }

  /** A performed step can be saved and keeps the invariant. */
  lemma PerformedStep(s: State, e: Event, t: State)
    requires Inv(s) && Perform(s, e) == Ok(t) && s.status != Accepted
    ensures Step(s, e) == Ok(t) && Inv(t)
  {
    hide Inv, Perform, Step;
    assert !EndsAccepted(s, e);
    SaveRefusesOnlyEndingAccepted(s, e);
    PerformKeeps(s, e);
    StepIsPerform(s, e);
  }

  lemma StepIsPerform(s: State, e: Event)
    ensures Step(s, e).Ok? ==> Step(s, e) == Perform(s, e)
  {
    hide Perform, Persistable;
  }

  // ----- one step

  /** The events of a step that failed after its preparations. */
  predicate Prepares(s: State, events: seq<Event>, t: State) {
    && Follow(s, events) == Ok(t)
    && Inv(t)
    && Driven(t)
    && t.nextAction == s.nextAction
    && Measure(t) == Measure(s)
  }

  lemma NothingPrepared(s: State)
    requires Inv(s) && Driven(s)
    ensures Prepares(s, [], s)
  {
    hide Inv, Measure;
  }

  predicate IsPreparation(e: Event) {
    e.PrepareWorkspace? || e.Wait? || e.Idle?
  }

  /** One more preparation. */
  lemma PreparesMore(s: State, events: seq<Event>, t: State, e: Event, u: State)
    requires Prepares(s, events, t) && IsPreparation(e) && Perform(t, e) == Ok(u)
    ensures Prepares(s, events + [e], u)
  {
    hide Inv, Step, Measure, Follow;
    PerformedStep(t, e, u);
    FollowExtends(s, events, t, e, u);
    MeasureDependsOn(t, u);
  }

  /** The thread is found busy, and then idle again. */
  method WaitOnce(run: RunState, ghost s: State, ghost before: seq<Event>) returns (ghost events: seq<Event>)
    requires Prepares(s, before, run.View()) && run.status == Running
    modifies run
    ensures Prepares(s, events, run.View()) && run.status == Running
  {
    hide Prepares;
    ghost var t := run.View();
    var waiting := run.WaitForThread();
    PreparesMore(s, before, t, Wait, run.View());
    ghost var u := run.View();
    var idle := run.ThreadBecameIdle();
    PreparesMore(s, before + [Wait], u, Idle, run.View());
    events := before + [Wait] + [Idle];
  }

  /** The preparations of a model action: a verification gets its clone, and the thread is waited for
      until it is idle. */
  method Prepare(run: RunState, waits: nat) returns (r: Result<NextAction>, ghost events: seq<Event>)
    requires Inv(run.View()) && Driven(run.View())
    modifies run
    ensures Prepares(old(run.View()), events, run.View())
    ensures r.Ok? ==> run.status == Running
  {
    hide Prepares, Inv;
    ghost var s := run.View();
    events, r := [], Ok(run.nextAction);
    NothingPrepared(s);
    if run.nextAction == RequestPrimaryVerification {
      r := run.PrepareVerificationWorkspace();
      if r.Err? {
        return;
      }
      PreparesMore(s, [], s, PrepareWorkspace, run.View());
      events := [] + [PrepareWorkspace];
    }
    if run.status == WaitingThread {
      ghost var t := run.View();
      r := run.ThreadBecameIdle();
      PreparesMore(s, events, t, Idle, run.View());
      events := events + [Idle];
    }
    for i := 0 to waits
      invariant Prepares(s, events, run.View()) && run.status == Running
    {
      events := WaitOnce(run, s, events);
    }
    r := Ok(run.nextAction);
  }

  /** The answer took the run to another state that is still within its budget. */
  predicate MovesOn(s: State, events: seq<Event>, t: State) {
    && Follow(s, events) == Ok(t)
    && Inv(t)
    && (Driven(t) || t.status == Accepted ==> Measure(t) < Measure(s))
  }

  lemma AnsweredStep(s: State, events: seq<Event>, t: State, e: Event, u: State)
    requires Prepares(s, events, t)
    requires (e.Deliver? && s.nextAction != RevalidateAndAccept) || e.Respond? || e.Revalidated?
    requires Perform(t, e) == Ok(u)
    ensures MovesOn(s, events + [e], u)
  {
    hide Inv, Step, Measure, Perform, Follow;
    PerformedStep(t, e, u);
    FollowExtends(s, events, t, e, u);
    if u.status in {Running, Accepted} {
      AdvanceDescends(t, e, u);
    } else {
      AnswersDoNotWait(t, e, u);
    }
  }

  lemma AnswersDoNotWait(t: State, e: Event, u: State)
    requires (e.Deliver? || e.Respond? || e.Revalidated?) && Perform(t, e) == Ok(u)
    ensures u.status != WaitingThread
  {
    hide ApplyMessage, Normalize;
    if e.Deliver? {
      MessageLeavesRunning(t, e.message, u);
    } else if e.Respond? {
      MessageLeavesRunning(t, Normalize(t, e.response, e.world).value, u);
    }
  }

  /** The stored run was paused or cancelled during the step. */
  predicate Interrupts(s: State, events: seq<Event>, t: State) {
    && Follow(s, events) == Ok(t)
    && Inv(t)
    && t.status in {PausedUserAction, Cancelled}
  }

  lemma InterruptedStep(s: State, events: seq<Event>, t: State, e: Event, u: State)
    requires Prepares(s, events, t) && (e.PauseRun? || e.CancelRun?) && Perform(t, e) == Ok(u)
    ensures Interrupts(s, events + [e], u)
  {
    hide Inv, Step, Measure, Follow;
    PerformedStep(t, e, u);
    FollowExtends(s, events, t, e, u);
  }

  /** The ends of a step that bring no message: what is left of the run, and the error. */
  method EndWithoutAnswer(run: RunState, answer: Answer, ghost s: State, ghost before: seq<Event>)
    returns (ending: Ending, ghost events: seq<Event>)
    requires Prepares(s, before, run.View()) && run.status in {Running, WaitingThread}
    requires answer.Fault? || answer.UserNeeded? || answer.CancelledMeanwhile?
    modifies run
    ensures ending.Broken?
    ensures if answer.Fault? then Prepares(s, events, run.View()) && ending.error.action == run.nextAction
            else Interrupts(s, events, run.View())
  {
    hide Prepares, Interrupts;
    ghost var t := run.View();
    var action := run.nextAction;
    match answer {
      case Fault(error, whileWaiting) =>
        events := before;
        if whileWaiting && run.status == Running {
          var waiting := run.WaitForThread();
          PreparesMore(s, before, t, Wait, run.View());
          events := before + [Wait];
        }
        ending := Broken(error.(action := action));
      case UserNeeded =>
        var paused := run.Pause(PERMISSION_REQUIRED);
        InterruptedStep(s, before, t, PauseRun(PERMISSION_REQUIRED), run.View());
        events := before + [PauseRun(PERMISSION_REQUIRED)];
        ending := Broken(ErrorOf(RunNotActive, action).(code := PERMISSION_REQUIRED));
      case CancelledMeanwhile =>
        var stopped := run.Cancel();
        InterruptedStep(s, before, t, CancelRun, run.View());
        events := before + [CancelRun];
        ending := Broken(ErrorOf(RunNotActive, action).(code := "CANCELLED"));
    }
  }

  /** `drive_model_action` and `revalidate_and_accept`: an error leaves the run as it was prepared, or
      paused or cancelled. The last action has no turn, so nobody is asked there. */
  method DriveAction(run: RunState, turn: Turn) returns (ending: Ending, ghost events: seq<Event>)
    requires Inv(run.View()) && Driven(run.View())
    modifies run
    ensures ending.Moved? ==> MovesOn(old(run.View()), events, run.View())
    ensures ending.TryAgain? ==> turn.answer == RetryAction && Prepares(old(run.View()), events, run.View())
    ensures ending.Broken? ==>
      || (Prepares(old(run.View()), events, run.View()) && ending.error.action == run.nextAction)
      || Interrupts(old(run.View()), events, run.View())
    ensures turn.answer.UserNeeded? && old(run.nextAction) != RevalidateAndAccept ==> ending.Broken?
    ensures turn.answer.CancelledMeanwhile? ==> ending.Broken?
  {
    hide Inv, Step, Measure, MovesOn, Machine.ApplyMessage, Normalize, Prepares, Interrupts,
      Machine.AcceptAfterRevalidation;
    ghost var s := run.View();
    var applied: Result<NextAction>;
    ghost var e: Event;
    ghost var t: State;
    if run.nextAction == RevalidateAndAccept {
      NothingPrepared(s);
      events, e, t := [], Revalidated, s;
      if turn.answer.Fault? || turn.answer.CancelledMeanwhile? {
        ending, events := EndWithoutAnswer(run, turn.answer, s, []);
        return;
      }
      applied := run.AcceptAfterRevalidation();
    } else {
      var prepared: Result<NextAction>;
      prepared, events := Prepare(run, turn.waits);
      t := run.View();
      PreparedAction(s, events, t);
      if prepared.Err? {
        return Broken(ErrorOf(prepared.code, run.nextAction)), events;
      }
      match turn.answer {
        case RetryAction => return TryAgain, events;
        case Envelope(message) =>
          e := Deliver(message);
          applied := run.ApplyMessage(message);
        case Reply(response, world) =>
          e := Respond(response, world);
          var message := Normalize(run.View(), response, world);
          if message.Err? {
            return Broken(ErrorOf(message.code, run.nextAction)), events;
          }
          applied := run.ApplyMessage(message.value);
        case _ =>
          ending, events := EndWithoutAnswer(run, turn.answer, s, events);
          return;
      }
    }
    if applied.Err? {
      return Broken(ErrorOf(applied.code, run.nextAction)), events;
    }
    assert Perform(t, e) == Ok(run.View());
    AnsweredStep(s, events, t, e, run.View());
    return Moved, events + [e];
  }

  lemma PreparedAction(s: State, events: seq<Event>, t: State)
    requires Prepares(s, events, t)
    ensures s.nextAction == t.nextAction
  {
  }

  /** A lost connection pauses the run, as does a test command that a declaration may correct; a server
      that does not fit ends it, and any other failure blocks it. The diagnostic stays. */
  predicate HaltsAs(t: State, error: Diagnostic) {
    && t.lastError == Some(error)
    && t.reasonCode == Some(error.code)
    && t.status ==
      if error.code == "COMMUNICATION_FAILURE" then PausedUserAction
      else if error.code == "INCOMPATIBLE_CODEX" then IncompatibleCodex
      else if error.code == "INVALID_TEST_COMMAND"
        && (|| error.action == RequestPrimaryContract
            || error.action == RequestReviewerContract
            || error.action == RequestPrimaryPlan)
      then PausedUserAction
      else Blocked
  }

  /** The end of a failed step: the error is recorded and the run halts. */
  method HaltRun(run: RunState, error: Diagnostic)
    requires Inv(run.View()) && Driven(run.View()) && error.action == run.nextAction
    modifies run
    ensures Step(old(run.View()), FailStep(error, HaltFor(error.code, error.action))) == Ok(run.View())
    ensures Inv(run.View()) && !Driven(run.View())
    ensures HaltsAs(run.View(), error)
  {
    hide Inv, Step, HaltsAs;
    ghost var s := run.View();
    run.RecordError(error);
    match HaltFor(error.code, error.action) {
      case HaltPaused => var paused := run.Pause(error.code);
      case HaltIncompatible => var stopped := run.MarkIncompatible(error.code);
      case HaltBlocked => var stopped := run.Block(error.code);
    }
    PerformedStep(s, FailStep(error, HaltFor(error.code, error.action)), run.View());
    FailedHalts(s, error, run.View());
  }

  lemma FailedHalts(s: State, error: Diagnostic, t: State)
    requires Failed(s, error, HaltFor(error.code, error.action)) == Ok(t)
    ensures HaltsAs(t, error)
  {
  }

  /** A followed sequence of steps from the start is a run, so whatever holds of runs holds of what
      the driver does. */
  lemma {:induction false} FollowedIsRun(facts: Facts, events: seq<Event>, t: State) returns (r: Run)
    requires Follow(Initial(facts), events) == Ok(t)
    ensures IsRun(r) && r.facts == facts && r.events == events && r.states[|events|] == t
    decreases |events|
  {
    hide Step;
    if events == [] {
      r := Run(facts, [t], []);
    } else {
      var front, last := events[..|events| - 1], events[|events| - 1];
      var before := Follow(Initial(facts), front).value;
      var shorter := FollowedIsRun(facts, front, before);
      r := Run(facts, shorter.states + [t], events);
      assert Step(before, last) == Ok(t);
      forall i | 0 <= i < |events| ensures Linked(r, i) {
        if i < |front| {
          assert Linked(shorter, i);
          assert r.states[i] == shorter.states[i] && r.states[i + 1] == shorter.states[i + 1];
          assert r.events[i] == shorter.events[i];
        }
      }
    }
  }

  lemma {:induction false} FollowKeeps(s: State, events: seq<Event>, t: State)
    requires Inv(s) && Follow(s, events) == Ok(t)
    ensures Inv(t) && t.limits == s.limits && t.facts == s.facts
    decreases |events|
  {
    hide Inv, Step, PlanEffect, ShaEffect, EvidenceEffect, ApprovalEffect, TestsEffect;
    if events != [] {
      var before := Follow(s, events[..|events| - 1]).value;
      FollowKeeps(s, events[..|events| - 1], before);
      StepKeeps(before, events[|events| - 1]);
      StepEffect(before, events[|events| - 1]);
    }
  }

  function LeftToDo(s: State): int {
    if Driven(s) then Measure(s) else 0
  }

  lemma LeftToDoIsBounded(s: State)
    requires Inv(s) && s.limits.maxRounds == DEFAULT_MAX_REVIEW_ROUNDS
    ensures 0 <= LeftToDo(s) <= 33
    ensures Driven(s) ==> 1 <= LeftToDo(s)
  {
    hide Inv, Live, Measure;
    if Driven(s) {
      OnlyLiveIsDriven(s);
      MeasureIsBounded(s);
    }
  }

  lemma EndingFits(s: State, done: seq<Event>, t: State, ending: Ending)
    requires Inv(s) && Driven(s) && s.limits.maxRounds == DEFAULT_MAX_REVIEW_ROUNDS
    requires
      || (ending.Moved? && MovesOn(s, done, t))
      || (!ending.Moved? && Prepares(s, done, t))
      || (ending.Broken? && Interrupts(s, done, t))
    ensures Follow(s, done) == Ok(t) && Inv(t) && t.limits == s.limits
    ensures LeftToDo(t) <= LeftToDo(s) - if ending.Moved? then 1 else 0
    ensures ending.Moved? || Driven(t) || t.status in {PausedUserAction, Cancelled}
  {
    hide Inv, Step, Measure, Follow;
    FollowKeeps(s, done, t);
    LeftToDoIsBounded(s);
  }

  /** `drive`: at most 128 steps, until the run halts or is paused or cancelled meanwhile. What it does
      is a sequence of steps of the run. A drive that uses up its steps has spent at least 95 of them on
      actions to be tried again, because no run has more than 33 successful steps. */
  method Drive(run: RunState, turns: nat -> Turn)
    returns (exhausted: bool, retries: nat, ghost events: seq<Event>)
    requires Inv(run.View()) && run.limits.maxRounds == DEFAULT_MAX_REVIEW_ROUNDS
    modifies run
    ensures Follow(old(run.View()), events) == Ok(run.View())
    ensures Inv(run.View())
    ensures !Driven(run.View())
    ensures exhausted ==> retries >= MAX_DRIVER_STEPS - 33
    ensures (forall i: nat :: !turns(i).answer.RetryAction?) ==> retries == 0 && !exhausted
  {
    hide Inv, Step, Measure, MovesOn, Prepares, LeftToDo, Follow;
    ghost var s := run.View();
    events, retries := [], 0;
    LeftToDoIsBounded(s);
    FollowNothing(s);
    for i := 0 to MAX_DRIVER_STEPS
      invariant Follow(s, events) == Ok(run.View()) && Inv(run.View())
      invariant run.View().limits == s.limits
      invariant retries <= i
      invariant i - retries + LeftToDo(run.View()) <= 33
      invariant (forall j: nat :: !turns(j).answer.RetryAction?) ==> retries == 0
    {
      if run.status !in {Running, WaitingThread} {
        return false, retries, events;
      }
      var turn := turns(i);
      ghost var before := run.View();
      var ending, done := DriveAction(run, turn);
      EndingFits(before, done, run.View(), ending);
      Joined(s, events, before, done, run.View());
      events := events + done;
      match ending {
        case Broken(error) =>
          if run.status in {PausedUserAction, Cancelled} {
            return false, retries, events;
          }
          ghost var broken := run.View();
          HaltRun(run, error);
          ghost var halt := FailStep(error, HaltFor(error.code, error.action));
          FollowExtends(s, events, broken, halt, run.View());
          events := events + [halt];
          return false, retries, events;
        case TryAgain =>
          retries := retries + 1;
        case Moved =>
      }
    }
    LeftToDoIsBounded(run.View());
    exhausted := true;
    if run.status != Accepted {
      ghost var last := run.View();
      var stopped := run.Block("NO_PROGRESS");
      PerformedStep(last, StepsExhausted, run.View());
      FollowExtends(s, events, last, StepsExhausted, run.View());
      events := events + [StepsExhausted];
    }
  }
}
