# Consensus runs, verified

A Dafny model of the coordinator that drives two participants, a Primary and a Reviewer, from their
contracts over an approved plan to one accepted integration commit, and proofs of what every run of it
keeps. The model follows the code branch by branch: the persisted run state and its transitions, the
normalisation of participant responses, the driver loop, and the self-contained algorithms beside them.

## The model

The centre is the state machine of one run. `Machine` and `Retries` give each operation of the run state
as a function on `RunTypes.State` that yields a new state or an error code. `RunStates.RunState` is the
run as the program holds it, a class whose methods assign fields in place; every method is proved to
refine its function, so an operation that fails leaves the object as it was. `Steps.Step` is the
transition relation: one event (a delivered message, a v2 response, a failure, a pause, a retry, a
revalidation, ...) followed by the validation that saving performs. `Runs.IsRun` is a whole run from the
initial state. Whatever the code looks up elsewhere (Git, the command runner, the policy, threads) is an
argument of the event.

Each property says which messages it ranges over. `Deliver(m)` brings an arbitrary valid message, as a v1
envelope does, because v1 envelopes bypass normalisation; `Respond(r, w)` brings a v2 response that is
normalised first. Runs (`IsRun`) may mix both; v2 runs (`IsV2Run`) contain no `Deliver`.

What is proved about runs, hardest first:

- **Recovery.** Blocking and then retrying leads back to the same state, field for field, for all thirteen
  retries, although several guards carry no diagnostic: the pending action is recovered from the invariant.
  The run object alone has one exact exception: the patch-rejection retry also fits a Reviewer verdict turn and
  turns it into a correction. The coordinator closes it, because it first checks that the latest accepted turn
  is an integration of the Primary in the same round (`crates/daemon/src/coordinator.rs:3046-3060`); under
  that check (`Recovery.AcceptedTurnsAreChecked`) every retry of every run restores the state exactly.
  Which blocks may be retried is exact too: for each of the thirteen, block then retry succeeds if and only if the
  reason, the pending action, the diagnostic's code, role, thread and detail and the recorded plan and result are
  as listed (`RetryGuards.MayBeRetried`).
- **Patch window.** In v2 runs, a running integration action is either the initial one or a recognised
  correction, never both and never neither. Failed verifications and requested changes below the limits
  always open a correction that passes the long guards. Under arbitrary messages the exact condition is
  `CorrectionOpen`.
- **Acceptance.** An accepted run has, in this order: an approval naming the hash of the plan and both frozen
  commits; a report of the accepted commit; evidence taken while that commit was current in which every
  frozen command passed exactly once; an approval of that commit; the revalidation. Nothing changes in
  between.
- **Termination with a number.** With the coordinator's check on accepted turns a run makes at most 33
  successful steps, whatever the participants answer and however often it fails, pauses and is retried. The run
  object alone, without that check, allows two more for each patch rejection retried out of a verdict turn.
  A drive that uses up its 128 steps has spent at least 95 on actions to be tried again.
- **Responses.** In every run, whatever v1 envelopes came before, a v2 response is applied if and only if it is one
  that the pending action asks for, what has to be looked up for it is in order (Git, the audit, the policy, the
  commands), and it does not report the commit that is already there. The message it becomes says what the
  participant said, on behalf of the run.
- **Messages.** In every live running state a message is accepted if and only if it is valid, of this run and
  expected, and it leads where the diagram of the protocol says (`Messages.LeadsTo`). A message that is stale in one
  respect only is refused for that respect.
- **What is frozen, verified and asked for.** The commands frozen at any point of a run are exactly those that the
  configuration, a contract or a recorded plan named, in that order. The evidence of a verification says of each
  command what its own record says, and the result goes to its verdict if and only if all exited with zero.
  Every request tells its participant the contracts, plan, approval, result and feedback that were delivered
  last, and the feedback is that of the step that opened the round.
- **No dead end.** What lets a stopped run go on is up to the coordinator, so the result holds for any way in
  which it may decide on resumptions and retries: acceptance can be reached with v2 responses, and only with
  steps it lets through, exactly from the states of a run that are accepted, or whose result lists its changed
  files and that are running, waiting, paused and let through, or blocked with a retry that both the guard and
  the coordinator let through (`DeadEnds.AcceptanceIsOpen`). With the coordinator's checks on the latest accepted
  turn (`crates/daemon/src/coordinator.rs:2743-2749`, `2963-2971`, `3052-3060`) a patch rejected in a verdict turn is a dead
  end under any messages, although the run object alone would retry it (`DeadEnds.RejectedVerdictIsDeadEnd`).
  Results of v2 runs always list their changed files, and so do those of v1 envelopes that the coordinator has
  audited (`DeadEnds.ResultsCanBeRead`). All this holds whatever has happened so far, provided that
  the policy admits the frozen commands, the state root is absolute and digests have 64 hex digits. So accepted
  runs exist for any facts.
- **No progress.** A CHANGES_REQUIRED blocks for want of progress exactly if the last review of the same
  stage had the same fingerprint. For reviews that list issue ids, the fingerprint depends on the plan and the
  set of issues only; for all others it depends on the plan and the whole payload, so that two v2 rejections of
  a plan count as the same exactly if their feedback is the same text.

Beside the run there are proofs of canonical JSON hashing, the streaming conflict-marker scanner, the marker
and delivery-identity parsers, the merge of turn evidence, the one-pass turn audit and the request table of
the JSON-RPC transport, where a request returns what the one response that found it waiting says.

Where the code differs from what one might expect, the model follows the code:

- Cancelling an accepted run, or giving up on one when the driver's steps are used up, performs but cannot be
  saved, because the accepted result would outlive its status (`Steps.SaveRefusesOnlyEndingAccepted`).
- A plan approval is applied in any action of the plan review; what it is bound to is the hash of the
  current plan, not that a new plan came first.
- Cutting the fence off a delivery identity panics on an empty fence, and exactly then: if the text has a
  heading, the first one stands at the start of a line, and it is followed by an empty fence and nothing else
  (`Deliveries.ParserPanicsOnEmptyFence`, with an input in `Deliveries.EmptyFencePanics`). The members on
  messages, turns, searches and merges have the panic among their outcomes.
- A review without issue ids is fingerprinted by its whole payload (`Reviews.FingerprintIdentifiesReviews`).
- `serde_json` is built without key order, so JSON objects are finite maps; the order matters only in
  `Canonical`, which has documents with ordered entries.

## Files

`wrappers`, `text`, `json`, `ordering` hold what everything uses; `canonical` the hashing; `runtypes`,
`protocol`, `machine`, `retry`, `participant`, `normalise` the data and the operations; `invariant`, `steps`,
`effects` the invariant and the effects of a step; `runs`, `recovery`, `guards`, `progress`, `review`,
`messages`, `declared`, `history`, `requests`, `evidence`, `verified`, `responses`, `window`, `v2runs`,
`acceptance`, `prompts`, `completion`, `deadend` the properties of runs; `runstate` and `drive` the mutable
run and its driver; `conflict`, `delivery`, `merge`, `auditor`, `transport` the other algorithms.

## Model

| member | source | states |
|---|---|---|
| Steps.StepKeeps | crates/core/src/state.rs:230-1389 | every step of a run, under any message, keeps the inductive invariant |
| Steps.RetryFindsAction | crates/core/src/state.rs:380-1236 | the guard of a retry identifies the action the run was blocked in, whatever the diagnostic says; only the patch rejection leaves two candidates |
| Steps.RetryKeeps | crates/core/src/state.rs:380-1236 | a retry whose guard passes always succeeds: its result is live and passes the final validation |
| Steps.SaveRefusesOnlyEndingAccepted | crates/core/src/state.rs:1238-1389 | validation refuses a performed step if and only if it cancels, or gives up on, an accepted run |
| Invariant.InvIsPersistable | crates/core/src/state.rs:1292-1389 | every state that satisfies the invariant passes `validate_persisted` |
| Invariant.MessageKeeps | crates/core/src/state.rs:274-296 | applying any valid message to a live state keeps the invariant |
| Messages.AcceptsExactly | crates/core/src/state.rs:274-296 | a message is accepted if and only if it is valid, of this run and expected by the pending action, and it leads to the action or block that the protocol's diagram shows |
| Messages.AcceptedIsWhole | crates/core/src/protocol.rs:99-290 | what every accepted message is known to carry, by type: its phase, its result, and in approvals the revision, both frozen commits and nothing uncovered |
| Messages.StaleIsNamed | crates/core/src/state.rs:1677-1831 | an otherwise acceptable message with another run id, commit, round or plan revision is refused with the code of that field |
| Messages.ConfiguresExactly | crates/core/src/state.rs:231-272 | a run is configured exactly once, before its first message, with a branch and commands that are not blank |
| Messages.RevalidatesExactly | crates/core/src/state.rs:1254-1290 | revalidation succeeds exactly when it is the pending action of a running run, and freezes branch, commit and evidence |
| Messages.StatusMoves | crates/core/src/state.rs:334-378 | when a run may pause, resume, wait and go on, and that resuming and going on undo the other two |
| Invariant.FreezeExtends | crates/core/src/state.rs:1728-1734 | freezing appends: the old commands are a prefix, the result is distinct and holds exactly old and new commands |
| Effects.StepEffect | crates/core/src/state.rs:1391-1660 | a step changes plan approval, commit, evidence or result approval only through the message that may do so |
| Runs.ReachableStates | crates/core/src/state.rs:1292-1389 | reachable states can be saved; running ones have coherent phase, no error and a streak below the limit; rounds stay in bounds; an approved plan is the one hashed and named |
| Runs.ReachablePlans | crates/core/src/state.rs:1391-1490 | in reachable states contracts and plan are held with their own hashes, and the plan revision is between 1 and 6; under review the revision is the round and later ones answer a feedback |
| Runs.ReachableResults | crates/core/src/state.rs:1518-1609 | in reachable states evidence is complete and, with approval and workspace, belongs to the current commit |
| Runs.RunMilestones | crates/core/src/state.rs:1447-1624 | every reachable approval, commit, evidence and result approval has the message that caused it, in order, unchanged since |
| Runs.AcceptedRun | crates/core/src/state.rs:1254-1290 | acceptance implies the whole chain plan approval, integration, passing evidence, result approval, revalidation, with nothing changed in between |
| Runs.OnlyRevalidationAccepts | crates/core/src/state.rs:1254-1290 | a run becomes accepted only by revalidating an approved result |
| Runs.AcceptedIsFinal | crates/core/src/state.rs:1238-1389 | no step of any kind follows acceptance |
| Recovery.RetryUndoesBlock | crates/core/src/state.rs:380-1236 | block then retry is the identity on live running states, except for a patch rejection in a verdict turn, exactly |
| Recovery.PatchRejectionMovesVerdict | crates/core/src/state.rs:1062-1176 | the guard of the run object has that exception: it lets a verdict turn come back as a correction |
| Recovery.BlockedByLastStep | crates/daemon/src/coordinator.rs:846-880 | a run blocked for a retryable reason was live before its last step, which only blocked it |
| Recovery.RetryRestores | crates/daemon/src/coordinator.rs:896-1080 | in every run a retry leads back to the state before the block, except for a patch rejection in a verdict turn, exactly |
| Recovery.CheckMeansIntegration | crates/daemon/src/coordinator.rs:3032-3060 | the check passes if and only if the run was blocked in an integration: always for an unavailable patch tool, never for a patch rejected in a verdict turn |
| Recovery.CheckedRejectionWasIntegration | crates/daemon/src/coordinator.rs:3046-3060 | a patch rejection that passes the check on the latest accepted turn interrupted an integration |
| Recovery.RetryRestoresExactly | crates/daemon/src/coordinator.rs:3028-3062 | with that check every retry of every run restores the state before the block, field for field |
| RetryGuards.RetryAcceptsExactly | crates/core/src/state.rs:380-1236 | for each of the thirteen retries: block then retry succeeds if and only if reason, action, diagnostic, plan and result are those listed, and leads back to the state before the block |
| RetryGuards.RefusalIsNamed | crates/core/src/state.rs:380-1236 | a refused retry is refused as incompatible exactly in the listed cases, else as not retryable |
| RetryGuards.LifecycleRetryRestores | crates/core/src/state.rs:724-792 | a result verdict cut short by the Reviewer's lifecycle diagnostic is restored |
| Progress.MessageDescends | crates/core/src/state.rs:1391-1675 | a message that leaves the run running lowers the measure, although the first integration resets the round |
| Progress.BudgetHolds | crates/core/src/state.rs:1528-1675 | for the run object alone: steps made plus steps left never exceed 33 plus two per detour, through failures, pauses and retries |
| Progress.StepsAreBounded | crates/daemon/src/coordinator.rs:826-888 | for the run object alone: at most 33 successful steps in any run, plus two per detour |
| Progress.CheckedStepsAreBounded | crates/daemon/src/coordinator.rs:826-888 | with the check on accepted turns, steps made plus steps left never exceed 33: no run makes more |
| Drivers.DriveAction | crates/daemon/src/coordinator.rs:3187-3383 | one driver step is a sequence of run steps; success lowers the measure, an error leaves the run as prepared, or paused or cancelled |
| Drivers.Prepare | crates/daemon/src/coordinator.rs:4360-4402 | before a turn the clone is prepared and the thread is waited for, any number of times, without using up the budget |
| Drivers.EndWithoutAnswer | crates/daemon/src/coordinator.rs:4812-4818 | a turn without an answer fails in its action, pauses for the user or finds the run cancelled |
| Drivers.HaltRun | crates/daemon/src/coordinator.rs:846-880 | a failed step records its diagnostic and pauses, ends or blocks the run by its code, as listed |
| Drivers.Drive | crates/daemon/src/coordinator.rs:826-888 | the loop ends halted, or at once when the run was paused or cancelled during a step; it is a sequence of run steps, and uses up 128 steps only with at least 95 repeated actions |
| Drivers.FollowedIsRun | crates/daemon/src/coordinator.rs:826-888 | what the driver does from the start is a run, so every property of runs holds of it |
| Reviews.FingerprintIdentifiesIssues | crates/core/src/state.rs:1943-1958 | of reviews that list issue ids: equal fingerprints if and only if same plan and same set of trimmed nonblank issue ids |
| Reviews.FingerprintIdentifiesReviews | crates/core/src/state.rs:1943-1958 | of any reviews: equal fingerprints if and only if same plan and same named thing, which is the list of issues or else the whole payload |
| Reviews.FingerprintIdentifiesFeedback | crates/daemon/src/coordinator.rs:5611-5651 | two v2 rejections have equal fingerprints if and only if same plan and same feedback text |
| Reviews.FingerprintIsTheLast | crates/core/src/state.rs:1642-1652 | the stored fingerprint is that of the last review of the current stage, through any other steps |
| Reviews.ReviewOutcome | crates/core/src/state.rs:1626-1675 | CHANGES_REQUIRED blocks for no progress exactly on a repeated fingerprint, for rounds exactly at the limit, else costs a round |
| Reviews.FrozenTestsOnlyGrow | crates/core/src/state.rs:1728-1734 | over a run the frozen commands are distinct, only extended at the end, and constant with the plan from its approval on |
| Declarations.MessageFreezes | crates/core/src/state.rs:1436-1440 | a contract freezes exactly the trimmed items of its tests, a plan those of its test commands, in their order, and no other message freezes anything |
| Declarations.FreezeKeepsOrder | crates/core/src/state.rs:1728-1734 | of two frozen commands the one named first stands first |
| Declarations.FrozenWereNamed | crates/core/src/state.rs:231-317 | in every run a command is frozen if and only if the configuration, a contract or a recorded plan named it |
| Declarations.ApprovedTestsWereNamed | crates/core/src/state.rs:1447-1477 | what a run verifies is exactly what was named before its plan was approved |
| Evidences.CompleteMeansExactlyOnce | crates/core/src/state.rs:1751-1782 | complete evidence is a permutation of the frozen commands: each exactly once and no other |
| Evidences.EntriesRoundTrip | crates/core/src/state.rs:1904-1921 | evidence written as JSON is read back unchanged |
| Evidences.ArrayIsRead | crates/core/src/state.rs:1904-1921 | an entry may also be the array of its fields, in their order |
| Evidences.ItemIdsDiffer | crates/daemon/src/store.rs:4180-4192 | no two commands of a request share an item id |
| Evidences.CoordinatorFailuresAreCanonical | crates/core/src/state.rs:1923-1941 | failures the coordinator writes for failed evidence are accepted as canonical |
| Evidences.FailuresMatchEvidence | crates/daemon/src/coordinator.rs:6533-6587 | the recorded failures are those of the failed evidence, in order |
| Evidences.CoordinatorEvidenceIsComplete | crates/daemon/src/coordinator.rs:3385-3464 | coordinator evidence is complete if and only if there are commands, a turn id and an absolute workspace |
| Normalisation.ExecuteFrozenVerification | crates/daemon/src/coordinator.rs:3385-3464 | exactly if there is a workspace and every command is admitted, claimed, run and recorded in full, the loop yields for each frozen command, in order, the exit code of its record, and for those with a nonzero code the bounded output of both streams; otherwise the first that is not decides the error |
| Verifications.VerificationFollowsRecords | crates/daemon/src/coordinator.rs:3385-3464 | in every run the evidence on record is that of the command records, and the result goes to its verdict if and only if all exit codes are zero; else a correction follows, or no round is left |
| Windows.CorrectionIsRecognised | crates/daemon/src/coordinator.rs:7435-7455 | a corrective patch request is active exactly if the correction is open, and never together with an initial one |
| Windows.FailureOpensCorrection | crates/core/src/state.rs:1578-1603 | a failed v2 verification below the limit opens a correction that passes every guard |
| Windows.ChangesOpenCorrection | crates/core/src/state.rs:1654-1675 | requested changes to a v2-verified result below the limits open a correction |
| V2Runs.V2RunKeeps | crates/daemon/src/coordinator.rs:3632-3843 | what v2 runs keep beyond the invariant, through blocks and retries |
| V2Runs.PatchWindowIsExact | crates/daemon/src/coordinator.rs:620-641 | in v2 runs exactly one of initial and corrective integration holds whenever the action is running |
| Acceptance.RunKeepsEnvelope | crates/core/src/protocol.rs:99-145 | everything a run puts into an envelope stays well formed |
| Acceptance.NormalizedIsAccepted | crates/daemon/src/coordinator.rs:3632-3843 | in every run, whatever v1 envelopes came before, a normalised response is applied if and only if it does not report the current commit again |
| Responses.MessageSaysResponse | crates/daemon/src/coordinator.rs:3632-3843 | the message a response becomes carries the identity of the run, the participant's text, and what the coordinator looked up |
| Responses.NormalizesExactly | crates/daemon/src/coordinator.rs:3632-3968 | in a live state exactly the acceptable responses become messages: an integration only after audit and Git check, a declaration only if every command is admitted |
| Responses.ResponsesApplyExactly | crates/daemon/src/coordinator.rs:3596-3968 | in every run a v2 response is applied if and only if it is acceptable and does not report the current commit again |
| Prompts.ReachableStateCanBeAsked | crates/core/src/prompts.rs:162-256 | every reachable running state with a model action has a payload with all required fields and a valid request for its role; integrations and result verdicts are asked for with the contracts, plan and approval on record |
| Prompts.OnlyThePendingIsAsked | crates/core/src/prompts.rs:162-256 | a valid request is for the pending action of a running run, for its participant, with every field the action needs |
| Histories.RecordsAreLatest | crates/core/src/state.rs:1391-1675 | contracts, plan, approval, result and feedback on record are those that were brought last, and the evidence is what the last report says |
| Histories.FeedbackOpenedRound | crates/core/src/state.rs:1528-1675 | the round a run is in was opened by the latest feedback |
| Requests.RequestTellsRecords | crates/daemon/src/coordinator.rs:5653-5756 | in every run each request tells the records: contracts, plan, approval, previous plan and review, result, its evidence, branch and commit, feedback, commands, workspace and target branch; a later round is asked for with the feedback that opened it |
| Completion.CanBeAccepted | crates/daemon/src/coordinator.rs:826-888 | from every ready state a sequence of v2 responses leads to acceptance |
| DeadEnds.NoDeadEnd | crates/daemon/src/coordinator.rs:826-1307 | whatever the coordinator lets through, a state of any run that can go on and whose result can be read is no dead end: v2 responses can still lead to acceptance |
| DeadEnds.AcceptanceIsOpen | crates/daemon/src/coordinator.rs:826-1307 | and these, besides the accepted ones, are all such states |
| DeadEnds.DeadEndStays | crates/daemon/src/coordinator.rs:896-1307 | a state that cannot go on leads to no acceptance, under any messages |
| DeadEnds.CheckedAcceptanceIsOpen | crates/daemon/src/coordinator.rs:2737-2749 | the same for the coordinator's checks on the latest accepted turn, with the open retries spelled out |
| DeadEnds.RejectedVerdictIsDeadEnd | crates/daemon/src/coordinator.rs:3046-3060 | with those checks, a patch rejected in a verdict turn ends the run: no acceptance follows under any messages |
| DeadEnds.ResultsCanBeRead | crates/daemon/src/coordinator.rs:3960-3965 | in v2 runs, and in runs whose envelopes are read likewise, every result lists its changed files |
| Completion.SomeRunIsAccepted | crates/core/src/state.rs:194-272 | for any facts and target branch there is an accepted run |
| RunStates.RunState.constructor | crates/core/src/state.rs:194-229 | a new run holds the initial state |
| RunStates.RunState.ConfigureIntegration | crates/core/src/state.rs:231-272 | refines its function: trims and deduplicates the commands, or changes nothing |
| RunStates.RunState.ApplyMessage | crates/core/src/state.rs:274-296 | refines its function for every message; an error leaves the object unchanged |
| RunStates.RunState.ApplyBlocked | crates/core/src/state.rs:285-294 | refines the blocked branch with the checks of its envelope |
| RunStates.RunState.ApplyContract | crates/core/src/state.rs:1391-1445 | refines its function, atomically |
| RunStates.RunState.ApplyPlan | crates/core/src/state.rs:1479-1490 | refines its function, atomically |
| RunStates.RunState.RecordPlan | crates/core/src/state.rs:298-317 | refines its function, atomically |
| RunStates.RunState.ApplyPlanApproval | crates/core/src/state.rs:1447-1477 | refines its function; recording the approval before requesting integration cannot be left half done |
| RunStates.RunState.RequestIntegration | crates/core/src/state.rs:319-332 | refines its function |
| RunStates.RunState.ApplyIntegration | crates/core/src/state.rs:1492-1530 | refines its function, atomically |
| RunStates.RunState.ApplyNewResult | crates/core/src/state.rs:1522-1563 | refines its function: a new commit drops evidence, workspace and approval |
| RunStates.RunState.ApplyVerification | crates/core/src/state.rs:1565-1610 | refines its function on all three outcomes |
| RunStates.RunState.ApplyResultApproval | crates/core/src/state.rs:1612-1624 | refines its function |
| RunStates.RunState.ApplyChangesRequired | crates/core/src/state.rs:1626-1675 | refines its function on all four outcomes |
| RunStates.RunState.FreezeTestCommands | crates/core/src/state.rs:1728-1734 | the loop computes the frozen commands and leaves the target branch |
| RunStates.RunState.RetryBlocked | crates/core/src/state.rs:380-1236 | assigns, then validates; on a reachable state it is atomic and ends live |
| RunStates.RunState.AcceptAfterRevalidation | crates/core/src/state.rs:1254-1290 | refines its function, atomically |
| RunStates.RunState.Pause | crates/core/src/state.rs:334-344 | refines its function |
| RunStates.RunState.Resume | crates/core/src/state.rs:367-378 | refines its function |
| RunStates.RunState.RecordError | crates/core/src/state.rs:346-348 | changes the last error only |
| RunStates.RunState.WaitForThread | crates/core/src/state.rs:350-354 | refines its function |
| RunStates.RunState.ThreadBecameIdle | crates/core/src/state.rs:356-365 | refines its function |
| RunStates.RunState.Block | crates/core/src/state.rs:1843-1849 | changes status, phase, reason and action only |
| RunStates.RunState.Cancel | crates/core/src/state.rs:1238-1244 | leaves the accepted result |
| RunStates.RunState.MarkIncompatible | crates/core/src/state.rs:1246-1252 | changes status, phase, reason and action only |
| RunStates.RunState.PrepareVerificationWorkspace | crates/daemon/src/coordinator.rs:3547-3594 | the workspace is that of the current commit, or the state is refused unchanged |
| Canonical.CanonicalizeIsNormalForm | crates/core/src/hash.rs:12-27 | equal canonical documents if and only if equal up to key order at every depth |
| Canonical.CanonicalizeIsIdempotent | crates/core/src/hash.rs:12-27 | canonicalising again changes nothing, and the meaning is kept |
| Canonical.HashIsEquivalence | crates/core/src/hash.rs:5-10 | without a digest collision, equal hashes are exactly equal JSON values |
| Canonical.HashIdentifies | crates/core/src/hash.rs:5-10 | the same for values held as maps |
| Canonical.CanonicalizeDoc | crates/core/src/hash.rs:12-27 | the traversal with its loops computes the canonical document |
| Ordering.BeforeMeans | crates/core/src/hash.rs:12-27 | a key comes before another if at the first difference it ends or has the smaller character |
| Conflicts.SplitCutsAtLineEnds | crates/core/src/git.rs:1321-1332 | the lines joined by line ends are the text, and none holds a line end |
| Conflicts.ScanFindsConflicts | crates/core/src/git.rs:1294-1307 | the three-stage automaton finds a conflict if and only if there are opener, separator and closer lines with no opener between |
| Conflicts.ByteAdvances | crates/core/src/git.rs:1321-1345 | after each byte the flags describe the current line and the automaton the finished ones |
| Conflicts.StreamContainsConflictMarkers | crates/core/src/git.rs:1287-1355 | for every chunking the answer is that of the lines, and false with a NUL byte; it fails exactly if a read fails before the end |
| Participants.SignalRoundTrip | crates/core/src/participant.rs:20-46 | a text parses to a signal exactly if it is its name |
| Participants.ParseRendered | crates/core/src/participant.rs:65-132 | parsing marker-free text around a marker reads exactly what is between the markers: no marker straddles |
| Participants.ResponseRoundTrip | crates/core/src/participant.rs:65-132 | a rendered response parses back to its signal, reason and trimmed joined body |
| Participants.BodyIsInOrder | crates/core/src/participant.rs:65-132 | the body is the text before the marker, then the text after it, a blank line between |
| Participants.AcceptedIsRendered | crates/core/src/participant.rs:65-132 | every accepted text is marker-free text around one legal marker |
| Participants.RenderingIsUnique | crates/core/src/participant.rs:65-132 | and is so in only one way |
| Participants.ParsedIsLegal | crates/core/src/participant.rs:79-117 | the signal is allowed, and a reason is legal and only with BLOCKED |
| Deliveries.OverlapIsEmptyFence | crates/daemon/src/coordinator.rs:6730-6735 | the two ends of the fence overlap in a headed text exactly if its fence is empty |
| Deliveries.ParserPanicsOnEmptyFence | crates/daemon/src/coordinator.rs:6724-6750 | the parser panics if and only if the first heading starts a line and is followed by an empty fence and nothing else |
| Deliveries.EmptyFencePanics | crates/daemon/src/coordinator.rs:6730-6735 | a text on which it does |
| Deliveries.MessagePanicsExactly | crates/daemon/src/coordinator.rs:6700-6717 | an item panics if and only if it is a user message with one heading whose text makes the parser panic |
| Deliveries.DeliveryRoundTrip | crates/daemon/src/coordinator.rs:3233-3241 | for any body without the heading the appended block parses back to its request hash |
| Deliveries.HashIsOfIdentity | crates/daemon/src/coordinator.rs:6724-6750 | a text has a request hash if and only if it ends with a one-line identity for it, from its first heading on, which starts a line |
| Deliveries.TurnHashIsOfOneHeading | crates/daemon/src/coordinator.rs:6672-6717 | a turn carries the hash of its one heading, however texts are grouped, and none with no or several headings; reading it panics exactly if one of its items does |
| Deliveries.FindsLatestCarrier | crates/daemon/src/coordinator.rs:6653-6670 | over any history the search is decided by the latest unarchived turn that carries the hash or panics, and finds none only if there is none |
| Merges.MergeCompletedTurnEvidence | crates/daemon/src/coordinator.rs:5780-5886 | the loops with their two tables compute the specified merge, errors and panics included |
| Merges.AgreementSucceeds | crates/daemon/src/coordinator.rs:5780-5886 | a merge succeeds if and only if the turns are the same and their items agree |
| Merges.MergeableIsUnordered | crates/daemon/src/coordinator.rs:5796-5841 | whether the items agree depends only on which items there are |
| Merges.MergeableMeansEqualCopies | crates/daemon/src/coordinator.rs:5796-5841 | sources agree exactly if every item can be read and has an id, same ids mean equal items, and copies of a delivery differ only in their ids |
| Merges.VerdictIsUnordered | crates/daemon/src/coordinator.rs:5785-5862 | swapping the sources does not change whether they merge |
| Merges.KeptAreTheFirstCopies | crates/daemon/src/coordinator.rs:5808-5841 | what is kept is the subsequence of the items that have no earlier item of their id and no earlier copy of their delivery |
| Merges.KeptIsDistinct | crates/daemon/src/coordinator.rs:5808-5841 | each id and each delivery is kept once |
| Merges.NothingIsLost | crates/daemon/src/coordinator.rs:5808-5841 | every item is kept or is another copy of a kept delivery |
| Merges.PartitionIsStable | crates/daemon/src/coordinator.rs:5863-5879 | the result is a permutation that keeps each group in its order |
| Merges.MergedItems | crates/daemon/src/coordinator.rs:5780-5886 | merged items are distinct, come from the sources and are already partitioned |
| Merges.MergeKeepsTurn | crates/daemon/src/coordinator.rs:5876-5886 | apart from its items the merged turn is the persisted one |
| Merges.PartitionIsOrdered | crates/daemon/src/coordinator.rs:5863-5879 | user messages come first and agent messages last |
| Merges.MergeIsIdempotent | crates/daemon/src/coordinator.rs:5780-5886 | merging the result with itself changes nothing |
| Auditors.RecoverableIntegrationTurnBlocker | crates/daemon/src/coordinator.rs:6321-6431 | the pass finds no blocker if and only if the declarative condition on the whole turn holds |
| Auditors.ItemBlocker | crates/daemon/src/coordinator.rs:6341-6420 | an item stops the pass exactly if it is not allowed, runs after the end, or is a patch call that does not fit |
| Auditors.ControlledPatchMeans | crates/daemon/src/coordinator.rs:6341-6420 | a patch call counts if and only if it is owned in one of three ways, asks the patch tool for this run and request, and brings a patch |
| Auditors.PatchHashIdentifies | crates/daemon/src/coordinator.rs:6376-6382 | without a digest collision, equal patch hashes are equal patches |
| Auditors.PlainCompactionMeans | crates/daemon/src/coordinator.rs:6978-6995 | a compaction is let through exactly if it has a nonempty id, a type and nothing else |
| Auditors.MergedTurnsEndWithAgents | crates/daemon/src/coordinator.rs:5863-5879 | on the turn that a merge of agreeing sources yields, the ordering condition is vacuous |
| Transports.InvHolds | crates/app-server-client/src/transport.rs:70-101 | every step of any task keeps the table, the replies and the closed flag consistent |
| Transports.ReplyIsNeverLost | crates/app-server-client/src/transport.rs:93-100 | a request whose wait ends finds its reply: no sender is dropped |
| Transports.NothingWaitsAfterClose | crates/app-server-client/src/transport.rs:80-86 | after closing no request is left waiting, and later ones return the reason at once |
| Transports.ReturnHasCause | crates/app-server-client/src/transport.rs:203-244 | a request returns only with its own response, the error of a close, or its own write error |
| Transports.ReturnIsTold | crates/app-server-client/src/transport.rs:203-244 | a request returns what the response with its id says: its result, else its error field by field, else that it is malformed; or the error of a close or of its own write |
| Transports.ResponseIsReturned | crates/app-server-client/src/transport.rs:203-244 | what a response says to a waiting request is what the request returns, unless its write fails after all |
| Transports.ReturnsOnce | crates/app-server-client/src/transport.rs:70-101 | under any interleaving a returned request never changes its reply |
| Transports.AnsweredOnce | crates/app-server-client/src/transport.rs:217-219 | at most one step answers a request |
| Transports.FirstReasonIsKept | crates/app-server-client/src/transport.rs:245-257 | the first close reason is kept and nothing is pending from then on |
| Transports.PartlySends | crates/app-server-client/src/transport.rs:245-257 | closing sends the error to each taken request, in any order |
| Transports.FailedAllIsClose | crates/app-server-client/src/transport.rs:245-257 | an undisturbed close is the locked step followed by those sends |
| Transports.Shared.FetchId | crates/app-server-client/src/transport.rs:76-79 | is the start step |
| Transports.Shared.RegisterRequest | crates/app-server-client/src/transport.rs:81-86 | is the register step, and reports the close reason |
| Transports.Shared.DispatchMessage | crates/app-server-client/src/transport.rs:203-221 | is the dispatch step |
| Transports.Shared.FailPending | crates/app-server-client/src/transport.rs:245-257 | takes the whole table and answers every request in it |

## Left out

- `SqliteRunStore`: the run object stands for the stored run, and what the store is asked for (pending sends, recorded patches, command claims) is an input.
- Git, the file system, worktree inspection, verification clones, the command runner: their results are fields of `Normalisation.World`.
- `crates/daemon/src/policy.rs`: `TEST_COMMAND_ALLOWED` and `COMMAND_ALLOWED` are uninterpreted predicates.
- SHA-256, hex digits and the byte encoding of JSON: `SHA256_HEX` is uninterpreted, and where injectivity is needed it is a hypothesis about the documents at hand.
- The JSON parser: `PARSE_JSON` is uninterpreted; the delivery round trip assumes that it reads back the one object that was written.
- The JSON Schema file: its clauses on envelopes are modelled, those on payloads only as far as the invariants beside it repeat them.
- Error details, and the order of checks that end in the same code: a result carries the stable code only.
- Integer widths of rounds and revisions: both are proved to stay between 1 and 6 in every reachable state (`Runs.ReachableStates`, `Runs.ReachablePlans`), so they cannot wrap; the streak saturates as in the code.
- The audit of v1 envelopes (`verify_message_evidence`): `Deliver` brings any valid message, audited or not; where the audit matters, `DeadEnds.EnvelopesAreRead` states the part that is needed.
- The publication flags of an accepted result: they are constants.
- Paths are strings, compared as such.
- `RunStates.RunState`: its fields are grouped into the records of `RunTypes` (policy, plan, result, review) instead of listed one by one; the assignments are the same.
- Responses.ResponsesApplyExactly: has the same assumptions, and that digests have 64 hex digits.
- Acceptance.NormalizedIsAccepted: assumes what the daemon itself supplies, frozen facts of the right form, an absolute state root, a turn id and, in a refusal, the nonempty reason that the marker parser guarantees (`Participants.ParsedIsLegal`).
- DeadEnds.NoDeadEnd: is about the run alone, so it assumes surroundings in which Git, the audits and the tests succeed and the policy admits the frozen commands.
- Drivers.Drive: is stated for the limit of six rounds, which is the constant every run is created with.
- Merges.MergeCompletedTurnEvidence: assumes that SHA-256 tells the items at hand apart.
- Reviews.FingerprintIdentifiesReviews: assumes that SHA-256 tells the values at hand apart.
- Recovery.RetryRestoresExactly: takes the coordinator's check on the latest accepted turn as a predicate on runs; that of the rest of the record (thread, turn and hashes) is left out.
- DeadEnds.AcceptanceIsOpen: has the same assumptions as `DeadEnds.NoDeadEnd`; what lets a retry through is a parameter, a function of the run so far.
- DeadEnds.CheckedAcceptanceIsOpen: knows the coordinator's checks on the role, phase and round of the latest accepted turn; those on transcripts, hashes, archived attempts and diagnostics are covered by `DeadEnds.AcceptanceIsOpen` only.
- Drivers.DriveAction: a cancellation is seen where the code looks for it; one that races with a save is left out.
- RunStates.RunState.RetryBlocked: the thirteen retry methods are one method over their kind, because their assignments are the same and only the guards differ.
- The inspections by which the coordinator decides that a retry may be tried (`prepare_resume` and the functions it calls): a retry is an event at any time, so what is proved of all runs holds for every choice.
- Normalisation.ExecuteFrozenVerification: how a command line is split and how output is bounded are the uninterpreted `SPLIT_COMMAND` and `BOUNDED_OUTPUT`.
- `normalize_branch_name`, participant binding, polling, timeouts, thread forks and reconnection.
- Transports.InvHolds: the events channel, the writer lock and notifications are not modelled; a write either succeeds or fails.
- Auditors.RecoverableIntegrationTurnBlocker: the text of a blocker is a constructor, not a message; the other turn auditors are left out.
- The wording of prompts, the command line, the MCP server, the daemon socket, lifecycle and public observation.
