/** The data of one consensus run: its persisted state and the messages that move it. */
module RunTypes {
  import opened Wrappers
  import opened Json

  /** Also the phase carried by a message, which has the same names. */
  datatype Phase =
    | Discover | Freeze | Contract | PlanReview | Integrate | Verify | ResultReview
    | AcceptedPhase | BlockedPhase | PausedPhase | CancelledPhase

  datatype RunStatus =
    | Running | WaitingThread | PausedUserAction | Accepted | Blocked | Cancelled | IncompatibleCodex

  datatype Role = Primary | Reviewer

  datatype NextAction =
    | RequestPrimaryContract
    | RequestReviewerContract
    | RequestPrimaryPlan
    | RequestReviewerPlanVerdict
    | RequestPrimaryIntegration
    | RequestPrimaryVerification
    | RequestReviewerResultVerdict
    | RevalidateAndAccept
    | WaitForUser
    | Stop

  datatype Facts = Facts(
    runId: string,
    primaryThread: string,
    reviewerThread: string,
    primarySha: string,
    reviewerSha: string)

  datatype Evidence = Evidence(
    command: string,
    exitCode: int,
    turnId: string,
    itemId: string,
    cwd: string)

  /** The four publication flags are constants of the source and are left out. */
  datatype AcceptedResult = AcceptedResult(
    branch: string,
    sha: string,
    primarySha: string,
    reviewerSha: string,
    tests: seq<Evidence>)

  datatype Diagnostic = Diagnostic(
    code: string,
    detail: string,
    operation: Option<string>,
    action: NextAction,
    role: Option<Role>,
    thread: Option<string>,
    sourceThread: Option<string>,
    effectiveThread: Option<string>,
    generation: Option<nat>,
    mode: Option<string>,
    server: Option<string>)

  datatype Limits = Limits(schemaVersion: nat, maxRounds: nat, noProgressRounds: nat)

  /** What is frozen before the first turn, and the test commands frozen with the contracts. */
  datatype Policy = Policy(targetBranch: Option<string>, requiredTests: seq<string>)

  datatype Plan = Plan(
    revision: Option<nat>,
    primaryContract: Option<Value>,
    reviewerContract: Option<Value>,
    primaryContractHash: Option<string>,
    reviewerContractHash: Option<string>,
    payload: Option<Value>,
    hash: Option<string>,
    approved: bool,
    approval: Option<Value>,
    feedback: Option<Value>)

  datatype Integration = Integration(
    branch: Option<string>,
    sha: Option<string>,
    payload: Option<Value>,
    evidence: seq<Evidence>,
    workspace: Option<string>,
    approvedSha: Option<string>,
    feedback: Option<Value>)

  /** The no-progress detector: the last review fingerprint and how often it came in a row. */
  datatype Review = Review(fingerprint: Option<string>, streak: nat)

  /** The persisted fields of a run, grouped by what they are about. */
  datatype State = State(
    facts: Facts,
    limits: Limits,
    phase: Phase,
    status: RunStatus,
    nextAction: NextAction,
    round: nat,
    reasonCode: Option<string>,
    lastError: Option<Diagnostic>,
    policy: Policy,
    plan: Plan,
    result: Integration,
    review: Review,
    acceptedResult: Option<AcceptedResult>)

  datatype MessageType =
    | ContractReady | PlanReady | ChangesRequired | ApprovedPlan
    | IntegrationReady | ApprovedResult | BlockedMessage

  datatype Envelope = Envelope(
    protocol: string,
    runId: string,
    messageType: MessageType,
    phase: Phase,
    round: nat,
    primarySha: string,
    reviewerSha: string,
    planRevision: Option<nat>,
    branch: Option<string>,
    sha: Option<string>,
    reasonCode: Option<string>)

  datatype Message = Message(envelope: Envelope, payload: Value)

  const RUN_STATE_SCHEMA_VERSION: nat := 2
  const DEFAULT_MAX_REVIEW_ROUNDS: nat := 6
  const DEFAULT_NO_PROGRESS_ROUNDS: nat := 2
  const PROTOCOL_V1 := "worktree-merge-consensus/v1"

  const NO_PLAN := Plan(None, None, None, None, None, None, None, false, None, None)
  const NO_RESULT := Integration(None, None, None, [], None, None, None)

  function Initial(facts: Facts): State {
    State(
      facts,
      Limits(RUN_STATE_SCHEMA_VERSION, DEFAULT_MAX_REVIEW_ROUNDS, DEFAULT_NO_PROGRESS_ROUNDS),
      Contract, Running, RequestPrimaryContract, 1, None, None,
      Policy(None, []), NO_PLAN, NO_RESULT, Review(None, 0), None)
  }
}
