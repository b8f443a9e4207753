/** The task, action, observation and execution records that the scheduler, the executor and
    the runtime exchange. Identifiers (UUID strings in the program) are integer tokens that can
    only be compared; times are natural numbers on an arbitrary clock. */
module Contracts {

  type RunId = int
  type ActionId = int
  type ExecutionId = int
  type EventId = int
  type ObservationId = int
  type Resource = int
  type ActionType = int
  type CallId = int
  type Time = nat

  /** What the clock reads as a loop gets to each action. */
  type Clock = ActionId -> Time

  datatype Option<+T> = None | Some(value: T)

  /** A transaction or call either raises, leaving no trace, or commits a value. */
  datatype Outcome<+T> = Raised(error: Error) | Committed(value: T)

  datatype Error =
    | UnknownRun
    | NoSuchAction
    | EmptyAppend
    | VersionConflict
    | StreamNotAccepting
    | CapacityExceeded
    | ProposalRejected
    | InvalidFinalSequence
    | ResourceOccupied
    | KeyMismatch
    | ExecutionIdChanged
    | NoTerminalEvidence
    | AssociationMismatch
    | ConflictingDuplicate
    | NotFrozen
    | NotStopped
    | StaleObservation
    | EvidenceMismatch
    | StaleEvidence
    | SourceMismatch
    | EvidencePredates
    | UnknownCheckpoint
    | ObservationMovedBackwards
    | KeyReused
    | UnknownExecution
    | AlreadyTerminal
    | BudgetExceeded
    | MissingSession
    | SessionExists
    | NoMatchingCall
    | Unreachable
    | KeyMissing
    | Unexpected

  /** The errors that the runtime answers by stopping the run; the others leave it. */
  predicate Caught(error: Error) {
    !error.KeyMissing? && !error.Unexpected?
  }

  datatype ActionStatus =
    | Queued
    | Submitting
    | Running
    | Stopping
    | Completed
    | Failed
    | Canceled
    | TimedOut
    | ExecutionUnknown
    | Invalidated

  predicate Terminal(s: ActionStatus) {
    s.Completed? || s.Failed? || s.Canceled? || s.TimedOut? || s.Invalidated?
  }

  /** Terminal on the evidence of an execution, as opposed to never started. */
  predicate Finished(s: ActionStatus) {
    Terminal(s) && !s.Invalidated?
  }

  /** Never handed to the executor. */
  predicate Unsent(s: ActionStatus) {
    s.Queued? || s.Invalidated?
  }

  /** A submission was durably intended and no stopped terminal report was accepted since. */
  predicate InFlight(s: ActionStatus) {
    s.Submitting? || s.Running? || s.Stopping? || s.ExecutionUnknown?
  }

  datatype TaskStatus =
    | Ready
    | Executing
    | Verifying
    | Recovering
    | Blocked
    | Succeeded
    | TaskFailed
    | TaskCanceled

  /** The statuses in which a run accepts nothing more. */
  predicate Over(s: TaskStatus) {
    s.Succeeded? || s.TaskFailed? || s.TaskCanceled?
  }

  datatype StopReason = Cancel | Replan | Timeout | Failure

  datatype Verdict = Pass | Fail | Unknown

  datatype Checkpoint = Final | AfterAction(action: ActionId)

  datatype Budget = Budget(
    maxModelCalls: nat,
    maxReplans: nat,
    maxObservations: nat,
    maxApiRetries: nat,
    maxInvalidProposals: nat,
    totalSeconds: nat,
    actionSeconds: nat,
    stopSeconds: nat,
    observationMaxAge: nat)

  datatype Capability = Capability(resources: seq<Resource>, supportsCancel: bool)

  datatype Observation = Observation(
    id: ObservationId,
    observedAt: Time,
    worldVersion: nat,
    source: int,
    valid: bool)

  datatype Proposal = Proposal(actionType: ActionType, arguments: int, observationId: ObservationId)

  /** One entry of a run's serial action stream. */
  datatype Action = Action(
    runId: RunId,
    planVersion: nat,
    id: ActionId,
    sequence: nat,
    proposal: Proposal,
    resources: seq<Resource>,
    key: ActionId,
    timeoutSeconds: nat,
    status: ActionStatus,
    executionId: Option<ExecutionId>,
    executionObservationId: Option<ObservationId>,
    submittedAt: Option<Time>,
    finishedAt: Option<Time>,
    stopRequestedAt: Option<Time>,
    stopReason: Option<StopReason>,
    lastEventSequence: int,
    verified: bool)

  /** An action that completed and whose effect was separately verified. */
  predicate Done(a: Action) {
    a.status.Completed? && a.verified
  }

  datatype Event = Event(
    id: EventId,
    runId: RunId,
    actionId: ActionId,
    executionId: ExecutionId,
    planVersion: nat,
    sequence: nat,
    occurredAt: Time,
    status: ActionStatus,
    stopped: bool)

  datatype VerificationResult = VerificationResult(
    verdict: Verdict,
    checkpoint: Checkpoint,
    observationId: ObservationId,
    observedAt: Time,
    source: int)

  datatype Snapshot = Snapshot(
    executionId: ExecutionId,
    key: ActionId,
    status: ActionStatus,
    stopped: bool,
    lastEvent: Option<Event>)

  /** The tool call that the latest action or rejection answers. */
  datatype Binding =
    | Unbound
    | BoundTo(call: CallId, action: ActionId)
    | RejectedCall(call: CallId)

  /** The fields of a run that only the runtime reads. */
  datatype Book = Book(
    binding: Binding,
    pendingFeedback: Option<CallId>,
    modelCalls: nat,
    apiRetries: nat,
    invalidProposals: nat,
    replans: nat,
    observationCount: nat)

  datatype Run = Run(
    budget: Budget,
    observation: Observation,
    capabilities: map<ActionType, Capability>,
    createdAt: Time,
    capacity: nat,
    planVersion: nat,
    nextSequence: nat,
    closed: bool,
    frozen: bool,
    status: TaskStatus,
    actions: seq<Action>,
    verifications: seq<VerificationResult>,
    stopIntent: Option<StopReason>,
    book: Book)

  /** Journal rows of the ledger. */
  datatype Entry =
    | RunCreated(run: RunId)
    | ActionsAccepted(run: RunId, version: nat, count: nat)
    | StreamClosed(run: RunId, lastSequence: int)
    | SubmitIntent(run: RunId, action: Action)
    | UnknownLogged(run: RunId, id: ActionId)
    | EventLogged(run: RunId, event: Event)
    | StopRequested(run: RunId, reason: StopReason)
    | StreamRevised(run: RunId, version: nat)
    | VerificationLogged(run: RunId, result: VerificationResult)
    | ObservationLogged(run: RunId, observation: Observation)
    | RuntimeLogged(run: RunId)
}
