/** The closed vocabularies and immutable values shared by every rule, together with the
    two ways a rule can answer: a value, or the stable code of the error it raises. */
module Domain {

  type Id = nat
  type Time = int

  datatype Option<+T> = None | Some(value: T)

  datatype Error =
    | VersionConflict
    | TransitionNotAllowed | ActorNotAllowed | ResidentNotAuthorized
    | InvalidIssue | DisallowedDuplicate | IdempotencyNotAccepted
    | InvalidReworkCount | ActiveBookingRequired | ReworkRecordRequired
    | InitialAppointmentReworkCountConflict | ReworkAppointmentCountRequired | ReworkCountRequired
    | CancellationReasonRequired | ActiveBookingForbidsCancellation
    | TicketCancellationReasonMismatch | ScheduledCancellationRequiresBooking
    | AppointmentCancellationReasonMismatch
    | ReviewedNoShowContextRequired | EscalationContextRequired
    | ExplicitResidentAcceptanceRequired | AcceptanceRejectionRequired
    | FailureDetailsRequired | FailureDispositionMismatch | FailureEvidenceRequired
    | OperatorRequired | InvalidEscalatedFromStatus | UnresolvedConflict | NoSafeResumeTarget
    | ResidentAcceptanceEvidenceRequired | CancellationNotSafe
    | TerminalAppointment | OutcomeNotAllowed | CompleteOutcomeRequired
    | OutcomeReasonRequired | OutcomeActorMismatch
    | TicketNotBookable | AppointmentPurposeTicketConflict | OrdinaryBookingCannotSupersede
    | InvalidAppointmentInterval | NewAppointmentMustBeBooked
    | ReplacementRequiresNewIdentity | ReplacementTicketMismatch | ReschedulePurposeMismatch
    | SupersessionLinkRequired
    | TicketNotReadyForRework | ReworkMustReuseTicket | PriorAppointmentMustBeTerminal
    | ReworkAppointmentPurposeRequired | ReworkIsNotReschedule
    | AppointmentRequired | TicketStateMismatch | AppointmentMustBeBooked
    | AppointmentPurposeSnapshotConflict | EventAfterTerminalEvent
    | AcceptedMustBeFirst | RejectionTooLate | MissingPredecessor | OutcomeAfterStart
    | CancellationRequiresAcceptance | ReplayEventNotRecorded | WorkerRejectedReasonRequired
    | CompleteFailureDetailsRequired | WorkerCancelledReasonRequired
    | ReviewedNoShowEvidenceRequired
    | MultipleActiveAppointments | ScheduledTicketRequiresBooking | InProgressSnapshotConflict
    | AcceptanceSnapshotConflict | TicketStatusConflictsWithBooking
    | NotFound | AuthorizationFailed | AppointmentTimeInPast | AppointmentNotStarted
    | WorkerNotEligible | IdempotencyPayloadConflict | IdempotencyInProgress
    | WorkerEventPayloadConflict
    | ActiveAppointmentExists | AppointmentTimeConflict | RescheduleConflict
    | WorkerEventSequenceConflict | WorkerEventIdentityConflict | DatabaseIntegrityFailure

  /** A rule that computes a value or raises. */
  datatype Result<+T> = Ok(value: T) | Err(error: Error) {
    predicate IsFailure() { Err? }
    function PropagateFailure<U>(): Result<U>
      requires Err?
    {
      Err(error)
    }
    function Extract(): T
      requires Ok?
    {
      value
    }
  }

  /** A rule that only checks. */
  datatype Check = Pass | Fail(error: Error) {
    predicate IsFailure() { Fail? }
    function PropagateFailure<U>(): Result<U>
      requires Fail?
    {
      Err(error)
    }
  }

  function Need(condition: bool, error: Error): Check {
    if condition then Pass else Fail(error)
  }

  datatype IssueCategory = WaterLeak | Electrical | DoorLock
  datatype Severity = Low | Medium | High | Emergency
  datatype Skill = Plumbing | ElectricalWork | Locksmith

  function RequiredSkill(category: IssueCategory): Skill {
    match category
    case WaterLeak => Plumbing
    case Electrical => ElectricalWork
    case DoorLock => Locksmith
  }

  datatype TicketStatus =
    Open | Scheduled | InProgress | PendingAcceptance | ReworkRequired | Escalated | Cancelled | Closed

  datatype AppointmentStatus = Booked | Fulfilled | Superseded | ApptCancelled | NoShow

  datatype Purpose = InitialRepair | Rework

  datatype EventType =
    Accepted | Rejected | Departed | Arrived | Started | Completed | FailedToComplete | EvCancelled | EvNoShow

  datatype ActorType = Resident | Operator | Worker | System

  datatype CancellationReason =
    ResidentCancelled | WorkerCancelled | WorkerRejected | OperatorCancelled | SystemCancelled

  datatype NoShowReason = ResidentNoShow | WorkerNoShow

  datatype FailureReason =
    RepairIncomplete | FollowUpRequired | SafetyRisk | ResponsibilityConflict
    | SpecialResourceRequired | Indeterminate

  datatype FailureDisposition = RouteToRework | RouteToEscalation

  datatype RejectionReason = IssueNotResolved | ProblemRecurred | WorkQualityConcern | OtherReason

  datatype TicketAction =
    | BookAppointment | StartWork | Reschedule
    | WorkerRejectedInitial | WorkerRejectedRework
    | WorkerCancelledInitial | WorkerCancelledRework
    | ResidentCancelledAppointmentInitial | ResidentCancelledAppointmentRework
    | ReviewedNoShow | CompleteWork | FailWorkRework | FailWorkEscalate
    | ResidentAccept | ResidentReject | CancelTicket | Escalate

  datatype AppointmentAction = Supersede | Cancel | Fulfill | MarkNoShow

  datatype Disposition = Resume | ApproveRework | ApplyResidentAcceptance | CancelEscalated

  datatype OutcomeReason = CancelCode(cancel: CancellationReason) | NoShowCode(noShow: NoShowReason)

  datatype Outcome = Outcome(actorType: ActorType, actorId: Id, reason: OutcomeReason,
                             text: string, evidence: seq<string>, occurredAt: Time)

  datatype FailureDetails = FailureDetails(reason: FailureReason, statement: string, evidence: seq<string>)

  predicate Escalatable(status: TicketStatus) {
    status in {Open, Scheduled, InProgress, PendingAcceptance, ReworkRequired}
  }

  predicate TerminalTicket(status: TicketStatus) {
    status in {Cancelled, Closed}
  }

  predicate TerminalAppointmentStatus(status: AppointmentStatus) {
    status != Booked
  }

  function DispositionOf(reason: FailureReason): FailureDisposition {
    if reason in {RepairIncomplete, FollowUpRequired} then RouteToRework else RouteToEscalation
  }
}
