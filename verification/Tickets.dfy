/** Ticket transitions and recovery from escalation (domain/tickets.py). */
module Tickets {
  import opened Domain

  datatype TransitionRequest = TransitionRequest(
    status: TicketStatus, action: TicketAction, actor: ActorType,
    expectedVersion: int, actualVersion: int,
    residentAuthorized: bool, hasBooking: bool,
    cancellation: Option<CancellationReason>, noShow: Option<NoShowReason>,
    escalationReason: Option<string>, evidence: seq<string>,
    acceptance: Option<bool>, rejection: Option<RejectionReason>,
    failure: Option<FailureDetails>, reworkRecorded: bool, reworkCount: int)

  datatype Transition = Transition(
    previous: TicketStatus, next: TicketStatus, version: int,
    escalatedFrom: Option<TicketStatus>, reworkCount: int)

  datatype Spec = Spec(next: TicketStatus, actors: set<ActorType>)

  const RESIDENT_OPERATOR := {Resident, Operator}
  const WORKER_OPERATOR := {Worker, Operator}
  const SYSTEM_OPERATOR := {System, Operator}

  /** The frozen transition table. */
  function Table(status: TicketStatus, action: TicketAction): Option<Spec> {
    if action == Escalate then
      if Escalatable(status) then Some(Spec(Escalated, SYSTEM_OPERATOR)) else None
    else
      match (status, action)
      case (Open, BookAppointment) => Some(Spec(Scheduled, RESIDENT_OPERATOR))
      case (Open, CancelTicket) => Some(Spec(Cancelled, RESIDENT_OPERATOR))
      case (Scheduled, StartWork) => Some(Spec(InProgress, WORKER_OPERATOR))
      case (Scheduled, Reschedule) => Some(Spec(Scheduled, RESIDENT_OPERATOR))
      case (Scheduled, WorkerRejectedInitial) => Some(Spec(Open, WORKER_OPERATOR))
      case (Scheduled, WorkerRejectedRework) => Some(Spec(ReworkRequired, WORKER_OPERATOR))
      case (Scheduled, WorkerCancelledInitial) => Some(Spec(Open, WORKER_OPERATOR))
      case (Scheduled, WorkerCancelledRework) => Some(Spec(ReworkRequired, WORKER_OPERATOR))
      case (Scheduled, ResidentCancelledAppointmentInitial) => Some(Spec(Open, RESIDENT_OPERATOR))
      case (Scheduled, ResidentCancelledAppointmentRework) => Some(Spec(ReworkRequired, RESIDENT_OPERATOR))
      case (Scheduled, CancelTicket) => Some(Spec(Cancelled, RESIDENT_OPERATOR))
      case (Scheduled, ReviewedNoShow) => Some(Spec(Escalated, SYSTEM_OPERATOR))
      case (Scheduled, ResidentAccept) => Some(Spec(Closed, {Resident}))
      case (InProgress, ResidentAccept) => Some(Spec(Closed, {Resident}))
      case (InProgress, CompleteWork) => Some(Spec(PendingAcceptance, WORKER_OPERATOR))
      case (InProgress, FailWorkRework) => Some(Spec(ReworkRequired, WORKER_OPERATOR))
      case (InProgress, FailWorkEscalate) => Some(Spec(Escalated, WORKER_OPERATOR))
      case (PendingAcceptance, ResidentAccept) => Some(Spec(Closed, {Resident}))
      case (PendingAcceptance, ResidentReject) => Some(Spec(ReworkRequired, {Resident}))
      case (ReworkRequired, BookAppointment) => Some(Spec(Scheduled, RESIDENT_OPERATOR))
      case (ReworkRequired, CancelTicket) => Some(Spec(Cancelled, {Operator}))
      case _ => None
  }

  function PlanCreation(actor: ActorType, authorized: bool, issueValid: bool,
                        duplicateAllowed: bool, idempotencyAccepted: bool): Check
  {
    if actor !in {Resident, Operator} then Fail(ActorNotAllowed)
    else if actor == Resident && !authorized then Fail(ResidentNotAuthorized)
    else if !issueValid then Fail(InvalidIssue)
    else if !duplicateAllowed then Fail(DisallowedDuplicate)
    else Need(idempotencyAccepted, IdempotencyNotAccepted)
  }

  predicate RequiresBooking(action: TicketAction) {
    action in {BookAppointment, StartWork, Reschedule, WorkerRejectedInitial, WorkerRejectedRework,
               WorkerCancelledInitial, WorkerCancelledRework, ResidentCancelledAppointmentInitial,
               ResidentCancelledAppointmentRework, ReviewedNoShow, CompleteWork, FailWorkRework,
               FailWorkEscalate}
  }

  function CheckBookingContext(r: TransitionRequest): Check {
    if RequiresBooking(r.action) && !r.hasBooking then Fail(ActiveBookingRequired)
    else if r.action == BookAppointment && r.status == ReworkRequired && !r.reworkRecorded then
      Fail(ReworkRecordRequired)
    else if r.action in {WorkerRejectedInitial, WorkerCancelledInitial, ResidentCancelledAppointmentInitial}
      && r.reworkCount != 0 then Fail(InitialAppointmentReworkCountConflict)
    else if r.action in {WorkerRejectedRework, WorkerCancelledRework, ResidentCancelledAppointmentRework}
      && r.reworkCount < 1 then Fail(ReworkAppointmentCountRequired)
    else if r.action == BookAppointment && r.status == ReworkRequired && r.reworkCount < 1 then
      Fail(ReworkCountRequired)
    else Pass
  }

  function ActionReason(action: TicketAction): Option<CancellationReason> {
    match action
    case WorkerRejectedInitial => Some(WorkerRejected)
    case WorkerRejectedRework => Some(WorkerRejected)
    case WorkerCancelledInitial => Some(WorkerCancelled)
    case WorkerCancelledRework => Some(WorkerCancelled)
    case ResidentCancelledAppointmentInitial => Some(ResidentCancelled)
    case ResidentCancelledAppointmentRework => Some(ResidentCancelled)
    case _ => None
  }

  function TicketCancellationReason(actor: ActorType): Option<CancellationReason> {
    match actor
    case Resident => Some(ResidentCancelled)
    case Operator => Some(OperatorCancelled)
    case _ => None
  }

  function CheckCancellationContext(r: TransitionRequest): Check {
    if r.action == CancelTicket && r.cancellation == None then Fail(CancellationReasonRequired)
    else if r.action == CancelTicket && r.status in {Open, ReworkRequired} && r.hasBooking then
      Fail(ActiveBookingForbidsCancellation)
    else if r.action == CancelTicket && r.cancellation != TicketCancellationReason(r.actor) then
      Fail(TicketCancellationReasonMismatch)
    else if r.action == CancelTicket && r.status == Scheduled && !r.hasBooking then
      Fail(ScheduledCancellationRequiresBooking)
    else if ActionReason(r.action).Some? && r.cancellation != ActionReason(r.action) then
      Fail(AppointmentCancellationReasonMismatch)
    else Pass
  }

  function CheckResolutionContext(r: TransitionRequest): Check {
    if r.action == ReviewedNoShow && (r.noShow == None || r.evidence == []) then
      Fail(ReviewedNoShowContextRequired)
    else if r.action == Escalate && (r.escalationReason.None? || r.escalationReason.value == [] || r.evidence == [])
    then Fail(EscalationContextRequired)
    else if r.action == ResidentAccept && r.acceptance != Some(true) then
      Fail(ExplicitResidentAcceptanceRequired)
    else if r.action == ResidentReject && r.rejection == None then Fail(AcceptanceRejectionRequired)
    else Pass
  }

  function CheckFailureContext(r: TransitionRequest): Check {
    if r.action !in {FailWorkRework, FailWorkEscalate} then Pass
    else if r.failure == None then Fail(FailureDetailsRequired)
    else if DispositionOf(r.failure.value.reason)
      != (if r.action == FailWorkRework then RouteToRework else RouteToEscalation) then
      Fail(FailureDispositionMismatch)
    else Need(r.failure.value.statement != [] && r.failure.value.evidence != [], FailureEvidenceRequired)
  }

  function CheckPreconditions(r: TransitionRequest): Result<int> {
    var count := Need(r.reworkCount >= 0, InvalidReworkCount);
    :- count;
    :- Need(!(r.actor == Resident && !r.residentAuthorized), ResidentNotAuthorized);
    :- CheckBookingContext(r);
    :- CheckCancellationContext(r);
    :- CheckResolutionContext(r);
    :- CheckFailureContext(r);
    Ok(r.reworkCount + if r.action in {ResidentReject, FailWorkRework} then 1 else 0)
  }

  function TransitionTicket(r: TransitionRequest): Result<Transition> {
    var spec := Table(r.status, r.action);
    :- Need(r.expectedVersion == r.actualVersion, VersionConflict);
    :- Need(spec.Some?, TransitionNotAllowed);
    :- Need(r.actor in spec.value.actors, ActorNotAllowed);
    var reworkCount :- CheckPreconditions(r);
    Ok(Transition(r.status, spec.value.next, r.actualVersion + 1,
                  if spec.value.next == Escalated then Some(r.status) else None, reworkCount))
  }

  datatype RecoveryRequest = RecoveryRequest(
    actor: ActorType, expectedVersion: int, actualVersion: int,
    escalatedFrom: Option<TicketStatus>, appointment: Option<AppointmentStatus>,
    lastEvent: Option<EventType>, disposition: Disposition,
    acceptance: Option<bool>, reworkRecorded: bool, conflictResolved: bool, reworkCount: int)

  function ResumeTarget(r: RecoveryRequest): Result<TicketStatus> {
    if r.appointment == Some(Booked) && r.lastEvent == Some(Started) then
      if r.escalatedFrom == Some(InProgress) then Ok(InProgress) else Err(NoSafeResumeTarget)
    else if r.appointment == Some(Booked) && r.escalatedFrom in {Some(Open), Some(Scheduled), Some(ReworkRequired)}
    then Ok(Scheduled)
    else if r.appointment == Some(Fulfilled) && r.lastEvent == Some(Completed)
      && r.escalatedFrom in {Some(InProgress), Some(PendingAcceptance)} then Ok(PendingAcceptance)
    else if r.escalatedFrom in {Some(Open), Some(Scheduled)} then Ok(Open)
    else Err(NoSafeResumeTarget)
  }

  function RecoveryTarget(r: RecoveryRequest): Result<TicketStatus> {
    match r.disposition
    case Resume => ResumeTarget(r)
    case ApproveRework =>
      if r.reworkRecorded then Ok(ReworkRequired) else Err(ReworkRecordRequired)
    case ApplyResidentAcceptance =>
      if r.escalatedFrom != Some(PendingAcceptance) || r.acceptance != Some(true)
         || r.appointment != Some(Fulfilled) || r.lastEvent != Some(Completed)
      then Err(ResidentAcceptanceEvidenceRequired) else Ok(Closed)
    case CancelEscalated =>
      if r.appointment == Some(Booked) || r.escalatedFrom !in {Some(Open), Some(Scheduled), Some(ReworkRequired)}
      then Err(CancellationNotSafe) else Ok(Cancelled)
  }

  function RecoverEscalated(r: RecoveryRequest): Result<Transition> {
    var versions := Need(r.expectedVersion == r.actualVersion, VersionConflict);
    :- versions;
    :- Need(r.actor == Operator, OperatorRequired);
    :- Need(r.escalatedFrom.Some? && Escalatable(r.escalatedFrom.value), InvalidEscalatedFromStatus);
    :- Need(r.conflictResolved, UnresolvedConflict);
    :- Need(r.reworkCount >= 0, InvalidReworkCount);
    var target :- RecoveryTarget(r);
    Ok(Transition(Escalated, target, r.actualVersion + 1, None,
                  r.reworkCount + if r.disposition == ApproveRework then 1 else 0))
  }

  // ----- What the rules let a transition do -----

  /** Escalation saves the status it leaves, and only the five working statuses can be left. */
  lemma EscalationSavesPrior(r: TransitionRequest)
    requires r.action == Escalate && TransitionTicket(r).Ok?
    ensures var t := TransitionTicket(r).value;
      && Escalatable(r.status) && t.next == Escalated && t.escalatedFrom == Some(r.status)
      && t.version == r.actualVersion + 1 && r.expectedVersion == r.actualVersion
      && r.actor in {System, Operator}
  {
  }

  /** A ticket closes only on its resident's explicit acceptance, from a visit or its completion. */
  lemma AcceptanceCloses(r: TransitionRequest)
    requires TransitionTicket(r).Ok?
    ensures TransitionTicket(r).value.next == Closed <==> r.action == ResidentAccept
    ensures r.action == ResidentAccept ==>
      && r.actor == Resident && r.acceptance == Some(true)
      && r.status in {Scheduled, InProgress, PendingAcceptance}
      && TransitionTicket(r).value.reworkCount == r.reworkCount
      && TransitionTicket(r).value.version == r.actualVersion + 1
  {
  }

  /** Every accepted transition leaves the expected version behind by one. */
  lemma NextVersion(r: TransitionRequest)
    requires TransitionTicket(r).Ok?
    ensures TransitionTicket(r).value.version == r.actualVersion + 1 && r.expectedVersion == r.actualVersion
    ensures TransitionTicket(r).value.previous == r.status
  {
  }

  lemma RejectionReworks(r: TransitionRequest)
    requires r.action == ResidentReject && TransitionTicket(r).Ok?
    ensures var t := TransitionTicket(r).value;
      && r.status == PendingAcceptance && t.next == ReworkRequired && r.rejection.Some?
      && t.reworkCount == r.reworkCount + 1 && t.version == r.actualVersion + 1
  {
  }

  lemma RescheduleStays(r: TransitionRequest)
    requires r.action == Reschedule && TransitionTicket(r).Ok?
    ensures var t := TransitionTicket(r).value;
      r.status == Scheduled && t.next == Scheduled && t.version == r.actualVersion + 1
  {
  }

  /** The facts a recovery target rests on. */
  lemma RecoveryIsGrounded(r: RecoveryRequest)
    requires RecoverEscalated(r).Ok?
    ensures var t := RecoverEscalated(r).value;
      && r.escalatedFrom.Some? && r.actor == Operator
      && t.version == r.actualVersion + 1
      && t.reworkCount == r.reworkCount + (if r.disposition == ApproveRework then 1 else 0)
      && (t.next == Open ==> r.appointment != Some(Booked))
      && (t.next == Scheduled ==> r.appointment == Some(Booked) && r.lastEvent != Some(Started))
      && (t.next == InProgress ==> r.appointment == Some(Booked) && r.lastEvent == Some(Started))
      && (t.next == PendingAcceptance ==> r.appointment == Some(Fulfilled) && r.lastEvent == Some(Completed))
      && (t.next == Cancelled ==> r.appointment != Some(Booked))
      && (t.next == Closed ==> r.disposition == ApplyResidentAcceptance)
      && t.next != Escalated
  {
  }
}
