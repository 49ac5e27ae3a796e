/** Appointment rows, their transitions, and booking and rescheduling plans
    (domain/appointments.py, domain/invariants.py). */
module Appointments {
  import opened Domain

  datatype Appointment = Appointment(
    ticketId: Id, workerId: Id, purpose: Purpose, startsAt: Time, endsAt: Time,
    status: AppointmentStatus, version: int, supersedes: Option<Id>, outcome: Option<Outcome>)

  function Draft(ticketId: Id, workerId: Id, purpose: Purpose, startsAt: Time, endsAt: Time,
                 supersedes: Option<Id>): Appointment
  {
    Appointment(ticketId, workerId, purpose, startsAt, endsAt, Booked, 1, supersedes, None)
  }

  function Target(action: AppointmentAction): AppointmentStatus {
    match action
    case Supersede => Superseded
    case Cancel => ApptCancelled
    case Fulfill => Fulfilled
    case MarkNoShow => NoShow
  }

  function AllowedActors(action: AppointmentAction): set<ActorType> {
    match action
    case Supersede => {Resident, Operator}
    case Cancel => {Resident, Operator, Worker, System}
    case Fulfill => {Resident, Worker, Operator}
    case MarkNoShow => {Operator, System}
  }

  function OutcomeActor(reason: OutcomeReason): ActorType {
    match reason
    case CancelCode(ResidentCancelled) => Resident
    case CancelCode(WorkerCancelled) => Worker
    case CancelCode(WorkerRejected) => Worker
    case CancelCode(OperatorCancelled) => Operator
    case CancelCode(SystemCancelled) => System
    case NoShowCode(ResidentNoShow) => Resident
    case NoShowCode(WorkerNoShow) => Worker
  }

  function ValidateOutcome(action: AppointmentAction, outcome: Option<Outcome>): Check {
    if action !in {Cancel, MarkNoShow} then Need(outcome == None, OutcomeNotAllowed)
    else if outcome == None || outcome.value.text == [] || outcome.value.evidence == [] then
      Fail(CompleteOutcomeRequired)
    else if (action == Cancel) != outcome.value.reason.CancelCode? then Fail(OutcomeReasonRequired)
    else Need(outcome.value.actorType == OutcomeActor(outcome.value.reason), OutcomeActorMismatch)
  }

  /** The status and version the appointment takes, or why it cannot. */
  function TransitionAppointment(a: Appointment, action: AppointmentAction, actor: ActorType,
                                 expectedVersion: int, outcome: Option<Outcome>): Result<Appointment>
  {
    var versions := Need(expectedVersion == a.version, VersionConflict);
    :- versions;
    :- Need(!TerminalAppointmentStatus(a.status), TerminalAppointment);
    :- Need(actor in AllowedActors(action), ActorNotAllowed);
    :- ValidateOutcome(action, outcome);
    Ok(a.(status := Target(action), version := a.version + 1))
  }

  /** A live appointment keeps everything but its status, and its version moves by one. */
  lemma NextAppointment(a: Appointment, action: AppointmentAction, actor: ActorType,
                        expectedVersion: int, outcome: Option<Outcome>)
    requires TransitionAppointment(a, action, actor, expectedVersion, outcome).Ok?
    ensures var next := TransitionAppointment(a, action, actor, expectedVersion, outcome).value;
      && next == a.(status := Target(action), version := a.version + 1)
      && a.status == Booked && expectedVersion == a.version && next.status != Booked
  {
  }

  function PlanCreation(draft: Appointment, ticketStatus: TicketStatus, actor: ActorType,
                        expectedVersion: int, actualVersion: int): Check
  {
    if expectedVersion != actualVersion then Fail(VersionConflict)
    else if actor !in {Resident, Operator} then Fail(ActorNotAllowed)
    else if ticketStatus !in {Open, ReworkRequired} then Fail(TicketNotBookable)
    else if draft.status != Booked then Fail(NewAppointmentMustBeBooked)
    else if draft.purpose != (if ticketStatus == ReworkRequired then Rework else InitialRepair) then
      Fail(AppointmentPurposeTicketConflict)
    else if draft.supersedes != None then Fail(OrdinaryBookingCannotSupersede)
    else Need(draft.startsAt < draft.endsAt, InvalidAppointmentInterval)
  }

  function PlanRework(ticketId: Id, ticketStatus: TicketStatus, reworkCount: int,
                      priorId: Id, prior: Appointment, newId: Id, draft: Appointment): Check
  {
    if ticketStatus != ReworkRequired then Fail(TicketNotReadyForRework)
    else if reworkCount < 1 then Fail(ReworkCountRequired)
    else if prior.ticketId != ticketId || draft.ticketId != ticketId then Fail(ReworkMustReuseTicket)
    else if !TerminalAppointmentStatus(prior.status) then Fail(PriorAppointmentMustBeTerminal)
    else if draft.status != Booked then Fail(NewAppointmentMustBeBooked)
    else if draft.purpose != Rework then Fail(ReworkAppointmentPurposeRequired)
    else if newId == priorId then Fail(ReplacementRequiresNewIdentity)
    else Need(draft.supersedes == None, ReworkIsNotReschedule)
  }

  function PlanReschedule(oldId: Id, current: Appointment, newId: Id, draft: Appointment,
                          actor: ActorType, expectedVersion: int): Result<Appointment>
  {
    var superseded :- TransitionAppointment(current, Supersede, actor, expectedVersion, None);
    :- Need(draft.status == Booked, NewAppointmentMustBeBooked);
    :- Need(newId != oldId, ReplacementRequiresNewIdentity);
    :- Need(draft.ticketId == current.ticketId, ReplacementTicketMismatch);
    :- Need(draft.purpose == current.purpose, ReschedulePurposeMismatch);
    :- Need(draft.supersedes == Some(oldId), SupersessionLinkRequired);
    :- Need(draft.startsAt < draft.endsAt, InvalidAppointmentInterval);
    Ok(superseded)
  }

  /** The snapshot test applied before a resident review; it is given one appointment. */
  function AggregateConsistency(ticketStatus: TicketStatus, appointments: seq<AppointmentStatus>,
                                lastEvent: Option<EventType>): Check
  {
    var active := CountStatus(appointments, Booked);
    if active > 1 then Fail(MultipleActiveAppointments)
    else if ticketStatus == Scheduled && active != 1 then Fail(ScheduledTicketRequiresBooking)
    else if ticketStatus == InProgress && (active != 1 || lastEvent != Some(Started)) then
      Fail(InProgressSnapshotConflict)
    else if ticketStatus == PendingAcceptance
      && (CountStatus(appointments, Fulfilled) == 0 || lastEvent != Some(Completed)) then
      Fail(AcceptanceSnapshotConflict)
    else if ticketStatus in {Open, ReworkRequired, Cancelled, Closed} && active > 0 then
      Fail(TicketStatusConflictsWithBooking)
    else Pass
  }

  function CountStatus(appointments: seq<AppointmentStatus>, status: AppointmentStatus): nat {
    if appointments == [] then 0
    else (if appointments[0] == status then 1 else 0) + CountStatus(appointments[1..], status)
  }
}
