/** The tables of the repair store and what each command writes to them. Identities handed out
    by the id factory are insertion positions: fresh, never reused, and in creation order. */
module RepairStore {
  import opened Domain
  import opened Commands
  import opened Appointments
  import opened WorkerEvents
  import Tickets

  datatype Ticket = Ticket(
    residentId: Id, propertyId: Id, category: IssueCategory, location: string, description: string,
    severity: Severity, status: TicketStatus, escalatedFrom: Option<TicketStatus>,
    reworkCount: int, version: int, cancelledAt: Option<Time>, closedAt: Option<Time>)

  datatype HistoryAction = Creation | Acted(action: TicketAction) | Recovered(disposition: Disposition)

  datatype TicketRow = TicketRow(
    ticketId: Id, from: Option<TicketStatus>, to: TicketStatus, action: HistoryAction,
    actorType: ActorType, actorId: Id, before: int, after: int)

  datatype AppointmentRow = AppointmentRow(
    appointmentId: Id, from: Option<AppointmentStatus>, to: AppointmentStatus,
    actorType: ActorType, actorId: Id, before: int, after: int)

  datatype WorkerEvent = WorkerEvent(
    appointmentId: Id, workerId: Id, sequenceNo: int, event: EventType,
    actorType: ActorType, actorId: Id, externalKey: string, requestHash: Digest, occurredAt: Time)

  datatype DomainEventType =
    TicketCreated | TicketStatusChanged | AppointmentBooked | AppointmentRescheduled | TicketEscalated

  datatype Payload =
    | CreatedPayload(status: TicketStatus, category: IssueCategory, severity: Severity, propertyId: Id, residentId: Id)
    | ChangedPayload(from: TicketStatus, to: TicketStatus, action: HistoryAction)
    | BookedPayload(ticketId: Id, workerId: Id, purpose: Purpose, startsAt: Time, endsAt: Time)
    | RescheduledPayload(movedTicketId: Id, previousId: Id, movedWorkerId: Id, movedStartsAt: Time, movedEndsAt: Time)
    | EscalatedPayload(escalatedFrom: TicketStatus, escalatedTo: TicketStatus, reasonCode: string)

  datatype DomainEvent = DomainEvent(
    kind: DomainEventType, aggregateId: Id, aggregateVersion: int, operationId: OperationId,
    traceId: Id, runId: Option<Id>, threadId: Option<Id>,
    actorType: ActorType, actorId: Id, occurredAt: Time, payload: Payload)
  {
    /** The event key, an injective digest of these four identifiers. */
    function EventKey(): (DomainEventType, Id, int, OperationId) {
      (kind, aggregateId, aggregateVersion, operationId)
    }
  }

  datatype Db = Db(
    tickets: seq<Ticket>, appointments: seq<Appointment>, events: seq<WorkerEvent>,
    ticketHistory: seq<TicketRow>, appointmentHistory: seq<AppointmentRow>, outbox: seq<DomainEvent>)

  const EMPTY_DB := Db([], [], [], [], [], [])

  datatype User = User(role: ActorType, active: bool)

  /** Facts the commands read from tables they never write. */
  datatype Directory = Directory(
    users: map<Id, User>, occupancies: set<(Id, Id)>,
    canService: (Id, Id, Skill, Time, Time) -> bool)
  {
    predicate Linked(resident: Id, property: Id) {
      (resident, property) in occupancies
    }
    predicate IsOperator(actor: Id) {
      actor in users && users[actor].role == Operator && users[actor].active
    }
  }

  // ----- Queries over the tables -----

  /** The last appointment created for a ticket. */
  function Latest(appointments: seq<Appointment>, ticketId: Id): (r: Option<Id>)
    ensures r.Some? ==> r.value < |appointments| && appointments[r.value].ticketId == ticketId
    ensures r.Some? ==> forall j :: r.value < j < |appointments| ==> appointments[j].ticketId != ticketId
    ensures r.None? ==> forall j :: 0 <= j < |appointments| ==> appointments[j].ticketId != ticketId
  {
    if appointments == [] then None
    else
      var last := |appointments| - 1;
      if appointments[last].ticketId == ticketId then Some(last) else Latest(appointments[..last], ticketId)
  }

  /** The event types recorded for an appointment, in order. */
  function Log(events: seq<WorkerEvent>, appointmentId: Id): (log: seq<EventType>) {
    if events == [] then []
    else
      var last := |events| - 1;
      var earlier := Log(events[..last], appointmentId);
      if events[last].appointmentId == appointmentId then earlier + [events[last].event] else earlier
  }

  function LastEvent(log: seq<EventType>): Option<EventType> {
    if log == [] then None else Some(log[|log| - 1])
  }

  function LatestStatus(db: Db, ticketId: Id): Option<AppointmentStatus> {
    var latest := Latest(db.appointments, ticketId);
    if latest.Some? then Some(db.appointments[latest.value].status) else None
  }

  function LatestLog(db: Db, ticketId: Id): seq<EventType> {
    var latest := Latest(db.appointments, ticketId);
    if latest.Some? then Log(db.events, latest.value) else []
  }

  function FindExternal(events: seq<WorkerEvent>, key: string): (r: Option<nat>)
    ensures r.Some? ==> r.value < |events| && events[r.value].externalKey == key
    ensures r.None? ==> forall i :: 0 <= i < |events| ==> events[i].externalKey != key
  {
    if events == [] then None
    else if events[|events| - 1].externalKey == key then Some(|events| - 1)
    else FindExternal(events[..|events| - 1], key)
  }

  predicate Space(c: char) { c == ' ' || c == '\t' || c == '\n' || c == '\r' }

  function Strip(s: string): string {
    if s != [] && Space(s[0]) then Strip(s[1..])
    else if s != [] && Space(s[|s| - 1]) then Strip(s[..|s| - 1])
    else s
  }

  function Lower(s: string): string {
    seq(|s|, i requires 0 <= i < |s| => if 'A' <= s[i] <= 'Z' then s[i] + 32 as char else s[i])
  }

  predicate HasExactOpenMatch(tickets: seq<Ticket>, c: CreateCommand) {
    exists i :: 0 <= i < |tickets| && !TerminalTicket(tickets[i].status)
      && tickets[i].residentId == c.residentId && tickets[i].propertyId == c.propertyId
      && tickets[i].category == c.category && Lower(tickets[i].location) == Lower(Strip(c.location))
  }

  // ----- What a command writes -----

  /** The rows one command writes: at most one ticket row (an insertion when `ticketId` is the
      next position), at most one closed and one added appointment, at most one worker event,
      and the history and outbox rows that go with them. */
  datatype Effect = Effect(
    ticketId: Id, ticket: Option<Ticket>, closing: Option<(Id, Appointment)>, adding: Option<Appointment>,
    event: Option<WorkerEvent>, ticketRows: seq<TicketRow>, appointmentRows: seq<AppointmentRow>,
    outbox: seq<DomainEvent>)

  const NO_EFFECT := Effect(0, None, None, None, None, [], [], [])

  function WriteTicket(tickets: seq<Ticket>, id: Id, ticket: Option<Ticket>): seq<Ticket> {
    if ticket.None? || id > |tickets| then tickets
    else if id == |tickets| then tickets + [ticket.value]
    else tickets[id := ticket.value]
  }

  function WriteAppointments(appointments: seq<Appointment>, closing: Option<(Id, Appointment)>,
                             adding: Option<Appointment>): seq<Appointment>
  {
    var closed := if closing.Some? && closing.value.0 < |appointments|
                  then appointments[closing.value.0 := closing.value.1] else appointments;
    if adding.Some? then closed + [adding.value] else closed
  }

  function Apply(db: Db, e: Effect): Db {
    Db(WriteTicket(db.tickets, e.ticketId, e.ticket),
       WriteAppointments(db.appointments, e.closing, e.adding),
       if e.event.Some? then db.events + [e.event.value] else db.events,
       db.ticketHistory + e.ticketRows,
       db.appointmentHistory + e.appointmentRows,
       db.outbox + e.outbox)
  }

  datatype Planned = Planned(effect: Effect, result: OperationResult)

  // ----- Row builders -----

  function TicketChange(id: Id, before: Ticket, after: Ticket, action: HistoryAction, m: Metadata): TicketRow {
    TicketRow(id, Some(before.status), after.status, action, m.actorType, m.actorId, before.version, after.version)
  }

  function AppointmentChange(id: Id, before: Appointment, after: Appointment, m: Metadata): AppointmentRow {
    AppointmentRow(id, Some(before.status), after.status, m.actorType, m.actorId, before.version, after.version)
  }

  function AppointmentInsertion(id: Id, m: Metadata): AppointmentRow {
    AppointmentRow(id, None, Booked, m.actorType, m.actorId, 0, 1)
  }

  function Publish(kind: DomainEventType, id: Id, version: int, c: Command, payload: Payload): DomainEvent {
    var m := c.Meta();
    DomainEvent(kind, id, version, c.OperationId(), m.traceId, m.runId, m.threadId, m.actorType, m.actorId, m.occurredAt, payload)
  }

  function StatusChanged(id: Id, before: Ticket, after: Ticket, action: HistoryAction, c: Command): DomainEvent {
    Publish(TicketStatusChanged, id, after.version, c, ChangedPayload(before.status, after.status, action))
  }

  // ----- The seven use cases -----

  function Authorize(dir: Directory, ticket: Ticket, m: Metadata): Check {
    match m.actorType
    case Resident =>
      Need(m.actorId == ticket.residentId && dir.Linked(ticket.residentId, ticket.propertyId), AuthorizationFailed)
    case Operator => Need(dir.IsOperator(m.actorId), AuthorizationFailed)
    case _ => Fail(AuthorizationFailed)
  }

  function PlanCreate(db: Db, dir: Directory, c: CreateCommand): Result<Planned> {
    var m := c.meta;
    var linked := dir.Linked(c.residentId, c.propertyId);
    var authorized := match m.actorType
      case Resident => m.actorId == c.residentId && linked
      case Operator => linked && dir.IsOperator(m.actorId)
      case _ => false;
    :- Tickets.PlanCreation(
      m.actorType, authorized, Strip(c.location) != [] && Strip(c.description) != [],
      !HasExactOpenMatch(db.tickets, c) || (c.allowDuplicate && m.actorType == Operator), true);
    var id := |db.tickets|;
    var ticket := Ticket(c.residentId, c.propertyId, c.category, Strip(c.location), Strip(c.description),
                         c.severity, Open, None, 0, 1, None, None);
    Ok(Planned(
      NO_EFFECT.(ticketId := id, ticket := Some(ticket),
                 ticketRows := [TicketRow(id, None, Open, Creation, m.actorType, m.actorId, 0, 1)],
                 outbox := [Publish(TicketCreated, id, 1, CreateTicket(c),
                                    CreatedPayload(Open, c.category, c.severity, c.propertyId, c.residentId))]),
      OperationResult(TicketCreatedCode, TicketResource, id, 1, false, StatusData(Open))))
  }

  function PlanBook(db: Db, dir: Directory, c: BookCommand): Result<Planned> {
    var m := c.meta;
    :- Need(c.startsAt >= m.occurredAt, AppointmentTimeInPast);
    :- Need(c.ticketId < |db.tickets|, NotFound);
    var ticket := db.tickets[c.ticketId];
    :- Authorize(dir, ticket, m);
    :- Need(dir.canService(c.workerId, ticket.propertyId, RequiredSkill(ticket.category), c.startsAt, c.endsAt),
            WorkerNotEligible);
    var purpose := if ticket.status == ReworkRequired then Rework else InitialRepair;
    var id := |db.appointments|;
    var draft := Draft(c.ticketId, c.workerId, purpose, c.startsAt, c.endsAt, None);
    :- Appointments.PlanCreation(draft, ticket.status, m.actorType, c.ticketVersion, ticket.version);
    var prior := Latest(db.appointments, c.ticketId);
    :- Need(purpose == Rework ==> prior.Some?, NotFound);
    :- if purpose == Rework then
         PlanRework(c.ticketId, ticket.status, ticket.reworkCount, prior.value, db.appointments[prior.value], id, draft)
       else Pass;
    var updated := ticket.(status := Scheduled, version := ticket.version + 1, escalatedFrom := None);
    Ok(Planned(
      NO_EFFECT.(ticketId := c.ticketId, ticket := Some(updated), adding := Some(draft),
                 ticketRows := [TicketChange(c.ticketId, ticket, updated, Acted(BookAppointment), m)],
                 appointmentRows := [AppointmentInsertion(id, m)],
                 outbox := [StatusChanged(c.ticketId, ticket, updated, Acted(BookAppointment), Book(c)),
                            Publish(AppointmentBooked, id, 1, Book(c),
                                    BookedPayload(c.ticketId, c.workerId, purpose, c.startsAt, c.endsAt))]),
      OperationResult(AppointmentBookedCode, AppointmentResource, id, 1, false,
                      BookedData(c.ticketId, updated.version))))
  }

  /** A transition request with every optional field at its default. */
  function Requested(ticket: Ticket, action: TicketAction, m: Metadata, expectedVersion: int): Tickets.TransitionRequest {
    Tickets.TransitionRequest(ticket.status, action, m.actorType, expectedVersion, ticket.version, true, false,
                              None, None, None, [], None, None, None, false, ticket.reworkCount)
  }

  function PlanMove(db: Db, dir: Directory, c: RescheduleCommand): Result<Planned> {
    var m := c.meta;
    :- Need(c.startsAt >= m.occurredAt, AppointmentTimeInPast);
    :- Need(c.ticketId < |db.tickets|, NotFound);
    var ticket := db.tickets[c.ticketId];
    :- Need(c.appointmentId < |db.appointments| && db.appointments[c.appointmentId].ticketId == c.ticketId, NotFound);
    var current := db.appointments[c.appointmentId];
    :- Authorize(dir, ticket, m);
    :- Need(dir.canService(c.workerId, ticket.propertyId, RequiredSkill(ticket.category), c.startsAt, c.endsAt),
            WorkerNotEligible);
    var id := |db.appointments|;
    var draft := Draft(c.ticketId, c.workerId, current.purpose, c.startsAt, c.endsAt, Some(c.appointmentId));
    var closed :- PlanReschedule(c.appointmentId, current, id, draft, m.actorType, c.appointmentVersion);
    var decision :- Tickets.TransitionTicket(
      Requested(ticket, Reschedule, m, c.ticketVersion).(hasBooking := true));
    var updated := ticket.(version := decision.version);
    Ok(Planned(
      NO_EFFECT.(ticketId := c.ticketId, ticket := Some(updated),
                 closing := Some((c.appointmentId, closed)), adding := Some(draft),
                 ticketRows := [TicketChange(c.ticketId, ticket, updated, Acted(Reschedule), m)],
                 appointmentRows := [AppointmentChange(c.appointmentId, current, closed, m),
                                     AppointmentInsertion(id, m)],
                 outbox := [Publish(AppointmentRescheduled, id, 1, Move(c),
                                    RescheduledPayload(c.ticketId, c.appointmentId, c.workerId, c.startsAt, c.endsAt))]),
      OperationResult(AppointmentRescheduledCode, AppointmentResource, id, 1, false,
                      RescheduledData(c.appointmentId, updated.version))))
  }

  function AuthorizeEvent(dir: Directory, a: Appointment, c: EventCommand): Check {
    if a.workerId != c.workerId then Fail(AuthorizationFailed)
    else
      match c.meta.actorType
      case Worker => Need(c.meta.actorId == c.workerId, AuthorizationFailed)
      case Operator => Need(dir.IsOperator(c.meta.actorId), AuthorizationFailed)
      case System => Pass
      case Resident => Fail(AuthorizationFailed)
  }

  function EventRequestFor(db: Db, c: EventCommand): EventRequest
    requires c.appointmentId < |db.appointments| && c.ticketId < |db.tickets|
  {
    var ticket, a := db.tickets[c.ticketId], db.appointments[c.appointmentId];
    EventRequest(
      c.event, c.meta.actorType, Some(c.appointmentId), ticket.status, a.status, Some(a.purpose),
      ticket.reworkCount, c.ticketVersion, ticket.version, c.appointmentVersion, a.version,
      Log(db.events, c.appointmentId), false, c.cancellation, c.noShow,
      if c.failureReason.Some? then
        Some(FailureDetails(c.failureReason.value, if c.statement.Some? then c.statement.value else "", c.evidence))
      else None,
      c.evidence)
  }

  function EventOutcome(c: EventCommand, ticket: Ticket): Option<Outcome> {
    var text := if c.reasonText.Some? then c.reasonText.value else "";
    if c.cancellation.Some? then
      Some(Outcome(Worker, c.workerId, CancelCode(c.cancellation.value), text, c.evidence, c.meta.occurredAt))
    else if c.noShow == Some(WorkerNoShow) then
      Some(Outcome(Worker, c.workerId, NoShowCode(WorkerNoShow), text, c.evidence, c.meta.occurredAt))
    else if c.noShow == Some(ResidentNoShow) then
      Some(Outcome(Resident, ticket.residentId, NoShowCode(ResidentNoShow), text, c.evidence, c.meta.occurredAt))
    else None
  }

  function EventAppointmentAction(event: EventType): AppointmentAction {
    if event in {Completed, FailedToComplete} then Fulfill
    else if event == EvNoShow then MarkNoShow
    else Cancel
  }

  function EventTicketAction(c: EventCommand, purpose: Purpose): TicketAction {
    match c.event
    case Started => StartWork
    case Completed => CompleteWork
    case Rejected => if purpose == Rework then WorkerRejectedRework else WorkerRejectedInitial
    case EvCancelled => if purpose == Rework then WorkerCancelledRework else WorkerCancelledInitial
    case FailedToComplete =>
      if c.failureReason.Some? && DispositionOf(c.failureReason.value) == RouteToRework
      then FailWorkRework else FailWorkEscalate
    case _ => ReviewedNoShow
  }

  /** The appointment row a closing event writes: the decided status, once the appointment's own
      transition rule has agreed to close it. */
  function CloseByEvent(c: EventCommand, ticket: Ticket, a: Appointment, status: AppointmentStatus): Result<Appointment> {
    var outcome := EventOutcome(c, ticket);
    :- match TransitionAppointment(a, EventAppointmentAction(c.event), c.meta.actorType, c.appointmentVersion, outcome)
       case Ok(_) => Pass
       case Err(error) => Fail(error);
    Ok(a.(status := status, version := a.version + 1, outcome := if outcome.Some? then outcome else a.outcome))
  }

  /** What a validated event writes to its ticket, its appointment and the visit's log. */
  function EventWrites(db: Db, c: EventCommand, decision: EventResult): Result<Planned>
    requires c.appointmentId < |db.appointments| && c.ticketId < |db.tickets|
  {
    var m, ticket, a := c.meta, db.tickets[c.ticketId], db.appointments[c.appointmentId];
    var ticketChanged := decision.ticket != ticket.status;
    var closes := decision.appointment != a.status;
    var action := Acted(EventTicketAction(c, a.purpose));
    var updated := ticket.(status := decision.ticket,
                           escalatedFrom := if decision.ticket == Escalated then Some(ticket.status) else None,
                           reworkCount := decision.reworkCount,
                           version := ticket.version + if ticketChanged then 1 else 0);
    var closed :- if closes then CloseByEvent(c, ticket, a, decision.appointment) else Ok(a);
    var sequenceNo := |Log(db.events, c.appointmentId)| + 1;
    Ok(Planned(
      Effect(c.ticketId, if ticketChanged then Some(updated) else None,
             if closes then Some((c.appointmentId, closed)) else None, None,
             Some(WorkerEvent(c.appointmentId, c.workerId, sequenceNo, c.event, m.actorType, m.actorId,
                              c.externalKey, RecordEvent(c).Digest(), m.occurredAt)),
             if ticketChanged then [TicketChange(c.ticketId, ticket, updated, action, m)] else [],
             if closes then [AppointmentChange(c.appointmentId, a, closed, m)] else [],
             if ticketChanged then [StatusChanged(c.ticketId, ticket, updated, action, RecordEvent(c))] else []),
      OperationResult(WorkerEventRecorded, WorkerEventResource, |db.events|, sequenceNo, false,
                      EventData(updated.status, updated.version, closed.status, closed.version))))
  }

  function PlanEvent(db: Db, dir: Directory, c: EventCommand): Result<Planned> {
    var digest := RecordEvent(c).Digest();
    :- Need(c.appointmentId < |db.appointments| && db.appointments[c.appointmentId].ticketId == c.ticketId, NotFound);
    var existing := FindExternal(db.events, c.externalKey);
    if existing.Some? then
      :- Need(db.events[existing.value].requestHash == digest, WorkerEventPayloadConflict);
      Ok(Planned(NO_EFFECT,
                 OperationResult(WorkerEventReplayed, WorkerEventResource, existing.value,
                                 db.events[existing.value].sequenceNo, true, NoData)))
    else
      :- Need(c.ticketId < |db.tickets|, NotFound);
      :- AuthorizeEvent(dir, db.appointments[c.appointmentId], c);
      var decision :- ValidateWorkerEvent(EventRequestFor(db, c));
      EventWrites(db, c, decision)
  }

  function PlanReview(db: Db, dir: Directory, c: ReviewCommand): Result<Planned> {
    var m := c.meta;
    :- Need(c.ticketId < |db.tickets|, NotFound);
    var ticket := db.tickets[c.ticketId];
    :- Need(m.actorType == Resident && m.actorId == ticket.residentId
            && dir.Linked(ticket.residentId, ticket.propertyId), AuthorizationFailed);
    var latest := Latest(db.appointments, c.ticketId);
    :- Need(latest.Some?, NotFound);
    var a := db.appointments[latest.value];
    :- AggregateConsistency(ticket.status, [a.status], LastEvent(Log(db.events, latest.value)));
    :- Need(!(c.accepted && ticket.status == Scheduled && m.occurredAt < a.startsAt), AppointmentNotStarted);
    var action := if c.accepted then ResidentAccept else ResidentReject;
    var decision :- Tickets.TransitionTicket(
      Requested(ticket, action, m, c.ticketVersion).(
        acceptance := Some(c.accepted), rejection := if c.accepted then None else c.rejection));
    var fulfils := c.accepted && a.status == Booked;
    var expected := if c.appointmentVersion.Some? && c.appointmentVersion.value != 0
                    then c.appointmentVersion.value else a.version;
    var closed :- if fulfils then TransitionAppointment(a, Fulfill, m.actorType, expected, None) else Ok(a);
    var updated := ticket.(status := decision.next, version := decision.version,
                           reworkCount := decision.reworkCount, escalatedFrom := None,
                           closedAt := if c.accepted then Some(m.occurredAt) else None);
    Ok(Planned(
      NO_EFFECT.(ticketId := c.ticketId, ticket := Some(updated),
                 closing := if fulfils then Some((latest.value, closed)) else None,
                 ticketRows := [TicketChange(c.ticketId, ticket, updated, Acted(action), m)],
                 appointmentRows := if fulfils then [AppointmentChange(latest.value, a, closed, m)] else [],
                 outbox := [StatusChanged(c.ticketId, ticket, updated, Acted(action), Review(c))]),
      OperationResult(if c.accepted then RepairAccepted else ReworkRequested, TicketResource, c.ticketId,
                      updated.version, false, ReviewData(updated.status, updated.reworkCount))))
  }

  function PlanEscalate(db: Db, dir: Directory, c: EscalateCommand): Result<Planned> {
    var m := c.meta;
    :- Need(c.ticketId < |db.tickets|, NotFound);
    var ticket := db.tickets[c.ticketId];
    :- match m.actorType
       case Operator => Need(dir.IsOperator(m.actorId), AuthorizationFailed)
       case System => Pass
       case _ => Fail(AuthorizationFailed);
    var decision :- Tickets.TransitionTicket(
      Requested(ticket, Escalate, m, c.ticketVersion).(
        escalationReason := Some(c.reasonText), evidence := c.evidence));
    var updated := ticket.(status := decision.next, escalatedFrom := decision.escalatedFrom,
                           version := decision.version);
    Ok(Planned(
      NO_EFFECT.(ticketId := c.ticketId, ticket := Some(updated),
                 ticketRows := [TicketChange(c.ticketId, ticket, updated, Acted(Escalate), m)],
                 outbox := [StatusChanged(c.ticketId, ticket, updated, Acted(Escalate), EscalateTicket(c)),
                            Publish(TicketEscalated, c.ticketId, updated.version, EscalateTicket(c),
                                    EscalatedPayload(ticket.status, updated.status, c.reasonCode))]),
      OperationResult(TicketEscalatedCode, TicketResource, c.ticketId, updated.version, false,
                      StatusData(updated.status))))
  }

  function PlanRecover(db: Db, dir: Directory, c: RecoverCommand): Result<Planned> {
    var m := c.meta;
    :- Need(c.ticketId < |db.tickets|, NotFound);
    var ticket := db.tickets[c.ticketId];
    :- Need(m.actorType == Operator && dir.IsOperator(m.actorId), AuthorizationFailed);
    :- Need(c.disposition != ApplyResidentAcceptance, AuthorizationFailed);
    var decision :- Tickets.RecoverEscalated(Tickets.RecoveryRequest(
      m.actorType, c.ticketVersion, ticket.version, ticket.escalatedFrom,
      LatestStatus(db, c.ticketId), LastEvent(LatestLog(db, c.ticketId)),
      c.disposition, c.acceptance, c.reworkRecorded, c.conflictResolved, ticket.reworkCount));
    var updated := ticket.(status := decision.next, escalatedFrom := None, version := decision.version,
                           reworkCount := decision.reworkCount,
                           cancelledAt := if decision.next == Cancelled then Some(m.occurredAt) else ticket.cancelledAt,
                           closedAt := if decision.next == Closed then Some(m.occurredAt) else ticket.closedAt);
    Ok(Planned(
      NO_EFFECT.(ticketId := c.ticketId, ticket := Some(updated),
                 ticketRows := [TicketChange(c.ticketId, ticket, updated, Recovered(c.disposition), m)],
                 outbox := [StatusChanged(c.ticketId, ticket, updated, Recovered(c.disposition), Recover(c))]),
      OperationResult(TicketRecovered, TicketResource, c.ticketId, updated.version, false,
                      StatusData(updated.status))))
  }

  /** What a command would write and answer, or the error its handler raises. */
  function Plan(db: Db, dir: Directory, command: Command): Result<Planned> {
    match command
    case CreateTicket(c) => PlanCreate(db, dir, c)
    case Book(c) => PlanBook(db, dir, c)
    case Move(c) => PlanMove(db, dir, c)
    case RecordEvent(c) => PlanEvent(db, dir, c)
    case Review(c) => PlanReview(db, dir, c)
    case EscalateTicket(c) => PlanEscalate(db, dir, c)
    case Recover(c) => PlanRecover(db, dir, c)
  }
}
