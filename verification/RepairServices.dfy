/** The repair services as they run: handlers that read and write rows one after another inside a
    unit of work, and the executor that commits or rolls them back. Each is proved to do what its
    plan says (application/ticket_service.py, application/appointment_service.py,
    application/worker_event_service.py, application/service_support.py). */
module RepairServices {
  import opened Domain
  import opened Commands
  import opened Appointments
  import opened WorkerEvents
  import opened RepairStore
  import opened RepairRuns
  import opened Execution
  import Schema
  import Tickets

  /** A handler did what was planned: the planned error, or the planned answer and rows. */
  ghost predicate Handled(before: Db, after: Db, planned: Result<Planned>, r: Result<OperationResult>) {
    match planned
    case Err(error) => r == Err(error)
    case Ok(p) => r == Ok(p.result) && after == Apply(before, p.effect)
  }

  datatype EventContext = EventContext(
    ticket: Ticket, appointment: Appointment, prior: seq<EventType>, decision: EventResult)

  datatype Acquired = Existing(record: Record) | Inserted | OperationTaken

  datatype Loaded = Replayed(result: OperationResult) | Fresh(context: EventContext)

  class RepairDatabase {
    var tickets: seq<Ticket>
    var appointments: seq<Appointment>
    var events: seq<WorkerEvent>
    var ticketHistory: seq<TicketRow>
    var appointmentHistory: seq<AppointmentRow>
    var outbox: seq<DomainEvent>
    var records: seq<Record>

    constructor ()
      ensures Contents() == EMPTY_STORE
    {
      tickets, appointments, events := [], [], [];
      ticketHistory, appointmentHistory, outbox, records := [], [], [], [];
    }

    function Tables(): Db
      reads this
    {
      Db(tickets, appointments, events, ticketHistory, appointmentHistory, outbox)
    }

    function Contents(): Store
      reads this
    {
      Store(Tables(), records)
    }

    // ----- Repositories -----

    /** The compare-and-set every ticket change goes through. */
    method UpdateTicket(id: Id, snapshot: Ticket, expectedVersion: int) returns (c: Check)
      requires id < |tickets|
      modifies `tickets
      ensures c.Pass? <==> snapshot.version == expectedVersion + 1 && old(tickets[id]).version == expectedVersion
      ensures c.Pass? ==> tickets == old(tickets)[id := old(tickets[id]).(
        status := snapshot.status, escalatedFrom := snapshot.escalatedFrom, reworkCount := snapshot.reworkCount,
        version := snapshot.version, cancelledAt := snapshot.cancelledAt, closedAt := snapshot.closedAt)]
      ensures c.Fail? ==> tickets == old(tickets) && c.error == VersionConflict
    {
      if snapshot.version != expectedVersion + 1 || tickets[id].version != expectedVersion {
        return Fail(VersionConflict);
      }
      tickets := tickets[id := tickets[id].(
        status := snapshot.status, escalatedFrom := snapshot.escalatedFrom, reworkCount := snapshot.reworkCount,
        version := tickets[id].version + 1, cancelledAt := snapshot.cancelledAt, closedAt := snapshot.closedAt)];
      c := Pass;
    }

    /** The same for appointments; the outcome columns are written only when there is an outcome. */
    method UpdateAppointment(id: Id, snapshot: Appointment, expectedVersion: int, outcome: Option<Outcome>)
      returns (c: Check)
      requires id < |appointments|
      modifies `appointments
      ensures c.Pass? <==> snapshot.version == expectedVersion + 1 && old(appointments[id]).version == expectedVersion
      ensures c.Pass? ==> appointments == old(appointments)[id := old(appointments[id]).(
        status := snapshot.status, version := snapshot.version,
        outcome := if outcome.Some? then outcome else old(appointments[id]).outcome)]
      ensures c.Fail? ==> appointments == old(appointments) && c.error == VersionConflict
    {
      if snapshot.version != expectedVersion + 1 || appointments[id].version != expectedVersion {
        return Fail(VersionConflict);
      }
      var row := appointments[id].(status := snapshot.status, version := appointments[id].version + 1);
      appointments := appointments[id := if outcome.Some? then row.(outcome := outcome) else row];
      c := Pass;
    }

    // ----- Ticket service -----

    method CreateTicket(dir: Directory, c: CreateCommand) returns (r: Result<OperationResult>)
      modifies `tickets, `ticketHistory, `outbox
      ensures Handled(old(Tables()), Tables(), PlanCreate(old(Tables()), dir, c), r)
    {
      hide Tickets.PlanCreation, HasExactOpenMatch, Strip;
      var m := c.meta;
      var linked := dir.Linked(c.residentId, c.propertyId);
      var authorized := false;
      if m.actorType == Resident {
        authorized := m.actorId == c.residentId && linked;
      } else if m.actorType == Operator {
        authorized := linked && dir.IsOperator(m.actorId);
      }
      var exactMatch := HasExactOpenMatch(tickets, c);
      :- Tickets.PlanCreation(
        m.actorType, authorized, Strip(c.location) != [] && Strip(c.description) != [],
        !exactMatch || (c.allowDuplicate && m.actorType == Operator), true);
      var id := |tickets|;
      tickets := tickets + [Ticket(c.residentId, c.propertyId, c.category, Strip(c.location), Strip(c.description),
                                   c.severity, Open, None, 0, 1, None, None)];
      ticketHistory := ticketHistory + [TicketRow(id, None, Open, Creation, m.actorType, m.actorId, 0, 1)];
      outbox := outbox + [Publish(TicketCreated, id, 1, Command.CreateTicket(c),
                                  CreatedPayload(Open, c.category, c.severity, c.propertyId, c.residentId))];
      r := Ok(OperationResult(TicketCreatedCode, TicketResource, id, 1, false, StatusData(Open)));
    }

    method ReviewRepair(dir: Directory, c: ReviewCommand) returns (r: Result<OperationResult>)
      modifies `tickets, `appointments, `ticketHistory, `appointmentHistory, `outbox
      ensures Handled(old(Tables()), Tables(), PlanReview(old(Tables()), dir, c), r)
    {
      hide Tickets.TransitionTicket, AggregateConsistency, Log, Latest, TransitionAppointment;
      var m := c.meta;
      if c.ticketId >= |tickets| {
        return Err(NotFound);
      }
      var ticket := tickets[c.ticketId];
      if m.actorType != Resident || m.actorId != ticket.residentId || !dir.Linked(ticket.residentId, ticket.propertyId) {
        return Err(AuthorizationFailed);
      }
      var latest := Latest(appointments, c.ticketId);
      if latest.None? {
        return Err(NotFound);
      }
      var a := appointments[latest.value];
      :- AggregateConsistency(ticket.status, [a.status], LastEvent(Log(events, latest.value)));
      if c.accepted && ticket.status == Scheduled && m.occurredAt < a.startsAt {
        return Err(AppointmentNotStarted);
      }
      var action := ResidentAccept;
      var rejection := None;
      if !c.accepted {
        action := ResidentReject;
        rejection := c.rejection;
      }
      var decision :- Tickets.TransitionTicket(
        Requested(ticket, action, m, c.ticketVersion).(acceptance := Some(c.accepted), rejection := rejection));
      Tickets.NextVersion(
        Requested(ticket, action, m, c.ticketVersion).(acceptance := Some(c.accepted), rejection := rejection));
      if c.accepted && a.status == Booked {
        var expected := if c.appointmentVersion.Some? && c.appointmentVersion.value != 0
                        then c.appointmentVersion.value else a.version;
        var fulfilled :- TransitionAppointment(a, Fulfill, m.actorType, expected, None);
        NextAppointment(a, Fulfill, m.actorType, expected, None);
        var closed := a.(status := fulfilled.status, version := fulfilled.version);
        var fulfilledRow := UpdateAppointment(latest.value, closed, a.version, None);
        assert fulfilledRow.Pass?;
        appointmentHistory := appointmentHistory + [AppointmentChange(latest.value, a, closed, m)];
      }
      var updated := ticket.(status := decision.next, version := decision.version,
                             reworkCount := decision.reworkCount, escalatedFrom := None,
                             closedAt := if c.accepted then Some(m.occurredAt) else None);
      var written := UpdateTicket(c.ticketId, updated, ticket.version);
      assert written.Pass?;
      ticketHistory := ticketHistory + [TicketChange(c.ticketId, ticket, updated, Acted(action), m)];
      outbox := outbox + [StatusChanged(c.ticketId, ticket, updated, Acted(action), Review(c))];
      r := Ok(OperationResult(if c.accepted then RepairAccepted else ReworkRequested, TicketResource, c.ticketId,
                              updated.version, false, ReviewData(updated.status, updated.reworkCount)));
    }

    method EscalateTicket(dir: Directory, c: EscalateCommand) returns (r: Result<OperationResult>)
      modifies `tickets, `ticketHistory, `outbox
      ensures Handled(old(Tables()), Tables(), PlanEscalate(old(Tables()), dir, c), r)
    {
      hide Tickets.TransitionTicket;
      var m := c.meta;
      if c.ticketId >= |tickets| {
        return Err(NotFound);
      }
      var ticket := tickets[c.ticketId];
      if m.actorType == Operator {
        if !dir.IsOperator(m.actorId) {
          return Err(AuthorizationFailed);
        }
      } else if m.actorType != System {
        return Err(AuthorizationFailed);
      }
      var request := Requested(ticket, Escalate, m, c.ticketVersion).(
        escalationReason := Some(c.reasonText), evidence := c.evidence);
      var decision :- Tickets.TransitionTicket(request);
      Tickets.NextVersion(request);
      var updated := ticket.(status := decision.next, escalatedFrom := decision.escalatedFrom,
                             version := decision.version);
      var written := UpdateTicket(c.ticketId, updated, ticket.version);
      assert written.Pass?;
      ticketHistory := ticketHistory + [TicketChange(c.ticketId, ticket, updated, Acted(Escalate), m)];
      outbox := outbox + [StatusChanged(c.ticketId, ticket, updated, Acted(Escalate), Command.EscalateTicket(c))];
      outbox := outbox + [Publish(TicketEscalated, c.ticketId, updated.version, Command.EscalateTicket(c),
                                  EscalatedPayload(ticket.status, updated.status, c.reasonCode))];
      r := Ok(OperationResult(TicketEscalatedCode, TicketResource, c.ticketId, updated.version, false,
                              StatusData(updated.status)));
    }

    method RecoverTicket(dir: Directory, c: RecoverCommand) returns (r: Result<OperationResult>)
      modifies `tickets, `ticketHistory, `outbox
      ensures Handled(old(Tables()), Tables(), PlanRecover(old(Tables()), dir, c), r)
    {
      hide Tickets.RecoverEscalated, Log, Latest;
      var m := c.meta;
      if c.ticketId >= |tickets| {
        return Err(NotFound);
      }
      var ticket := tickets[c.ticketId];
      if m.actorType != Operator || !dir.IsOperator(m.actorId) {
        return Err(AuthorizationFailed);
      }
      if c.disposition == ApplyResidentAcceptance {
        return Err(AuthorizationFailed);
      }
      var latest := Latest(appointments, c.ticketId);
      var status, log := None, [];
      if latest.Some? {
        status, log := Some(appointments[latest.value].status), Log(events, latest.value);
      }
      var request := Tickets.RecoveryRequest(
        m.actorType, c.ticketVersion, ticket.version, ticket.escalatedFrom, status, LastEvent(log),
        c.disposition, c.acceptance, c.reworkRecorded, c.conflictResolved, ticket.reworkCount);
      var decision :- Tickets.RecoverEscalated(request);
      Tickets.RecoveryIsGrounded(request);
      var updated := ticket.(status := decision.next, escalatedFrom := None, version := decision.version,
                             reworkCount := decision.reworkCount,
                             cancelledAt := if decision.next == Cancelled then Some(m.occurredAt) else ticket.cancelledAt,
                             closedAt := if decision.next == Closed then Some(m.occurredAt) else ticket.closedAt);
      var written := UpdateTicket(c.ticketId, updated, ticket.version);
      assert written.Pass?;
      ticketHistory := ticketHistory + [TicketChange(c.ticketId, ticket, updated, Recovered(c.disposition), m)];
      outbox := outbox + [StatusChanged(c.ticketId, ticket, updated, Recovered(c.disposition), Recover(c))];
      r := Ok(OperationResult(TicketRecovered, TicketResource, c.ticketId, updated.version, false,
                              StatusData(updated.status)));
    }

    // ----- Appointment service -----

    method BookAppointment(dir: Directory, c: BookCommand) returns (r: Result<OperationResult>)
      modifies `tickets, `appointments, `ticketHistory, `appointmentHistory, `outbox
      ensures Handled(old(Tables()), Tables(), PlanBook(old(Tables()), dir, c), r)
    {
      hide Latest, PlanRework, Appointments.PlanCreation;
      var m := c.meta;
      if c.startsAt < m.occurredAt {
        return Err(AppointmentTimeInPast);
      }
      if c.ticketId >= |tickets| {
        return Err(NotFound);
      }
      var ticket := tickets[c.ticketId];
      :- Authorize(dir, ticket, m);
      if !dir.canService(c.workerId, ticket.propertyId, RequiredSkill(ticket.category), c.startsAt, c.endsAt) {
        return Err(WorkerNotEligible);
      }
      var purpose := if ticket.status == ReworkRequired then Rework else InitialRepair;
      var id := |appointments|;
      var draft := Draft(c.ticketId, c.workerId, purpose, c.startsAt, c.endsAt, None);
      :- Appointments.PlanCreation(draft, ticket.status, m.actorType, c.ticketVersion, ticket.version);
      if purpose == Rework {
        var prior := Latest(appointments, c.ticketId);
        if prior.None? {
          return Err(NotFound);
        }
        :- PlanRework(c.ticketId, ticket.status, ticket.reworkCount, prior.value, appointments[prior.value], id, draft);
      }
      var updated := ticket.(status := Scheduled, version := ticket.version + 1, escalatedFrom := None);
      var written := UpdateTicket(c.ticketId, updated, ticket.version);
      assert written.Pass?;
      appointments := appointments + [draft];
      ticketHistory := ticketHistory + [TicketChange(c.ticketId, ticket, updated, Acted(TicketAction.BookAppointment), m)];
      appointmentHistory := appointmentHistory + [AppointmentInsertion(id, m)];
      outbox := outbox + [StatusChanged(c.ticketId, ticket, updated, Acted(TicketAction.BookAppointment), Book(c))];
      outbox := outbox + [Publish(AppointmentBooked, id, 1, Book(c),
                                  BookedPayload(c.ticketId, c.workerId, purpose, c.startsAt, c.endsAt))];
      r := Ok(OperationResult(AppointmentBookedCode, AppointmentResource, id, 1, false,
                              BookedData(c.ticketId, updated.version)));
    }

    method RescheduleAppointment(dir: Directory, c: RescheduleCommand) returns (r: Result<OperationResult>)
      modifies `tickets, `appointments, `ticketHistory, `appointmentHistory, `outbox
      ensures Handled(old(Tables()), Tables(), PlanMove(old(Tables()), dir, c), r)
    {
      hide Tickets.TransitionTicket, TransitionAppointment;
      var m := c.meta;
      if c.startsAt < m.occurredAt {
        return Err(AppointmentTimeInPast);
      }
      if c.ticketId >= |tickets| {
        return Err(NotFound);
      }
      if c.appointmentId >= |appointments| || appointments[c.appointmentId].ticketId != c.ticketId {
        return Err(NotFound);
      }
      var ticket, current := tickets[c.ticketId], appointments[c.appointmentId];
      :- Authorize(dir, ticket, m);
      if !dir.canService(c.workerId, ticket.propertyId, RequiredSkill(ticket.category), c.startsAt, c.endsAt) {
        return Err(WorkerNotEligible);
      }
      var id := |appointments|;
      var draft := Draft(c.ticketId, c.workerId, current.purpose, c.startsAt, c.endsAt, Some(c.appointmentId));
      var superseded :- PlanReschedule(c.appointmentId, current, id, draft, m.actorType, c.appointmentVersion);
      NextAppointment(current, Supersede, m.actorType, c.appointmentVersion, None);
      var request := Requested(ticket, Reschedule, m, c.ticketVersion).(hasBooking := true);
      var decision :- Tickets.TransitionTicket(request);
      Tickets.NextVersion(request);
      var updated := ticket.(version := decision.version);
      var closed := current.(status := superseded.status, version := superseded.version);
      var written := UpdateTicket(c.ticketId, updated, ticket.version);
      assert written.Pass?;
      var closedRow := UpdateAppointment(c.appointmentId, closed, current.version, None);
      assert closedRow.Pass?;
      appointments := appointments + [draft];
      ticketHistory := ticketHistory + [TicketChange(c.ticketId, ticket, updated, Acted(Reschedule), m)];
      appointmentHistory := appointmentHistory + [AppointmentChange(c.appointmentId, current, closed, m)];
      appointmentHistory := appointmentHistory + [AppointmentInsertion(id, m)];
      outbox := outbox + [Publish(AppointmentRescheduled, id, 1, Move(c),
                                  RescheduledPayload(c.ticketId, c.appointmentId, c.workerId, c.startsAt, c.endsAt))];
      r := Ok(OperationResult(AppointmentRescheduledCode, AppointmentResource, id, 1, false,
                              RescheduledData(c.appointmentId, updated.version)));
    }

    // ----- Worker-event service -----

    /** The recorded event to repeat, or the rows and the decision a new event works on. */
    method LoadContext(dir: Directory, c: EventCommand, digest: Digest) returns (r: Result<Loaded>)
      requires digest == RecordEvent(c).Digest()
      ensures match r
        case Err(error) => PlanEvent(Tables(), dir, c) == Err(error)
        case Ok(Replayed(result)) => PlanEvent(Tables(), dir, c) == Ok(Planned(NO_EFFECT, result))
        case Ok(Fresh(x)) => Grounded(c, x) && PlanEvent(Tables(), dir, c) == EventWrites(Tables(), c, x.decision)
    {
      hide ValidateWorkerEvent, EventWrites, Log;
      if c.appointmentId >= |appointments| || appointments[c.appointmentId].ticketId != c.ticketId {
        return Err(NotFound);
      }
      var a := appointments[c.appointmentId];
      var prior := Log(events, c.appointmentId);
      var existing := FindExternal(events, c.externalKey);
      if existing.Some? {
        var recorded := events[existing.value];
        if recorded.requestHash != digest {
          return Err(WorkerEventPayloadConflict);
        }
        return Ok(Replayed(OperationResult(WorkerEventReplayed, WorkerEventResource, existing.value,
                                           recorded.sequenceNo, true, NoData)));
      }
      if c.ticketId >= |tickets| {
        return Err(NotFound);
      }
      :- AuthorizeEvent(dir, a, c);
      var decision :- ValidateWorkerEvent(EventRequestFor(Tables(), c));
      r := Ok(Fresh(EventContext(tickets[c.ticketId], a, prior, decision)));
    }

    predicate Grounded(c: EventCommand, x: EventContext)
      reads this
    {
      && c.ticketId < |tickets| && c.appointmentId < |appointments|
      && x.ticket == tickets[c.ticketId] && x.appointment == appointments[c.appointmentId]
      && x.prior == Log(events, c.appointmentId)
    }

    method ApplyEffects(c: EventCommand, x: EventContext) returns (r: Result<(Ticket, Appointment)>)
      requires Grounded(c, x)
      modifies `tickets, `appointments, `ticketHistory, `appointmentHistory, `outbox
      ensures match EventWrites(old(Tables()), c, x.decision)
        case Err(error) => r == Err(error)
        case Ok(p) =>
          && r.Ok? && Tables() == Apply(old(Tables()), p.effect.(event := None))
          && p.result.data == EventData(r.value.0.status, r.value.0.version, r.value.1.status, r.value.1.version)
    {
      hide TransitionAppointment, Log, EventOutcome;
      var m, decision := c.meta, x.decision;
      var ticketChanged := decision.ticket != x.ticket.status;
      var closes := decision.appointment != x.appointment.status;
      var action := Acted(EventTicketAction(c, x.appointment.purpose));
      var ticket := x.ticket.(status := decision.ticket,
                              escalatedFrom := if decision.ticket == Escalated then Some(x.ticket.status) else None,
                              reworkCount := decision.reworkCount,
                              version := x.ticket.version + if ticketChanged then 1 else 0);
      var a := x.appointment.(status := decision.appointment,
                              version := x.appointment.version + if closes then 1 else 0);
      if ticketChanged {
        var written := UpdateTicket(c.ticketId, ticket, x.ticket.version);
        assert written.Pass?;
        ticketHistory := ticketHistory + [TicketChange(c.ticketId, x.ticket, ticket, action, m)];
        outbox := outbox + [StatusChanged(c.ticketId, x.ticket, ticket, action, RecordEvent(c))];
      }
      if closes {
        var outcome := EventOutcome(c, x.ticket);
        var agreed :- TransitionAppointment(x.appointment, EventAppointmentAction(c.event), m.actorType,
                                            c.appointmentVersion, outcome);
        var written := UpdateAppointment(c.appointmentId, a, x.appointment.version, outcome);
        assert written.Pass?;
        appointmentHistory := appointmentHistory + [AppointmentChange(c.appointmentId, x.appointment, a, m)];
      }
      r := Ok((ticket, a));
    }

    method RecordWorkerEvent(dir: Directory, c: EventCommand, digest: Digest) returns (r: Result<OperationResult>)
      requires digest == RecordEvent(c).Digest()
      modifies `tickets, `appointments, `events, `ticketHistory, `appointmentHistory, `outbox
      ensures Handled(old(Tables()), Tables(), PlanEvent(old(Tables()), dir, c), r)
    {
      hide ValidateWorkerEvent, CloseByEvent, Log, PlanEvent;
      var loaded :- LoadContext(dir, c, digest);
      match loaded
      case Replayed(result) =>
        r := Ok(result);
      case Fresh(x) =>
        var applied :- ApplyEffects(c, x);
        var ticket, a := applied.0, applied.1;
        var id, sequenceNo := |events|, |x.prior| + 1;
        events := events + [WorkerEvent(c.appointmentId, c.workerId, sequenceNo, c.event, c.meta.actorType,
                                        c.meta.actorId, c.externalKey, digest, c.meta.occurredAt)];
        r := Ok(OperationResult(WorkerEventRecorded, WorkerEventResource, id, sequenceNo, false,
                                EventData(ticket.status, ticket.version, a.status, a.version)));
    }

    // ----- The executor -----

    /** Inserts a pending record under the key unless the key has one; an operation id already
        spent under another key violates its own unique constraint. */
    method Acquire(key: Key, digest: Digest, operationId: OperationId) returns (acquired: Acquired)
      modifies `records
      ensures match acquired
        case Existing(record) =>
          && records == old(records) && FindKey(records, key).Some? && record == records[FindKey(records, key).value]
        case OperationTaken =>
          && records == old(records) && FindKey(records, key).None? && FindOperation(records, operationId).Some?
        case Inserted =>
          && records == old(records) + [Record(key, digest, operationId, Pending, None, None)]
          && FindKey(old(records), key).None? && FindOperation(old(records), operationId).None?
    {
      var found := FindKey(records, key);
      if found.Some? {
        return Existing(records[found.value]);
      }
      if FindOperation(records, operationId).Some? {
        return OperationTaken;
      }
      records := records + [Record(key, digest, operationId, Pending, None, None)];
      acquired := Inserted;
    }

    method Succeed(key: Key, resource: (ResourceType, Id), payload: StoredPayload)
      requires FindKey(records, key).Some?
      modifies `records
      ensures var k := FindKey(old(records), key).value;
        records == old(records)[k := old(records)[k].(status := Succeeded, resource := Some(resource), payload := Some(payload))]
    {
      var k := FindKey(records, key).value;
      records := records[k := records[k].(status := Succeeded, resource := Some(resource), payload := Some(payload))];
    }

    method Rollback(saved: Store)
      modifies this
      ensures Contents() == saved
    {
      tickets, appointments, events := saved.db.tickets, saved.db.appointments, saved.db.events;
      ticketHistory, appointmentHistory := saved.db.ticketHistory, saved.db.appointmentHistory;
      outbox, records := saved.db.outbox, saved.records;
    }

    method Handle(dir: Directory, command: Command, digest: Digest) returns (r: Result<OperationResult>)
      requires digest == command.Digest()
      modifies `tickets, `appointments, `events, `ticketHistory, `appointmentHistory, `outbox
      ensures Handled(old(Tables()), Tables(), Plan(old(Tables()), dir, command), r)
    {
      hide PlanCreate, PlanBook, PlanMove, PlanEvent, PlanReview, PlanEscalate, PlanRecover, Handled;
      match command
      case CreateTicket(c) => r := CreateTicket(dir, c);
      case Book(c) => r := BookAppointment(dir, c);
      case Move(c) => r := RescheduleAppointment(dir, c);
      case RecordEvent(c) => r := RecordWorkerEvent(dir, c, digest);
      case Review(c) => r := ReviewRepair(dir, c);
      case EscalateTicket(c) => r := EscalateTicket(dir, c);
      case Recover(c) => r := RecoverTicket(dir, c);
    }

    /** One request, all or nothing: the store and the answer are those of `Execution.Execute`. */
    method Execute(dir: Directory, command: Command) returns (answer: Answer)
      modifies this
      ensures Contents() == Execution.Execute(old(Contents()), Call(dir, command)).0
      ensures answer == Execution.Execute(old(Contents()), Call(dir, command)).1
    {
      hide Plan, Schema.Flush, FindKey, FindOperation, Apply;
      var saved := Contents();
      var key, digest := command.Key(), command.Digest();
      var acquired := Acquire(key, digest, command.OperationId());
      match acquired
      case OperationTaken =>
        Rollback(saved);
        answer := Crashed;
      case Existing(record) =>
        Rollback(saved);
        if record.digest != digest {
          answer := Refused(IdempotencyPayloadConflict);
        } else if record.status != Succeeded {
          answer := Refused(IdempotencyInProgress);
        } else {
          answer := ReplayResult(record);
        }
      case Inserted =>
        var handled := Handle(dir, command, digest);
        var flushed := if handled.Ok? then Schema.Flush(Tables()) else Fail(handled.error);
        if flushed.Fail? {
          Rollback(saved);
          answer := Refused(flushed.error);
        } else {
          var result := handled.value;
          LastKey(saved.records, records[|saved.records|]);
          Succeed(key, (result.resourceType, result.resourceId),
                  StoredPayload(result.code, result.resourceVersion, result.data));
          assert records == saved.records + [SuccessRecord(command, result)];
          answer := Answered(result);
        }
    }
  }

  lemma LastKey(records: seq<Record>, record: Record)
    ensures FindKey(records + [record], record.key) == Some(|records|)
  {
  }
}
