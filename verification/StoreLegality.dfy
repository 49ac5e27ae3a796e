/** Each of the seven use cases plans only legal effects. */
module StoreLegality {
  import opened Domain
  import opened Rows
  import opened Commands
  import opened Appointments
  import opened WorkerEvents
  import opened RepairStore
  import opened StoreInvariants
  import opened StorePreservation
  import Tickets

  lemma NoAppointmentRows(db: Db, e: Effect)
    requires e.appointmentRows == [] && e.closing.None? && e.adding.None?
    ensures LegalAppointmentRows(db, e)
  {
  }

  lemma ClosingRows(db: Db, e: Effect, row: AppointmentRow)
    requires LegalClosing(db, e) && e.closing.Some? && e.adding.None? && e.appointmentRows == [row]
    requires row.appointmentId == e.closing.value.0 && row.from == Some(Booked) && row.to == e.closing.value.1.status
    requires row.before == db.appointments[e.closing.value.0].version && row.after == e.closing.value.1.version
    ensures LegalAppointmentRows(db, e)
  {
    forall a ensures LegalRowsOf(db, e, a, Select(e.appointmentRows, OfAppointment(a))) {
      SelectOne(row, OfAppointment(a));
    }
  }

  lemma AddingRows(db: Db, e: Effect, row: AppointmentRow)
    requires e.closing.None? && e.adding.Some? && e.appointmentRows == [row]
    requires row.appointmentId == |db.appointments| && row.from == None && row.to == Booked
    requires row.before == 0 && row.after == 1
    ensures LegalAppointmentRows(db, e)
  {
    forall a ensures LegalRowsOf(db, e, a, Select(e.appointmentRows, OfAppointment(a))) {
      SelectOne(row, OfAppointment(a));
    }
  }

  lemma ReplacingRows(db: Db, e: Effect, closed: AppointmentRow, added: AppointmentRow)
    requires LegalClosing(db, e) && e.closing.Some? && e.adding.Some? && e.appointmentRows == [closed, added]
    requires closed.appointmentId == e.closing.value.0 && closed.from == Some(Booked) && closed.to == e.closing.value.1.status
    requires closed.before == db.appointments[e.closing.value.0].version && closed.after == e.closing.value.1.version
    requires added.appointmentId == |db.appointments| && added.from == None && added.to == Booked
    requires added.before == 0 && added.after == 1
    ensures LegalAppointmentRows(db, e)
  {
    forall a ensures LegalRowsOf(db, e, a, Select(e.appointmentRows, OfAppointment(a))) {
      SelectTwo(closed, added, OfAppointment(a));
    }
  }

  /** One status-changing row, announced by the only status event. */
  lemma AnnouncedAlone(row: TicketRow, v: DomainEvent)
    requires ChangesStatus(row) && Announces(v, row)
    ensures AnnouncedBy(Select([v], OnStatusOf(row.ticketId)), StatusRows([row]))
  {
    SelectOne(row, IsStatusChange());
    SelectOne(v, OnStatusOf(row.ticketId));
  }

  lemma AnnouncedWith(row: TicketRow, v: DomainEvent, other: DomainEvent)
    requires ChangesStatus(row) && Announces(v, row) && other.kind !in {TicketCreated, TicketStatusChanged}
    ensures AnnouncedBy(Select([v, other], OnStatusOf(row.ticketId)), StatusRows([row]))
  {
    SelectOne(row, IsStatusChange());
    SelectTwo(v, other, OnStatusOf(row.ticketId));
  }

  lemma UnannouncedMove(row: TicketRow, v: DomainEvent)
    requires !ChangesStatus(row) && v.kind == AppointmentRescheduled
    ensures AnnouncedBy(Select([v], OnStatusOf(row.ticketId)), StatusRows([row]))
  {
    SelectOne(row, IsStatusChange());
    SelectOne(v, OnStatusOf(row.ticketId));
  }

  /** An effect on the ticket alone is legal when the new row follows the old one and agrees
      with the visit the ticket is on. */
  lemma TicketOnlyLegal(db: Db, e: Effect)
    requires e.closing.None? && e.adding.None? && e.event.None? && e.appointmentRows == []
    requires LegalTicket(db, e) && e.ticket.Some? && ChangesStatus(e.ticketRows[0])
    requires Agrees(e.ticket.value.status, LatestStatus(db, e.ticketId), LatestLog(db, e.ticketId))
    requires |e.outbox| >= 1 && Announces(e.outbox[0], e.ticketRows[0])
    requires e.outbox == [e.outbox[0]]
      || (e.outbox == [e.outbox[0], e.outbox[1]] && e.outbox[1].kind == TicketEscalated
          && e.outbox[1].aggregateId == e.ticketId && e.outbox[1].aggregateVersion == e.ticket.value.version)
    ensures Legal(db, e)
  {
    hide Select;
    NoAppointmentRows(db, e);
    assert e.ticketRows == [e.ticketRows[0]];
    if e.outbox == [e.outbox[0]] {
      AnnouncedAlone(e.ticketRows[0], e.outbox[0]);
    } else {
      AnnouncedWith(e.ticketRows[0], e.outbox[0], e.outbox[1]);
    }
  }

  lemma CreateLegal(db: Db, dir: Directory, c: CreateCommand)
    requires AppointmentRows(db) && PlanCreate(db, dir, c).Ok?
    ensures Legal(db, PlanCreate(db, dir, c).value.effect)
  {
    hide Tickets.PlanCreation, Strip, HasExactOpenMatch;
    assert Latest(db.appointments, |db.tickets|).None?;
    TicketOnlyLegal(db, PlanCreate(db, dir, c).value.effect);
  }

  lemma EscalateLegal(db: Db, dir: Directory, c: EscalateCommand)
    requires TicketRows(db) && PlanEscalate(db, dir, c).Ok?
    ensures Legal(db, PlanEscalate(db, dir, c).value.effect)
  {
    hide Tickets.TransitionTicket, Latest, Log;
    Tickets.EscalationSavesPrior(
      Requested(db.tickets[c.ticketId], Escalate, c.meta, c.ticketVersion).(
        escalationReason := Some(c.reasonText), evidence := c.evidence));
    TicketOnlyLegal(db, PlanEscalate(db, dir, c).value.effect);
  }

  /** Recovery never reads the ticket's status, yet only an escalated ticket can recover. */
  lemma RecoverLegal(db: Db, dir: Directory, c: RecoverCommand)
    requires TicketRows(db) && LogsLegal(db) && PlanRecover(db, dir, c).Ok?
    ensures db.tickets[c.ticketId].status == Escalated
    ensures Legal(db, PlanRecover(db, dir, c).value.effect)
  {
    hide Tickets.RecoverEscalated, Log;
    var ticket := db.tickets[c.ticketId];
    var latest := Latest(db.appointments, c.ticketId);
    Tickets.RecoveryIsGrounded(Tickets.RecoveryRequest(
      c.meta.actorType, c.ticketVersion, ticket.version, ticket.escalatedFrom,
      LatestStatus(db, c.ticketId), LastEvent(LatestLog(db, c.ticketId)),
      c.disposition, c.acceptance, c.reworkRecorded, c.conflictResolved, ticket.reworkCount));
    assert EscalationConsistent(ticket);
    if LatestStatus(db, c.ticketId) == Some(Booked) {
      assert StatusFitsLog(db.appointments[latest.value].status, LatestLog(db, c.ticketId));
      OpenLogFacts(LatestLog(db, c.ticketId));
    }
    TicketOnlyLegal(db, PlanRecover(db, dir, c).value.effect);
  }

  lemma BookLegal(db: Db, dir: Directory, c: BookCommand)
    requires TicketRows(db) && TicketsAgree(db) && PlanBook(db, dir, c).Ok?
    ensures Legal(db, PlanBook(db, dir, c).value.effect)
  {
    hide Select, Log;
    var e := PlanBook(db, dir, c).value.effect;
    assert Agrees(db.tickets[c.ticketId].status, LatestStatus(db, c.ticketId), LatestLog(db, c.ticketId));
    AddingRows(db, e, e.appointmentRows[0]);
    AnnouncedWith(e.ticketRows[0], e.outbox[0], e.outbox[1]);
  }

  lemma MoveShape(db: Db, dir: Directory, c: RescheduleCommand)
    requires TicketRows(db) && AppointmentRows(db) && PlanMove(db, dir, c).Ok?
    ensures var e := PlanMove(db, dir, c).value.effect;
      LegalClosing(db, e) && LegalAdding(db, e) && LegalEvent(db, e) && LegalTicket(db, e) && LegalVisit(db, e)
    ensures !ChangesStatus(PlanMove(db, dir, c).value.effect.ticketRows[0])
  {
    hide Tickets.TransitionTicket, Latest, Log;
    Tickets.RescheduleStays(Requested(db.tickets[c.ticketId], Reschedule, c.meta, c.ticketVersion).(hasBooking := true));
    assert EscalationConsistent(db.tickets[c.ticketId]);
  }

  lemma MoveLegal(db: Db, dir: Directory, c: RescheduleCommand)
    requires TicketRows(db) && AppointmentRows(db) && PlanMove(db, dir, c).Ok?
    ensures Legal(db, PlanMove(db, dir, c).value.effect)
  {
    hide Tickets.TransitionTicket, Select, Latest, Log;
    MoveShape(db, dir, c);
    var e := PlanMove(db, dir, c).value.effect;
    ReplacingRows(db, e, e.appointmentRows[0], e.appointmentRows[1]);
    UnannouncedMove(e.ticketRows[0], e.outbox[0]);
  }

  lemma ReviewShape(db: Db, dir: Directory, c: ReviewCommand)
    requires TicketRows(db) && PlanReview(db, dir, c).Ok?
    ensures var e := PlanReview(db, dir, c).value.effect;
      LegalTicket(db, e) && e.ticket.Some? && ChangesStatus(e.ticketRows[0]) && e.ticketId == c.ticketId
    ensures PlanReview(db, dir, c).value.effect.ticket.value.status == if c.accepted then Closed else ReworkRequired
  {
    hide Tickets.TransitionTicket, Latest, Log, AggregateConsistency;
    var r := Requested(db.tickets[c.ticketId], if c.accepted then ResidentAccept else ResidentReject, c.meta, c.ticketVersion)
      .(acceptance := Some(c.accepted), rejection := if c.accepted then None else c.rejection);
    Tickets.AcceptanceCloses(r);
    if !c.accepted {
      Tickets.RejectionReworks(r);
    }
    assert EscalationConsistent(db.tickets[c.ticketId]);
  }

  lemma ReviewCloses(db: Db, dir: Directory, c: ReviewCommand)
    requires TicketRows(db) && AppointmentRows(db) && LogsLegal(db) && PlanReview(db, dir, c).Ok?
    ensures var e := PlanReview(db, dir, c).value.effect;
      LegalClosing(db, e) && LegalAdding(db, e) && LegalEvent(db, e) && LegalVisit(db, e)
  {
    hide Tickets.TransitionTicket, Log, AggregateConsistency;
    ReviewShape(db, dir, c);
  }

  lemma ReviewLegal(db: Db, dir: Directory, c: ReviewCommand)
    requires TicketRows(db) && AppointmentRows(db) && LogsLegal(db) && PlanReview(db, dir, c).Ok?
    ensures Legal(db, PlanReview(db, dir, c).value.effect)
  {
    hide Tickets.TransitionTicket, Select, Latest, Log, AggregateConsistency;
    ReviewShape(db, dir, c);
    ReviewCloses(db, dir, c);
    var e := PlanReview(db, dir, c).value.effect;
    if e.closing.Some? {
      ClosingRows(db, e, e.appointmentRows[0]);
    } else {
      NoAppointmentRows(db, e);
    }
    AnnouncedAlone(e.ticketRows[0], e.outbox[0]);
  }

  // ----- Worker events -----

  /** A worker event that is new to the store. */
  ghost predicate NewEvent(db: Db, dir: Directory, c: EventCommand) {
    PlanEvent(db, dir, c).Ok? && FindExternal(db.events, c.externalKey).None?
  }

  lemma EventAccepted(db: Db, dir: Directory, c: EventCommand)
    requires NewEvent(db, dir, c)
    ensures c.ticketId < |db.tickets| && c.appointmentId < |db.appointments|
    ensures db.appointments[c.appointmentId].ticketId == c.ticketId
    ensures ValidateWorkerEvent(EventRequestFor(db, c)).Ok?
  {
    hide ValidateWorkerEvent, Log, Latest;
  }

  /** The booking a worker event may touch is its ticket's current visit, and the visit's log
      stays inside the language. */
  lemma EventOnCurrentVisit(db: Db, dir: Directory, c: EventCommand)
    requires BookingIsLatest(db) && TicketsAgree(db) && LogsLegal(db) && NewEvent(db, dir, c)
    ensures c.ticketId < |db.tickets| && c.appointmentId < |db.appointments|
    ensures db.appointments[c.appointmentId].status == Booked
    ensures db.appointments[c.appointmentId].ticketId == c.ticketId
    ensures Latest(db.appointments, c.ticketId) == Some(c.appointmentId)
    ensures db.tickets[c.ticketId].status == VisitStatus(Log(db.events, c.appointmentId))
    ensures OpenLog(Log(db.events, c.appointmentId))
    ensures LegalLog(Log(db.events, c.appointmentId) + [c.event])
  {
    hide Log, PlanEvent, LegalLog;
    EventAccepted(db, dir, c);
    var log := Log(db.events, c.appointmentId);
    assert StatusFitsLog(db.appointments[c.appointmentId].status, log);
    assert Agrees(db.tickets[c.ticketId].status, LatestStatus(db, c.ticketId), LatestLog(db, c.ticketId));
    OpenLogFacts(log);
    RulesDecideLanguage(EventRequestFor(db, c));
  }

  lemma StatusFitsExtendedLog(status: AppointmentStatus, log: seq<EventType>, event: EventType)
    requires OpenLog(log) && LegalLog(log + [event])
    requires status == Booked ==> !TerminalEvent(event)
    requires status == Fulfilled ==> event in {Completed, FailedToComplete}
    requires status == ApptCancelled ==> event in {Rejected, EvCancelled}
    requires status == NoShow ==> event == EvNoShow
    requires status != Superseded
    ensures StatusFitsLog(status, log + [event])
  {
    var longer := log + [event];
    assert longer[|log|] == event && longer[..|log|] == log;
    ClosedLogFacts(longer);
    OpenLogFacts(log);
  }

  lemma EventFitsLog(db: Db, dir: Directory, c: EventCommand)
    requires BookingIsLatest(db) && TicketsAgree(db) && LogsLegal(db) && NewEvent(db, dir, c)
    ensures LegalEvent(db, PlanEvent(db, dir, c).value.effect)
  {
    hide Log, Latest, ValidateWorkerEvent, LegalLog, OpenLog, StatusFitsLog;
    EventAccepted(db, dir, c);
    EventOnCurrentVisit(db, dir, c);
    AcceptedEventEffects(EventRequestFor(db, c));
    var e := PlanEvent(db, dir, c).value.effect;
    StatusFitsExtendedLog(if e.closing.Some? then e.closing.value.1.status else Booked,
                          Log(db.events, c.appointmentId), c.event);
  }

  lemma EventClosing(db: Db, dir: Directory, c: EventCommand)
    requires AppointmentRows(db) && NewEvent(db, dir, c)
    ensures LegalClosing(db, PlanEvent(db, dir, c).value.effect) && LegalAdding(db, PlanEvent(db, dir, c).value.effect)
  {
    hide Log, Latest, ValidateWorkerEvent;
    EventAccepted(db, dir, c);
    AcceptedEventEffects(EventRequestFor(db, c));
  }

  lemma EventTicket(db: Db, dir: Directory, c: EventCommand)
    requires TicketRows(db) && NewEvent(db, dir, c)
    ensures var e := PlanEvent(db, dir, c).value.effect;
      LegalTicket(db, e) && (e.ticket.Some? ==> ChangesStatus(e.ticketRows[0]))
  {
    hide Log, Latest, ValidateWorkerEvent, CloseByEvent;
    EventAccepted(db, dir, c);
    AcceptedEventEffects(EventRequestFor(db, c));
    assert EscalationConsistent(db.tickets[c.ticketId]);
  }

  /** The part of a worker event's effect that decides the visit its ticket is on. */
  lemma EventShape(db: Db, dir: Directory, c: EventCommand)
    requires NewEvent(db, dir, c) && c.appointmentId < |db.appointments| && c.ticketId < |db.tickets|
    requires ValidateWorkerEvent(EventRequestFor(db, c)).Ok?
    ensures
      var e, d := PlanEvent(db, dir, c).value.effect, ValidateWorkerEvent(EventRequestFor(db, c)).value;
      && e.ticketId == c.ticketId && e.adding.None?
      && e.event.Some? && e.event.value.appointmentId == c.appointmentId && e.event.value.event == c.event
      && (e.closing.Some? <==> d.appointment != db.appointments[c.appointmentId].status)
      && (e.closing.Some? ==> e.closing.value.0 == c.appointmentId
                              && e.closing.value.1.status == d.appointment)
      && (e.ticket.Some? <==> d.ticket != db.tickets[c.ticketId].status)
      && (e.ticket.Some? ==> e.ticket.value.status == d.ticket)
  {
    hide Log, ValidateWorkerEvent, Latest, EventOutcome, FindExternal;
  }

  lemma EventVisit(db: Db, dir: Directory, c: EventCommand)
    requires TicketRows(db) && BookingIsLatest(db) && TicketsAgree(db) && LogsLegal(db) && NewEvent(db, dir, c)
    ensures LegalVisit(db, PlanEvent(db, dir, c).value.effect)
  {
    hide Log, ValidateWorkerEvent, LegalLog, OpenLog, PlanEvent;
    EventAccepted(db, dir, c);
    EventOnCurrentVisit(db, dir, c);
    AcceptedEventEffects(EventRequestFor(db, c));
    EventShape(db, dir, c);
    var log := Log(db.events, c.appointmentId);
    assert (log + [c.event])[|log|] == c.event;
  }

  lemma EventLegal(db: Db, dir: Directory, c: EventCommand)
    requires Inv(db) && NewEvent(db, dir, c)
    ensures Legal(db, PlanEvent(db, dir, c).value.effect)
  {
    EventTicket(db, dir, c);
    EventClosing(db, dir, c);
    EventFitsLog(db, dir, c);
    EventVisit(db, dir, c);
    EventRows(db, dir, c);
  }

  lemma EventRows(db: Db, dir: Directory, c: EventCommand)
    requires TicketRows(db) && AppointmentRows(db) && NewEvent(db, dir, c)
    ensures LegalAppointmentRows(db, PlanEvent(db, dir, c).value.effect)
    ensures LegalOutbox(db, PlanEvent(db, dir, c).value.effect)
  {
    hide Log, Latest, ValidateWorkerEvent, CloseByEvent, Select;
    var e := PlanEvent(db, dir, c).value.effect;
    EventTicket(db, dir, c);
    EventClosing(db, dir, c);
    if e.closing.Some? {
      ClosingRows(db, e, e.appointmentRows[0]);
    } else {
      NoAppointmentRows(db, e);
    }
    if e.ticket.Some? {
      AnnouncedAlone(e.ticketRows[0], e.outbox[0]);
    } else {
      NothingAnnounced(e.ticketId);
    }
  }

  lemma NothingAnnounced(id: Id)
    ensures AnnouncedBy(Select([], OnStatusOf(id)), StatusRows([]))
  {
  }

  /** Whatever a command plans on a store that satisfies the invariants keeps them. */
  lemma PlanKeepsInv(db: Db, dir: Directory, command: Command)
    requires Inv(db) && Plan(db, dir, command).Ok?
    ensures Inv(Apply(db, Plan(db, dir, command).value.effect))
  {
    hide Inv, Legal, PlanCreate, PlanBook, PlanMove, PlanReview, PlanEscalate, PlanRecover, Latest, Log, Select;
    var e := Plan(db, dir, command).value.effect;
    if command.RecordEvent? && FindExternal(db.events, command.record.externalKey).Some? {
      assert Apply(db, e) == db;
    } else {
      CommandLegal(db, dir, command);
      LegalEffectKeepsInv(db, e);
    }
  }

  lemma CommandLegal(db: Db, dir: Directory, command: Command)
    requires Inv(db) && Plan(db, dir, command).Ok?
    requires command.RecordEvent? ==> FindExternal(db.events, command.record.externalKey).None?
    ensures Legal(db, Plan(db, dir, command).value.effect)
  {
    hide Legal, PlanCreate, PlanBook, PlanMove, PlanEvent, PlanReview, PlanEscalate, PlanRecover, Latest, Log, Select;
    match command
    case CreateTicket(c) => CreateLegal(db, dir, c);
    case Book(c) => BookLegal(db, dir, c);
    case Move(c) => MoveLegal(db, dir, c);
    case RecordEvent(c) => EventLegal(db, dir, c);
    case Review(c) => ReviewLegal(db, dir, c);
    case EscalateTicket(c) => EscalateLegal(db, dir, c);
    case Recover(c) => RecoverLegal(db, dir, c);
  }
}
