/** The services for bookings and worker events change tickets without asking the ticket table.
    Every change they make is nevertheless one the table would have made. */
module RuleAgreement {
  import opened Domain
  import opened Commands
  import opened Appointments
  import opened WorkerEvents
  import opened RepairStore
  import opened Tickets
  import StoreLegality

  /** Where a ticket can go in one transition, whoever acts. */
  predicate Edge(from: TicketStatus, to: TicketStatus) {
    match from
    case Open => to in {Scheduled, Cancelled, Escalated}
    case Scheduled => to in {Scheduled, InProgress, Open, ReworkRequired, Cancelled, Closed, Escalated}
    case InProgress => to in {PendingAcceptance, ReworkRequired, Closed, Escalated}
    case PendingAcceptance => to in {Closed, ReworkRequired, Escalated}
    case ReworkRequired => to in {Scheduled, Cancelled, Escalated}
    case _ => false
  }

  /** The action that takes each edge. */
  function ActionFor(from: TicketStatus, to: TicketStatus): TicketAction
    requires Edge(from, to)
  {
    match (from, to)
    case (_, Escalated) => Escalate
    case (_, Closed) => ResidentAccept
    case (_, Cancelled) => CancelTicket
    case (_, InProgress) => StartWork
    case (_, PendingAcceptance) => CompleteWork
    case (Scheduled, Scheduled) => Reschedule
    case (_, Scheduled) => TicketAction.BookAppointment
    case (_, Open) => WorkerRejectedInitial
    case (Scheduled, _) => WorkerRejectedRework
    case (InProgress, _) => FailWorkRework
    case (_, _) => ResidentReject
  }

  /** The table draws exactly these edges; escalated, cancelled and closed tickets have none. */
  lemma TableDrawsEdges(from: TicketStatus, to: TicketStatus)
    ensures Edge(from, to) <==> exists action: TicketAction :: Table(from, action).Some? && Table(from, action).value.next == to
  {
    if Edge(from, to) {
      assert Table(from, ActionFor(from, to)).Some? && Table(from, ActionFor(from, to)).value.next == to;
    }
  }

  /** The transition request a worker event amounts to. */
  function EventAsTransition(db: Db, c: EventCommand): TransitionRequest
    requires c.ticketId < |db.tickets| && c.appointmentId < |db.appointments|
  {
    Requested(db.tickets[c.ticketId], EventTicketAction(c, db.appointments[c.appointmentId].purpose), c.meta, c.ticketVersion)
      .(hasBooking := true, cancellation := c.cancellation, noShow := c.noShow, evidence := c.evidence,
        failure := EventRequestFor(db, c).failure)
  }

  /** Whenever a worker event changes its ticket, the ticket table accepts the corresponding
      transition and arrives at the very status, version, rework count and saved status the event
      service wrote. */
  lemma EventChangesAreTransitions(db: Db, dir: Directory, c: EventCommand)
    requires StoreLegality.NewEvent(db, dir, c) && PlanEvent(db, dir, c).value.effect.ticket.Some?
    ensures c.ticketId < |db.tickets| && c.appointmentId < |db.appointments|
    ensures
      var before, after := db.tickets[c.ticketId], PlanEvent(db, dir, c).value.effect.ticket.value;
      TransitionTicket(EventAsTransition(db, c))
        == Ok(Transition(before.status, after.status, after.version, after.escalatedFrom, after.reworkCount))
  {
    hide Log, Latest, CloseByEvent, FindExternal, ValidateWorkerEvent;
    StoreLegality.EventAccepted(db, dir, c);
    EventDecision(db, dir, c);
    EventPassesTable(db, c);
  }

  /** The ticket row an event writes, in terms of its decision. */
  lemma EventDecision(db: Db, dir: Directory, c: EventCommand)
    requires StoreLegality.NewEvent(db, dir, c) && c.ticketId < |db.tickets| && c.appointmentId < |db.appointments|
    requires ValidateWorkerEvent(EventRequestFor(db, c)).Ok?
    ensures
      var e, d := PlanEvent(db, dir, c).value.effect, ValidateWorkerEvent(EventRequestFor(db, c)).value;
      var before := db.tickets[c.ticketId];
      && (e.ticket.Some? <==> d.ticket != before.status)
      && (e.ticket.Some? ==>
            && e.ticket.value.status == d.ticket && e.ticket.value.version == before.version + 1
            && e.ticket.value.reworkCount == d.reworkCount
            && e.ticket.value.escalatedFrom == if d.ticket == Escalated then Some(before.status) else None)
  {
    hide Log, Latest, CloseByEvent, FindExternal, ValidateWorkerEvent;
  }

  ghost predicate MovesTicket(db: Db, c: EventCommand) {
    && c.ticketId < |db.tickets| && c.appointmentId < |db.appointments|
    && ValidateWorkerEvent(EventRequestFor(db, c)).Ok?
    && ValidateWorkerEvent(EventRequestFor(db, c)).value.ticket != db.tickets[c.ticketId].status
  }

  lemma EventHasTableEntry(db: Db, c: EventCommand)
    requires MovesTicket(db, c)
    ensures
      var r := EventAsTransition(db, c);
      && Table(r.status, r.action).Some? && r.actor in Table(r.status, r.action).value.actors
      && Table(r.status, r.action).value.next == ValidateWorkerEvent(EventRequestFor(db, c)).value.ticket
      && r.expectedVersion == r.actualVersion
  {
    hide Log;
  }

  lemma EventMeetsPreconditions(db: Db, c: EventCommand)
    requires MovesTicket(db, c)
    ensures CheckPreconditions(EventAsTransition(db, c)) == Ok(ValidateWorkerEvent(EventRequestFor(db, c)).value.reworkCount)
  {
    hide Log;
  }

  lemma EventPassesTable(db: Db, c: EventCommand)
    requires MovesTicket(db, c)
    ensures
      var before, d := db.tickets[c.ticketId], ValidateWorkerEvent(EventRequestFor(db, c)).value;
      TransitionTicket(EventAsTransition(db, c))
        == Ok(Transition(before.status, d.ticket, before.version + 1,
                         if d.ticket == Escalated then Some(before.status) else None, d.reworkCount))
  {
    hide Log, ValidateWorkerEvent, Table, CheckPreconditions;
    EventHasTableEntry(db, c);
    EventMeetsPreconditions(db, c);
  }

  /** A new event closes its visit exactly when it is a terminal one, and the row it writes is the
      one the appointment's own transition arrives at, with the outcome the event carries. */
  lemma EventClosesByTheRule(db: Db, dir: Directory, c: EventCommand)
    requires StoreLegality.NewEvent(db, dir, c)
    ensures c.ticketId < |db.tickets| && c.appointmentId < |db.appointments|
    ensures
      var a, e := db.appointments[c.appointmentId], PlanEvent(db, dir, c).value.effect;
      var outcome := EventOutcome(c, db.tickets[c.ticketId]);
      && (e.closing.Some? <==> TerminalEvent(c.event))
      && (e.closing.Some? ==>
            && e.closing.value.0 == c.appointmentId
            && TransitionAppointment(a, EventAppointmentAction(c.event), c.meta.actorType, c.appointmentVersion, outcome)
               == Ok(e.closing.value.1.(outcome := a.outcome))
            && e.closing.value.1.outcome == if outcome.Some? then outcome else a.outcome)
  {
    hide Log, Latest, ValidateWorkerEvent, EventOutcome;
    StoreLegality.EventAccepted(db, dir, c);
    AcceptedEventEffects(EventRequestFor(db, c));
  }

  /** Whenever a booking is planned, the ticket table accepts the booking transition and arrives at
      the status, version and rework count the booking service wrote. */
  lemma BookingIsATransition(db: Db, dir: Directory, c: BookCommand)
    requires PlanBook(db, dir, c).Ok?
    requires c.ticketId < |db.tickets| ==> db.tickets[c.ticketId].reworkCount >= 0
    ensures c.ticketId < |db.tickets|
    ensures
      var before, after := db.tickets[c.ticketId], PlanBook(db, dir, c).value.effect.ticket.value;
      TransitionTicket(Requested(before, TicketAction.BookAppointment, c.meta, c.ticketVersion)
                         .(hasBooking := true, reworkRecorded := true))
        == Ok(Transition(before.status, after.status, after.version, after.escalatedFrom, after.reworkCount))
  {
    hide Latest;
  }
}
