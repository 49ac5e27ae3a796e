/** The one way a ticket comes to wait for rework while its booking is still live. */
module LingeringBookings {
  import opened Domain
  import opened Commands
  import opened Appointments
  import opened WorkerEvents
  import opened RepairStore
  import opened StoreInvariants
  import opened StorePreservation
  import opened RepairRuns
  import Schema
  import SchemaGuard
  import StoreLegality
  import TerminalTickets
  import Tickets

  /** Ticket `t` waits for rework although a booking of it is still live. */
  predicate Lingers(db: Db, t: Id) {
    t < |db.tickets| && db.tickets[t].status == ReworkRequired && HasLive(db, t)
  }

  predicate ApprovesRework(command: Command, t: Id) {
    command.Recover? && command.recover.ticketId == t && command.recover.disposition == ApproveRework
  }

  /** Where the effect leaves its own ticket: waiting for rework with the latest visit booked. */
  ghost predicate LeavesBooked(db: Db, e: Effect) {
    && e.ticketId <= |db.tickets|
    && VisitAfter(db, e).0 == Some(Booked)
    && (if e.ticket.Some? then e.ticket.value.status == ReworkRequired
        else e.ticketId < |db.tickets| && db.tickets[e.ticketId].status == ReworkRequired)
  }

  lemma EventReleases(db: Db, dir: Directory, c: EventCommand)
    requires BookingIsLatest(db) && TicketsAgree(db) && LogsLegal(db) && StoreLegality.NewEvent(db, dir, c)
    ensures !LeavesBooked(db, PlanEvent(db, dir, c).value.effect)
  {
    hide Log, ValidateWorkerEvent, LegalLog, OpenLog, PlanEvent;
    StoreLegality.EventAccepted(db, dir, c);
    StoreLegality.EventOnCurrentVisit(db, dir, c);
    AcceptedEventEffects(EventRequestFor(db, c));
    StoreLegality.EventShape(db, dir, c);
  }

  lemma ReviewReleases(db: Db, dir: Directory, c: ReviewCommand)
    requires TicketRows(db) && TicketsAgree(db) && PlanReview(db, dir, c).Ok?
    ensures !LeavesBooked(db, PlanReview(db, dir, c).value.effect)
  {
    hide Tickets.TransitionTicket, Latest, Log, AggregateConsistency;
    StoreLegality.ReviewShape(db, dir, c);
    assert Agrees(db.tickets[c.ticketId].status, LatestStatus(db, c.ticketId), LatestLog(db, c.ticketId));
    if !c.accepted {
      Tickets.RejectionReworks(Requested(db.tickets[c.ticketId], ResidentReject, c.meta, c.ticketVersion)
        .(acceptance := Some(false), rejection := c.rejection));
    }
  }

  lemma RecoveryReleases(db: Db, dir: Directory, c: RecoverCommand)
    requires PlanRecover(db, dir, c).Ok?
    ensures c.ticketId < |db.tickets| && PlanRecover(db, dir, c).value.effect.ticketId == c.ticketId
    ensures PlanRecover(db, dir, c).value.effect.adding.None?
    ensures LeavesBooked(db, PlanRecover(db, dir, c).value.effect)
      <==> c.disposition == ApproveRework && LatestStatus(db, c.ticketId) == Some(Booked)
  {
    hide Latest, Log;
  }

  lemma CommandReleases(db: Db, dir: Directory, command: Command)
    requires Inv(db) && Plan(db, dir, command).Ok?
    requires command.RecordEvent? ==> FindExternal(db.events, command.record.externalKey).None?
    ensures var e := Plan(db, dir, command).value.effect;
      && (LeavesBooked(db, e) <==> ApprovesRework(command, e.ticketId) && LatestStatus(db, e.ticketId) == Some(Booked))
      && (command.Recover? ==> e.ticketId == command.recover.ticketId && e.adding.None?)
  {
    hide LeavesBooked, PlanCreate, PlanBook, PlanMove, PlanEvent, PlanReview, PlanEscalate, PlanRecover;
    match command
    case RecordEvent(c) => EventReleases(db, dir, c);
    case Review(c) => ReviewReleases(db, dir, c);
    case Recover(c) => RecoveryReleases(db, dir, c);
    case CreateTicket(c) => OpensNew(db, dir, c);
    case Book(c) => Schedules(db, dir, c);
    case Move(c) => StaysScheduled(db, dir, c);
    case EscalateTicket(c) => Escalates(db, dir, c);
  }

  lemma OpensNew(db: Db, dir: Directory, c: CreateCommand)
    requires PlanCreate(db, dir, c).Ok?
    ensures !LeavesBooked(db, PlanCreate(db, dir, c).value.effect)
  {
    TerminalTickets.CreationEffect(db, dir, c);
    hide PlanCreate;
  }

  lemma Schedules(db: Db, dir: Directory, c: BookCommand)
    requires PlanBook(db, dir, c).Ok?
    ensures !LeavesBooked(db, PlanBook(db, dir, c).value.effect)
  {
    hide Latest, VisitAfter;
  }

  lemma StaysScheduled(db: Db, dir: Directory, c: RescheduleCommand)
    requires PlanMove(db, dir, c).Ok?
    ensures !LeavesBooked(db, PlanMove(db, dir, c).value.effect)
  {
    hide Tickets.TransitionTicket, Latest, VisitAfter;
    Tickets.RescheduleStays(Requested(db.tickets[c.ticketId], Reschedule, c.meta, c.ticketVersion).(hasBooking := true));
  }

  lemma Escalates(db: Db, dir: Directory, c: EscalateCommand)
    requires PlanEscalate(db, dir, c).Ok?
    ensures !LeavesBooked(db, PlanEscalate(db, dir, c).value.effect)
  {
    hide Tickets.TransitionTicket, Latest, VisitAfter;
    Tickets.EscalationSavesPrior(Requested(db.tickets[c.ticketId], Escalate, c.meta, c.ticketVersion).(
      escalationReason := Some(c.reasonText), evidence := c.evidence));
  }

  predicate WaitsBooked(db: Db, t: Id) {
    t < |db.tickets| && db.tickets[t].status == ReworkRequired && LatestStatus(db, t) == Some(Booked)
  }

  lemma LingersIsRead(db: Db, t: Id)
    requires Inv(db)
    ensures Lingers(db, t) <==> WaitsBooked(db, t)
  {
    hide Inv;
    LiveIsLatest(db, t);
  }

  /** What an applied effect does to a ticket's lingering booking. */
  lemma WaitsAfter(db: Db, e: Effect, t: Id)
    requires AppointmentRows(db) && Legal(db, e)
    ensures WaitsBooked(Apply(db, e), t) <==> if t == e.ticketId then LeavesBooked(db, e) else WaitsBooked(db, t)
  {
    TicketsAfter(db, e);
    if t == e.ticketId {
      VisitAfterIsRead(db, e);
      hide AppointmentRows, LegalVisit, LegalAppointmentRows, LegalOutbox, LegalClosing, LegalAdding, LegalEvent, Apply, VisitAfter, LatestStatus, LatestLog;
    } else {
      OtherVisitsUntouched(db, e, t);
    }
  }

  lemma CommittedCases(calls: seq<Call>, call: Call, t: Id)
    requires Plan(Run(calls), call.dir, call.command).Ok? && !Lingers(Run(calls), t)
    ensures Lingers(Step(Run(calls), call), t) <==> ApprovesRework(call.command, t) && HasLive(Run(calls), t)
  {
    hide Run, Inv, LeavesBooked, Legal, Plan, Apply, Schema.Flush, LatestStatus, HasLive;
    var db, e := Run(calls), Plan(Run(calls), call.dir, call.command).value.effect;
    EveryRunKeepsInv(calls);
    LiveIsLatest(db, t);
    SchemaGuard.CommitsUnlessWorkerBusy(calls, call);
    if call.command.RecordEvent? && FindExternal(db.events, call.command.record.externalKey).Some? {
      TerminalTickets.ReplayedEventWritesNothing(db, call.dir, call.command.record);
    } else {
      StoreLegality.CommandLegal(db, call.dir, call.command);
      CommandReleases(db, call.dir, call.command);
      LegalEffectKeepsInv(db, e);
      RowsOf(db);
      WaitsAfter(db, e, t);
      LingersIsRead(db, t);
      LingersIsRead(Apply(db, e), t);
    }
  }

  lemma RowsOf(db: Db)
    requires Inv(db)
    ensures AppointmentRows(db)
  {
  }

  /** A ticket comes to wait for rework with a live booking exactly when an operator approves
      rework while the booking is still live; no other command, and no other branch of recovery,
      ever brings this about. */
  lemma LingersOnlyByApprovedRework(calls: seq<Call>, call: Call, t: Id)
    requires !Lingers(Run(calls), t)
    ensures Lingers(Run(calls + [call]), t) <==>
      && ApprovesRework(call.command, t) && HasLive(Run(calls), t)
      && Plan(Run(calls), call.dir, call.command).Ok?
  {
    assert (calls + [call])[..|calls|] == calls;
    assert Run(calls + [call]) == Step(Run(calls), call);
    hide Run, Lingers, Plan, Apply, Schema.Flush;
    if Plan(Run(calls), call.dir, call.command).Ok? {
      CommittedCases(calls, call, t);
    }
  }
}
