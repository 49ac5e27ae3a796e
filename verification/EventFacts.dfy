/** Recording a worker event, read from its command: when it is accepted, what it does to ticket,
    visit and log, and when it counts as already recorded (application/worker_event_service.py). */
module EventFacts {
  import opened Domain
  import opened Commands
  import opened WorkerEvents
  import opened RepairStore
  import opened PermissionFacts
  import opened UseCaseFacts
  import RuleFacts

  // ----- The log of a visit -----

  /** A visit's log is the event types recorded for it, in the order they came. */
  lemma LogsGrowByOne(events: seq<WorkerEvent>, v: WorkerEvent, a: Id)
    ensures Log([], a) == []
    ensures Log(events + [v], a) == Log(events, a) + (if v.appointmentId == a then [v.event] else [])
  {
    assert (events + [v])[..|events|] == events;
  }

  // ----- What the rules are asked -----

  /** The rules see the ticket, the visit and its log as stored, and the event as reported. */
  function Asked(db: Db, c: EventCommand): EventRequest
    requires c.appointmentId < |db.appointments| && c.ticketId < |db.tickets|
  {
    var ticket, visit := db.tickets[c.ticketId], db.appointments[c.appointmentId];
    var failure := match c.failureReason
      case None => None
      case Some(reason) => Some(FailureDetails(reason, if c.statement.None? then "" else c.statement.value, c.evidence));
    EventRequest(c.event, c.meta.actorType, Some(c.appointmentId), ticket.status, visit.status, Some(visit.purpose),
                 ticket.reworkCount, c.ticketVersion, ticket.version, c.appointmentVersion, visit.version,
                 Log(db.events, c.appointmentId), false, c.cancellation, c.noShow, failure, c.evidence)
  }

  lemma RequestsAreAsked(db: Db, c: EventCommand)
    requires c.appointmentId < |db.appointments| && c.ticketId < |db.tickets|
    ensures EventRequestFor(db, c) == Asked(db, c)
  {
    hide Log;
  }

  /** What an accepted event says of its own request. */
  predicate Grounds(db: Db, c: EventCommand)
    requires c.appointmentId < |db.appointments| && c.ticketId < |db.tickets|
  {
    var ticket, visit := db.tickets[c.ticketId], db.appointments[c.appointmentId];
    && c.ticketVersion == ticket.version && c.appointmentVersion == visit.version && ticket.reworkCount >= 0
    && visit.status == Booked
    && ticket.status == (if c.event in {Completed, FailedToComplete} then InProgress else Scheduled)
    && (c.event in {Rejected, EvCancelled} ==> visit.purpose == if ticket.reworkCount > 0 then Rework else InitialRepair)
    && (c.event == Rejected ==> c.cancellation == Some(WorkerRejected))
    && (c.event == EvCancelled ==> c.cancellation == Some(WorkerCancelled))
    && (c.event == EvNoShow ==> c.noShow.Some? && c.evidence != [])
    && (c.event == FailedToComplete ==>
          && c.failureReason.Some? && c.evidence != [] && c.statement.Some? && c.statement.value != "")
    && c.meta.actorType in (if c.event == EvNoShow then {Operator, System} else {Worker, Operator})
    && RuleFacts.LogObjection(c.event, Log(db.events, c.appointmentId)).None?
  }

  lemma RulesAcceptOnGrounds(db: Db, c: EventCommand)
    requires c.appointmentId < |db.appointments| && c.ticketId < |db.tickets|
    ensures ValidateWorkerEvent(Asked(db, c)).Ok? <==> Grounds(db, c)
  {
    RuleFacts.EventsOneByOne(Asked(db, c));
    hide ValidateWorkerEvent, Log, RuleFacts.LogObjection;
  }

  // ----- What the closing needs -----

  function ReasonText(c: EventCommand): string {
    if c.reasonText.Some? then c.reasonText.value else ""
  }

  /** An event that ends a visit says why when nothing was repaired, and gives no other reason when
      something was. */
  predicate ClosingIsReasoned(c: EventCommand) {
    match c.event
    case Completed => c.cancellation == None && c.noShow == None
    case FailedToComplete => c.cancellation == None && c.noShow == None
    case Rejected => ReasonText(c) != "" && c.evidence != []
    case EvCancelled => ReasonText(c) != "" && c.evidence != []
    case EvNoShow => c.cancellation == None && ReasonText(c) != "" && c.evidence != []
    case _ => true
  }

  /** The outcome a closed visit carries: who let it down, and why. */
  function OutcomeOf(c: EventCommand, ticket: Ticket): Option<Outcome> {
    var (text, time) := (ReasonText(c), c.meta.occurredAt);
    match c.event
    case Rejected => Some(Outcome(Worker, c.workerId, CancelCode(WorkerRejected), text, c.evidence, time))
    case EvCancelled => Some(Outcome(Worker, c.workerId, CancelCode(WorkerCancelled), text, c.evidence, time))
    case EvNoShow =>
      if c.noShow == Some(WorkerNoShow) then
        Some(Outcome(Worker, c.workerId, NoShowCode(WorkerNoShow), text, c.evidence, time))
      else Some(Outcome(Resident, ticket.residentId, NoShowCode(ResidentNoShow), text, c.evidence, time))
    case _ => None
  }

  function ClosedStatus(event: EventType): AppointmentStatus {
    match event
    case Rejected => ApptCancelled
    case EvCancelled => ApptCancelled
    case EvNoShow => NoShow
    case _ => Fulfilled
  }

  /** On its grounds, an event that ends the visit closes it exactly when it is reasoned. */
  lemma ClosesWhenReasoned(db: Db, c: EventCommand)
    requires c.appointmentId < |db.appointments| && c.ticketId < |db.tickets| && Grounds(db, c)
    requires c.event !in {Accepted, Departed, Arrived, Started}
    ensures
      var ticket, visit := db.tickets[c.ticketId], db.appointments[c.appointmentId];
      var closed := CloseByEvent(c, ticket, visit, ClosedStatus(c.event));
      && (closed.Ok? <==> ClosingIsReasoned(c))
      && (closed.Ok? ==>
            closed.value == visit.(status := ClosedStatus(c.event), version := visit.version + 1,
                                   outcome := if OutcomeOf(c, ticket).Some? then OutcomeOf(c, ticket) else visit.outcome))
  {
    hide Log, RuleFacts.LogObjection;
    if c.noShow.Some? {
      match c.noShow.value
      case WorkerNoShow => assert c.noShow == Some(WorkerNoShow);
      case ResidentNoShow => assert c.noShow == Some(ResidentNoShow);
    }
  }

  // ----- Acceptance -----

  /** Exactly when an event that is new to the store is accepted. */
  lemma EventAcceptedExactly(db: Db, dir: Directory, c: EventCommand)
    requires NewToTheStore(db, c)
    ensures PlanEvent(db, dir, c).Ok? <==>
      MayRecord(dir, db.appointments[c.appointmentId], c) && Grounds(db, c) && ClosingIsReasoned(c)
  {
    WhoMayRecord(db, dir, c);
    RequestsAreAsked(db, c);
    RulesAcceptOnGrounds(db, c);
    var found := FindExternal(db.events, c.externalKey);
    assert found.None?;
    if Grounds(db, c) {
      Decided(db, c);
      if c.event !in {Accepted, Departed, Arrived, Started} {
        ClosesWhenReasoned(db, c);
      }
    }
    hide Log, Grounds, MayRecord, CloseByEvent, ValidateWorkerEvent, EventRequestFor, Asked, FindExternal;
  }

  /** The first thing that stands against a new event: its author, the rules, the closing of the visit. */
  lemma EventRefusedFor(db: Db, dir: Directory, c: EventCommand)
    requires NewToTheStore(db, c) && PlanEvent(db, dir, c).Err?
    ensures
      var error := PlanEvent(db, dir, c).error;
      if !MayRecord(dir, db.appointments[c.appointmentId], c) then error == AuthorizationFailed
      else if !Grounds(db, c) then ValidateWorkerEvent(Asked(db, c)) == Err(error)
      else
        error == match c.event
          case Completed => OutcomeNotAllowed
          case FailedToComplete => OutcomeNotAllowed
          case EvNoShow => if ReasonText(c) == "" then CompleteOutcomeRequired else OutcomeReasonRequired
          case _ => CompleteOutcomeRequired
  {
    EventAcceptedExactly(db, dir, c);
    WhoMayRecord(db, dir, c);
    RequestsAreAsked(db, c);
    RulesAcceptOnGrounds(db, c);
    assert FindExternal(db.events, c.externalKey).None?;
    if Grounds(db, c) {
      Decided(db, c);
      if c.event !in {Accepted, Departed, Arrived, Started} {
        ClosesWhenReasoned(db, c);
        UnreasonedCloses(db, c);
      }
    }
    hide Log, Grounds, MayRecord, CloseByEvent, ValidateWorkerEvent, EventRequestFor, Asked, FindExternal, ReasonText;
  }

  /** Why a closing that is not reasoned is refused. */
  lemma UnreasonedCloses(db: Db, c: EventCommand)
    requires c.appointmentId < |db.appointments| && c.ticketId < |db.tickets| && Grounds(db, c)
    requires c.event !in {Accepted, Departed, Arrived, Started}
    ensures !ClosingIsReasoned(c) ==>
      CloseByEvent(c, db.tickets[c.ticketId], db.appointments[c.appointmentId], ClosedStatus(c.event)) == Err(
        match c.event
        case Completed => OutcomeNotAllowed
        case FailedToComplete => OutcomeNotAllowed
        case EvNoShow => if ReasonText(c) == "" then CompleteOutcomeRequired else OutcomeReasonRequired
        case _ => CompleteOutcomeRequired)
  {
    hide Log, RuleFacts.LogObjection;
    if c.noShow.Some? {
      match c.noShow.value
      case WorkerNoShow => assert c.noShow == Some(WorkerNoShow);
      case ResidentNoShow => assert c.noShow == Some(ResidentNoShow);
    }
  }

  /** Where the ticket goes. */
  function NextStatus(db: Db, c: EventCommand): TicketStatus
    requires c.appointmentId < |db.appointments|
  {
    var reopened := if db.appointments[c.appointmentId].purpose == Rework then ReworkRequired else Open;
    match c.event
    case Started => InProgress
    case Completed => PendingAcceptance
    case Rejected => reopened
    case EvCancelled => reopened
    case FailedToComplete => if c.failureReason in {Some(RepairIncomplete), Some(FollowUpRequired)} then ReworkRequired else Escalated
    case EvNoShow => Escalated
    case _ => Scheduled
  }

  lemma Decided(db: Db, c: EventCommand)
    requires c.appointmentId < |db.appointments| && c.ticketId < |db.tickets| && Grounds(db, c)
    ensures
      var decision, to := ValidateWorkerEvent(Asked(db, c)), NextStatus(db, c);
      decision == Ok(EventResult(
        to, if c.event in {Accepted, Departed, Arrived, Started} then Booked else ClosedStatus(c.event),
        to == Escalated, false,
        db.tickets[c.ticketId].reworkCount + if c.event == FailedToComplete && to == ReworkRequired then 1 else 0))
  {
    RuleFacts.EventsOneByOne(Asked(db, c));
    hide ValidateWorkerEvent, Log, RuleFacts.LogObjection;
  }

  /** The action a ticket's history keeps of an event. */
  function EventActionName(db: Db, c: EventCommand): TicketAction
    requires c.appointmentId < |db.appointments|
  {
    var rework := db.appointments[c.appointmentId].purpose == Rework;
    match c.event
    case Started => StartWork
    case Completed => CompleteWork
    case Rejected => if rework then WorkerRejectedRework else WorkerRejectedInitial
    case EvCancelled => if rework then WorkerCancelledRework else WorkerCancelledInitial
    case FailedToComplete => if NextStatus(db, c) == ReworkRequired then FailWorkRework else FailWorkEscalate
    case _ => ReviewedNoShow
  }

  /** Everything an accepted event writes: its own row, and, when they change, ticket and visit with
      their history rows and the announcement. */
  function Recording(db: Db, c: EventCommand): Planned
    requires c.ticketId < |db.tickets| && c.appointmentId < |db.appointments|
  {
    var ticket, visit, to := db.tickets[c.ticketId], db.appointments[c.appointmentId], NextStatus(db, c);
    var moves, ends := to != Scheduled, c.event !in {Accepted, Departed, Arrived, Started};
    var number := |Log(db.events, c.appointmentId)| + 1;
    var moved := ticket.(
      status := to, version := ticket.version + 1, escalatedFrom := if to == Escalated then Some(ticket.status) else None,
      reworkCount := ticket.reworkCount + if c.event == FailedToComplete && to == ReworkRequired then 1 else 0);
    var closed := visit.(status := ClosedStatus(c.event), version := visit.version + 1,
                         outcome := if OutcomeOf(c, ticket).Some? then OutcomeOf(c, ticket) else visit.outcome);
    var action := Acted(EventActionName(db, c));
    Planned(
      Effect(c.ticketId, if moves then Some(moved) else None, if ends then Some((c.appointmentId, closed)) else None, None,
             Some(WorkerEvent(c.appointmentId, c.workerId, number, c.event, c.meta.actorType, c.meta.actorId,
                              c.externalKey, RecordEvent(c).Digest(), c.meta.occurredAt)),
             if moves then [TicketLine(c.ticketId, ticket, moved, action, c.meta)] else [],
             if ends then [ClosingLine(c.appointmentId, ClosedStatus(c.event), visit.version, c.meta)] else [],
             if moves then [StatusLine(c.ticketId, ticket, moved, action, RecordEvent(c))] else []),
      OperationResult(WorkerEventRecorded, WorkerEventResource, |db.events|, number, false,
                      EventData(to, if moves then ticket.version + 1 else ticket.version,
                                if ends then ClosedStatus(c.event) else Booked,
                                if ends then visit.version + 1 else visit.version)))
  }

  lemma GroundedEventWrites(db: Db, c: EventCommand)
    requires c.appointmentId < |db.appointments| && c.ticketId < |db.tickets|
    requires Grounds(db, c) && ClosingIsReasoned(c) && ValidateWorkerEvent(Asked(db, c)).Ok?
    ensures EventWrites(db, c, ValidateWorkerEvent(Asked(db, c)).value) == Ok(Recording(db, c))
  {
    Decided(db, c);
    if c.event !in {Accepted, Departed, Arrived, Started} {
      ClosesWhenReasoned(db, c);
    }
    hide Log, CloseByEvent, ValidateWorkerEvent, Asked, ClosingIsReasoned, RuleFacts.LogObjection;
  }

  lemma EventRowsWritten(db: Db, dir: Directory, c: EventCommand)
    requires NewToTheStore(db, c) && PlanEvent(db, dir, c).Ok?
    ensures PlanEvent(db, dir, c) == Ok(Recording(db, c))
  {
    EventAcceptedExactly(db, dir, c);
    RequestsAreAsked(db, c);
    RulesAcceptOnGrounds(db, c);
    GroundedEventWrites(db, c);
    assert FindExternal(db.events, c.externalKey).None?;
    hide Log, Grounds, MayRecord, EventWrites, ValidateWorkerEvent, EventRequestFor, Asked, FindExternal, ClosingIsReasoned, Recording;
  }

  // ----- Events already recorded -----

  /** An event whose external key is stored writes nothing: it is answered with the stored event when it
      is the same request, and refused when it is not. */
  lemma RecordedEventsAreRecognised(db: Db, dir: Directory, c: EventCommand, k: nat)
    requires c.appointmentId < |db.appointments| && db.appointments[c.appointmentId].ticketId == c.ticketId
    requires k < |db.events| && db.events[k].externalKey == c.externalKey
    requires forall j :: 0 <= j < |db.events| && j != k ==> db.events[j].externalKey != c.externalKey
    ensures PlanEvent(db, dir, c) ==
      if db.events[k].requestHash != RecordEvent(c).Digest() then Err(WorkerEventPayloadConflict)
      else Ok(Planned(Effect(0, None, None, None, None, [], [], []),
                      OperationResult(WorkerEventReplayed, WorkerEventResource, k, db.events[k].sequenceNo, true, NoData)))
  {
    assert FindExternal(db.events, c.externalKey) == Some(k);
    hide Log, FindExternal;
  }

  // ----- How an effect lands in the tables -----

  /** An effect touches one ticket row and one appointment row, appends the others, and changes nothing
      else. */
  lemma EffectsLand(db: Db, e: Effect)
    requires e.ticketId <= |db.tickets| && (e.closing.Some? ==> e.closing.value.0 < |db.appointments|)
    ensures
      var after := Apply(db, e);
      && |after.tickets| == |db.tickets| + (if e.ticket.Some? && e.ticketId == |db.tickets| then 1 else 0)
      && (forall t :: 0 <= t < |after.tickets| ==>
            after.tickets[t] == if e.ticket.Some? && t == e.ticketId then e.ticket.value else db.tickets[t])
      && |after.appointments| == |db.appointments| + (if e.adding.Some? then 1 else 0)
      && (forall a :: 0 <= a < |after.appointments| ==>
            after.appointments[a] ==
              if a == |db.appointments| then e.adding.value
              else if e.closing.Some? && a == e.closing.value.0 then e.closing.value.1
              else db.appointments[a])
      && after.events == db.events + (if e.event.Some? then [e.event.value] else [])
      && after.ticketHistory == db.ticketHistory + e.ticketRows
      && after.appointmentHistory == db.appointmentHistory + e.appointmentRows
      && after.outbox == db.outbox + e.outbox
  {
  }

  /** Each kind of command is planned by its own use case. */
  lemma CommandsArePlannedByUseCase(db: Db, dir: Directory, command: Command)
    ensures Plan(db, dir, command) ==
      if command.CreateTicket? then PlanCreate(db, dir, command.create)
      else if command.Book? then PlanBook(db, dir, command.book)
      else if command.Move? then PlanMove(db, dir, command.move)
      else if command.RecordEvent? then PlanEvent(db, dir, command.record)
      else if command.Review? then PlanReview(db, dir, command.review)
      else if command.EscalateTicket? then PlanEscalate(db, dir, command.escalate)
      else PlanRecover(db, dir, command.recover)
  {
    hide PlanCreate, PlanBook, PlanMove, PlanEvent, PlanReview, PlanEscalate, PlanRecover;
  }
}
