/** Who may do what, for each of the seven use cases, and what that means for every run. */
module PermissionFacts {
  import opened Domain
  import opened Commands
  import opened Appointments
  import opened RepairStore
  import opened StoreInvariants
  import opened RepairRuns
  import opened TerminalTickets
  import Schema
  import StoreLegality
  import StorePreservation
  import Tickets
  import WorkerEvents

  /** An active operator of the directory. */
  predicate ActiveOperator(dir: Directory, actor: Id) {
    actor in dir.users && dir.users[actor].role == Operator && dir.users[actor].active
  }

  /** The resident of the ticket, who still occupies its property. */
  predicate ItsResident(dir: Directory, ticket: Ticket, actor: Id) {
    actor == ticket.residentId && (ticket.residentId, ticket.propertyId) in dir.occupancies
  }

  // ----- Booking and rescheduling -----

  predicate MayBook(dir: Directory, ticket: Ticket, m: Metadata) {
    || (m.actorType == Resident && ItsResident(dir, ticket, m.actorId))
    || (m.actorType == Operator && ActiveOperator(dir, m.actorId))
  }

  /** Only the ticket's resident, while occupying the property, and active operators book or move a
      visit; everyone else is turned away. */
  lemma WhoMayBook(db: Db, dir: Directory, c: BookCommand)
    requires c.ticketId < |db.tickets| && c.startsAt >= c.meta.occurredAt
    ensures !MayBook(dir, db.tickets[c.ticketId], c.meta) ==> PlanBook(db, dir, c) == Err(AuthorizationFailed)
    ensures MayBook(dir, db.tickets[c.ticketId], c.meta) ==> PlanBook(db, dir, c) != Err(AuthorizationFailed)
  {
    hide Latest;
  }

  lemma WhoMayMove(db: Db, dir: Directory, c: RescheduleCommand)
    requires c.ticketId < |db.tickets| && c.startsAt >= c.meta.occurredAt
    requires c.appointmentId < |db.appointments| && db.appointments[c.appointmentId].ticketId == c.ticketId
    ensures !MayBook(dir, db.tickets[c.ticketId], c.meta) ==> PlanMove(db, dir, c) == Err(AuthorizationFailed)
    ensures MayBook(dir, db.tickets[c.ticketId], c.meta) ==> PlanMove(db, dir, c) != Err(AuthorizationFailed)
  {
    hide Tickets.Table;
  }

  // ----- Worker events -----

  /** The worker of the visit itself, an active operator, or the system, and always about that worker. */
  predicate MayRecord(dir: Directory, visit: Appointment, c: EventCommand) {
    && c.workerId == visit.workerId
    && match c.meta.actorType
       case Worker => c.meta.actorId == visit.workerId
       case Operator => ActiveOperator(dir, c.meta.actorId)
       case System => true
       case Resident => false
  }

  predicate NewToTheStore(db: Db, c: EventCommand) {
    && c.ticketId < |db.tickets| && c.appointmentId < |db.appointments|
    && db.appointments[c.appointmentId].ticketId == c.ticketId
    && forall k :: 0 <= k < |db.events| ==> db.events[k].externalKey != c.externalKey
  }

  /** A new event is planned only for those who may record it; everyone else is turned away. */
  lemma WhoMayRecord(db: Db, dir: Directory, c: EventCommand)
    requires NewToTheStore(db, c)
    ensures !MayRecord(dir, db.appointments[c.appointmentId], c) ==> PlanEvent(db, dir, c) == Err(AuthorizationFailed)
    ensures MayRecord(dir, db.appointments[c.appointmentId], c) ==> PlanEvent(db, dir, c) != Err(AuthorizationFailed)
  {
    hide Log, Latest;
    if FindExternal(db.events, c.externalKey).Some? {
      assert false;
    }
  }

  // ----- The ticket's own use cases -----

  predicate MayCreate(dir: Directory, c: CreateCommand) {
    && (c.residentId, c.propertyId) in dir.occupancies
    && ((c.meta.actorType == Resident && c.meta.actorId == c.residentId)
        || (c.meta.actorType == Operator && ActiveOperator(dir, c.meta.actorId)))
  }

  /** A ticket is created for an occupant, by that resident or by an active operator; a resident who is
      not that occupant is refused as one. An operator is not held to the occupancy, nor to being one:
      the creation rule looks at the authorisation of residents alone. */
  lemma WhoMayCreate(db: Db, dir: Directory, c: CreateCommand)
    ensures c.meta.actorType == Resident && !MayCreate(dir, c) ==> PlanCreate(db, dir, c) == Err(ResidentNotAuthorized)
    ensures c.meta.actorType in {Worker, System} ==> PlanCreate(db, dir, c) == Err(ActorNotAllowed)
    ensures c.meta.actorType == Operator || MayCreate(dir, c) ==>
      PlanCreate(db, dir, c) !in {Err(ResidentNotAuthorized), Err(ActorNotAllowed), Err(AuthorizationFailed)}
  {
    hide HasExactOpenMatch, Strip;
  }

  lemma WhoMayReview(db: Db, dir: Directory, c: ReviewCommand)
    requires c.ticketId < |db.tickets|
    ensures
      var may := c.meta.actorType == Resident && ItsResident(dir, db.tickets[c.ticketId], c.meta.actorId);
      && (!may ==> PlanReview(db, dir, c) == Err(AuthorizationFailed))
      && (may ==> PlanReview(db, dir, c) != Err(AuthorizationFailed))
  {
    hide Latest, Log, Tickets.Table;
  }

  lemma WhoMayEscalate(db: Db, dir: Directory, c: EscalateCommand)
    requires c.ticketId < |db.tickets|
    ensures
      var may := c.meta.actorType == System || (c.meta.actorType == Operator && ActiveOperator(dir, c.meta.actorId));
      && (!may ==> PlanEscalate(db, dir, c) == Err(AuthorizationFailed))
      && (may ==> PlanEscalate(db, dir, c) != Err(AuthorizationFailed))
  {
    hide Tickets.Table;
  }

  /** Only active operators recover, and none of them in place of the resident. */
  lemma WhoMayRecover(db: Db, dir: Directory, c: RecoverCommand)
    requires c.ticketId < |db.tickets|
    ensures
      var may := c.meta.actorType == Operator && ActiveOperator(dir, c.meta.actorId) && c.disposition != ApplyResidentAcceptance;
      && (!may ==> PlanRecover(db, dir, c) == Err(AuthorizationFailed))
      && (may ==> PlanRecover(db, dir, c) != Err(AuthorizationFailed))
  {
    hide Latest, Log;
  }

  // ----- Every run -----

  /** Each event names the worker of its visit, and one recorded by a worker was recorded by that one. */
  predicate RecordedByRights(v: WorkerEvent, visit: Appointment) {
    && v.workerId == visit.workerId && v.actorType != Resident
    && (v.actorType == Worker ==> v.actorId == visit.workerId)
    && (v.event == EvNoShow ==> v.actorType in {Operator, System})
    && (v.event != EvNoShow ==> v.actorType in {Worker, Operator})
  }

  ghost predicate EventsByRights(db: Db) {
    forall k :: 0 <= k < |db.events| ==>
      && db.events[k].appointmentId < |db.appointments|
      && RecordedByRights(db.events[k], db.appointments[db.events[k].appointmentId])
  }

  /** The event a command adds is new, and recorded by rights. */
  lemma AddedEventByRights(db: Db, dir: Directory, command: Command)
    requires Plan(db, dir, command).Ok?
    ensures var v := Plan(db, dir, command).value.effect.event;
      v.Some? ==> v.value.appointmentId < |db.appointments| && RecordedByRights(v.value, db.appointments[v.value.appointmentId])
  {
    hide PlanCreate, PlanBook, PlanMove, PlanEvent, PlanReview, PlanEscalate, PlanRecover;
    match command
    case RecordEvent(c) => RecordedEventByRights(db, dir, c);
    case CreateTicket(c) => CreationAddsNoEvent(db, dir, c);
    case Book(c) => BookingAddsNoEvent(db, dir, c);
    case Move(c) => MoveAddsNoEvent(db, dir, c);
    case Review(c) => ReviewAddsNoEvent(db, dir, c);
    case EscalateTicket(c) => EscalationAddsNoEvent(db, dir, c);
    case Recover(c) => RecoveryAddsNoEvent(db, dir, c);
  }

  lemma RecordedEventByRights(db: Db, dir: Directory, c: EventCommand)
    requires PlanEvent(db, dir, c).Ok?
    ensures var v := PlanEvent(db, dir, c).value.effect.event;
      v.Some? ==> v.value.appointmentId < |db.appointments| && RecordedByRights(v.value, db.appointments[v.value.appointmentId])
  {
    hide Log, Latest, CloseByEvent, WorkerEvents.Effects, WorkerEvents.ValidateSequence;
  }

  lemma CreationAddsNoEvent(db: Db, dir: Directory, c: CreateCommand)
    requires PlanCreate(db, dir, c).Ok?
    ensures PlanCreate(db, dir, c).value.effect.event.None?
  {
    hide HasExactOpenMatch, Strip;
  }

  lemma BookingAddsNoEvent(db: Db, dir: Directory, c: BookCommand)
    requires PlanBook(db, dir, c).Ok?
    ensures PlanBook(db, dir, c).value.effect.event.None?
  {
    hide Latest;
  }

  lemma MoveAddsNoEvent(db: Db, dir: Directory, c: RescheduleCommand)
    requires PlanMove(db, dir, c).Ok?
    ensures PlanMove(db, dir, c).value.effect.event.None?
  {
    hide Tickets.TransitionTicket;
  }

  lemma ReviewAddsNoEvent(db: Db, dir: Directory, c: ReviewCommand)
    requires PlanReview(db, dir, c).Ok?
    ensures PlanReview(db, dir, c).value.effect.event.None?
  {
    hide Latest, Log, Tickets.TransitionTicket;
  }

  lemma EscalationAddsNoEvent(db: Db, dir: Directory, c: EscalateCommand)
    requires PlanEscalate(db, dir, c).Ok?
    ensures PlanEscalate(db, dir, c).value.effect.event.None?
  {
    hide Tickets.TransitionTicket;
  }

  lemma RecoveryAddsNoEvent(db: Db, dir: Directory, c: RecoverCommand)
    requires PlanRecover(db, dir, c).Ok?
    ensures PlanRecover(db, dir, c).value.effect.event.None?
  {
    hide Latest, Log, Tickets.RecoverEscalated;
  }

  lemma EffectKeepsRights(db: Db, e: Effect)
    requires EventsByRights(db) && StorePreservation.LegalClosing(db, e)
    requires e.event.Some? ==>
      e.event.value.appointmentId < |db.appointments| && RecordedByRights(e.event.value, db.appointments[e.event.value.appointmentId])
    ensures EventsByRights(Apply(db, e))
  {
    StorePreservation.AppointmentsAfter(db, e);
  }

  lemma StepKeepsRights(db: Db, call: Call)
    requires Inv(db) && EventsByRights(db)
    ensures EventsByRights(Step(db, call))
  {
    hide Schema.Flush, Plan, Apply, Inv, EventsByRights, RecordedByRights, StorePreservation.LegalClosing;
    if Plan(db, call.dir, call.command).Ok? {
      var e := Plan(db, call.dir, call.command).value.effect;
      if call.command.RecordEvent? && FindExternal(db.events, call.command.record.externalKey).Some? {
        ReplayedEventWritesNothing(db, call.dir, call.command.record);
      } else {
        StoreLegality.CommandLegal(db, call.dir, call.command);
        AddedEventByRights(db, call.dir, call.command);
        EffectKeepsRights(db, e);
      }
    }
  }

  /** In every run each stored event names its visit's worker; it was recorded by that very worker, an
      operator or the system, and a no-show never by the worker. */
  lemma {:induction false} EveryEventByRights(calls: seq<Call>)
    ensures EventsByRights(Run(calls))
  {
    hide Inv, Step, RecordedByRights;
    if calls != [] {
      hide EventsByRights;
      EveryEventByRights(calls[..|calls| - 1]);
      EveryRunKeepsInv(calls[..|calls| - 1]);
      StepKeepsRights(Run(calls[..|calls| - 1]), calls[|calls| - 1]);
    }
  }

  // ----- Residents and their own tickets -----

  /** A history row that a resident wrote is of that resident's own ticket. */
  ghost predicate RowsByRights(db: Db) {
    forall k :: 0 <= k < |db.ticketHistory| ==>
      db.ticketHistory[k].ticketId < |db.tickets|
      && (db.ticketHistory[k].actorType == Resident ==>
            db.ticketHistory[k].actorId == db.tickets[db.ticketHistory[k].ticketId].residentId)
  }

  ghost predicate AddedRowsByRights(db: Db, e: Effect) {
    forall k :: 0 <= k < |e.ticketRows| ==>
      && e.ticketRows[k].ticketId == e.ticketId && e.ticket.Some?
      && (e.ticketRows[k].actorType == Resident ==> e.ticketRows[k].actorId == e.ticket.value.residentId)
  }

  lemma EffectKeepsOwners(db: Db, e: Effect)
    requires RowsByRights(db) && AddedRowsByRights(db, e) && e.ticketId <= |db.tickets|
    requires StorePreservation.LegalTicket(db, e)
    requires e.ticket.Some? && e.ticketId < |db.tickets| ==> e.ticket.value.residentId == db.tickets[e.ticketId].residentId
    ensures RowsByRights(Apply(db, e))
  {
    StorePreservation.TicketsAfter(db, e);
  }

  lemma CommandRowsByRights(db: Db, dir: Directory, command: Command)
    requires TicketRows(db) && Plan(db, dir, command).Ok?
    ensures AddedRowsByRights(db, Plan(db, dir, command).value.effect)
  {
    hide PlanCreate, PlanBook, PlanMove, PlanEvent, PlanReview, PlanEscalate, PlanRecover, AddedRowsByRights;
    match command
    case CreateTicket(c) => CreationRows(db, dir, c);
    case Book(c) => BookingRows(db, dir, c);
    case Move(c) => MoveRows(db, dir, c);
    case RecordEvent(c) => EventRows(db, dir, c);
    case Review(c) => ReviewRows(db, dir, c);
    case EscalateTicket(c) => EscalationRows(db, dir, c);
    case Recover(c) => RecoveryRows(db, dir, c);
  }

  lemma CreationRows(db: Db, dir: Directory, c: CreateCommand)
    requires PlanCreate(db, dir, c).Ok?
    ensures AddedRowsByRights(db, PlanCreate(db, dir, c).value.effect)
  {
    hide HasExactOpenMatch, Strip;
  }

  lemma BookingRows(db: Db, dir: Directory, c: BookCommand)
    requires PlanBook(db, dir, c).Ok?
    ensures AddedRowsByRights(db, PlanBook(db, dir, c).value.effect)
  {
    hide Latest;
  }

  lemma MoveRows(db: Db, dir: Directory, c: RescheduleCommand)
    requires PlanMove(db, dir, c).Ok?
    ensures AddedRowsByRights(db, PlanMove(db, dir, c).value.effect)
  {
    hide Tickets.TransitionTicket;
  }

  lemma EventRows(db: Db, dir: Directory, c: EventCommand)
    requires PlanEvent(db, dir, c).Ok?
    ensures AddedRowsByRights(db, PlanEvent(db, dir, c).value.effect)
  {
    hide Log, Latest, CloseByEvent, WorkerEvents.Effects, WorkerEvents.ValidateSequence;
  }

  lemma ReviewRows(db: Db, dir: Directory, c: ReviewCommand)
    requires PlanReview(db, dir, c).Ok?
    ensures AddedRowsByRights(db, PlanReview(db, dir, c).value.effect)
  {
    hide Latest, Log, Tickets.TransitionTicket;
  }

  lemma EscalationRows(db: Db, dir: Directory, c: EscalateCommand)
    requires PlanEscalate(db, dir, c).Ok?
    ensures AddedRowsByRights(db, PlanEscalate(db, dir, c).value.effect)
  {
    hide Tickets.TransitionTicket;
  }

  lemma RecoveryRows(db: Db, dir: Directory, c: RecoverCommand)
    requires PlanRecover(db, dir, c).Ok?
    ensures AddedRowsByRights(db, PlanRecover(db, dir, c).value.effect)
  {
    hide Latest, Log, Tickets.RecoverEscalated;
  }

  lemma OwnerKept(db: Db, command: Command, e: Effect)
    requires Applied(db, command, e)
    ensures e.ticketId <= |db.tickets| && StorePreservation.LegalTicket(db, e)
    ensures e.ticket.Some? && e.ticketId < |db.tickets| ==> e.ticket.value.residentId == db.tickets[e.ticketId].residentId
  {
  }

  lemma CommandApplies(db: Db, dir: Directory, command: Command)
    requires Inv(db) && Plan(db, dir, command).Ok?
    requires command.RecordEvent? ==> FindExternal(db.events, command.record.externalKey).None?
    ensures Applied(db, command, Plan(db, dir, command).value.effect)
  {
    hide Plan, Inv, StorePreservation.Legal, WorksOnOpenTicket;
    InvParts(db);
    StoreLegality.CommandLegal(db, dir, command);
    if command.CreateTicket? {
      CreationOf(db, dir, command.create);
    } else {
      CommandWorks(db, dir, command);
    }
  }

  lemma StepKeepsOwners(db: Db, call: Call)
    requires Inv(db) && RowsByRights(db)
    ensures RowsByRights(Step(db, call))
  {
    hide Schema.Flush, Plan, Apply, Inv, RowsByRights, AddedRowsByRights, StorePreservation.LegalTicket, Applied;
    if Plan(db, call.dir, call.command).Ok? {
      var e := Plan(db, call.dir, call.command).value.effect;
      if call.command.RecordEvent? && FindExternal(db.events, call.command.record.externalKey).Some? {
        ReplayedEventWritesNothing(db, call.dir, call.command.record);
      } else {
        InvParts(db);
        CommandApplies(db, call.dir, call.command);
        OwnerKept(db, call.command, e);
        CommandRowsByRights(db, call.dir, call.command);
        EffectKeepsOwners(db, e);
      }
    }
  }

  /** In every run, whatever a resident changed was that resident's own ticket. */
  lemma {:induction false} ResidentsChangeTheirOwnTickets(calls: seq<Call>)
    ensures RowsByRights(Run(calls))
  {
    hide Inv, Step;
    if calls != [] {
      hide RowsByRights;
      ResidentsChangeTheirOwnTickets(calls[..|calls| - 1]);
      EveryRunKeepsInv(calls[..|calls| - 1]);
      StepKeepsOwners(Run(calls[..|calls| - 1]), calls[|calls| - 1]);
    }
  }
}
