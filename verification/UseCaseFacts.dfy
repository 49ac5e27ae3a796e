/** The seven use cases, one at a time: exactly when each is accepted, and every row it then writes
    (application/ticket_service.py, application/appointment_service.py,
    application/worker_event_service.py). */
module UseCaseFacts {
  import opened Domain
  import opened Commands
  import opened Appointments
  import opened RepairStore
  import opened PermissionFacts
  import opened DigestFacts
  import RuleFacts
  import Tickets

  // ----- What the rows of a write are made of -----

  /** The history row of a ticket going from `before` to `after`. */
  function TicketLine(id: Id, before: Ticket, after: Ticket, action: HistoryAction, m: Metadata): TicketRow {
    TicketRow(id, Some(before.status), after.status, action, m.actorType, m.actorId, before.version, before.version + 1)
  }

  function NewVisitLine(id: Id, m: Metadata): AppointmentRow {
    AppointmentRow(id, None, Booked, m.actorType, m.actorId, 0, 1)
  }

  function ClosingLine(id: Id, to: AppointmentStatus, version: int, m: Metadata): AppointmentRow {
    AppointmentRow(id, Some(Booked), to, m.actorType, m.actorId, version, version + 1)
  }

  /** An outbox row names its command's operation, trace, run, thread, actor and time. */
  function Announced(kind: DomainEventType, id: Id, version: int, command: Command, payload: Payload): DomainEvent {
    var m := MetadataOf(command);
    DomainEvent(kind, id, version, command.OperationId(), m.traceId, m.runId, m.threadId, m.actorType, m.actorId,
                m.occurredAt, payload)
  }

  function StatusLine(id: Id, before: Ticket, after: Ticket, action: HistoryAction, command: Command): DomainEvent {
    Announced(TicketStatusChanged, id, before.version + 1, command, ChangedPayload(before.status, after.status, action))
  }

  // ----- Creating a ticket -----

  /** An open ticket of the same resident, property and category at the same place. */
  predicate OpenTwin(tickets: seq<Ticket>, c: CreateCommand, place: string) {
    exists i :: 0 <= i < |tickets| && tickets[i].status != Cancelled && tickets[i].status != Closed
      && tickets[i].residentId == c.residentId && tickets[i].propertyId == c.propertyId
      && tickets[i].category == c.category && SameButCase(tickets[i].location, place)
  }

  /** The same text, read without the case of the Latin letters. */
  predicate SameButCase(a: string, b: string) {
    |a| == |b| && forall i :: 0 <= i < |a| ==> SameLetter(a[i], b[i])
  }

  predicate SameLetter(a: char, b: char) {
    || a == b
    || ('A' <= a <= 'Z' && b as int == a as int + 32)
    || ('A' <= b <= 'Z' && a as int == b as int + 32)
  }

  lemma LowerIgnoresCase(a: string, b: string)
    ensures Lower(a) == Lower(b) <==> SameButCase(a, b)
  {
    assert |Lower(a)| == |a| && |Lower(b)| == |b|;
    if Lower(a) == Lower(b) {
      forall i | 0 <= i < |a| ensures SameLetter(a[i], b[i]) {
        assert Lower(a)[i] == Lower(b)[i];
      }
    } else if |a| == |b| {
      var i :| 0 <= i < |a| && Lower(a)[i] != Lower(b)[i];
      assert !SameLetter(a[i], b[i]);
    }
  }

  /** Blanks around a text: `s` is `t` between blanks, and `t` neither starts nor ends with one. */
  ghost predicate Stripped(s: string, t: string) {
    && (t != "" ==> t[0] !in {' ', '\t', '\n', '\r'} && t[|t| - 1] !in {' ', '\t', '\n', '\r'})
    && exists i, j :: Blank(s, 0, i) && Blank(s, j, |s|) && i <= j && s[i..j] == t
  }

  predicate Blank(s: string, lo: int, hi: int) {
    0 <= lo <= hi <= |s| && forall k :: lo <= k < hi ==> s[k] in {' ', '\t', '\n', '\r'}
  }

  lemma BlankInFront(s: string, t: string)
    requires s != "" && s[0] in {' ', '\t', '\n', '\r'} && Stripped(s[1..], t)
    ensures Stripped(s, t)
  {
    var rest := s[1..];
    var i, j :| Blank(rest, 0, i) && Blank(rest, j, |rest|) && i <= j && rest[i..j] == t;
    forall k | 0 < k < i + 1 || j + 1 <= k < |s| ensures s[k] in {' ', '\t', '\n', '\r'} {
      assert rest[k - 1] == s[k];
    }
    assert Blank(s, 0, i + 1) && Blank(s, j + 1, |s|);
    assert s[i + 1..j + 1] == rest[i..j];
  }

  lemma BlankBehind(s: string, t: string)
    requires s != "" && s[|s| - 1] in {' ', '\t', '\n', '\r'} && Stripped(s[..|s| - 1], t)
    ensures Stripped(s, t)
  {
    var rest := s[..|s| - 1];
    var i, j :| Blank(rest, 0, i) && Blank(rest, j, |rest|) && i <= j && rest[i..j] == t;
    assert forall k :: 0 <= k < |rest| ==> s[k] == rest[k];
    assert Blank(s, 0, i) && Blank(s, j, |s|);
    assert s[i..j] == rest[i..j];
  }

  lemma {:induction false} StripTakesTheBlanksOff(s: string)
    ensures Stripped(s, Strip(s))
  {
    if s != "" && Space(s[0]) {
      StripTakesTheBlanksOff(s[1..]);
      hide Stripped;
      BlankInFront(s, Strip(s[1..]));
    } else if s != "" && Space(s[|s| - 1]) {
      StripTakesTheBlanksOff(s[..|s| - 1]);
      hide Stripped;
      BlankBehind(s, Strip(s[..|s| - 1]));
    } else {
      assert Blank(s, 0, 0) && Blank(s, |s|, |s|) && s[0..|s|] == s;
    }
  }

  /** A ticket is opened when its reporter may, place and description are not blank, and it has no open
      twin; an operator may ask for a twin. */
  lemma CreationAcceptedExactly(db: Db, dir: Directory, c: CreateCommand)
    ensures PlanCreate(db, dir, c).Ok? <==>
      && (c.meta.actorType == Operator || (c.meta.actorType == Resident && MayCreate(dir, c)))
      && Strip(c.location) != "" && Strip(c.description) != ""
      && (OpenTwin(db.tickets, c, Strip(c.location)) ==> c.allowDuplicate && c.meta.actorType == Operator)
  {
    hide Strip, Lower, SameButCase;
    forall i | 0 <= i < |db.tickets|
      ensures Lower(db.tickets[i].location) == Lower(Strip(c.location)) <==> SameButCase(db.tickets[i].location, Strip(c.location))
    {
      LowerIgnoresCase(db.tickets[i].location, Strip(c.location));
    }
    assert HasExactOpenMatch(db.tickets, c) <==> OpenTwin(db.tickets, c, Strip(c.location));
    hide HasExactOpenMatch, OpenTwin;
  }

  /** A creation that is not accepted is refused for its reporter, its text or its twin, in that order. */
  lemma CreationRefusedFor(db: Db, dir: Directory, c: CreateCommand)
    requires PlanCreate(db, dir, c).Err?
    ensures PlanCreate(db, dir, c).error ==
      if c.meta.actorType in {Worker, System} then ActorNotAllowed
      else if c.meta.actorType == Resident && !MayCreate(dir, c) then ResidentNotAuthorized
      else if Strip(c.location) == "" || Strip(c.description) == "" then InvalidIssue
      else DisallowedDuplicate
  {
    hide Strip, HasExactOpenMatch;
  }

  lemma CreationWrites(db: Db, dir: Directory, c: CreateCommand)
    requires PlanCreate(db, dir, c).Ok?
    ensures
      var id := |db.tickets|;
      var ticket := Ticket(c.residentId, c.propertyId, c.category, Strip(c.location), Strip(c.description), c.severity,
                           Open, None, 0, 1, None, None);
      PlanCreate(db, dir, c).value == Planned(
        Effect(id, Some(ticket), None, None, None,
               [TicketRow(id, None, Open, Creation, c.meta.actorType, c.meta.actorId, 0, 1)], [],
               [Announced(TicketCreated, id, 1, CreateTicket(c),
                          CreatedPayload(Open, c.category, c.severity, c.propertyId, c.residentId))]),
        OperationResult(TicketCreatedCode, TicketResource, id, 1, false, StatusData(Open)))
  {
    hide Strip, HasExactOpenMatch, Tickets.PlanCreation;
  }

  // ----- Booking -----

  /** The ticket's last visit is over. */
  predicate LastVisitIsOver(db: Db, ticketId: Id) {
    var last := Latest(db.appointments, ticketId);
    last.Some? && db.appointments[last.value].status != Booked
  }

  predicate ServedFor(dir: Directory, ticket: Ticket, workerId: Id, startsAt: Time, endsAt: Time) {
    dir.canService(workerId, ticket.propertyId, RequiredSkill(ticket.category), startsAt, endsAt)
  }

  /** A visit is booked for a proper interval not in the past, by one who may, with a worker who can
      serve it, at the ticket's current version, while the ticket is open or waits for rework after a
      visit that is over. */
  lemma BookingAcceptedExactly(db: Db, dir: Directory, c: BookCommand)
    ensures PlanBook(db, dir, c).Ok? <==>
      && c.meta.occurredAt <= c.startsAt < c.endsAt
      && c.ticketId < |db.tickets|
      && var ticket := db.tickets[c.ticketId];
      && MayBook(dir, ticket, c.meta) && ServedFor(dir, ticket, c.workerId, c.startsAt, c.endsAt)
      && c.ticketVersion == ticket.version
      && (ticket.status == Open
          || (ticket.status == ReworkRequired && ticket.reworkCount >= 1 && LastVisitIsOver(db, c.ticketId)))
  {
    hide RequiredSkill;
  }

  /** What the rules say of a fresh booking by one who may book. */
  lemma FreshBookings(ticket: Ticket, c: BookCommand, id: Id, prior: Option<(Id, Appointment)>)
    requires c.meta.actorType in {Resident, Operator}
    requires prior.Some? ==> prior.value.0 < id && prior.value.1.ticketId == c.ticketId
    ensures
      var rework := ticket.status == ReworkRequired;
      var draft := Draft(c.ticketId, c.workerId, if rework then Rework else InitialRepair, c.startsAt, c.endsAt, None);
      && Appointments.PlanCreation(draft, ticket.status, c.meta.actorType, c.ticketVersion, ticket.version) == (
           if c.ticketVersion != ticket.version then Fail(VersionConflict)
           else if ticket.status != Open && !rework then Fail(TicketNotBookable)
           else if c.startsAt >= c.endsAt then Fail(InvalidAppointmentInterval)
           else Pass)
      && (rework && prior.Some? ==>
            PlanRework(c.ticketId, ticket.status, ticket.reworkCount, prior.value.0, prior.value.1, id, draft) == (
              if ticket.reworkCount < 1 then Fail(ReworkCountRequired)
              else if prior.value.1.status == Booked then Fail(PriorAppointmentMustBeTerminal)
              else Pass))
  {
  }

  lemma BookersAreAuthorized(dir: Directory, ticket: Ticket, m: Metadata)
    ensures Authorize(dir, ticket, m) == if MayBook(dir, ticket, m) then Pass else Fail(AuthorizationFailed)
    ensures MayBook(dir, ticket, m) ==> m.actorType in {Resident, Operator}
  {
  }

  /** The first thing that stands against a booking. */
  lemma BookingRefusedFor(db: Db, dir: Directory, c: BookCommand)
    requires PlanBook(db, dir, c).Err?
    ensures PlanBook(db, dir, c).error ==
      if c.startsAt < c.meta.occurredAt then AppointmentTimeInPast
      else if c.ticketId >= |db.tickets| then NotFound
      else
        var ticket := db.tickets[c.ticketId];
        if !MayBook(dir, ticket, c.meta) then AuthorizationFailed
        else if !ServedFor(dir, ticket, c.workerId, c.startsAt, c.endsAt) then WorkerNotEligible
        else if c.ticketVersion != ticket.version then VersionConflict
        else if ticket.status !in {Open, ReworkRequired} then TicketNotBookable
        else if c.startsAt >= c.endsAt then InvalidAppointmentInterval
        else if Latest(db.appointments, c.ticketId).None? then NotFound
        else if ticket.reworkCount < 1 then ReworkCountRequired
        else PriorAppointmentMustBeTerminal
  {
    hide RequiredSkill, Latest, Appointments.PlanCreation, PlanRework, Authorize, MayBook, Draft;
    if c.ticketId < |db.tickets| {
      var ticket, last := db.tickets[c.ticketId], Latest(db.appointments, c.ticketId);
      BookersAreAuthorized(dir, ticket, c.meta);
      if MayBook(dir, ticket, c.meta) {
        FreshBookings(ticket, c, |db.appointments|, if last.Some? then Some((last.value, db.appointments[last.value])) else None);
      }
    }
  }

  lemma BookingWrites(db: Db, dir: Directory, c: BookCommand)
    requires PlanBook(db, dir, c).Ok?
    ensures c.ticketId < |db.tickets|
    ensures
      var id, ticket := |db.appointments|, db.tickets[c.ticketId];
      var purpose := if ticket.status == Open then InitialRepair else Rework;
      var scheduled := ticket.(status := Scheduled, version := ticket.version + 1, escalatedFrom := None);
      PlanBook(db, dir, c).value == Planned(
        Effect(c.ticketId, Some(scheduled), None,
               Some(Appointment(c.ticketId, c.workerId, purpose, c.startsAt, c.endsAt, Booked, 1, None, None)), None,
               [TicketLine(c.ticketId, ticket, scheduled, Acted(BookAppointment), c.meta)],
               [NewVisitLine(id, c.meta)],
               [StatusLine(c.ticketId, ticket, scheduled, Acted(BookAppointment), Book(c)),
                Announced(AppointmentBooked, id, 1, Book(c),
                          BookedPayload(c.ticketId, c.workerId, purpose, c.startsAt, c.endsAt))]),
        OperationResult(AppointmentBookedCode, AppointmentResource, id, 1, false,
                        BookedData(c.ticketId, ticket.version + 1)))
  {
    hide Latest, RequiredSkill;
  }

  // ----- Rescheduling -----

  /** A live visit of a scheduled ticket is moved, at both current versions. */
  lemma MoveAcceptedExactly(db: Db, dir: Directory, c: RescheduleCommand)
    ensures PlanMove(db, dir, c).Ok? <==>
      && c.meta.occurredAt <= c.startsAt < c.endsAt
      && c.ticketId < |db.tickets| && c.appointmentId < |db.appointments|
      && var ticket, visit := db.tickets[c.ticketId], db.appointments[c.appointmentId];
      && visit.ticketId == c.ticketId && visit.status == Booked && visit.version == c.appointmentVersion
      && MayBook(dir, ticket, c.meta) && ServedFor(dir, ticket, c.workerId, c.startsAt, c.endsAt)
      && ticket.status == Scheduled && ticket.version == c.ticketVersion && ticket.reworkCount >= 0
  {
    hide RequiredSkill, Tickets.TransitionTicket;
    if c.ticketId < |db.tickets| && MayBook(dir, db.tickets[c.ticketId], c.meta) {
      MoveTransition(db.tickets[c.ticketId], c);
    }
  }

  /** The first thing that stands against a move. */
  lemma MoveRefusedFor(db: Db, dir: Directory, c: RescheduleCommand)
    requires PlanMove(db, dir, c).Err?
    ensures PlanMove(db, dir, c).error ==
      if c.startsAt < c.meta.occurredAt then AppointmentTimeInPast
      else if c.ticketId >= |db.tickets| || c.appointmentId >= |db.appointments| then NotFound
      else
        var ticket, visit := db.tickets[c.ticketId], db.appointments[c.appointmentId];
        if visit.ticketId != c.ticketId then NotFound
        else if !MayBook(dir, ticket, c.meta) then AuthorizationFailed
        else if !ServedFor(dir, ticket, c.workerId, c.startsAt, c.endsAt) then WorkerNotEligible
        else if c.appointmentVersion != visit.version then VersionConflict
        else if visit.status != Booked then TerminalAppointment
        else if c.startsAt >= c.endsAt then InvalidAppointmentInterval
        else if c.ticketVersion != ticket.version then VersionConflict
        else if ticket.status != Scheduled then TransitionNotAllowed
        else InvalidReworkCount
  {
    hide RequiredSkill, Tickets.TransitionTicket;
    if c.ticketId < |db.tickets| && MayBook(dir, db.tickets[c.ticketId], c.meta) {
      MoveTransition(db.tickets[c.ticketId], c);
    }
  }

  lemma MoveTransition(ticket: Ticket, c: RescheduleCommand)
    requires c.meta.actorType in {Resident, Operator}
    ensures
      var answer := Tickets.TransitionTicket(Requested(ticket, Reschedule, c.meta, c.ticketVersion).(hasBooking := true));
      && (answer.Ok? <==> ticket.version == c.ticketVersion && ticket.status == Scheduled && ticket.reworkCount >= 0)
      && (answer.Err? ==>
            answer.error == if ticket.version != c.ticketVersion then VersionConflict
                            else if ticket.status != Scheduled then TransitionNotAllowed
                            else InvalidReworkCount)
  {
    RuleFacts.TransitionsActionByAction(Requested(ticket, Reschedule, c.meta, c.ticketVersion).(hasBooking := true));
    hide Tickets.TransitionTicket;
  }

  lemma MoveWrites(db: Db, dir: Directory, c: RescheduleCommand)
    requires PlanMove(db, dir, c).Ok?
    ensures c.ticketId < |db.tickets| && c.appointmentId < |db.appointments|
    ensures
      var id, ticket, visit := |db.appointments|, db.tickets[c.ticketId], db.appointments[c.appointmentId];
      var moved := ticket.(version := ticket.version + 1);
      PlanMove(db, dir, c).value == Planned(
        Effect(c.ticketId, Some(moved),
               Some((c.appointmentId, visit.(status := Superseded, version := visit.version + 1))),
               Some(Appointment(c.ticketId, c.workerId, visit.purpose, c.startsAt, c.endsAt, Booked, 1,
                                Some(c.appointmentId), None)), None,
               [TicketLine(c.ticketId, ticket, moved, Acted(Reschedule), c.meta)],
               [ClosingLine(c.appointmentId, Superseded, visit.version, c.meta), NewVisitLine(id, c.meta)],
               [Announced(AppointmentRescheduled, id, 1, Move(c),
                          RescheduledPayload(c.ticketId, c.appointmentId, c.workerId, c.startsAt, c.endsAt))]),
        OperationResult(AppointmentRescheduledCode, AppointmentResource, id, 1, false,
                        RescheduledData(c.appointmentId, ticket.version + 1)))
  {
    hide Tickets.TransitionTicket, RequiredSkill;
    Tickets.NextVersion(Requested(db.tickets[c.ticketId], Reschedule, c.meta, c.ticketVersion).(hasBooking := true));
  }

  // ----- Escalating -----

  lemma EscalationAcceptedExactly(db: Db, dir: Directory, c: EscalateCommand)
    ensures PlanEscalate(db, dir, c).Ok? <==>
      && c.ticketId < |db.tickets|
      && (c.meta.actorType == System || (c.meta.actorType == Operator && ActiveOperator(dir, c.meta.actorId)))
      && var ticket := db.tickets[c.ticketId];
      && ticket.status !in {Escalated, Cancelled, Closed} && ticket.version == c.ticketVersion && ticket.reworkCount >= 0
      && c.reasonText != "" && c.evidence != []
  {
    RuleFacts.Vocabularies();
    if c.ticketId < |db.tickets| {
      RuleFacts.TransitionsActionByAction(
        Requested(db.tickets[c.ticketId], Escalate, c.meta, c.ticketVersion)
        .(escalationReason := Some(c.reasonText), evidence := c.evidence));
      assert db.tickets[c.ticketId].status in RuleFacts.From(Escalate) <==> Escalatable(db.tickets[c.ticketId].status);
    }
    hide Tickets.TransitionTicket;
  }

  lemma EscalationRefusedFor(db: Db, dir: Directory, c: EscalateCommand)
    requires PlanEscalate(db, dir, c).Err?
    ensures PlanEscalate(db, dir, c).error ==
      if c.ticketId >= |db.tickets| then NotFound
      else
        var ticket := db.tickets[c.ticketId];
        if !(c.meta.actorType == System || (c.meta.actorType == Operator && ActiveOperator(dir, c.meta.actorId))) then
          AuthorizationFailed
        else if ticket.version != c.ticketVersion then VersionConflict
        else if ticket.status in {Escalated, Cancelled, Closed} then TransitionNotAllowed
        else if ticket.reworkCount < 0 then InvalidReworkCount
        else EscalationContextRequired
  {
    RuleFacts.Vocabularies();
    if c.ticketId < |db.tickets| {
      RuleFacts.TransitionsActionByAction(
        Requested(db.tickets[c.ticketId], Escalate, c.meta, c.ticketVersion)
        .(escalationReason := Some(c.reasonText), evidence := c.evidence));
      assert db.tickets[c.ticketId].status in RuleFacts.From(Escalate) <==> Escalatable(db.tickets[c.ticketId].status);
    }
    hide Tickets.TransitionTicket;
  }

  lemma EscalationWrites(db: Db, dir: Directory, c: EscalateCommand)
    requires PlanEscalate(db, dir, c).Ok?
    ensures c.ticketId < |db.tickets|
    ensures
      var ticket := db.tickets[c.ticketId];
      var escalated := ticket.(status := Escalated, escalatedFrom := Some(ticket.status), version := ticket.version + 1);
      PlanEscalate(db, dir, c).value == Planned(
        Effect(c.ticketId, Some(escalated), None, None, None,
               [TicketLine(c.ticketId, ticket, escalated, Acted(Escalate), c.meta)], [],
               [StatusLine(c.ticketId, ticket, escalated, Acted(Escalate), EscalateTicket(c)),
                Announced(TicketEscalated, c.ticketId, ticket.version + 1, EscalateTicket(c),
                          EscalatedPayload(ticket.status, Escalated, c.reasonCode))]),
        OperationResult(TicketEscalatedCode, TicketResource, c.ticketId, ticket.version + 1, false, StatusData(Escalated)))
  {
    hide Tickets.TransitionTicket;
    Tickets.EscalationSavesPrior(
      Requested(db.tickets[c.ticketId], Escalate, c.meta, c.ticketVersion)
      .(escalationReason := Some(c.reasonText), evidence := c.evidence));
  }

  // ----- Recovering -----

  /** What a recovery rests on: the ticket, its last visit and that visit's last event. */
  function RecoveryOf(db: Db, c: RecoverCommand): Tickets.RecoveryRequest
    requires c.ticketId < |db.tickets|
  {
    var ticket, last := db.tickets[c.ticketId], Latest(db.appointments, c.ticketId);
    var log := if last.Some? then Log(db.events, last.value) else [];
    Tickets.RecoveryRequest(
      c.meta.actorType, c.ticketVersion, ticket.version, ticket.escalatedFrom,
      if last.Some? then Some(db.appointments[last.value].status) else None,
      if log == [] then None else Some(log[|log| - 1]),
      c.disposition, c.acceptance, c.reworkRecorded, c.conflictResolved, ticket.reworkCount)
  }

  lemma RecoveryAcceptedExactly(db: Db, dir: Directory, c: RecoverCommand)
    ensures PlanRecover(db, dir, c).Ok? <==>
      && c.ticketId < |db.tickets|
      && c.meta.actorType == Operator && ActiveOperator(dir, c.meta.actorId) && c.disposition != ApplyResidentAcceptance
      && Tickets.RecoverEscalated(RecoveryOf(db, c)).Ok?
  {
    hide Tickets.RecoverEscalated, Latest, Log;
  }

  lemma RecoveryRefusedFor(db: Db, dir: Directory, c: RecoverCommand)
    requires PlanRecover(db, dir, c).Err?
    ensures
      var error := PlanRecover(db, dir, c).error;
      if c.ticketId >= |db.tickets| then error == NotFound
      else if c.meta.actorType != Operator || !ActiveOperator(dir, c.meta.actorId) || c.disposition == ApplyResidentAcceptance then
        error == AuthorizationFailed
      else Tickets.RecoverEscalated(RecoveryOf(db, c)) == Err(error)
  {
    hide Tickets.RecoverEscalated, Latest, Log;
  }

  lemma RecoveryWrites(db: Db, dir: Directory, c: RecoverCommand)
    requires PlanRecover(db, dir, c).Ok?
    ensures c.ticketId < |db.tickets| && RuleFacts.Recovered(RecoveryOf(db, c)).Ok?
    ensures
      var ticket, to := db.tickets[c.ticketId], RuleFacts.Recovered(RecoveryOf(db, c)).value;
      var recovered := ticket.(status := to, escalatedFrom := None, version := ticket.version + 1,
                               reworkCount := if c.disposition == ApproveRework then ticket.reworkCount + 1 else ticket.reworkCount,
                               cancelledAt := if to == Cancelled then Some(c.meta.occurredAt) else ticket.cancelledAt);
      var action := HistoryAction.Recovered(c.disposition);
      PlanRecover(db, dir, c).value == Planned(
        Effect(c.ticketId, Some(recovered), None, None, None,
               [TicketLine(c.ticketId, ticket, recovered, action, c.meta)], [],
               [StatusLine(c.ticketId, ticket, recovered, action, Recover(c))]),
        OperationResult(TicketRecovered, TicketResource, c.ticketId, ticket.version + 1, false, StatusData(to)))
  {
    RecoveryAcceptedExactly(db, dir, c);
    RuleFacts.RecoveriesByDisposition(RecoveryOf(db, c));
    OnlyAcceptanceCloses(RecoveryOf(db, c));
    hide Tickets.RecoverEscalated, Latest, Log, RuleFacts.Recovered;
  }

  lemma OnlyAcceptanceCloses(r: Tickets.RecoveryRequest)
    requires r.disposition != ApplyResidentAcceptance && RuleFacts.Recovered(r).Ok?
    ensures RuleFacts.Recovered(r).value != Closed
  {
  }

  // ----- Reviewing -----

  /** The visit a review speaks of is where the ticket's status says. */
  predicate VisitFits(db: Db, c: ReviewCommand, visit: Id)
    requires c.ticketId < |db.tickets| && visit < |db.appointments|
  {
    var log := Log(db.events, visit);
    var last := if log == [] then None else Some(log[|log| - 1]);
    match db.tickets[c.ticketId].status
    case Scheduled => db.appointments[visit].status == Booked && db.appointments[visit].startsAt <= c.meta.occurredAt
    case InProgress => db.appointments[visit].status == Booked && last == Some(Started)
    case PendingAcceptance => db.appointments[visit].status == Fulfilled && last == Some(Completed)
    case _ => false
  }

  function ReviewRequest(ticket: Ticket, c: ReviewCommand): Tickets.TransitionRequest {
    Requested(ticket, if c.accepted then ResidentAccept else ResidentReject, c.meta, c.ticketVersion)
    .(acceptance := Some(c.accepted), rejection := if c.accepted then None else c.rejection)
  }

  lemma ReviewTransition(ticket: Ticket, c: ReviewCommand)
    requires c.meta.actorType == Resident
    ensures Tickets.TransitionTicket(ReviewRequest(ticket, c)).Ok? <==>
      && ticket.version == c.ticketVersion && ticket.reworkCount >= 0
      && (if c.accepted then ticket.status in {Scheduled, InProgress, PendingAcceptance}
          else ticket.status == PendingAcceptance && c.rejection.Some?)
    ensures Tickets.TransitionTicket(ReviewRequest(ticket, c)).Ok? ==>
      var t := Tickets.TransitionTicket(ReviewRequest(ticket, c)).value;
      && t.next == (if c.accepted then Closed else ReworkRequired) && t.version == ticket.version + 1
      && t.reworkCount == ticket.reworkCount + if c.accepted then 0 else 1
  {
    RuleFacts.TransitionsActionByAction(ReviewRequest(ticket, c));
    hide Tickets.TransitionTicket;
  }

  /** A repair is accepted from a visit that has begun, is under way or is complete, and rejected, for a
      reason, only once complete. */
  lemma ReviewAcceptedExactly(db: Db, dir: Directory, c: ReviewCommand)
    ensures PlanReview(db, dir, c).Ok? <==>
      && c.ticketId < |db.tickets|
      && var ticket, visit := db.tickets[c.ticketId], Latest(db.appointments, c.ticketId);
      && c.meta.actorType == Resident && ItsResident(dir, ticket, c.meta.actorId)
      && ticket.version == c.ticketVersion && ticket.reworkCount >= 0
      && visit.Some? && VisitFits(db, c, visit.value)
      && (!c.accepted ==> ticket.status == PendingAcceptance && c.rejection.Some?)
      && (c.accepted && ticket.status != PendingAcceptance && c.appointmentVersion.Some? ==>
            c.appointmentVersion.value in {0, db.appointments[visit.value].version})
  {
    hide Latest, Log, Tickets.TransitionTicket, AggregateConsistency;
    if c.ticketId < |db.tickets| && c.meta.actorType == Resident && Latest(db.appointments, c.ticketId).Some? {
      var ticket, visit := db.tickets[c.ticketId], Latest(db.appointments, c.ticketId).value;
      RuleFacts.SnapshotTest(ticket.status, db.appointments[visit].status, LastEvent(Log(db.events, visit)));
      ReviewTransition(ticket, c);
    }
  }

  /** The first thing that stands against a review. */
  lemma ReviewRefusedFor(db: Db, dir: Directory, c: ReviewCommand)
    requires PlanReview(db, dir, c).Err?
    ensures
      var error := PlanReview(db, dir, c).error;
      if c.ticketId >= |db.tickets| then error == NotFound
      else
        var ticket, last := db.tickets[c.ticketId], Latest(db.appointments, c.ticketId);
        if c.meta.actorType != Resident || !ItsResident(dir, ticket, c.meta.actorId) then error == AuthorizationFailed
        else if last.None? then error == NotFound
        else
          var visit := db.appointments[last.value];
          var snapshot := AggregateConsistency(ticket.status, [visit.status], LastEvent(Log(db.events, last.value)));
          if snapshot.Fail? then error == snapshot.error
          else if c.accepted && ticket.status == Scheduled && c.meta.occurredAt < visit.startsAt then error == AppointmentNotStarted
          else if Tickets.TransitionTicket(ReviewRequest(ticket, c)).Err? then
            Tickets.TransitionTicket(ReviewRequest(ticket, c)) == Err(error)
          else error == VersionConflict
  {
    hide Latest, Log, Tickets.TransitionTicket, AggregateConsistency;
  }

  lemma ReviewWrites(db: Db, dir: Directory, c: ReviewCommand)
    requires PlanReview(db, dir, c).Ok?
    ensures c.ticketId < |db.tickets| && Latest(db.appointments, c.ticketId).Some?
    ensures
      var ticket, id := db.tickets[c.ticketId], Latest(db.appointments, c.ticketId).value;
      var visit := db.appointments[id];
      var fulfils := c.accepted && visit.status == Booked;
      var to, reworks := if c.accepted then Closed else ReworkRequired, ticket.reworkCount + if c.accepted then 0 else 1;
      var reviewed := ticket.(status := to, version := ticket.version + 1, reworkCount := reworks, escalatedFrom := None,
                              closedAt := if c.accepted then Some(c.meta.occurredAt) else None);
      var action := Acted(if c.accepted then ResidentAccept else ResidentReject);
      PlanReview(db, dir, c).value == Planned(
        Effect(c.ticketId, Some(reviewed),
               if fulfils then Some((id, visit.(status := Fulfilled, version := visit.version + 1))) else None, None, None,
               [TicketLine(c.ticketId, ticket, reviewed, action, c.meta)],
               if fulfils then [ClosingLine(id, Fulfilled, visit.version, c.meta)] else [],
               [StatusLine(c.ticketId, ticket, reviewed, action, Review(c))]),
        OperationResult(if c.accepted then RepairAccepted else ReworkRequested, TicketResource, c.ticketId,
                        ticket.version + 1, false, ReviewData(to, reworks)))
  {
    hide Latest, Log, AggregateConsistency, Tickets.TransitionTicket;
    ReviewTransition(db.tickets[c.ticketId], c);
  }
}
