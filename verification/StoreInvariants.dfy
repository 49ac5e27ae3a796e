/** What every store reachable by the seven commands satisfies. No command states or checks
    these facts; each ties several tables together. */
module StoreInvariants {
  import opened Domain
  import opened Rows
  import opened Appointments
  import opened WorkerEvents
  import opened RepairStore

  ghost function OfTicket(id: Id): TicketRow -> bool { (r: TicketRow) => r.ticketId == id }

  ghost function OfAppointment(id: Id): AppointmentRow -> bool { (r: AppointmentRow) => r.appointmentId == id }

  ghost function OnStatusOf(id: Id): DomainEvent -> bool {
    (e: DomainEvent) => e.kind in {TicketCreated, TicketStatusChanged} && e.aggregateId == id
  }

  ghost function History(db: Db, id: Id): seq<TicketRow> { Select(db.ticketHistory, OfTicket(id)) }

  ghost function AppointmentLog(db: Db, id: Id): seq<AppointmentRow> {
    Select(db.appointmentHistory, OfAppointment(id))
  }

  ghost function StatusEvents(db: Db, id: Id): seq<DomainEvent> { Select(db.outbox, OnStatusOf(id)) }

  // ----- The invariants -----

  predicate EscalationConsistent(t: Ticket) {
    && (t.status == Escalated <==> t.escalatedFrom.Some?)
    && (t.escalatedFrom.Some? ==> Escalatable(t.escalatedFrom.value))
  }

  ghost predicate TicketRows(db: Db) {
    forall i :: 0 <= i < |db.tickets| ==>
      EscalationConsistent(db.tickets[i]) && db.tickets[i].version >= 1 && db.tickets[i].reworkCount >= 0
  }

  /** The schema's row checks on appointments, and the references between tables. */
  ghost predicate AppointmentRows(db: Db) {
    && (forall i :: 0 <= i < |db.appointments| ==>
          var a := db.appointments[i];
          && a.ticketId < |db.tickets| && a.startsAt < a.endsAt && a.version >= 1
          && (a.status in {ApptCancelled, NoShow} <==> a.outcome.Some?))
    && (forall k :: 0 <= k < |db.events| ==> db.events[k].appointmentId < |db.appointments|)
  }

  /** A live booking is the last appointment created for its ticket. */
  ghost predicate BookingIsLatest(db: Db) {
    forall i :: 0 <= i < |db.appointments| && db.appointments[i].status == Booked ==>
      Latest(db.appointments, db.appointments[i].ticketId) == Some(i)
  }

  /** How a ticket status constrains its latest appointment and that visit's event log. */
  predicate Agrees(status: TicketStatus, latest: Option<AppointmentStatus>, log: seq<EventType>) {
    match status
    case Scheduled => latest == Some(Booked) && Started !in log
    case InProgress => latest == Some(Booked) && LastEvent(log) == Some(Started)
    case PendingAcceptance => latest == Some(Fulfilled) && LastEvent(log) == Some(Completed)
    case Open => latest != Some(Booked)
    case Cancelled => latest != Some(Booked)
    case Closed => latest != Some(Booked)
    case ReworkRequired => true
    case Escalated => true
  }

  ghost predicate TicketsAgree(db: Db) {
    forall t :: 0 <= t < |db.tickets| ==> Agrees(db.tickets[t].status, LatestStatus(db, t), LatestLog(db, t))
  }

  /** How an appointment status constrains the last event of its log. */
  predicate StatusFitsLog(status: AppointmentStatus, log: seq<EventType>) {
    match status
    case Booked => OpenLog(log)
    case Superseded => OpenLog(log)
    case Fulfilled => OpenLog(log) || LastEvent(log) in {Some(Completed), Some(FailedToComplete)}
    case ApptCancelled => LastEvent(log) in {Some(Rejected), Some(EvCancelled)}
    case NoShow => LastEvent(log) == Some(EvNoShow)
  }

  ghost predicate LogsLegal(db: Db) {
    forall a :: 0 <= a < |db.appointments| ==>
      LegalLog(Log(db.events, a)) && StatusFitsLog(db.appointments[a].status, Log(db.events, a))
  }

  /** Sequence numbers count the visit's events; external keys are never reused. */
  ghost predicate EventIdentities(db: Db) {
    && (forall k :: 0 <= k < |db.events| ==>
          db.events[k].sequenceNo == |Log(db.events[..k], db.events[k].appointmentId)| + 1)
    && (forall j, k :: 0 <= j < k < |db.events| ==> db.events[j].externalKey != db.events[k].externalKey)
  }

  /** Supersession links point backwards inside one ticket and purpose, at most one per row. */
  ghost predicate LinksLegal(db: Db) {
    && LinksPointBack(db.appointments) && LinksDistinct(db.appointments) && SupersededIsNamed(db.appointments)
  }

  ghost predicate LinksPointBack(rows: seq<Appointment>) {
    forall j :: 0 <= j < |rows| && rows[j].supersedes.Some? ==>
      var i := rows[j].supersedes.value;
      && i < j && rows[i].status == Superseded
      && rows[i].ticketId == rows[j].ticketId && rows[i].purpose == rows[j].purpose
  }

  ghost predicate LinksDistinct(rows: seq<Appointment>) {
    forall j, k :: 0 <= j < k < |rows| && rows[j].supersedes.Some? ==> rows[j].supersedes != rows[k].supersedes
  }

  ghost predicate SupersededIsNamed(rows: seq<Appointment>) {
    forall i :: 0 <= i < |rows| && rows[i].status == Superseded ==>
      exists j :: i < j < |rows| && rows[j].supersedes == Some(i)
  }

  predicate CountsRework(action: HistoryAction) {
    action in {Acted(ResidentReject), Acted(FailWorkRework), Recovered(ApproveRework)}
  }

  ghost function ReworkRows(rows: seq<TicketRow>): nat {
    if rows == [] then 0
    else ReworkRows(rows[..|rows| - 1]) + if CountsRework(rows[|rows| - 1].action) then 1 else 0
  }

  /** A history that goes version by version from nothing to the ticket's current row. */
  ghost predicate HistoryTells(rows: seq<TicketRow>, t: Ticket) {
    && |rows| == t.version
    && (forall k :: 0 <= k < |rows| ==> rows[k].before == k && rows[k].after == k + 1)
    && (forall k :: 0 < k < |rows| ==> rows[k].from == Some(rows[k - 1].to))
    && |rows| > 0 && rows[0].from == None && rows[0].to == Open && rows[0].action == Creation
    && rows[|rows| - 1].to == t.status
    && ReworkRows(rows) == t.reworkCount
  }

  ghost predicate HistoriesTell(db: Db) {
    && (forall t :: 0 <= t < |db.tickets| ==> HistoryTells(History(db, t), db.tickets[t]))
    && (forall k :: 0 <= k < |db.ticketHistory| ==> db.ticketHistory[k].ticketId < |db.tickets|)
  }

  ghost predicate AppointmentHistoryTells(rows: seq<AppointmentRow>, a: Appointment) {
    && |rows| == a.version
    && (forall k :: 0 <= k < |rows| ==> rows[k].before == k && rows[k].after == k + 1)
    && (forall k :: 0 < k < |rows| ==> rows[k].from == Some(rows[k - 1].to))
    && |rows| > 0 && rows[0].from == None && rows[0].to == Booked
    && rows[|rows| - 1].to == a.status
  }

  ghost predicate AppointmentHistoriesTell(db: Db) {
    && (forall a :: 0 <= a < |db.appointments| ==>
          AppointmentHistoryTells(AppointmentLog(db, a), db.appointments[a]))
    && (forall k :: 0 <= k < |db.appointmentHistory| ==>
          db.appointmentHistory[k].appointmentId < |db.appointments|)
  }

  predicate ChangesStatus(row: TicketRow) { row.from != Some(row.to) }

  ghost function IsStatusChange(): TicketRow -> bool { (r: TicketRow) => ChangesStatus(r) }

  ghost function StatusRows(rows: seq<TicketRow>): seq<TicketRow> { Select(rows, IsStatusChange()) }

  /** The outbox event that announces a history row. */
  predicate Announces(e: DomainEvent, row: TicketRow) {
    && e.aggregateId == row.ticketId && e.aggregateVersion == row.after
    && e.actorType == row.actorType && e.actorId == row.actorId
    && match row.from
       case None => e.kind == TicketCreated && e.payload.CreatedPayload? && e.payload.status == row.to
       case Some(previous) => e.kind == TicketStatusChanged && e.payload == ChangedPayload(previous, row.to, row.action)
  }

  ghost predicate AnnouncedBy(events: seq<DomainEvent>, rows: seq<TicketRow>) {
    |events| == |rows| && forall k :: 0 <= k < |rows| ==> Announces(events[k], rows[k])
  }

  /** Status-changing history rows and status events are in one-to-one correspondence, in order. */
  ghost predicate Published(db: Db) {
    forall t :: 0 <= t < |db.tickets| ==> AnnouncedBy(StatusEvents(db, t), StatusRows(History(db, t)))
  }

  /** No event key is used twice, and no key belongs to a version not yet reached. */
  ghost predicate EventKeysUnique(db: Db) {
    && (forall j, k :: 0 <= j < k < |db.outbox| ==> db.outbox[j].EventKey() != db.outbox[k].EventKey())
    && (forall k :: 0 <= k < |db.outbox| ==>
          var e := db.outbox[k];
          if e.kind in {AppointmentBooked, AppointmentRescheduled}
          then e.aggregateId < |db.appointments|
          else e.aggregateId < |db.tickets| && e.aggregateVersion <= db.tickets[e.aggregateId].version)
  }

  ghost predicate Inv(db: Db) {
    && TicketRows(db) && AppointmentRows(db) && BookingIsLatest(db) && TicketsAgree(db)
    && LogsLegal(db) && EventIdentities(db) && LinksLegal(db)
    && HistoriesTell(db) && AppointmentHistoriesTell(db) && Published(db) && EventKeysUnique(db)
  }

  lemma EmptyStoreInv()
    ensures Inv(EMPTY_DB)
  {
  }
}
