/** The constraints the database declares on the repair tables, checked when a unit of work is
    flushed, and the error each violation is reported as (infrastructure/database/models,
    infrastructure/database/uow.py). */
module Schema {
  import opened Domain
  import opened Appointments
  import opened RepairStore

  // ----- The named constraints -----

  predicate OneBookingPerTicket(rows: seq<Appointment>) {
    forall i, j :: 0 <= i < j < |rows| && rows[i].status == Booked && rows[j].status == Booked ==>
      rows[i].ticketId != rows[j].ticketId
  }

  /** Two half-open intervals share an instant. */
  predicate Overlap(a: Appointment, b: Appointment) {
    a.startsAt < b.endsAt && b.startsAt < a.endsAt
  }

  predicate BookedTogether(a: Appointment, b: Appointment) {
    a.status == Booked && b.status == Booked && a.workerId == b.workerId
  }

  predicate WorkersNotDoubleBooked(rows: seq<Appointment>) {
    forall i, j :: 0 <= i < j < |rows| && BookedTogether(rows[i], rows[j]) ==> !Overlap(rows[i], rows[j])
  }

  predicate OneSuccessor(rows: seq<Appointment>) {
    forall i, j :: 0 <= i < j < |rows| && rows[i].supersedes.Some? ==> rows[i].supersedes != rows[j].supersedes
  }

  predicate SequencesDistinct(events: seq<WorkerEvent>) {
    forall i, j :: 0 <= i < j < |events| && events[i].appointmentId == events[j].appointmentId ==>
      events[i].sequenceNo != events[j].sequenceNo
  }

  predicate ExternalKeysDistinct(events: seq<WorkerEvent>) {
    forall i, j :: 0 <= i < j < |events| ==> events[i].externalKey != events[j].externalKey
  }

  // ----- The constraints that have no error code of their own -----

  predicate TicketChecks(t: Ticket) {
    && t.reworkCount >= 0 && t.version > 0
    && (t.status == Escalated <==> t.escalatedFrom.Some?)
    && (t.escalatedFrom.Some? ==> Escalatable(t.escalatedFrom.value))
  }

  predicate AppointmentChecks(id: Id, a: Appointment) {
    && a.startsAt < a.endsAt && a.version > 0 && a.supersedes != Some(id)
    && (a.status in {ApptCancelled, NoShow} <==> a.outcome.Some?)
  }

  predicate RowChecks(db: Db) {
    && (forall i :: 0 <= i < |db.tickets| ==> TicketChecks(db.tickets[i]))
    && (forall i :: 0 <= i < |db.appointments| ==> AppointmentChecks(i, db.appointments[i]))
    && (forall i :: 0 <= i < |db.events| ==> db.events[i].sequenceNo > 0)
    && (forall i :: 0 <= i < |db.ticketHistory| ==>
          db.ticketHistory[i].before >= 0 && db.ticketHistory[i].after == db.ticketHistory[i].before + 1)
    && (forall i :: 0 <= i < |db.appointmentHistory| ==>
          db.appointmentHistory[i].before >= 0 && db.appointmentHistory[i].after == db.appointmentHistory[i].before + 1)
  }

  predicate References(db: Db) {
    && (forall i :: 0 <= i < |db.appointments| ==>
          && db.appointments[i].ticketId < |db.tickets|
          && (db.appointments[i].supersedes.Some? ==> db.appointments[i].supersedes.value < |db.appointments|))
    && (forall i :: 0 <= i < |db.events| ==> db.events[i].appointmentId < |db.appointments|)
    && (forall i :: 0 <= i < |db.ticketHistory| ==> db.ticketHistory[i].ticketId < |db.tickets|)
    && (forall i :: 0 <= i < |db.appointmentHistory| ==>
          db.appointmentHistory[i].appointmentId < |db.appointments|)
  }

  predicate EventKeysDistinct(outbox: seq<DomainEvent>) {
    forall i, j :: 0 <= i < j < |outbox| ==> outbox[i].EventKey() != outbox[j].EventKey()
  }

  function Flush(db: Db): Check {
    if !OneBookingPerTicket(db.appointments) then Fail(ActiveAppointmentExists)
    else if !WorkersNotDoubleBooked(db.appointments) then Fail(AppointmentTimeConflict)
    else if !OneSuccessor(db.appointments) then Fail(RescheduleConflict)
    else if !SequencesDistinct(db.events) then Fail(WorkerEventSequenceConflict)
    else if !ExternalKeysDistinct(db.events) then Fail(WorkerEventIdentityConflict)
    else Need(RowChecks(db) && References(db) && EventKeysDistinct(db.outbox), DatabaseIntegrityFailure)
  }
}
