/** What the schema adds to the rules: on every reachable store each constraint but one is already
    guaranteed by the rules, and the exception, a worker's overlapping bookings, is enforced by
    the exclusion constraint alone. */
module SchemaGuard {
  import opened Domain
  import opened Rows
  import opened Appointments
  import opened RepairStore
  import opened StoreInvariants
  import opened Schema
  import opened RepairRuns
  import StoreLegality
  import StorePreservation
  import TerminalTickets

  // ----- The constraints the rules already guarantee -----

  lemma {:induction false} LogGrows(events: seq<WorkerEvent>, i: nat, j: nat, a: Id)
    requires i <= j <= |events|
    ensures |Log(events[..i], a)| <= |Log(events[..j], a)|
  {
    if i < j {
      LogGrows(events, i, j - 1, a);
      assert events[..j][..j - 1] == events[..j - 1];
    }
  }

  lemma SequencesAreDistinct(db: Db)
    requires EventIdentities(db)
    ensures SequencesDistinct(db.events)
  {
    forall i, j | 0 <= i < j < |db.events| && db.events[i].appointmentId == db.events[j].appointmentId
      ensures db.events[i].sequenceNo != db.events[j].sequenceNo
    {
      var a := db.events[i].appointmentId;
      assert db.events[..i + 1][..i] == db.events[..i];
      assert |Log(db.events[..i + 1], a)| == |Log(db.events[..i], a)| + 1;
      LogGrows(db.events, i + 1, j, a);
    }
  }

  lemma HistoryRowsStep(db: Db)
    requires HistoriesTell(db)
    ensures forall k :: 0 <= k < |db.ticketHistory| ==>
      db.ticketHistory[k].before >= 0 && db.ticketHistory[k].after == db.ticketHistory[k].before + 1
  {
    forall k | 0 <= k < |db.ticketHistory|
      ensures db.ticketHistory[k].before >= 0 && db.ticketHistory[k].after == db.ticketHistory[k].before + 1
    {
      var t := db.ticketHistory[k].ticketId;
      SelectFinds(db.ticketHistory, OfTicket(t), k);
      assert HistoryTells(History(db, t), db.tickets[t]);
    }
  }

  lemma AppointmentHistoryRowsStep(db: Db)
    requires AppointmentHistoriesTell(db)
    ensures forall k :: 0 <= k < |db.appointmentHistory| ==>
      db.appointmentHistory[k].before >= 0 && db.appointmentHistory[k].after == db.appointmentHistory[k].before + 1
  {
    forall k | 0 <= k < |db.appointmentHistory|
      ensures db.appointmentHistory[k].before >= 0
           && db.appointmentHistory[k].after == db.appointmentHistory[k].before + 1
    {
      var a := db.appointmentHistory[k].appointmentId;
      SelectFinds(db.appointmentHistory, OfAppointment(a), k);
      assert AppointmentHistoryTells(AppointmentLog(db, a), db.appointments[a]);
    }
  }

  lemma RowsAreSound(db: Db)
    requires TicketRows(db) && AppointmentRows(db) && LinksLegal(db) && EventIdentities(db)
    requires HistoriesTell(db) && AppointmentHistoriesTell(db)
    ensures RowChecks(db) && References(db)
  {
    HistoryRowsStep(db);
    AppointmentHistoryRowsStep(db);
    hide HistoryTells, AppointmentHistoryTells, Log;
    assert forall t :: 0 <= t < |db.tickets| ==> EscalationConsistent(db.tickets[t]);
  }

  lemma BookingsAndLinksAreSound(db: Db)
    requires BookingIsLatest(db) && LinksLegal(db) && EventIdentities(db) && EventKeysUnique(db)
    ensures OneBookingPerTicket(db.appointments) && OneSuccessor(db.appointments)
    ensures ExternalKeysDistinct(db.events) && EventKeysDistinct(db.outbox)
  {
    hide LinksPointBack, SupersededIsNamed, Log;
  }

  /** On a store that satisfies the invariants the flush reports nothing but a worker booked for
      two overlapping intervals. */
  lemma FlushRefusesOnlyDoubleBooking(db: Db)
    requires Inv(db)
    ensures Flush(db) == if WorkersNotDoubleBooked(db.appointments) then Pass else Fail(AppointmentTimeConflict)
  {
    RowsAreSound(db);
    SequencesAreDistinct(db);
    BookingsAndLinksAreSound(db);
    hide Inv, RowChecks, References, SequencesDistinct, OneBookingPerTicket, OneSuccessor, ExternalKeysDistinct,
      EventKeysDistinct, WorkersNotDoubleBooked;
  }

  // ----- The constraint they do not -----

  /** Appointment `i` stands in the way of booking `draft` once `closing` has been closed. */
  predicate Blocks(rows: seq<Appointment>, i: Id, draft: Appointment, closing: Option<Id>) {
    && i < |rows| && Some(i) != closing && BookedTogether(rows[i], draft) && Overlap(rows[i], draft)
  }

  function ClosedId(e: Effect): Option<Id> {
    if e.closing.Some? then Some(e.closing.value.0) else None
  }

  lemma DoubleBookingByNewcomer(db: Db, e: Effect)
    requires WorkersNotDoubleBooked(db.appointments)
    requires StorePreservation.LegalClosing(db, e) && StorePreservation.LegalAdding(db, e)
    ensures WorkersNotDoubleBooked(Apply(db, e).appointments) <==>
      e.adding.None? || forall i: Id :: !Blocks(db.appointments, i, e.adding.value, ClosedId(e))
  {
    StorePreservation.AppointmentsAfter(db, e);
    var before, after := db.appointments, Apply(db, e).appointments;
    hide Apply, Latest;
    if e.adding.Some? {
      var n := |before|;
      if i: Id :| Blocks(before, i, e.adding.value, ClosedId(e)) {
        assert BookedTogether(after[i], after[n]) && Overlap(after[i], after[n]);
        assert !WorkersNotDoubleBooked(after);
      } else {
        forall i, j | 0 <= i < j < |after| && BookedTogether(after[i], after[j]) ensures !Overlap(after[i], after[j]) {
          if j < n {
            assert BookedTogether(before[i], before[j]);
          } else {
            assert !Blocks(before, i, e.adding.value, ClosedId(e));
          }
        }
      }
    }
  }

  /** No worker is ever booked for two overlapping intervals. */
  lemma {:induction false} WorkersNeverDoubleBooked(calls: seq<Call>)
    ensures WorkersNotDoubleBooked(Run(calls).appointments)
  {
    if calls != [] {
      WorkersNeverDoubleBooked(calls[..|calls| - 1]);
      hide Plan;
    }
  }

  /** After any run, what a planned command meets at the flush: it commits unless it adds a
      booking that overlaps one its worker still has, and then the overlap is what it is told. */
  lemma CommitsUnlessWorkerBusy(calls: seq<Call>, call: Call)
    requires Plan(Run(calls), call.dir, call.command).Ok?
    ensures
      var db := Run(calls);
      var planned := Plan(db, call.dir, call.command).value;
      var e := planned.effect;
      var busy := e.adding.Some? && exists i: Id :: Blocks(db.appointments, i, e.adding.value, ClosedId(e));
      Transact(db, call) == if busy then Err(AppointmentTimeConflict) else Ok((Apply(db, e), planned.result))
  {
    hide Run, Plan, Apply, Step;
    var db := Run(calls);
    EveryRunKeepsInv(calls);
    WorkersNeverDoubleBooked(calls);
    var e := Plan(db, call.dir, call.command).value.effect;
    StoreLegality.PlanKeepsInv(db, call.dir, call.command);
    FlushRefusesOnlyDoubleBooking(Apply(db, e));
    hide Inv, Flush;
    if call.command.RecordEvent? && FindExternal(db.events, call.command.record.externalKey).Some? {
      TerminalTickets.ReplayedEventWritesNothing(db, call.dir, call.command.record);
    } else {
      StoreLegality.CommandLegal(db, call.dir, call.command);
      DoubleBookingByNewcomer(db, e);
    }
  }
}
