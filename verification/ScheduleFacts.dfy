/** What the schema keeps of every run, told instant by instant. */
module ScheduleFacts {
  import opened Domain
  import opened Appointments
  import opened RepairStore
  import opened StoreInvariants
  import opened RepairRuns
  import SchemaGuard
  import StoreLegality
  import StorePreservation
  import TerminalTickets

  /** A live visit that covers the instant. */
  predicate OnSite(a: Appointment, workerId: Id, instant: Time) {
    a.status == Booked && a.workerId == workerId && a.startsAt <= instant < a.endsAt
  }

  /** In every run a worker is on at most one live visit at any instant. */
  lemma NoWorkerInTwoPlaces(calls: seq<Call>, i: Id, j: Id, workerId: Id, instant: Time)
    requires i < |Run(calls).appointments| && j < |Run(calls).appointments|
    requires OnSite(Run(calls).appointments[i], workerId, instant) && OnSite(Run(calls).appointments[j], workerId, instant)
    ensures i == j
  {
    hide Run, Inv;
    SchemaGuard.WorkersNeverDoubleBooked(calls);
  }

  /** The visit a planned effect adds clashes with one that stays live beside it. */
  ghost predicate Clashes(db: Db, e: Effect) {
    e.adding.Some? && exists i: Id, instant: Time ::
      && i < |db.appointments| && !(e.closing.Some? && e.closing.value.0 == i)
      && OnSite(db.appointments[i], e.adding.value.workerId, instant)
      && OnSite(e.adding.value, e.adding.value.workerId, instant)
  }

  lemma BlocksByInstants(db: Db, e: Effect)
    requires AppointmentRows(db) && StorePreservation.LegalAdding(db, e)
    ensures (e.adding.Some? && exists i: Id :: SchemaGuard.Blocks(db.appointments, i, e.adding.value, SchemaGuard.ClosedId(e)))
        <==> Clashes(db, e)
  {
    if e.adding.Some? {
      var draft, closing := e.adding.value, SchemaGuard.ClosedId(e);
      if i: Id :| SchemaGuard.Blocks(db.appointments, i, draft, closing) {
        var a := db.appointments[i];
        var instant := if a.startsAt <= draft.startsAt then draft.startsAt else a.startsAt;
        assert OnSite(a, draft.workerId, instant) && OnSite(draft, draft.workerId, instant);
        assert !(e.closing.Some? && e.closing.value.0 == i);
      }
      if Clashes(db, e) {
        var i: Id, instant: Time :|
          && i < |db.appointments| && !(e.closing.Some? && e.closing.value.0 == i)
          && OnSite(db.appointments[i], draft.workerId, instant) && OnSite(draft, draft.workerId, instant);
        assert SchemaGuard.Blocks(db.appointments, i, draft, closing);
      }
    }
  }

  /** After any run a planned command commits, rows and answer, unless its visit would need its worker in
      two places at some instant. */
  lemma CommitsUnlessItClashes(calls: seq<Call>, call: Call)
    requires Plan(Run(calls), call.dir, call.command).Ok?
    ensures
      var db := Run(calls);
      var planned := Plan(db, call.dir, call.command).value;
      Transact(db, call)
        == if Clashes(db, planned.effect) then Err(AppointmentTimeConflict)
           else Ok((Apply(db, planned.effect), planned.result))
  {
    hide Run, Plan, Apply, Transact, Clashes, SchemaGuard.Blocks;
    var db, e := Run(calls), Plan(Run(calls), call.dir, call.command).value.effect;
    SchemaGuard.CommitsUnlessWorkerBusy(calls, call);
    EveryRunKeepsInv(calls);
    if call.command.RecordEvent? && FindExternal(db.events, call.command.record.externalKey).Some? {
      TerminalTickets.ReplayedEventWritesNothing(db, call.dir, call.command.record);
    } else {
      StoreLegality.CommandLegal(db, call.dir, call.command);
    }
    assert AppointmentRows(db) && StorePreservation.LegalAdding(db, e);
    BlocksByInstants(db, e);
  }
}
