/** The append-only records of every run: gap-free histories, and one published event for each
    change of status. */
module StoreHistories {
  import opened Domain
  import opened Commands
  import opened Appointments
  import opened RepairStore
  import opened StoreInvariants
  import opened RepairRuns
  import Schema
  import SchemaGuard

  /** In every run each ticket's history goes version by version from its creation as an open
      ticket to its current status and version, its rework count is the number of rows that order
      rework, and its status-changing rows are announced one by one in the outbox. */
  lemma TicketHistoryIsGapFree(calls: seq<Call>, t: Id)
    requires t < |Run(calls).tickets|
    ensures
      var db := Run(calls);
      var rows := History(db, t);
      && |rows| == db.tickets[t].version > 0
      && rows[0].from == None && rows[0].to == Open
      && (forall k :: 0 <= k < |rows| ==> rows[k].before == k && rows[k].after == k + 1)
      && (forall k :: 0 < k < |rows| ==> rows[k].from == Some(rows[k - 1].to))
      && rows[|rows| - 1].to == db.tickets[t].status
      && db.tickets[t].reworkCount == ReworkRows(rows)
      && AnnouncedBy(StatusEvents(db, t), StatusRows(rows))
  {
    hide Step;
    EveryRunKeepsInv(calls);
    var db := Run(calls);
    hide Run;
    assert HistoryTells(History(db, t), db.tickets[t]);
  }

  lemma AppointmentHistoryIsGapFree(calls: seq<Call>, a: Id)
    requires a < |Run(calls).appointments|
    ensures
      var db := Run(calls);
      var rows := AppointmentLog(db, a);
      && |rows| == db.appointments[a].version > 0
      && rows[0].from == None && rows[0].to == Booked
      && (forall k :: 0 <= k < |rows| ==> rows[k].before == k && rows[k].after == k + 1)
      && (forall k :: 0 < k < |rows| ==> rows[k].from == Some(rows[k - 1].to))
      && rows[|rows| - 1].to == db.appointments[a].status
  {
    hide Step;
    EveryRunKeepsInv(calls);
    var db := Run(calls);
    hide Run;
    assert AppointmentHistoryTells(AppointmentLog(db, a), db.appointments[a]);
  }

  /** No two outbox rows of a run share an event key. */
  lemma EventKeysNeverRepeat(calls: seq<Call>, j: nat, k: nat)
    requires j < k < |Run(calls).outbox|
    ensures Run(calls).outbox[j].EventKey() != Run(calls).outbox[k].EventKey()
  {
    hide Step;
    EveryRunKeepsInv(calls);
    assert EventKeysUnique(Run(calls));
    hide Run, Inv;
  }

  // ----- A booking that outlives its ticket's schedule -----

  const RESIDENT: Id := 1
  const OPERATOR: Id := 2

  function By(actorType: ActorType, actorId: Id, key: string): Metadata {
    Metadata(actorType, actorId, 0, key, 0, None, None, None, None)
  }

  function Facts(): Directory {
    Directory(map[OPERATOR := User(Operator, true)], {(RESIDENT, 7)}, (worker, property, skill, from, to) => true)
  }

  function Created(): Call {
    Call(Facts(), CreateTicket(CreateCommand(By(Resident, RESIDENT, "create"), RESIDENT, 7, WaterLeak, "sink", "drips", Low, false)))
  }

  function BookedOnce(): Call {
    Call(Facts(), Book(BookCommand(By(Resident, RESIDENT, "book"), 0, 3, 10, 20, 1)))
  }

  function EscalatedOnce(): Call {
    Call(Facts(), EscalateTicket(EscalateCommand(By(Operator, OPERATOR, "escalate"), 0, 2, "review", "needs review", ["note"])))
  }

  function ReworkApproved(): Call {
    Call(Facts(), Recover(RecoverCommand(By(Operator, OPERATOR, "recover"), 0, 3, ApproveRework, true, None, true, None, [])))
  }

  const OPENED := Ticket(RESIDENT, 7, WaterLeak, "sink", "drips", Low, Open, None, 0, 1, None, None)
  const BOOKING := Appointment(0, 3, InitialRepair, 10, 20, Booked, 1, None, None)

  /** A planned command that adds no booking, or the first one of all, commits. */
  lemma Commits(calls: seq<Call>, call: Call)
    requires Plan(Run(calls), call.dir, call.command).Ok?
    requires Run(calls).appointments == [] || Plan(Run(calls), call.dir, call.command).value.effect.adding.None?
    ensures Run(calls + [call]) == Apply(Run(calls), Plan(Run(calls), call.dir, call.command).value.effect)
  {
    hide Plan, Apply, Schema.Flush;
    assert (calls + [call])[..|calls|] == calls;
    SchemaGuard.CommitsUnlessWorkerBusy(calls, call);
  }

  lemma AfterCreation()
    ensures var db := Run([Created()]);
      db.tickets == [OPENED] && db.appointments == [] && db.events == []
  {
    assert Run([]) == EMPTY_DB;
    assert [] + [Created()] == [Created()];
    CreationIsPlanned();
    Commits([], Created());
  }

  lemma CreationIsPlanned()
    ensures var planned := Plan(EMPTY_DB, Facts(), Created().command);
      && planned.Ok? && planned.value.effect.ticketId == 0 && planned.value.effect.ticket == Some(OPENED)
      && planned.value.effect.adding == None && planned.value.effect.closing == None && planned.value.effect.event == None
  {
    assert Strip("sink") == "sink" && Strip("drips") == "drips";
  }

  lemma BookingIsPlanned(db: Db)
    requires db.tickets == [OPENED] && db.appointments == []
    ensures var planned := Plan(db, BookedOnce().dir, BookedOnce().command);
      && planned.Ok? && planned.value.effect.ticketId == 0
      && planned.value.effect.ticket == Some(OPENED.(status := Scheduled, version := 2))
      && planned.value.effect.adding == Some(BOOKING) && planned.value.effect.closing == None
      && planned.value.effect.event == None
  {
  }

  lemma AfterBooking()
    ensures var db := Run([Created(), BookedOnce()]);
      && db.tickets == [OPENED.(status := Scheduled, version := 2)]
      && db.appointments == [BOOKING] && db.events == []
  {
    hide Step, Run, Plan;
    AfterCreation();
    assert [Created()] + [BookedOnce()] == [Created(), BookedOnce()];
    BookingIsPlanned(Run([Created()]));
    hide Created, BookedOnce, EscalatedOnce, ReworkApproved;
    Commits([Created()], BookedOnce());
  }

  predicate ChangesOnlyTicket(e: Effect, ticket: Ticket) {
    e.ticketId == 0 && e.ticket == Some(ticket) && e.adding == None && e.closing == None && e.event == None
  }

  lemma EscalationIsPlanned(db: Db)
    requires db.tickets == [OPENED.(status := Scheduled, version := 2)]
    ensures var planned := Plan(db, EscalatedOnce().dir, EscalatedOnce().command);
      planned.Ok? && ChangesOnlyTicket(planned.value.effect, OPENED.(status := Escalated, version := 3, escalatedFrom := Some(Scheduled)))
  {
  }

  lemma ReworkIsPlanned(db: Db)
    requires db.tickets == [OPENED.(status := Escalated, version := 3, escalatedFrom := Some(Scheduled))]
    ensures var planned := Plan(db, ReworkApproved().dir, ReworkApproved().command);
      planned.Ok? && ChangesOnlyTicket(planned.value.effect, OPENED.(status := ReworkRequired, version := 4, reworkCount := 1))
  {
    hide Latest, Log;
  }

  lemma AfterEscalation()
    ensures var db := Run([Created(), BookedOnce(), EscalatedOnce()]);
      && db.tickets == [OPENED.(status := Escalated, version := 3, escalatedFrom := Some(Scheduled))]
      && db.appointments == [BOOKING] && db.events == []
  {
    hide Step, Run, Plan;
    AfterBooking();
    assert [Created(), BookedOnce()] + [EscalatedOnce()] == [Created(), BookedOnce(), EscalatedOnce()];
    EscalationIsPlanned(Run([Created(), BookedOnce()]));
    hide Created, BookedOnce, EscalatedOnce, ReworkApproved;
    Commits([Created(), BookedOnce()], EscalatedOnce());
  }

  /** Approving rework never looks at the appointment, so a ticket can be left waiting for rework
      with its booking still live; the other statuses that need no booking cannot. */
  lemma ReworkMayKeepItsBooking()
    ensures var db := Run([Created(), BookedOnce(), EscalatedOnce(), ReworkApproved()]);
      |db.tickets| == 1 && db.tickets[0].status == ReworkRequired && Live(db, 0, 0)
  {
    hide Step, Run, Plan;
    var calls := [Created(), BookedOnce(), EscalatedOnce()];
    AfterEscalation();
    assert calls + [ReworkApproved()] == [Created(), BookedOnce(), EscalatedOnce(), ReworkApproved()];
    ReworkIsPlanned(Run(calls));
    hide Created, BookedOnce, EscalatedOnce, ReworkApproved;
    Commits(calls, ReworkApproved());
  }
}
