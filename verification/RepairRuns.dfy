/** Whole runs of the repair store: any list of commands, from the empty store, each committed
    as one transaction or refused without a trace. */
module RepairRuns {
  import opened Domain
  import opened Commands
  import opened WorkerEvents
  import opened RepairStore
  import opened StoreInvariants
  import opened Schema
  import StoreLegality
  import StorePreservation
  import Tickets

  /** A command together with the directory facts in force when it arrives. */
  datatype Call = Call(dir: Directory, command: Command)

  /** One transaction: the handler's writes and answer, unless a rule or the schema refuses them. */
  function Transact(db: Db, call: Call): Result<(Db, OperationResult)> {
    var planned :- Plan(db, call.dir, call.command);
    var after := Apply(db, planned.effect);
    :- Flush(after);
    Ok((after, planned.result))
  }

  function Step(db: Db, call: Call): Db {
    var outcome := Transact(db, call);
    if outcome.Ok? then outcome.value.0 else db
  }

  function Run(calls: seq<Call>): Db {
    if calls == [] then EMPTY_DB else Step(Run(calls[..|calls| - 1]), calls[|calls| - 1])
  }

  // ----- Every run -----

  lemma StepKeepsInv(db: Db, call: Call)
    requires Inv(db)
    ensures Inv(Step(db, call))
  {
    hide Inv, Plan, Apply, Flush;
    if Plan(db, call.dir, call.command).Ok? {
      StoreLegality.PlanKeepsInv(db, call.dir, call.command);
    }
  }

  lemma {:induction false} EveryRunKeepsInv(calls: seq<Call>)
    ensures Inv(Run(calls))
  {
    hide Inv, Step;
    if calls == [] {
      EmptyStoreInv();
    } else {
      EveryRunKeepsInv(calls[..|calls| - 1]);
      StepKeepsInv(Run(calls[..|calls| - 1]), calls[|calls| - 1]);
    }
  }

  // ----- Bookings -----

  /** `i` is a live booking of ticket `t`. */
  predicate Live(db: Db, t: Id, i: Id) {
    i < |db.appointments| && db.appointments[i].ticketId == t && db.appointments[i].status == Booked
  }

  predicate HasLive(db: Db, t: Id) {
    exists i :: 0 <= i < |db.appointments| && Live(db, t, i)
  }

  lemma LiveIsLatest(db: Db, t: Id)
    requires Inv(db)
    ensures HasLive(db, t) <==> LatestStatus(db, t) == Some(Booked)
    ensures forall i: Id :: Live(db, t, i) ==> Latest(db.appointments, t) == Some(i)
  {
    hide HistoriesTell, AppointmentHistoriesTell, LogsLegal, LinksLegal, Published, EventIdentities, EventKeysUnique, TicketsAgree;
    var latest := Latest(db.appointments, t);
    if LatestStatus(db, t) == Some(Booked) {
      assert Live(db, t, latest.value);
    }
  }

  /** In every run a ticket has at most one live booking and it is the last appointment created
      for it; there is one while the ticket is scheduled or in progress, and none while it is
      open, pending acceptance, cancelled or closed. */
  lemma BookingsFollowTicketStatus(calls: seq<Call>, t: Id)
    requires t < |Run(calls).tickets|
    ensures var db := Run(calls);
      && (forall i: Id, j: Id :: Live(db, t, i) && Live(db, t, j) ==> i == j)
      && (forall i: Id :: Live(db, t, i) ==> Latest(db.appointments, t) == Some(i))
      && (db.tickets[t].status in {Scheduled, InProgress} ==> HasLive(db, t))
      && (db.tickets[t].status in {Open, PendingAcceptance, Cancelled, Closed} ==> !HasLive(db, t))
  {
    hide Step;
    EveryRunKeepsInv(calls);
    var db := Run(calls);
    hide Run;
    LiveIsLatest(db, t);
    assert Agrees(db.tickets[t].status, LatestStatus(db, t), LatestLog(db, t));
  }

  /** What the two working statuses say about the visit in hand. */
  lemma WorkFollowsVisit(calls: seq<Call>, t: Id)
    requires t < |Run(calls).tickets|
    ensures var db := Run(calls);
      && (db.tickets[t].status == Scheduled ==> Started !in LatestLog(db, t))
      && (db.tickets[t].status == InProgress ==> LastEvent(LatestLog(db, t)) == Some(Started))
      && (db.tickets[t].status == PendingAcceptance ==>
            LatestStatus(db, t) == Some(Fulfilled) && LastEvent(LatestLog(db, t)) == Some(Completed))
  {
    hide Step;
    EveryRunKeepsInv(calls);
    var db := Run(calls);
    hide Run;
    assert Agrees(db.tickets[t].status, LatestStatus(db, t), LatestLog(db, t));
  }

  // ----- Event logs -----

  lemma StartsOnce(log: seq<EventType>)
    requires LegalLog(log)
    ensures forall i, j :: 0 <= i < j < |log| && log[i] == Started ==> log[j] in {Completed, FailedToComplete}
  {
    if OpenLog(log) {
      OpenLogFacts(log);
    } else {
      ClosedLogFacts(log);
      OpenLogFacts(log[..|log| - 1]);
      assert forall k :: 0 <= k < |log| - 1 ==> log[k] == log[..|log| - 1][k];
    }
    if !Travel(log) && log[|log| - 1] == Started {
      assert forall k :: 0 <= k < |log| - 1 ==> log[k] == log[..|log| - 1][k];
    }
  }

  /** In every run each visit's log is a word of the fixed language, so it has at most five
      events, nothing but its completion or failure follows a start, and nothing follows a
      terminal event. Sequence numbers count the visit's events from one. */
  lemma EveryLogIsLegal(calls: seq<Call>, a: Id)
    requires a < |Run(calls).appointments|
    ensures var log := Log(Run(calls).events, a);
      && LegalLog(log) && |log| <= 5
      && (forall i, j :: 0 <= i < j < |log| && log[i] == Started ==> log[j] in {Completed, FailedToComplete})
      && (forall i :: 0 <= i < |log| - 1 ==> !TerminalEvent(log[i]))
      && (Run(calls).appointments[a].status == Booked ==> OpenLog(log))
  {
    hide Step;
    EveryRunKeepsInv(calls);
    var db := Run(calls);
    hide Run;
    var log := Log(db.events, a);
    assert LegalLog(log) && StatusFitsLog(db.appointments[a].status, log);
    hide Inv, Log;
    StartsOnce(log);
    ClosedLogFacts(log);
    OpenLogFacts(if OpenLog(log) then log else log[..|log| - 1]);
  }

  // ----- Escalation -----

  lemma RecoverFound(db: Db, dir: Directory, c: RecoverCommand)
    requires PlanRecover(db, dir, c).Ok?
    ensures c.ticketId < |db.tickets|
  {
    hide Tickets.RecoverEscalated;
  }

  /** In every run a ticket is escalated exactly when it remembers the status it was escalated
      from, which is one of the five working statuses; so recovery, which never reads the
      status, is planned only for escalated tickets, and leaves every other ticket alone. */
  lemma RecoveryNeedsEscalation(calls: seq<Call>, dir: Directory, c: RecoverCommand)
    ensures var db := Run(calls);
      && (forall t :: 0 <= t < |db.tickets| ==>
            && (db.tickets[t].status == Escalated <==> db.tickets[t].escalatedFrom.Some?)
            && (db.tickets[t].escalatedFrom.Some? ==> Escalatable(db.tickets[t].escalatedFrom.value)))
      && (PlanRecover(db, dir, c).Ok? ==>
            c.ticketId < |db.tickets| && db.tickets[c.ticketId].status == Escalated)
  {
    hide Step;
    EveryRunKeepsInv(calls);
    var db := Run(calls);
    hide Run, PlanRecover;
    assert TicketRows(db) && LogsLegal(db);
    hide Inv, LogsLegal, StorePreservation.Legal;
    assert forall t :: 0 <= t < |db.tickets| ==> EscalationConsistent(db.tickets[t]);
    if PlanRecover(db, dir, c).Ok? {
      RecoverFound(db, dir, c);
      StoreLegality.RecoverLegal(db, dir, c);
    }
  }
}
