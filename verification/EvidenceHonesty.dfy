/** When the evidence query confirms a committed operation: exactly while the resource the
    operation wrote is still at the version it wrote. */
module EvidenceHonesty {
  import opened Domain
  import opened Commands
  import opened Appointments
  import opened RepairStore
  import opened StoreInvariants
  import opened RepairRuns
  import opened Execution
  import opened Evidence
  import StorePreservation
  import TerminalTickets
  import Tickets
  import Schema

  // ----- What later commits cannot undo -----

  ghost predicate TicketsExtend(before: seq<Ticket>, after: seq<Ticket>) {
    && |before| <= |after|
    && (forall t :: 0 <= t < |before| ==>
          && after[t].residentId == before[t].residentId && after[t].propertyId == before[t].propertyId
          && before[t].version <= after[t].version
          && (before[t].version == after[t].version ==> after[t] == before[t]))
  }

  ghost predicate AppointmentsExtend(before: seq<Appointment>, after: seq<Appointment>) {
    && |before| <= |after|
    && (forall a :: 0 <= a < |before| ==>
          after[a].ticketId == before[a].ticketId && before[a].version <= after[a].version)
  }

  ghost predicate Extends(db: Db, after: Db) {
    && TicketsExtend(db.tickets, after.tickets) && AppointmentsExtend(db.appointments, after.appointments)
    && db.outbox <= after.outbox && db.ticketHistory <= after.ticketHistory
  }

  lemma EffectExtends(db: Db, command: Command, e: Effect)
    requires TerminalTickets.Applied(db, command, e)
    ensures Extends(db, Apply(db, e))
  {
    StorePreservation.AppointmentsAfter(db, e);
    StorePreservation.TicketsAfter(db, e);
  }

  lemma StepExtends(db: Db, call: Call)
    requires Inv(db)
    ensures Extends(db, Step(db, call))
  {
    hide Step, Inv, Extends, Apply, TerminalTickets.Applied;
    ExtendsSelf(db);
    var e := TerminalTickets.StepCases(db, call);
    if Step(db, call) != db {
      EffectExtends(db, call.command, e);
    }
  }

  lemma ExtendsSelf(db: Db)
    ensures Extends(db, db)
  {
  }

  // ----- What a commit leaves behind -----

  /** The footprint of a committed call whose outcome can be asked for. */
  ghost predicate Landed(db: Db, c: Command, r: OperationResult) {
    var m, id := c.Meta(), r.resourceId;
    match c
    case CreateTicket(x) =>
      && r.resourceType == TicketResource && id < |db.tickets|
      && db.tickets[id].propertyId == x.propertyId
      && (m.actorType == Resident ==> db.tickets[id].residentId == m.actorId)
      && HasEvent(db.outbox, c.OperationId(), TicketCreated)
    case Book(x) =>
      && r.resourceType == AppointmentResource && id < |db.appointments|
      && x.ticketId < |db.tickets| && db.appointments[id].ticketId == x.ticketId
      && (m.actorType == Resident ==> db.tickets[x.ticketId].residentId == m.actorId)
      && HasEvent(db.outbox, c.OperationId(), AppointmentBooked)
    case Move(x) =>
      && r.resourceType == AppointmentResource && id < |db.appointments|
      && x.ticketId < |db.tickets| && db.appointments[id].ticketId == x.ticketId
      && x.appointmentId < |db.appointments| && db.appointments[x.appointmentId].ticketId == x.ticketId
      && (m.actorType == Resident ==> db.tickets[x.ticketId].residentId == m.actorId)
      && HasEvent(db.outbox, c.OperationId(), AppointmentRescheduled)
    case EscalateTicket(x) =>
      && r.resourceType == TicketResource && id == x.ticketId < |db.tickets|
      && r.data == StatusData(Escalated) && m.actorType in {Operator, System}
      && r.resourceVersion <= db.tickets[id].version
      && (r.resourceVersion == db.tickets[id].version ==> db.tickets[id].status == Escalated)
      && (m.actorType == Operator ==> HasEscalationRow(db.ticketHistory, id, m.actorId, r.resourceVersion))
      && HasEvent(db.outbox, c.OperationId(), TicketEscalated)
    case _ => true
  }

  lemma HasEventStays(outbox: seq<DomainEvent>, later: seq<DomainEvent>, op: OperationId, kind: DomainEventType)
    requires HasEvent(outbox, op, kind) && outbox <= later
    ensures HasEvent(later, op, kind)
  {
    var k :| 0 <= k < |outbox| && outbox[k].operationId == op && outbox[k].kind == kind;
    assert later[k] == outbox[k];
  }

  lemma EscalationRowStays(history: seq<TicketRow>, later: seq<TicketRow>, t: Id, actor: Id, version: int)
    requires HasEscalationRow(history, t, actor, version) && history <= later
    ensures HasEscalationRow(later, t, actor, version)
  {
    var k :| 0 <= k < |history| && history[k].ticketId == t && history[k].action == Acted(Escalate)
      && history[k].actorType == Operator && history[k].actorId == actor
      && history[k].after == version && history[k].to == Escalated;
    assert later[k] == history[k];
  }

  lemma LandedStays(db: Db, after: Db, c: Command, r: OperationResult)
    requires Landed(db, c, r) && Extends(db, after)
    ensures Landed(after, c, r)
  {
    hide HasEvent, HasEscalationRow;
    match c
    case CreateTicket(_) => HasEventStays(db.outbox, after.outbox, c.OperationId(), TicketCreated);
    case Book(_) => HasEventStays(db.outbox, after.outbox, c.OperationId(), AppointmentBooked);
    case Move(_) => HasEventStays(db.outbox, after.outbox, c.OperationId(), AppointmentRescheduled);
    case EscalateTicket(x) =>
      HasEventStays(db.outbox, after.outbox, c.OperationId(), TicketEscalated);
      if c.Meta().actorType == Operator {
        EscalationRowStays(db.ticketHistory, after.ticketHistory, x.ticketId, c.Meta().actorId, r.resourceVersion);
      }
    case _ =>
  }

  lemma CreateLands(db: Db, dir: Directory, c: CreateCommand)
    requires PlanCreate(db, dir, c).Ok?
    ensures var p := PlanCreate(db, dir, c).value; Landed(Apply(db, p.effect), CreateTicket(c), p.result)
  {
    hide HasExactOpenMatch;
    var after := Apply(db, PlanCreate(db, dir, c).value.effect);
    assert after.outbox[|db.outbox|].kind == TicketCreated;
  }

  lemma BookLands(db: Db, dir: Directory, c: BookCommand)
    requires PlanBook(db, dir, c).Ok?
    ensures var p := PlanBook(db, dir, c).value; Landed(Apply(db, p.effect), Book(c), p.result)
  {
    hide Latest;
    var after := Apply(db, PlanBook(db, dir, c).value.effect);
    assert after.outbox[|db.outbox| + 1].kind == AppointmentBooked;
  }

  lemma MoveLands(db: Db, dir: Directory, c: RescheduleCommand)
    requires PlanMove(db, dir, c).Ok?
    ensures var p := PlanMove(db, dir, c).value; Landed(Apply(db, p.effect), Move(c), p.result)
  {
    hide Tickets.TransitionTicket;
    var after := Apply(db, PlanMove(db, dir, c).value.effect);
    assert after.outbox[|db.outbox|].kind == AppointmentRescheduled;
  }

  lemma EscalateLands(db: Db, dir: Directory, c: EscalateCommand)
    requires PlanEscalate(db, dir, c).Ok?
    ensures var p := PlanEscalate(db, dir, c).value; Landed(Apply(db, p.effect), EscalateTicket(c), p.result)
  {
    hide Tickets.TransitionTicket;
    Tickets.EscalationSavesPrior(
      Requested(db.tickets[c.ticketId], Escalate, c.meta, c.ticketVersion).(
        escalationReason := Some(c.reasonText), evidence := c.evidence));
    var after := Apply(db, PlanEscalate(db, dir, c).value.effect);
    assert after.outbox[|db.outbox| + 1].kind == TicketEscalated;
    assert after.ticketHistory[|db.ticketHistory|].action == Acted(Escalate);
  }

  lemma PlanLands(db: Db, dir: Directory, c: Command)
    requires Plan(db, dir, c).Ok?
    ensures var p := Plan(db, dir, c).value; Landed(Apply(db, p.effect), c, p.result)
  {
    hide Landed, Apply, PlanCreate, PlanBook, PlanMove, PlanEvent, PlanReview, PlanEscalate, PlanRecover;
    match c
    case CreateTicket(x) => CreateLands(db, dir, x);
    case Book(x) => BookLands(db, dir, x);
    case Move(x) => MoveLands(db, dir, x);
    case EscalateTicket(x) => EscalateLands(db, dir, x);
    case _ => NothingToLand(Apply(db, Plan(db, dir, c).value.effect), c, Plan(db, dir, c).value.result);
  }

  lemma NothingToLand(db: Db, c: Command, r: OperationResult)
    requires c.RecordEvent? || c.Review? || c.Recover?
    ensures Landed(db, c, r)
  {
  }

  lemma TransactLands(db: Db, call: Call)
    requires Transact(db, call).Ok?
    ensures Landed(Step(db, call), call.command, Transact(db, call).value.1)
  {
    hide Landed, Plan, Schema.Flush, Apply;
    PlanLands(db, call.dir, call.command);
  }

  /** Every committed call's footprint is still there at the end of the run. */
  lemma {:induction false} CommittedCallsLanded(committed: seq<Call>, k: nat)
    requires k < |committed| && ResultOf(committed, k).Ok?
    ensures Landed(Run(committed), committed[k].command, ResultOf(committed, k).value.1)
    decreases |committed|
  {
    hide Landed, Extends, Transact, Step, Inv;
    var last := |committed| - 1;
    var before, call := committed[..last], committed[last];
    assert Run(committed) == Step(Run(before), call);
    if k == last {
      TransactLands(Run(before), call);
    } else {
      assert before[..k] == committed[..k] && before[k] == committed[k];
      CommittedCallsLanded(before, k);
      EveryRunKeepsInv(before);
      StepExtends(Run(before), call);
      LandedStays(Run(before), Run(committed), committed[k].command, ResultOf(committed, k).value.1);
    }
  }

  // ----- Honest claims -----

  /** A claim that describes `c` as it was submitted. */
  predicate Describes(q: Claim, c: Command, db: Db) {
    var m := c.Meta();
    && q.operationId == c.OperationId() && ScopeOf(q.action) == c.Scope() && q.digest == c.Digest()
    && q.actorType == m.actorType && q.actorId == m.actorId && q.userId == m.actorId
    && match c
       case CreateTicket(x) => q.propertyId == x.propertyId && q.target in {None, Some(x.propertyId)}
       case Book(x) => OnTicket(q, x.ticketId, db) && q.target == Some(x.ticketId)
       case Move(x) => OnTicket(q, x.ticketId, db) && q.target == Some(x.appointmentId)
       case EscalateTicket(x) => OnTicket(q, x.ticketId, db) && q.target == Some(x.ticketId)
       case _ => false
  }

  predicate OnTicket(q: Claim, ticketId: Id, db: Db) {
    ticketId < |db.tickets| && q.propertyId == db.tickets[ticketId].propertyId
  }

  lemma DescribedRecordMatches(s: Store, dir: Directory, q: Claim, c: Command, r: OperationResult)
    requires Landed(s.db, c, r) && Describes(q, c, s.db) && Authorized(dir, q)
    ensures TicketOf(s.db, q.action, r.resourceId).Some?
    ensures Matches(s, q, SuccessRecord(c, r)) <==> VersionOf(s.db, q.action, r.resourceId) == r.resourceVersion
  {
    hide HasEvent, HasEscalationRow;
  }

  /** Whoever honestly describes a committed call, and is authorised to ask, is told that it
      committed exactly while the resource it wrote is still at the version it wrote; once the
      resource has moved on, the answer is "inconsistent". */
  lemma HonestClaimConfirmedWhileUnmoved(calls: seq<Call>, dir: Directory, q: Claim, k: nat)
    requires k < |Committed(calls)| && Authorized(dir, q)
    requires Describes(q, Committed(calls)[k].command, After(calls).db)
    ensures ResultOf(Committed(calls), k).Ok?
    ensures
      var db := After(calls).db;
      var result := ResultOf(Committed(calls), k).value.1;
      && TicketOf(db, q.action, result.resourceId).Some?
      && OperationOutcome(After(calls), dir, q)
         == if VersionOf(db, q.action, result.resourceId) == result.resourceVersion
            then CommittedAs((result.resourceType, result.resourceId),
                             StoredPayload(result.code, result.resourceVersion, result.data))
            else Inconsistent
  {
    EveryStoreTells(calls);
    hide Committed, After, Transact, Run, Matches, Describes, Authorized, Landed;
    var s, committed := After(calls), Committed(calls);
    assert ResultOf(committed, k).Ok?;
    CommittedCallsLanded(committed, k);
    DescribedRecordMatches(s, dir, q, committed[k].command, ResultOf(committed, k).value.1);
    RecordKey(s, committed, k);
    DescribedOperation(q, committed[k].command, s.db);
    var found := FindOperation(s.records, q.operationId);
    RecordKey(s, committed, found.value);
    assert found.value == k;
  }

  lemma DescribedOperation(q: Claim, c: Command, db: Db)
    requires Describes(q, c, db)
    ensures q.operationId == c.OperationId()
  {
  }
}
