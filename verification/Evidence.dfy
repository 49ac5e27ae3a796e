/** The authoritative answer to "did this operation commit?", read from the primary tables after
    the caller lost sight of a commit (reconciliation/evidence.py, reconciliation/validators.py). */
module Evidence {
  import opened Domain
  import opened Commands
  import opened RepairStore
  import opened RepairRuns
  import opened Execution
  import Tickets
  import WorkerEvents
  import Schema

  datatype Action = CreateAction | BookAction | RescheduleAction | EscalateAction

  /** The claim a recovering caller puts to the evidence query. */
  datatype Claim = Claim(
    operationId: OperationId, action: Action, digest: Digest, actorType: ActorType, actorId: Id,
    userId: Id, propertyId: Id, target: Option<Id>)

  datatype Verdict =
    | Denied | NotCommitted | Inconsistent
    | CommittedAs(resource: (ResourceType, Id), payload: StoredPayload)

  function ScopeOf(action: Action): Scope {
    match action
    case CreateAction => CreateScope
    case BookAction => BookScope
    case RescheduleAction => RescheduleScope
    case EscalateAction => EscalateScope
  }

  function EvidenceKind(action: Action): DomainEventType {
    match action
    case CreateAction => TicketCreated
    case BookAction => AppointmentBooked
    case RescheduleAction => AppointmentRescheduled
    case EscalateAction => TicketEscalated
  }

  predicate Authorized(dir: Directory, q: Claim) {
    && q.userId in dir.users && dir.users[q.userId].active
    && q.userId == q.actorId && dir.users[q.userId].role == q.actorType
    && (q.actorType == Operator || (q.actorType == Resident && dir.Linked(q.userId, q.propertyId)))
  }

  predicate HasEvent(outbox: seq<DomainEvent>, operationId: OperationId, kind: DomainEventType) {
    exists k :: 0 <= k < |outbox| && outbox[k].operationId == operationId && outbox[k].kind == kind
  }

  predicate HasAnyEvent(outbox: seq<DomainEvent>, operationId: OperationId) {
    exists k :: 0 <= k < |outbox| && outbox[k].operationId == operationId
  }

  predicate HasEscalationRow(history: seq<TicketRow>, ticketId: Id, actorId: Id, version: int) {
    exists k :: 0 <= k < |history| && history[k].ticketId == ticketId && history[k].action == Acted(Escalate)
      && history[k].actorType == Operator && history[k].actorId == actorId
      && history[k].after == version && history[k].to == Escalated
  }

  /** The ticket an action's resource belongs to. */
  function TicketOf(db: Db, action: Action, resourceId: Id): Option<Id> {
    if action in {CreateAction, EscalateAction} then
      if resourceId < |db.tickets| then Some(resourceId) else None
    else if resourceId < |db.appointments| && db.appointments[resourceId].ticketId < |db.tickets| then
      Some(db.appointments[resourceId].ticketId)
    else None
  }

  /** The version the resource has now. */
  function VersionOf(db: Db, action: Action, resourceId: Id): int
    requires TicketOf(db, action, resourceId).Some?
  {
    if action in {CreateAction, EscalateAction} then db.tickets[resourceId].version
    else db.appointments[resourceId].version
  }

  predicate TargetMatches(db: Db, q: Claim, ticketId: Id)
    requires ticketId < |db.tickets|
  {
    match q.action
    case CreateAction => q.target in {None, Some(db.tickets[ticketId].propertyId)}
    case RescheduleAction =>
      q.target.Some? && q.target.value < |db.appointments| && db.appointments[q.target.value].ticketId == ticketId
    case _ => q.target == Some(ticketId)
  }

  predicate EscalationEvidenced(db: Db, q: Claim, ticketId: Id, payload: StoredPayload)
    requires ticketId < |db.tickets|
  {
    && q.actorType == Operator && db.tickets[ticketId].status == Escalated
    && payload.data == StatusData(Escalated)
    && HasEscalationRow(db.ticketHistory, ticketId, q.actorId, db.tickets[ticketId].version)
  }

  predicate Matches(s: Store, q: Claim, record: Record) {
    && record.status == Succeeded
    && record.key.scope == ScopeOf(q.action)
    && record.key.actorType == q.actorType && record.key.actorId == q.actorId
    && record.digest == q.digest
    && record.payload.Some? && record.resource.Some?
    && var resourceId, payload := record.resource.value.1, record.payload.value;
       var ticketId := TicketOf(s.db, q.action, resourceId);
    && ticketId.Some?
    && s.db.tickets[ticketId.value].propertyId == q.propertyId
    && (q.actorType == Resident ==> s.db.tickets[ticketId.value].residentId == q.userId)
    && TargetMatches(s.db, q, ticketId.value)
    && (q.action == EscalateAction ==> EscalationEvidenced(s.db, q, ticketId.value, payload))
    && VersionOf(s.db, q.action, resourceId) == payload.version
    && HasEvent(s.db.outbox, q.operationId, EvidenceKind(q.action))
  }

  function OperationOutcome(s: Store, dir: Directory, q: Claim): Verdict {
    if !Authorized(dir, q) then Denied
    else
      var found := FindOperation(s.records, q.operationId);
      if found.None? then
        if HasAnyEvent(s.db.outbox, q.operationId) then Inconsistent else NotCommitted
      else
        var record := s.records[found.value];
        if Matches(s, q, record) then CommittedAs(record.resource.value, record.payload.value) else Inconsistent
  }

  // ----- Outbox rows belong to recorded operations -----

  ghost predicate OutboxOwned(s: Store) {
    forall k :: 0 <= k < |s.db.outbox| ==> FindOperation(s.records, s.db.outbox[k].operationId).Some?
  }

  lemma PlansPublishTheirOperation(db: Db, dir: Directory, command: Command)
    requires Plan(db, dir, command).Ok?
    ensures var outbox := Plan(db, dir, command).value.effect.outbox;
      forall k :: 0 <= k < |outbox| ==> outbox[k].operationId == command.OperationId()
  {
    hide Tickets.TransitionTicket, Tickets.RecoverEscalated, Tickets.PlanCreation, WorkerEvents.ValidateWorkerEvent,
      Latest, Log, FindExternal, HasExactOpenMatch, CloseByEvent;
  }

  lemma FindOperationAppend(records: seq<Record>, record: Record, op: OperationId)
    ensures FindOperation(records + [record], op).Some? <==>
      FindOperation(records, op).Some? || record.operationId == op
  {
    assert (records + [record])[..|records|] == records;
  }

  lemma {:induction false} OutboxAlwaysOwned(calls: seq<Call>)
    ensures OutboxOwned(After(calls))
  {
    if calls != [] {
      var last := |calls| - 1;
      var s, call := After(calls[..last]), calls[last];
      OutboxAlwaysOwned(calls[..last]);
      hide Transact;
      OnlyCommitsWrite(s, call);
      if Commits(s, call) {
        CommitKeepsOwned(s, call);
      }
    }
  }

  lemma CommitWrites(s: Store, call: Call)
    requires Commits(s, call)
    ensures Plan(s.db, call.dir, call.command).Ok?
    ensures Execute(s, call).0.db.outbox == s.db.outbox + Plan(s.db, call.dir, call.command).value.effect.outbox
    ensures Execute(s, call).0.records == s.records + [SuccessRecord(call.command, Transact(s.db, call).value.1)]
  {
    hide Plan, Schema.Flush;
  }

  lemma CommitKeepsOwned(s: Store, call: Call)
    requires OutboxOwned(s) && Commits(s, call)
    ensures OutboxOwned(Execute(s, call).0)
  {
    CommitWrites(s, call);
    PlansPublishTheirOperation(s.db, call.dir, call.command);
    hide Plan, Transact, Execute, Commits;
    var record := SuccessRecord(call.command, Transact(s.db, call).value.1);
    var after := Execute(s, call).0;
    forall k | 0 <= k < |after.db.outbox| ensures FindOperation(after.records, after.db.outbox[k].operationId).Some? {
      FindOperationAppend(s.records, record, after.db.outbox[k].operationId);
    }
  }

  /** `op` committed somewhere in the run. */
  predicate CommittedOperation(calls: seq<Call>, op: OperationId) {
    exists k :: 0 <= k < |Committed(calls)| && Committed(calls)[k].command.OperationId() == op
  }

  lemma RecordedMeansCommitted(calls: seq<Call>, op: OperationId)
    ensures FindOperation(After(calls).records, op).Some? <==> CommittedOperation(calls, op)
  {
    EveryStoreTells(calls);
    hide Committed, After;
    var s, committed := After(calls), Committed(calls);
    forall k | 0 <= k < |committed| ensures s.records[k].operationId == committed[k].command.OperationId() {
      RecordKey(s, committed, k);
    }
  }

  /** The query says "not committed" exactly when no call of that operation ever committed; so a
      committed operation is always answered as committed or as inconsistent. */
  lemma AbsenceIsAuthoritative(calls: seq<Call>, dir: Directory, q: Claim)
    requires Authorized(dir, q)
    ensures OperationOutcome(After(calls), dir, q) == NotCommitted <==> !CommittedOperation(calls, q.operationId)
    ensures CommittedOperation(calls, q.operationId) ==>
      OperationOutcome(After(calls), dir, q).CommittedAs? || OperationOutcome(After(calls), dir, q) == Inconsistent
  {
    OutboxAlwaysOwned(calls);
    RecordedMeansCommitted(calls, q.operationId);
    hide After, Matches, CommittedOperation, FindOperation;
  }

  /** The claim names the ticket the resource belongs to, and its property, and for a resident the
      resident; a reschedule is named by any appointment of that ticket. */
  predicate Targets(db: Db, q: Claim, resource: Id) {
    match q.action
    case CreateAction =>
      && resource < |db.tickets| && Concerns(q, db.tickets[resource])
      && (q.target.Some? ==> q.target.value == db.tickets[resource].propertyId)
    case BookAction =>
      && resource < |db.appointments| && db.appointments[resource].ticketId < |db.tickets|
      && Concerns(q, db.tickets[db.appointments[resource].ticketId])
      && q.target.Some? && q.target.value == db.appointments[resource].ticketId
    case RescheduleAction =>
      && resource < |db.appointments| && db.appointments[resource].ticketId < |db.tickets|
      && Concerns(q, db.tickets[db.appointments[resource].ticketId])
      && q.target.Some? && q.target.value < |db.appointments|
      && db.appointments[q.target.value].ticketId == db.appointments[resource].ticketId
    case EscalateAction =>
      && resource < |db.tickets| && Concerns(q, db.tickets[resource]) && q.actorType == Operator
      && q.target.Some? && q.target.value == resource
  }

  predicate Concerns(q: Claim, ticket: Ticket) {
    ticket.propertyId == q.propertyId && (q.actorType == Resident ==> ticket.residentId == q.userId)
  }

  /** The `k`-th committed call is the claimed one, the claim names what it wrote, and `verdict`
      repeats its result. */
  predicate Vouches(committed: seq<Call>, k: nat, q: Claim, verdict: Verdict)
    requires k < |committed|
  {
    && ResultOf(committed, k).Ok?
    && var command, result := committed[k].command, ResultOf(committed, k).value.1;
    && command.OperationId() == q.operationId && command.Scope() == ScopeOf(q.action)
    && command.Meta().actorType == q.actorType && command.Meta().actorId == q.actorId
    && command.Digest() == q.digest
    && verdict == CommittedAs((result.resourceType, result.resourceId),
                              StoredPayload(result.code, result.resourceVersion, result.data))
    && Targets(Run(committed), q, result.resourceId)
  }

  /** "Committed" is never said of anything but a committed call with the claimed operation,
      scope, actor and fingerprint, whose target, property and resident are the claimed ones, and
      it returns that call's own result. */
  lemma CommittedIsSound(calls: seq<Call>, dir: Directory, q: Claim)
    requires OperationOutcome(After(calls), dir, q).CommittedAs?
    ensures Authorized(dir, q)
    ensures exists k :: 0 <= k < |Committed(calls)| && Vouches(Committed(calls), k, q, OperationOutcome(After(calls), dir, q))
  {
    EveryStoreTells(calls);
    hide Committed, After, Transact, Run;
    var s, committed := After(calls), Committed(calls);
    var k := FindOperation(s.records, q.operationId).value;
    assert ResultOf(committed, k).Ok? && Matches(s, q, s.records[k]);
    assert Vouches(committed, k, q, OperationOutcome(s, dir, q));
  }
}
