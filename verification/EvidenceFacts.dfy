/** Who may ask for evidence, and exactly when the answer is "committed", for honest and dishonest
    claims alike (reconciliation/evidence.py). */
module EvidenceFacts {
  import opened Domain
  import opened Commands
  import opened RepairStore
  import opened RepairRuns
  import opened Execution
  import opened Evidence
  import opened EvidenceHonesty

  /** An active user asks about itself, under its own role: an operator about anything, a resident about
      a property it occupies, others about nothing. */
  lemma WhoMayAsk(calls: seq<Call>, dir: Directory, q: Claim)
    ensures OperationOutcome(After(calls), dir, q) == Denied <==>
      !(&& q.userId in dir.users && dir.users[q.userId] == User(q.actorType, true) && q.userId == q.actorId
        && (q.actorType == Operator || (q.actorType == Resident && (q.userId, q.propertyId) in dir.occupancies)))
  {
    hide After, Matches;
  }

  /** The command is of the kind the claim names. */
  predicate SameKind(command: Command, action: Action) {
    match action
    case CreateAction => command.CreateTicket?
    case BookAction => command.Book?
    case RescheduleAction => command.Move?
    case EscalateAction => command.EscalateTicket?
  }

  /** The resource an operation wrote is still at the version it wrote. */
  predicate Unmoved(db: Db, r: OperationResult) {
    match r.resourceType
    case TicketResource => r.resourceId < |db.tickets| && db.tickets[r.resourceId].version == r.resourceVersion
    case AppointmentResource => r.resourceId < |db.appointments| && db.appointments[r.resourceId].version == r.resourceVersion
    case WorkerEventResource => false
  }

  /** The `k`-th committed call is the claimed one, as far as the claim goes. */
  predicate Claimed(committed: seq<Call>, k: nat, q: Claim)
    requires k < |committed|
  {
    var command := committed[k].command;
    && ResultOf(committed, k).Ok?
    && SameKind(command, q.action) && command.OperationId() == q.operationId && command.Digest() == q.digest
    && command.Meta().actorType == q.actorType && command.Meta().actorId == q.actorId
    && Targets(Run(committed), q, ResultOf(committed, k).value.1.resourceId)
  }

  lemma RecordOfCommitted(s: Store, committed: seq<Call>, q: Claim, k: nat)
    requires RecordsTell(s, committed) && k < |committed| && ResultOf(committed, k).Ok?
    requires Landed(s.db, committed[k].command, ResultOf(committed, k).value.1)
    ensures
      var command, r := committed[k].command, ResultOf(committed, k).value.1;
      Matches(s, q, SuccessRecord(command, r)) <==>
        && SameKind(command, q.action) && command.Digest() == q.digest
        && command.Meta().actorType == q.actorType && command.Meta().actorId == q.actorId
        && Targets(s.db, q, r.resourceId) && Unmoved(s.db, r) && HasEvent(s.db.outbox, q.operationId, EvidenceKind(q.action))
  {
    hide Transact, Run, RecordsTell, ResultOf, HasEvent, HasEscalationRow;
    assert q.target == if q.target.Some? then Some(q.target.value) else None;
  }

  /** An authorised question is answered "committed" exactly when some committed call is the claimed
      one and what it wrote has not moved on; the answer is that call's own result. */
  lemma ConfirmedExactly(calls: seq<Call>, dir: Directory, q: Claim)
    requires Authorized(dir, q)
    ensures OperationOutcome(After(calls), dir, q).CommittedAs? <==>
      exists k :: 0 <= k < |Committed(calls)| && Claimed(Committed(calls), k, q)
                  && Unmoved(After(calls).db, ResultOf(Committed(calls), k).value.1)
    ensures forall k :: 0 <= k < |Committed(calls)| && Claimed(Committed(calls), k, q)
                        && Unmoved(After(calls).db, ResultOf(Committed(calls), k).value.1) ==>
      var r := ResultOf(Committed(calls), k).value.1;
      OperationOutcome(After(calls), dir, q)
        == CommittedAs((r.resourceType, r.resourceId), StoredPayload(r.code, r.resourceVersion, r.data))
  {
    EveryStoreTells(calls);
    hide Committed, After, Transact, Run, Authorized, Targets, Landed, Unmoved, HasEvent, Matches;
    var s, committed := After(calls), Committed(calls);
    var found := FindOperation(s.records, q.operationId);
    if found.Some? {
      assert ResultOf(committed, found.value).Ok?;
      RecordKey(s, committed, found.value);
      CommittedCallsLanded(committed, found.value);
      RecordOfCommitted(s, committed, q, found.value);
      if SameKind(committed[found.value].command, q.action) {
        EventOfLanded(s.db, committed[found.value].command, ResultOf(committed, found.value).value.1, q);
      }
    }
    forall k | 0 <= k < |committed| && Claimed(committed, k, q) ensures found == Some(k) {
      RecordKey(s, committed, k);
    }
  }

  lemma EventOfLanded(db: Db, command: Command, r: OperationResult, q: Claim)
    requires Landed(db, command, r) && SameKind(command, q.action) && command.OperationId() == q.operationId
    ensures HasEvent(db.outbox, q.operationId, EvidenceKind(q.action))
  {
  }
}
