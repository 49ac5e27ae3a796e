/** What a retry key, an operation id and a request digest tell apart, field by field
    (application/service_support.py, application/events.py). */
module DigestFacts {
  import opened Domain
  import opened Commands
  import opened RepairRuns
  import opened Execution

  /** Both commands ask for the same use case. */
  predicate SameUseCase(a: Command, b: Command) {
    || (a.CreateTicket? && b.CreateTicket?) || (a.Book? && b.Book?) || (a.Move? && b.Move?)
    || (a.RecordEvent? && b.RecordEvent?) || (a.Review? && b.Review?)
    || (a.EscalateTicket? && b.EscalateTicket?) || (a.Recover? && b.Recover?)
  }

  /** All of the metadata but retry key, trace id and clock reading. */
  predicate SameMetadata(m: Metadata, n: Metadata) {
    && m.actorType == n.actorType && m.actorId == n.actorId && m.runId == n.runId && m.threadId == n.threadId
    && m.operationId == n.operationId && m.fingerprint == n.fingerprint
  }

  predicate SameCreation(x: CreateCommand, y: CreateCommand) {
    && x.residentId == y.residentId && x.propertyId == y.propertyId && x.category == y.category
    && x.location == y.location && x.description == y.description && x.severity == y.severity
    && x.allowDuplicate == y.allowDuplicate
  }

  predicate SameBooking(x: BookCommand, y: BookCommand) {
    && x.ticketId == y.ticketId && x.workerId == y.workerId && x.startsAt == y.startsAt && x.endsAt == y.endsAt
    && x.ticketVersion == y.ticketVersion
  }

  predicate SameMove(x: RescheduleCommand, y: RescheduleCommand) {
    && x.ticketId == y.ticketId && x.appointmentId == y.appointmentId && x.workerId == y.workerId
    && x.startsAt == y.startsAt && x.endsAt == y.endsAt
    && x.ticketVersion == y.ticketVersion && x.appointmentVersion == y.appointmentVersion
  }

  predicate SameEvent(x: EventCommand, y: EventCommand) {
    && x.ticketId == y.ticketId && x.appointmentId == y.appointmentId && x.workerId == y.workerId
    && x.event == y.event && x.externalKey == y.externalKey
    && x.ticketVersion == y.ticketVersion && x.appointmentVersion == y.appointmentVersion
    && x.cancellation == y.cancellation && x.noShow == y.noShow && x.reasonText == y.reasonText
    && x.evidence == y.evidence && x.failureReason == y.failureReason && x.statement == y.statement
  }

  predicate SameReview(x: ReviewCommand, y: ReviewCommand) {
    && x.ticketId == y.ticketId && x.ticketVersion == y.ticketVersion && x.accepted == y.accepted
    && x.appointmentVersion == y.appointmentVersion && x.rejection == y.rejection && x.explanation == y.explanation
  }

  predicate SameEscalation(x: EscalateCommand, y: EscalateCommand) {
    && x.ticketId == y.ticketId && x.ticketVersion == y.ticketVersion && x.reasonCode == y.reasonCode
    && x.reasonText == y.reasonText && x.evidence == y.evidence
  }

  predicate SameRecovery(x: RecoverCommand, y: RecoverCommand) {
    && x.ticketId == y.ticketId && x.ticketVersion == y.ticketVersion && x.disposition == y.disposition
    && x.conflictResolved == y.conflictResolved && x.acceptance == y.acceptance
    && x.reworkRecorded == y.reworkRecorded && x.reasonText == y.reasonText && x.evidence == y.evidence
  }

  /** The two commands ask for the same thing. */
  predicate SameRequest(a: Command, b: Command) {
    match (a, b)
    case (CreateTicket(x), CreateTicket(y)) => SameMetadata(x.meta, y.meta) && SameCreation(x, y)
    case (Book(x), Book(y)) => SameMetadata(x.meta, y.meta) && SameBooking(x, y)
    case (Move(x), Move(y)) => SameMetadata(x.meta, y.meta) && SameMove(x, y)
    case (RecordEvent(x), RecordEvent(y)) => SameMetadata(x.meta, y.meta) && SameEvent(x, y)
    case (Review(x), Review(y)) => SameMetadata(x.meta, y.meta) && SameReview(x, y)
    case (EscalateTicket(x), EscalateTicket(y)) => SameMetadata(x.meta, y.meta) && SameEscalation(x, y)
    case (Recover(x), Recover(y)) => SameMetadata(x.meta, y.meta) && SameRecovery(x, y)
    case _ => false
  }

  /** The metadata each command carries. */
  function MetadataOf(command: Command): Metadata {
    match command
    case CreateTicket(c) => c.meta
    case Book(c) => c.meta
    case Move(c) => c.meta
    case RecordEvent(c) => c.meta
    case Review(c) => c.meta
    case EscalateTicket(c) => c.meta
    case Recover(c) => c.meta
  }

  /** The caller supplies no fingerprint of its own; an empty one counts as none. */
  predicate Fingerprinted(command: Command) {
    MetadataOf(command).fingerprint.Some? && MetadataOf(command).fingerprint.value != ""
  }

  /** Without supplied fingerprints two commands have one digest exactly when they agree in every field
      but retry key, trace id and clock reading; with one, the digest is the supplied text. */
  lemma DigestsTellRequestsApart(a: Command, b: Command)
    ensures !Fingerprinted(a) && !Fingerprinted(b) ==> (a.Digest() == b.Digest() <==> SameRequest(a, b))
    ensures Fingerprinted(a) ==> a.Digest() == Supplied(MetadataOf(a).fingerprint.value)
    ensures Fingerprinted(a) && Fingerprinted(b) ==>
      (a.Digest() == b.Digest() <==> MetadataOf(a).fingerprint == MetadataOf(b).fingerprint)
    ensures Fingerprinted(a) != Fingerprinted(b) ==> a.Digest() != b.Digest()
  {
  }

  predicate SameActor(m: Metadata, n: Metadata) {
    m.actorType == n.actorType && m.actorId == n.actorId && m.idempotencyKey == n.idempotencyKey
  }

  /** A retry key is the use case, the actor and the caller's key; an operation id is the one given, or
      else the same three. */
  lemma KeysTellCallersApart(a: Command, b: Command)
    ensures a.Key() == b.Key() <==> SameUseCase(a, b) && SameActor(MetadataOf(a), MetadataOf(b))
    ensures var m, n := MetadataOf(a), MetadataOf(b);
      a.OperationId() == b.OperationId() <==>
        if m.operationId.Some? then m.operationId == n.operationId
        else n.operationId.None? && SameUseCase(a, b) && SameActor(m, n)
  {
  }

  /** After a committed call, a repeat of its use case by the same actor under the same key is answered
      from the record when it asks for the same thing, and refused when any field differs. */
  lemma RepeatsAreComparedFieldByField(calls: seq<Call>, call: Call, more: seq<Call>, again: Call)
    requires Commits(After(calls), call) && SameUseCase(call.command, again.command)
    requires SameActor(MetadataOf(call.command), MetadataOf(again.command))
    requires !Fingerprinted(call.command) && !Fingerprinted(again.command)
    ensures
      var answer := Execute(After(calls), call).1;
      var later := After(calls + [call] + more);
      && answer.Answered?
      && Execute(later, again) == (later, if SameRequest(call.command, again.command)
                                          then Answered(answer.result.(replayed := true))
                                          else Refused(IdempotencyPayloadConflict))
  {
    KeysTellCallersApart(call.command, again.command);
    DigestsTellRequestsApart(call.command, again.command);
    hide Execute, After, Commits, SameRequest, Fingerprinted, SameActor, SameUseCase;
    RepeatsAreAnsweredFromTheRecord(calls, call, more, again);
  }
}
