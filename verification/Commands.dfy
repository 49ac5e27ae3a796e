/** The seven mutation commands, their retry identity and their results
    (application/models.py, application/events.py, application/service_support.py). */
module Commands {
  import opened Domain

  datatype Scope =
    CreateScope | BookScope | RescheduleScope | WorkerEventScope | ReviewScope | EscalateScope | RecoverScope

  datatype Metadata = Metadata(
    actorType: ActorType, actorId: Id, traceId: Id, idempotencyKey: string, occurredAt: Time,
    runId: Option<Id>, threadId: Option<Id>, operationId: Option<Id>, fingerprint: Option<string>)

  datatype CreateCommand = CreateCommand(
    meta: Metadata, residentId: Id, propertyId: Id, category: IssueCategory,
    location: string, description: string, severity: Severity, allowDuplicate: bool)

  datatype BookCommand = BookCommand(
    meta: Metadata, ticketId: Id, workerId: Id, startsAt: Time, endsAt: Time, ticketVersion: int)

  datatype RescheduleCommand = RescheduleCommand(
    meta: Metadata, ticketId: Id, appointmentId: Id, workerId: Id, startsAt: Time, endsAt: Time,
    ticketVersion: int, appointmentVersion: int)

  datatype EventCommand = EventCommand(
    meta: Metadata, ticketId: Id, appointmentId: Id, workerId: Id, event: EventType, externalKey: string,
    ticketVersion: int, appointmentVersion: int,
    cancellation: Option<CancellationReason>, noShow: Option<NoShowReason>,
    reasonText: Option<string>, evidence: seq<string>,
    failureReason: Option<FailureReason>, statement: Option<string>)

  datatype ReviewCommand = ReviewCommand(
    meta: Metadata, ticketId: Id, ticketVersion: int, accepted: bool,
    appointmentVersion: Option<int>, rejection: Option<RejectionReason>, explanation: Option<string>)

  datatype EscalateCommand = EscalateCommand(
    meta: Metadata, ticketId: Id, ticketVersion: int, reasonCode: string, reasonText: string,
    evidence: seq<string>)

  datatype RecoverCommand = RecoverCommand(
    meta: Metadata, ticketId: Id, ticketVersion: int, disposition: Disposition,
    conflictResolved: bool, acceptance: Option<bool>, reworkRecorded: bool,
    reasonText: Option<string>, evidence: seq<string>)

  datatype Command =
    | CreateTicket(create: CreateCommand)
    | Book(book: BookCommand)
    | Move(move: RescheduleCommand)
    | RecordEvent(record: EventCommand)
    | Review(review: ReviewCommand)
    | EscalateTicket(escalate: EscalateCommand)
    | Recover(recover: RecoverCommand)
  {
    function Meta(): Metadata {
      match this
      case CreateTicket(c) => c.meta
      case Book(c) => c.meta
      case Move(c) => c.meta
      case RecordEvent(c) => c.meta
      case Review(c) => c.meta
      case EscalateTicket(c) => c.meta
      case Recover(c) => c.meta
    }

    function Scope(): Scope {
      match this
      case CreateTicket(_) => CreateScope
      case Book(_) => BookScope
      case Move(_) => RescheduleScope
      case RecordEvent(_) => WorkerEventScope
      case Review(_) => ReviewScope
      case EscalateTicket(_) => EscalateScope
      case Recover(_) => RecoverScope
    }

    function WithMeta(meta: Metadata): Command {
      match this
      case CreateTicket(c) => CreateTicket(c.(meta := meta))
      case Book(c) => Book(c.(meta := meta))
      case Move(c) => Move(c.(meta := meta))
      case RecordEvent(c) => RecordEvent(c.(meta := meta))
      case Review(c) => Review(c.(meta := meta))
      case EscalateTicket(c) => EscalateTicket(c.(meta := meta))
      case Recover(c) => Recover(c.(meta := meta))
    }

    /** The request hash: a caller-supplied text when there is one, otherwise an injective
        function of the command without its retry key, trace id and clock reading. */
    function Digest(): Digest {
      var m := Meta();
      if m.fingerprint.Some? && m.fingerprint.value != [] then Supplied(m.fingerprint.value)
      else Canonical(WithMeta(m.(traceId := 0, idempotencyKey := "", occurredAt := 0)))
    }

    function OperationId(): OperationId {
      var m := Meta();
      if m.operationId.Some? then Given(m.operationId.value)
      else Derived(Scope(), m.actorType, m.actorId, m.idempotencyKey)
    }

    function Key(): Key {
      var m := Meta();
      RetryKey(Scope(), m.actorType, m.actorId, m.idempotencyKey)
    }
  }

  datatype Digest = Supplied(text: string) | Canonical(command: Command)

  datatype OperationId =
    Given(id: Id) | Derived(scope: Scope, actorType: ActorType, actorId: Id, idempotencyKey: string)

  datatype Key = RetryKey(scope: Scope, actorType: ActorType, actorId: Id, idempotencyKey: string)

  datatype ResultCode =
    TicketCreatedCode | AppointmentBookedCode | AppointmentRescheduledCode
    | WorkerEventRecorded | WorkerEventReplayed | RepairAccepted | ReworkRequested
    | TicketEscalatedCode | TicketRecovered

  datatype ResourceType = TicketResource | AppointmentResource | WorkerEventResource

  datatype ResultData =
    | NoData
    | StatusData(status: TicketStatus)
    | ReviewData(reviewed: TicketStatus, reworkCount: int)
    | BookedData(ticketId: Id, ticketVersion: int)
    | RescheduledData(supersedes: Id, movedVersion: int)
    | EventData(ticketStatus: TicketStatus, eventTicketVersion: int,
                appointmentStatus: AppointmentStatus, appointmentVersion: int)

  datatype OperationResult = OperationResult(
    code: ResultCode, resourceType: ResourceType, resourceId: Id, resourceVersion: int,
    replayed: bool, data: ResultData)
}
