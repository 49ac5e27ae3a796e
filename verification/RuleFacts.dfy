/** The domain rules read the other way round: action by action and event by event, from what each
    demands to what it answers, error by error (domain/tickets.py, domain/worker_events.py,
    domain/appointments.py, domain/invariants.py). */
module RuleFacts {
  import opened Domain
  import Appointments
  import Tickets
  import WorkerEvents

  // ----- Closed vocabularies -----

  /** The skill, the disposition and the status classes of the vocabularies, value by value. */
  lemma Vocabularies()
    ensures RequiredSkill(WaterLeak) == Plumbing
    ensures RequiredSkill(Electrical) == ElectricalWork
    ensures RequiredSkill(DoorLock) == Locksmith
    ensures forall r: FailureReason :: DispositionOf(r) == RouteToRework <==> r == RepairIncomplete || r == FollowUpRequired
    ensures forall s: TicketStatus :: Escalatable(s) <==> s != Escalated && s != Cancelled && s != Closed
    ensures forall s: TicketStatus :: TerminalTicket(s) <==> s == Cancelled || s == Closed
    ensures forall s: AppointmentStatus :: TerminalAppointmentStatus(s) <==> s != Booked
    ensures forall e: EventType :: WorkerEvents.TerminalEvent(e) <==> e in {Rejected, Completed, FailedToComplete, EvCancelled, EvNoShow}
  {
  }

  // ----- Ticket transitions, action by action -----

  /** The statuses an action can be taken from. */
  function From(action: TicketAction): set<TicketStatus> {
    match action
    case BookAppointment => {Open, ReworkRequired}
    case CancelTicket => {Open, Scheduled, ReworkRequired}
    case Escalate => {Open, Scheduled, InProgress, PendingAcceptance, ReworkRequired}
    case ResidentAccept => {Scheduled, InProgress, PendingAcceptance}
    case ResidentReject => {PendingAcceptance}
    case CompleteWork => {InProgress}
    case FailWorkRework => {InProgress}
    case FailWorkEscalate => {InProgress}
    case _ => {Scheduled}
  }

  /** Who may take it there. */
  function By(action: TicketAction, status: TicketStatus): set<ActorType> {
    match action
    case BookAppointment => {Resident, Operator}
    case Reschedule => {Resident, Operator}
    case ResidentCancelledAppointmentInitial => {Resident, Operator}
    case ResidentCancelledAppointmentRework => {Resident, Operator}
    case CancelTicket => if status == ReworkRequired then {Operator} else {Resident, Operator}
    case ResidentAccept => {Resident}
    case ResidentReject => {Resident}
    case Escalate => {System, Operator}
    case ReviewedNoShow => {System, Operator}
    case _ => {Worker, Operator}
  }

  /** Where it leads. */
  function To(action: TicketAction): TicketStatus {
    match action
    case BookAppointment => Scheduled
    case Reschedule => Scheduled
    case StartWork => InProgress
    case CompleteWork => PendingAcceptance
    case WorkerRejectedInitial => Open
    case WorkerCancelledInitial => Open
    case ResidentCancelledAppointmentInitial => Open
    case WorkerRejectedRework => ReworkRequired
    case WorkerCancelledRework => ReworkRequired
    case ResidentCancelledAppointmentRework => ReworkRequired
    case FailWorkRework => ReworkRequired
    case ResidentReject => ReworkRequired
    case FailWorkEscalate => Escalated
    case ReviewedNoShow => Escalated
    case Escalate => Escalated
    case ResidentAccept => Closed
    case CancelTicket => Cancelled
  }

  /** What an action on the current visit still lacks: a visit of the right kind, and the reason. */
  function VisitObjection(r: Tickets.TransitionRequest, rework: bool, reason: CancellationReason): Option<Error> {
    if !r.hasBooking then Some(ActiveBookingRequired)
    else if !rework && r.reworkCount != 0 then Some(InitialAppointmentReworkCountConflict)
    else if rework && r.reworkCount < 1 then Some(ReworkAppointmentCountRequired)
    else if r.cancellation != Some(reason) then Some(AppointmentCancellationReasonMismatch)
    else None
  }

  function FailureObjection(r: Tickets.TransitionRequest, rework: bool): Option<Error> {
    if !r.hasBooking then Some(ActiveBookingRequired)
    else if r.failure == None then Some(FailureDetailsRequired)
    else if (r.failure.value.reason in {RepairIncomplete, FollowUpRequired}) != rework then Some(FailureDispositionMismatch)
    else if r.failure.value.statement == "" || r.failure.value.evidence == [] then Some(FailureEvidenceRequired)
    else None
  }

  /** What else a request lacks, given that its action can be taken. */
  function Objection(r: Tickets.TransitionRequest): Option<Error> {
    if r.reworkCount < 0 then Some(InvalidReworkCount)
    else if r.actor == Resident && !r.residentAuthorized then Some(ResidentNotAuthorized)
    else
      match r.action
      case BookAppointment =>
        if !r.hasBooking then Some(ActiveBookingRequired)
        else if r.status == ReworkRequired && !r.reworkRecorded then Some(ReworkRecordRequired)
        else if r.status == ReworkRequired && r.reworkCount < 1 then Some(ReworkCountRequired)
        else None
      case StartWork => if r.hasBooking then None else Some(ActiveBookingRequired)
      case Reschedule => if r.hasBooking then None else Some(ActiveBookingRequired)
      case CompleteWork => if r.hasBooking then None else Some(ActiveBookingRequired)
      case WorkerRejectedInitial => VisitObjection(r, false, WorkerRejected)
      case WorkerRejectedRework => VisitObjection(r, true, WorkerRejected)
      case WorkerCancelledInitial => VisitObjection(r, false, WorkerCancelled)
      case WorkerCancelledRework => VisitObjection(r, true, WorkerCancelled)
      case ResidentCancelledAppointmentInitial => VisitObjection(r, false, ResidentCancelled)
      case ResidentCancelledAppointmentRework => VisitObjection(r, true, ResidentCancelled)
      case ReviewedNoShow =>
        if !r.hasBooking then Some(ActiveBookingRequired)
        else if r.noShow == None || r.evidence == [] then Some(ReviewedNoShowContextRequired)
        else None
      case FailWorkRework => FailureObjection(r, true)
      case FailWorkEscalate => FailureObjection(r, false)
      case ResidentAccept => if r.acceptance == Some(true) then None else Some(ExplicitResidentAcceptanceRequired)
      case ResidentReject => if r.rejection.Some? then None else Some(AcceptanceRejectionRequired)
      case CancelTicket =>
        if r.cancellation == None then Some(CancellationReasonRequired)
        else if r.status != Scheduled && r.hasBooking then Some(ActiveBookingForbidsCancellation)
        else if r.cancellation != Some(if r.actor == Resident then ResidentCancelled else OperatorCancelled) then
          Some(TicketCancellationReasonMismatch)
        else if r.status == Scheduled && !r.hasBooking then Some(ScheduledCancellationRequiresBooking)
        else None
      case Escalate =>
        if r.escalationReason.None? || r.escalationReason == Some("") || r.evidence == [] then Some(EscalationContextRequired)
        else None
  }

  /** A transition is made exactly from a listed status, by a listed actor, at the current version and
      without objection; every other request gets the first error that applies. */
  lemma TransitionsActionByAction(r: Tickets.TransitionRequest)
    ensures Tickets.TransitionTicket(r) ==
      if r.expectedVersion != r.actualVersion then Err(VersionConflict)
      else if r.status !in From(r.action) then Err(TransitionNotAllowed)
      else if r.actor !in By(r.action, r.status) then Err(ActorNotAllowed)
      else if Objection(r).Some? then Err(Objection(r).value)
      else Ok(Tickets.Transition(r.status, To(r.action), r.actualVersion + 1,
                                 if To(r.action) == Escalated then Some(r.status) else None,
                                 if r.action in {ResidentReject, FailWorkRework} then r.reworkCount + 1 else r.reworkCount))
  {
    TableActionByAction(r.status, r.action);
    if r.status in From(r.action) && r.actor in By(r.action, r.status) {
      PreconditionsActionByAction(r);
    }
    hide Tickets.Table, Tickets.CheckPreconditions, From, By, To, Objection;
  }

  lemma TableActionByAction(status: TicketStatus, action: TicketAction)
    ensures Tickets.Table(status, action)
      == if status in From(action) then Some(Tickets.Spec(To(action), By(action, status))) else None
  {
  }

  lemma PreconditionsActionByAction(r: Tickets.TransitionRequest)
    requires r.status in From(r.action) && r.actor in By(r.action, r.status)
    ensures Tickets.CheckPreconditions(r) ==
      if Objection(r).Some? then Err(Objection(r).value)
      else Ok(if r.action in {ResidentReject, FailWorkRework} then r.reworkCount + 1 else r.reworkCount)
  {
  }

  // ----- Recovery, disposition by disposition -----

  /** Where an escalated ticket goes, from what is known of its last visit. */
  function Recovered(r: Tickets.RecoveryRequest): Result<TicketStatus> {
    var booked, started := r.appointment == Some(Booked), r.lastEvent == Some(Started);
    var done := r.appointment == Some(Fulfilled) && r.lastEvent == Some(Completed);
    match r.disposition
    case Resume =>
      if booked && started && r.escalatedFrom == Some(InProgress) then Ok(InProgress)
      else if booked && !started && r.escalatedFrom in {Some(Open), Some(Scheduled), Some(ReworkRequired)} then Ok(Scheduled)
      else if done && r.escalatedFrom in {Some(InProgress), Some(PendingAcceptance)} then Ok(PendingAcceptance)
      else if !booked && r.escalatedFrom in {Some(Open), Some(Scheduled)} then Ok(Open)
      else Err(NoSafeResumeTarget)
    case ApproveRework => if r.reworkRecorded then Ok(ReworkRequired) else Err(ReworkRecordRequired)
    case ApplyResidentAcceptance =>
      if done && r.escalatedFrom == Some(PendingAcceptance) && r.acceptance == Some(true) then Ok(Closed)
      else Err(ResidentAcceptanceEvidenceRequired)
    case CancelEscalated =>
      if !booked && r.escalatedFrom in {Some(Open), Some(Scheduled), Some(ReworkRequired)} then Ok(Cancelled)
      else Err(CancellationNotSafe)
  }

  /** A recovery is made exactly at the current version, by an operator, of a ticket with one of the five
      saved statuses and no conflict left open, to the target its disposition derives. */
  lemma RecoveriesByDisposition(r: Tickets.RecoveryRequest)
    ensures Tickets.RecoverEscalated(r) ==
      if r.expectedVersion != r.actualVersion then Err(VersionConflict)
      else if r.actor != Operator then Err(OperatorRequired)
      else if r.escalatedFrom.None? || r.escalatedFrom.value in {Escalated, Cancelled, Closed} then
        Err(InvalidEscalatedFromStatus)
      else if !r.conflictResolved then Err(UnresolvedConflict)
      else if r.reworkCount < 0 then Err(InvalidReworkCount)
      else if Recovered(r).Err? then Err(Recovered(r).error)
      else Ok(Tickets.Transition(Escalated, Recovered(r).value, r.actualVersion + 1, None,
                                 if r.disposition == ApproveRework then r.reworkCount + 1 else r.reworkCount))
  {
    TargetsByDisposition(r);
    Vocabularies();
    hide Recovered, Tickets.RecoveryTarget;
  }

  lemma TargetsByDisposition(r: Tickets.RecoveryRequest)
    ensures Tickets.RecoveryTarget(r) == Recovered(r)
  {
  }

  // ----- Worker events, event by event -----

  /** The first thing in a visit's log that stands against an event. */
  function LogObjection(event: EventType, prior: seq<EventType>): Option<Error> {
    var last := if prior == [] then None else Some(prior[|prior| - 1]);
    if exists k :: 0 <= k < |prior| && prior[k] in {Rejected, Completed, FailedToComplete, EvCancelled, EvNoShow} then
      Some(EventAfterTerminalEvent)
    else
      match event
      case Accepted => if prior == [] then None else Some(AcceptedMustBeFirst)
      case Rejected => if prior == [] then None else Some(RejectionTooLate)
      case Departed => if last == Some(Accepted) then None else Some(MissingPredecessor)
      case Arrived => if last == Some(Departed) then None else Some(MissingPredecessor)
      case Started => None
      case Completed => if last == Some(Started) then None else Some(MissingPredecessor)
      case FailedToComplete => if last == Some(Started) then None else Some(MissingPredecessor)
      case EvCancelled =>
        if Started in prior then Some(OutcomeAfterStart)
        else if Accepted !in prior then Some(CancellationRequiresAcceptance)
        else None
      case EvNoShow => if Started in prior then Some(OutcomeAfterStart) else None
  }

  function Outcome(ticket: TicketStatus, appointment: AppointmentStatus, escalates: bool, reworkCount: int): WorkerEvents.EventResult {
    WorkerEvents.EventResult(ticket, appointment, escalates, false, reworkCount)
  }

  /** What an event that nothing stands against does, or what its own details lack. */
  function Consequence(r: WorkerEvents.EventRequest): Result<WorkerEvents.EventResult> {
    var reopened := if r.purpose == Some(Rework) then ReworkRequired else Open;
    match r.event
    case Started => Ok(Outcome(InProgress, Booked, false, r.reworkCount))
    case Completed => Ok(Outcome(PendingAcceptance, Fulfilled, false, r.reworkCount))
    case Rejected =>
      if r.cancellation == Some(WorkerRejected) then Ok(Outcome(reopened, ApptCancelled, false, r.reworkCount))
      else Err(WorkerRejectedReasonRequired)
    case EvCancelled =>
      if r.cancellation == Some(WorkerCancelled) then Ok(Outcome(reopened, ApptCancelled, false, r.reworkCount))
      else Err(WorkerCancelledReasonRequired)
    case FailedToComplete =>
      if r.failure == None || r.failure.value.statement == "" || r.failure.value.evidence == [] then
        Err(CompleteFailureDetailsRequired)
      else if r.failure.value.reason in {RepairIncomplete, FollowUpRequired} then
        Ok(Outcome(ReworkRequired, Fulfilled, false, r.reworkCount + 1))
      else Ok(Outcome(Escalated, Fulfilled, true, r.reworkCount))
    case EvNoShow =>
      if r.noShow == None || r.evidence == [] then Err(ReviewedNoShowEvidenceRequired)
      else Ok(Outcome(Escalated, NoShow, true, r.reworkCount))
    case _ => Ok(Outcome(Scheduled, Booked, false, r.reworkCount))
  }

  /** An event that is not a confirmed replay is judged in this order: versions, rework count, purpose,
      actor, ticket, booking, log, its own details. */
  lemma EventsOneByOne(r: WorkerEvents.EventRequest)
    requires !r.confirmedReplay
    ensures WorkerEvents.ValidateWorkerEvent(r) ==
      if r.expectedTicketVersion != r.actualTicketVersion then Err(VersionConflict)
      else if r.expectedAppointmentVersion != r.actualAppointmentVersion then Err(VersionConflict)
      else if r.reworkCount < 0 then Err(InvalidReworkCount)
      else if r.event in {Rejected, EvCancelled} && r.purpose != Some(if r.reworkCount > 0 then Rework else InitialRepair) then
        Err(AppointmentPurposeSnapshotConflict)
      else if r.actor !in (if r.event == EvNoShow then {Operator, System} else {Worker, Operator}) then Err(ActorNotAllowed)
      else if r.appointmentId == None then Err(AppointmentRequired)
      else if r.ticketStatus != (if r.event in {Completed, FailedToComplete} then InProgress else Scheduled) then
        Err(TicketStateMismatch)
      else if r.appointmentStatus != Booked then Err(AppointmentMustBeBooked)
      else if LogObjection(r.event, r.prior).Some? then Err(LogObjection(r.event, r.prior).value)
      else Consequence(r)
  {
    LogsOneByOne(r.event, r.prior);
    hide WorkerEvents.ValidateSequence, LogObjection;
  }

  lemma LogsOneByOne(event: EventType, prior: seq<EventType>)
    ensures WorkerEvents.ValidateSequence(event, prior)
      == if LogObjection(event, prior).Some? then Fail(LogObjection(event, prior).value) else Pass
  {
    if k :| 0 <= k < |prior| && prior[k] in {Rejected, Completed, FailedToComplete, EvCancelled, EvNoShow} {
      assert WorkerEvents.TerminalEvent(prior[k]);
    }
  }

  /** A confirmed replay changes nothing, and is accepted only of an event in the log. */
  lemma ConfirmedReplays(r: WorkerEvents.EventRequest)
    requires r.confirmedReplay && WorkerEvents.ValidateWorkerEvent(r).Ok?
    ensures r.event in r.prior && r.appointmentId.Some?
    ensures WorkerEvents.ValidateWorkerEvent(r).value
      == WorkerEvents.EventResult(r.ticketStatus, r.appointmentStatus, false, true, r.reworkCount)
  {
  }

  // ----- Appointment transitions, action by action -----

  /** Whose doing an outcome's reason is. */
  predicate Blames(reason: OutcomeReason, actor: ActorType) {
    || (reason in {CancelCode(ResidentCancelled), NoShowCode(ResidentNoShow)} && actor == Resident)
    || (reason in {CancelCode(WorkerCancelled), CancelCode(WorkerRejected), NoShowCode(WorkerNoShow)} && actor == Worker)
    || (reason == CancelCode(OperatorCancelled) && actor == Operator)
    || (reason == CancelCode(SystemCancelled) && actor == System)
  }

  function OutcomeObjection(closing: bool, noShow: bool, outcome: Option<Domain.Outcome>): Option<Error> {
    if !closing then if outcome.Some? then Some(OutcomeNotAllowed) else None
    else if outcome == None || outcome.value.text == "" || outcome.value.evidence == [] then Some(CompleteOutcomeRequired)
    else if outcome.value.reason.NoShowCode? != noShow then Some(OutcomeReasonRequired)
    else if !Blames(outcome.value.reason, outcome.value.actorType) then Some(OutcomeActorMismatch)
    else None
  }

  lemma AppointmentActionsOneByOne(a: Appointments.Appointment, action: AppointmentAction, actor: ActorType,
                                   expectedVersion: int, outcome: Option<Domain.Outcome>)
    ensures
      var answer := Appointments.TransitionAppointment(a, action, actor, expectedVersion, outcome);
      var (next, actors) := match action
        case Supersede => (Superseded, {Resident, Operator})
        case Cancel => (ApptCancelled, {Resident, Operator, Worker, System})
        case Fulfill => (Fulfilled, {Resident, Worker, Operator})
        case MarkNoShow => (NoShow, {Operator, System});
      var objection := OutcomeObjection(action in {Cancel, MarkNoShow}, action == MarkNoShow, outcome);
      answer ==
        if expectedVersion != a.version then Err(VersionConflict)
        else if a.status != Booked then Err(TerminalAppointment)
        else if actor !in actors then Err(ActorNotAllowed)
        else if objection.Some? then Err(objection.value)
        else Ok(a.(status := next, version := a.version + 1))
  {
  }

  // ----- The snapshot test before a review -----

  /** With the one appointment it is given, the snapshot test passes exactly when the appointment and
      the last event are what the ticket's status implies. */
  lemma SnapshotTest(status: TicketStatus, appointment: AppointmentStatus, lastEvent: Option<EventType>)
    ensures Appointments.AggregateConsistency(status, [appointment], lastEvent).Pass? <==>
      match status
      case Scheduled => appointment == Booked
      case InProgress => appointment == Booked && lastEvent == Some(Started)
      case PendingAcceptance => appointment == Fulfilled && lastEvent == Some(Completed)
      case Escalated => true
      case _ => appointment != Booked
    ensures
      var answer := Appointments.AggregateConsistency(status, [appointment], lastEvent);
      answer.Fail? ==>
        answer.error == match status
          case Scheduled => ScheduledTicketRequiresBooking
          case InProgress => InProgressSnapshotConflict
          case PendingAcceptance => AcceptanceSnapshotConflict
          case _ => TicketStatusConflictsWithBooking
  {
    assert [appointment][1..] == [];
    assert forall s :: Appointments.CountStatus([appointment], s) == if appointment == s then 1 else 0;
  }
}
