/** The rules for one worker event, and the language of event logs they generate
    (domain/worker_events.py). */
module WorkerEvents {
  import opened Domain

  datatype EventRequest = EventRequest(
    event: EventType, actor: ActorType, appointmentId: Option<Id>,
    ticketStatus: TicketStatus, appointmentStatus: AppointmentStatus, purpose: Option<Purpose>,
    reworkCount: int, expectedTicketVersion: int, actualTicketVersion: int,
    expectedAppointmentVersion: int, actualAppointmentVersion: int,
    prior: seq<EventType>, confirmedReplay: bool,
    cancellation: Option<CancellationReason>, noShow: Option<NoShowReason>,
    failure: Option<FailureDetails>, evidence: seq<string>)

  datatype EventResult = EventResult(
    ticket: TicketStatus, appointment: AppointmentStatus, requiresEscalation: bool,
    isReplay: bool, reworkCount: int)

  function EventActors(event: EventType): set<ActorType> {
    if event == EvNoShow then {Operator, System} else {Worker, Operator}
  }

  predicate TerminalEvent(event: EventType) {
    event in {Rejected, Completed, FailedToComplete, EvCancelled, EvNoShow}
  }

  function ExpectedTicketStatus(event: EventType): TicketStatus {
    if event in {Completed, FailedToComplete} then InProgress else Scheduled
  }

  function ValidateSnapshots(r: EventRequest): Check {
    if r.appointmentId == None then Fail(AppointmentRequired)
    else if r.ticketStatus != ExpectedTicketStatus(r.event) then Fail(TicketStateMismatch)
    else Need(r.appointmentStatus == Booked, AppointmentMustBeBooked)
  }

  function ValidateVersionsAndPurpose(r: EventRequest): Check {
    if r.expectedTicketVersion != r.actualTicketVersion then Fail(VersionConflict)
    else if r.expectedAppointmentVersion != r.actualAppointmentVersion then Fail(VersionConflict)
    else if r.reworkCount < 0 then Fail(InvalidReworkCount)
    else if r.event !in {Rejected, EvCancelled} then Pass
    else Need(r.purpose == Some(if r.reworkCount > 0 then Rework else InitialRepair),
              AppointmentPurposeSnapshotConflict)
  }

  function Predecessor(event: EventType): Option<EventType> {
    match event
    case Departed => Some(Accepted)
    case Arrived => Some(Departed)
    case Completed => Some(Started)
    case FailedToComplete => Some(Started)
    case _ => None
  }

  function ValidateSequence(event: EventType, prior: seq<EventType>): Check {
    if exists i :: 0 <= i < |prior| && TerminalEvent(prior[i]) then Fail(EventAfterTerminalEvent)
    else if event == Accepted && prior != [] then Fail(AcceptedMustBeFirst)
    else if event == Rejected && prior != [] then Fail(RejectionTooLate)
    else if Predecessor(event).Some? && (prior == [] || prior[|prior| - 1] != Predecessor(event).value) then
      Fail(MissingPredecessor)
    else if event in {EvCancelled, EvNoShow} && Started in prior then Fail(OutcomeAfterStart)
    else Need(event == EvCancelled ==> Accepted in prior, CancellationRequiresAcceptance)
  }

  function ReopenedStatus(purpose: Option<Purpose>): TicketStatus {
    if purpose == Some(Rework) then ReworkRequired else Open
  }

  function Effects(r: EventRequest): Result<EventResult> {
    match r.event
    case Rejected =>
      :- Need(r.cancellation == Some(WorkerRejected), WorkerRejectedReasonRequired);
      Ok(EventResult(ReopenedStatus(r.purpose), ApptCancelled, false, false, r.reworkCount))
    case Started =>
      Ok(EventResult(InProgress, r.appointmentStatus, false, false, r.reworkCount))
    case Completed =>
      Ok(EventResult(PendingAcceptance, Fulfilled, false, false, r.reworkCount))
    case FailedToComplete =>
      :- Need(r.failure.Some? && r.failure.value.statement != [] && r.failure.value.evidence != [],
              CompleteFailureDetailsRequired);
      if DispositionOf(r.failure.value.reason) == RouteToRework then
        Ok(EventResult(ReworkRequired, Fulfilled, false, false, r.reworkCount + 1))
      else
        Ok(EventResult(Escalated, Fulfilled, true, false, r.reworkCount))
    case EvCancelled =>
      :- Need(r.cancellation == Some(WorkerCancelled), WorkerCancelledReasonRequired);
      Ok(EventResult(ReopenedStatus(r.purpose), ApptCancelled, false, false, r.reworkCount))
    case EvNoShow =>
      :- Need(r.noShow.Some? && r.evidence != [], ReviewedNoShowEvidenceRequired);
      Ok(EventResult(Escalated, NoShow, true, false, r.reworkCount))
    case _ =>
      Ok(EventResult(r.ticketStatus, r.appointmentStatus, false, false, r.reworkCount))
  }

  function ValidateWorkerEvent(r: EventRequest): Result<EventResult> {
    var versions := ValidateVersionsAndPurpose(r);
    :- versions;
    :- Need(r.actor in EventActors(r.event), ActorNotAllowed);
    if r.confirmedReplay then
      :- Need(r.appointmentId.Some?, AppointmentRequired);
      :- Need(r.event in r.prior, ReplayEventNotRecorded);
      Ok(EventResult(r.ticketStatus, r.appointmentStatus, false, true, r.reworkCount))
    else
      :- ValidateSnapshots(r);
      :- ValidateSequence(r.event, r.prior);
      Effects(r)
  }

  /** What an accepted event does to the two aggregates, event by event. */
  lemma AcceptedEventEffects(r: EventRequest)
    requires ValidateWorkerEvent(r).Ok? && !r.confirmedReplay
    ensures var d := ValidateWorkerEvent(r).value;
      && r.appointmentStatus == Booked && r.ticketStatus == ExpectedTicketStatus(r.event)
      && (r.event in {Accepted, Departed, Arrived} ==> d.ticket == Scheduled && d.appointment == Booked)
      && (r.event == Started ==> d.ticket == InProgress && d.appointment == Booked)
      && (r.event == Completed ==> d.ticket == PendingAcceptance && d.appointment == Fulfilled)
      && (r.event == FailedToComplete ==>
            && r.failure.Some? && d.appointment == Fulfilled
            && d.ticket == if DispositionOf(r.failure.value.reason) == RouteToRework then ReworkRequired else Escalated)
      && (r.event in {Rejected, EvCancelled} ==>
            && d.appointment == ApptCancelled
            && d.ticket == if r.reworkCount > 0 then ReworkRequired else Open)
      && (r.event == EvNoShow ==> d.ticket == Escalated && d.appointment == NoShow)
      && d.reworkCount == r.reworkCount + (if r.event == FailedToComplete && d.ticket == ReworkRequired then 1 else 0)
  {
  }

  // ----- The language of event logs -----

  /** How far a visit has travelled before work starts. */
  predicate Travel(log: seq<EventType>) {
    log == [] || log == [Accepted] || log == [Accepted, Departed] || log == [Accepted, Departed, Arrived]
  }

  /** Logs of a visit that is still open. */
  predicate OpenLog(log: seq<EventType>) {
    Travel(log) || (log != [] && log[|log| - 1] == Started && Travel(log[..|log| - 1]))
  }

  /** Every log an appointment can carry: an open log, or an open log closed by one event
      that is legal exactly there. */
  predicate LegalLog(log: seq<EventType>) {
    || OpenLog(log)
    || (log != [] &&
        var visit, last := log[..|log| - 1], log[|log| - 1];
        || (last in {Completed, FailedToComplete} && OpenLog(visit) && !Travel(visit))
        || (last == Rejected && visit == [])
        || (last == EvCancelled && Travel(visit) && visit != [])
        || (last == EvNoShow && Travel(visit)))
  }

  /** The ticket status under which an open visit can receive its next event. */
  function VisitStatus(log: seq<EventType>): TicketStatus {
    if Started in log then InProgress else Scheduled
  }

  lemma OpenLogFacts(log: seq<EventType>)
    requires OpenLog(log)
    ensures forall i :: 0 <= i < |log| ==> !TerminalEvent(log[i])
    ensures Started in log <==> log != [] && log[|log| - 1] == Started
    ensures Travel(log) <==> Started !in log
    ensures |log| <= 4
  {
    if !Travel(log) {
      var visit := log[..|log| - 1];
      assert log == visit + [Started];
    }
  }

  /** Once a legal log holds a terminal event, nothing follows it; without one it is open. */
  lemma ClosedLogFacts(log: seq<EventType>)
    requires LegalLog(log)
    ensures |log| <= 5
    ensures OpenLog(log) <==> forall i :: 0 <= i < |log| ==> !TerminalEvent(log[i])
    ensures !OpenLog(log) ==> log != [] && TerminalEvent(log[|log| - 1]) && OpenLog(log[..|log| - 1])
  {
    if OpenLog(log) {
      OpenLogFacts(log);
    } else {
      OpenLogFacts(log[..|log| - 1]);
      assert TerminalEvent(log[|log| - 1]);
    }
  }

  /** The rules decide exactly the language: on a legal log, an event passes the snapshot and
      sequence rules precisely when the ticket is at the status the visit calls for, the booking
      is live, and the extended log is legal. */
  lemma RulesDecideLanguage(r: EventRequest)
    requires LegalLog(r.prior) && r.appointmentId.Some?
    requires r.ticketStatus == VisitStatus(r.prior)
    ensures ValidateSnapshots(r).Pass? && ValidateSequence(r.event, r.prior).Pass?
        <==> r.appointmentStatus == Booked && LegalLog(r.prior + [r.event])
  {
    hide LegalLog, OpenLog;
    ClosedLogFacts(r.prior);
    if OpenLog(r.prior) {
      ExtendOpen(r.prior, r.event);
      RulesOnOpenLog(r);
    } else {
      ClosedLogIsFinal(r.prior, r.event);
    }
  }

  /** The places in an open visit where each event belongs. */
  predicate Fits(log: seq<EventType>, event: EventType) {
    match event
    case Accepted => log == []
    case Rejected => log == []
    case Departed => log == [Accepted]
    case Arrived => log == [Accepted, Departed]
    case Started => Travel(log)
    case EvCancelled => Travel(log) && log != []
    case EvNoShow => Travel(log)
    case _ => Started in log
  }

  /** A legal log read from its last event. */
  lemma LegalByLastEvent(log: seq<EventType>, event: EventType)
    ensures LegalLog(log + [event]) <==>
      || Travel(log + [event]) || (event == Started && Travel(log))
      || (event in {Completed, FailedToComplete} && OpenLog(log) && !Travel(log))
      || (event == Rejected && log == [])
      || (event == EvCancelled && Travel(log) && log != [])
      || (event == EvNoShow && Travel(log))
  {
    var longer := log + [event];
    assert longer[..|longer| - 1] == log && longer[|longer| - 1] == event;
    hide Travel;
  }

  lemma TravelStarts()
    ensures Travel([]) && Travel([Accepted]) && Travel([Accepted, Departed])
  {
  }

  lemma ExtendOpen(log: seq<EventType>, event: EventType)
    requires OpenLog(log)
    ensures LegalLog(log + [event]) <==> Fits(log, event)
  {
    LegalByLastEvent(log, event);
    OpenLogFacts(log);
    ExtendTravel(log, event);
    TravelStarts();
    hide LegalLog, Travel, OpenLog;
  }

  lemma RulesOnOpenLog(r: EventRequest)
    requires OpenLog(r.prior) && r.appointmentId.Some? && r.ticketStatus == VisitStatus(r.prior)
    ensures ValidateSnapshots(r).Pass? && ValidateSequence(r.event, r.prior).Pass?
        <==> r.appointmentStatus == Booked && Fits(r.prior, r.event)
  {
    OpenLogFacts(r.prior);
    hide OpenLog;
  }

  /** Which events keep a travelling visit travelling. */
  lemma ExtendTravel(log: seq<EventType>, event: EventType)
    requires OpenLog(log)
    ensures Travel(log + [event]) <==>
      Travel(log) && ((event == Accepted && log == [])
                      || (event == Departed && log == [Accepted])
                      || (event == Arrived && log == [Accepted, Departed]))
  {
    var longer := log + [event];
    assert longer[..|log|] == log && longer[|log|] == event;
    if Travel(longer) {
      assert log == longer[..|log|];
    }
  }

  lemma ClosedLogIsFinal(log: seq<EventType>, event: EventType)
    requires LegalLog(log) && !OpenLog(log)
    ensures !LegalLog(log + [event])
  {
    var longer := log + [event];
    assert longer[..|log|] == log && longer[|log|] == event;
    ClosedLogFacts(log);
    var k := |log| - 1;
    assert longer[k] == log[k] && TerminalEvent(longer[k]);
    if OpenLog(longer) {
      OpenLogFacts(longer);
    }
  }

  /** The sequence rule alone lets a visit start twice; only the ticket status forbids it. */
  lemma SequenceRuleAdmitsSecondStart()
    ensures ValidateSequence(Started, [Started]).Pass?
    ensures !LegalLog([Started, Started])
  {
    var log := [Started, Started];
    assert log[..1] == [Started];
    assert ![Started][0].Accepted?;
  }
}
