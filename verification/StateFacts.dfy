/** What the replay-safe projection keeps of a state, field by field, what restoration makes of it, and
    what a capture reports (replay/state.py, replay/capture.py). */
module StateFacts {
  import opened Domain
  import opened AgentStates
  import opened ReplayState
  import opened ReplayTape
  import ReplayCapture
  import ReplayBundles

  /** Names the owner of the thread: only with a verified property. */
  function OwnerNamed(o: Owner): Option<OwnerProjection> {
    match o.propertyId
    case None => None
    case Some(property) => if o.propertyVerified then Some(OwnerProjection(o.actorType, o.actorId, o.userId, property)) else None
  }

  /** What is kept of a pending operation: who asked and under which key, what for, the target it hangs
      on, an appointment before a ticket, and the version it expects, the appointment's before the
      ticket's unless it is missing or zero. */
  function PendingKept(s: AgentState, p: PendingOperation): PendingProjection {
    var onVisit, onTicket := s.target.appointmentId.Some?, s.target.ticketId.Some?;
    PendingProjection(
      (s.owner.actorType, s.owner.actorId, p.idempotencyKey), p.action, p.fingerprint,
      if onVisit then Some(AppointmentTarget) else if onTicket then Some(TicketTarget) else None,
      if onVisit then s.target.appointmentId else s.target.ticketId,
      if p.appointmentVersion in {None, Some(0)} then p.ticketVersion else p.appointmentVersion)
  }

  /** A state is projected unless its description is longer than a thousand characters; of the messages
      only identity, content digest, length and role are kept. */
  lemma ProjectedFieldByField(s: AgentState, runStatus: Option<string>)
    ensures Project(s, runStatus).None? <==> s.issue.description.Some? && |s.issue.description.value| > 1000
    ensures Project(s, runStatus).Some? ==>
      var safe := Project(s, runStatus).value;
      && safe.traceId == s.traceId && safe.runStatus == runStatus && safe.owner == s.owner && safe.threadOwner == OwnerNamed(s.owner)
      && safe.stage == s.stage && safe.taskIntent == s.taskIntent && safe.utteranceIntent == s.utteranceIntent
      && safe.intentVersion == s.intentVersion && safe.issue == s.issue && safe.durationMinutes == s.durationMinutes
      && safe.safetyFlags == s.safetyFlags && safe.safetyReview == s.safetyReview && safe.missing == s.missing
      && safe.windows == s.windows && safe.target == s.target
      && safe.policy == PolicyFacts(s.plan.sufficiency, s.plan.conflict, s.plan.evidenceIds, s.plan.missingTopics)
      && safe.candidates.duplicates == s.plan.duplicates && safe.candidates.duplicatesFingerprint == s.plan.duplicatesFingerprint
      && safe.candidates.slots == s.plan.slots && safe.candidates.slotsFingerprint == s.plan.slotsFingerprint
      && safe.candidates.selectedSlot == s.plan.selectedSlot
      && safe.pendingAction == s.plan.pendingAction && safe.lastTool == s.plan.lastTool
      && safe.pending == (match s.plan.pendingOperation case None => None case Some(p) => Some(PendingKept(s, p)))
      && safe.reconciling == (if s.reconciling.caseId.None? && s.reconciling.status.None? then None else Some(s.reconciling))
      && safe.referenceTime == s.dialogue.referenceTime && safe.timezone == s.dialogue.timezone
      && |safe.messages| == |s.dialogue.messages|
      && forall i :: 0 <= i < |safe.messages| ==>
           var m := s.dialogue.messages[i];
           safe.messages[i] == MessageMetadata(m.messageId, m.content, |m.content|, m.role)
  {
    if s.plan.pendingOperation.Some? {
      PendingIsKept(s, s.plan.pendingOperation.value);
    }
    hide PendingKept, ProjectPending;
  }

  lemma PendingIsKept(s: AgentState, p: PendingOperation)
    ensures ProjectPending(s, p) == PendingKept(s, p)
  {
    assert p.appointmentVersion == if p.appointmentVersion.Some? then Some(p.appointmentVersion.value) else None;
  }

  /** A fingerprint forgets the trace, the run's status, the conversation and when a snapshot was taken,
      and nothing else. */
  lemma FingerprintsForget(a: SafeState, b: SafeState)
    ensures Fingerprint(a) == Fingerprint(b) <==>
      && a.owner == b.owner && a.threadOwner == b.threadOwner && a.stage == b.stage && a.taskIntent == b.taskIntent
      && a.utteranceIntent == b.utteranceIntent && a.intentVersion == b.intentVersion && a.issue == b.issue
      && a.safetyFlags == b.safetyFlags && a.safetyReview == b.safetyReview && a.missing == b.missing
      && a.policy == b.policy && a.candidates == b.candidates && a.windows == b.windows
      && a.pendingAction == b.pendingAction && a.lastTool == b.lastTool && a.pending == b.pending
      && a.reconciling == b.reconciling && a.referenceTime == b.referenceTime && a.timezone == b.timezone
      && a.durationMinutes == b.durationMinutes
      && a.target.ticketId == b.target.ticketId && a.target.appointmentId == b.target.appointmentId
      && a.target.ticketVersion == b.target.ticketVersion && a.target.appointmentVersion == b.target.appointmentVersion
      && (match (a.target.snapshot, b.target.snapshot)
          case (None, None) => true
          case (Some(x), Some(y)) => x.facts == y.facts
          case _ => false)
  {
  }

  /** A restored pending operation is keyed by the first 32 characters of its fingerprint, belongs to the
      current goal, and hangs its version on the target's kind. */
  lemma RestoredPending(safe: SafeState)
    requires safe.pending.Some?
    ensures
      var p, q := safe.pending.value, Restore(safe).plan.pendingOperation;
      q == Some(PendingOperation(
        p.action, p.fingerprint, "replay-redacted-" + (if |p.fingerprint| > 32 then p.fingerprint[..32] else p.fingerprint),
        safe.intentVersion,
        match p.targetType case Some(TicketTarget) => p.expectedVersion case _ => None,
        match p.targetType case Some(AppointmentTarget) => p.expectedVersion case _ => None))
  {
  }

  /** Restored messages are told at the reference time, without it there are none; and a user message
      stands in when time and zone are known. */
  lemma RestoredDialogue(safe: SafeState)
    ensures
      var d := Restore(safe).dialogue;
      && d.userMessage == (if safe.referenceTime.None? || safe.timezone.None? then None else Some("[REDACTED FOR REPLAY]"))
      && (safe.referenceTime.None? ==> d.messages == [])
      && (safe.referenceTime.Some? ==>
            && |d.messages| == |safe.messages|
            && forall i :: 0 <= i < |d.messages| ==>
                 d.messages[i] == Message(safe.messages[i].messageId, safe.messages[i].role, "[REDACTED FOR REPLAY]",
                                          safe.referenceTime.value, safe.traceId))
  {
  }

  // ----- Capture -----

  /** Results are counted apart for each kind of call. */
  lemma CallsAreCountedApart(a: CallKind, b: CallKind)
    ensures ReplayCapture.CallPrefix(a) == ReplayCapture.CallPrefix(b) <==> a == b
  {
    assert ReplayCapture.CallPrefix(a) == ReplayCapture.CallPrefix(b) ==> |ReplayCapture.CallPrefix(a)| == |ReplayCapture.CallPrefix(b)|;
  }

  /** The final state a capture reports has the result's stage, ticket and appointment, and its case when
      it has one; the rest is the last state's. */
  lemma ReportedFieldByField(capture: ReplayCapture.PersistentCapture, safe: SafeState, result: ReplayCapture.RunResult)
    ensures
      var r := capture.Reported(safe, result);
      && r.stage == result.stage && r.target.ticketId == result.ticketId && r.target.appointmentId == result.appointmentId
      && r.target.snapshot == safe.target.snapshot && r.target.ticketVersion == safe.target.ticketVersion
      && r.target.appointmentVersion == safe.target.appointmentVersion
      && r.reconciling == (if result.reconciling.caseId == None && result.reconciling.status == None then safe.reconciling
                           else Some(result.reconciling))
      && r.(stage := safe.stage, target := safe.target, reconciling := safe.reconciling) == safe
  {
  }

  /** A stored step's checksum covers its number, sort, key, request and payload. */
  lemma StoredRows(n: int, key: ReplayBundles.StepKey, fingerprint: Option<string>, payload: Step)
    ensures
      var row := ReplayBundles.NewRow(n, key, fingerprint, payload);
      && row.sequence == n && row.key == key && row.fingerprint == fingerprint && row.payload == payload
      && row.kind == KindOf(payload)
      && row.checksum == ReplayBundles.StepChecksum(n, KindOf(payload), key, fingerprint, payload)
  {
  }
}
