/** The replay-safe projection of the agent state, its restoration, and the fingerprint replay
    compares (replay/state.py). Digests are injective: a fingerprint is the value it digests. */
module ReplayState {
  import opened Domain
  import opened AgentStates

  datatype TargetType = TicketTarget | AppointmentTarget

  /** The operation id is a digest of the actor and the idempotency key. */
  datatype PendingProjection = PendingProjection(
    operationId: (ActorType, Id, string), action: PendingAction, fingerprint: string,
    targetType: Option<TargetType>, targetId: Option<Id>, expectedVersion: Option<int>)

  datatype OwnerProjection = OwnerProjection(actorType: ActorType, actorId: Id, userId: Id, propertyId: Id)

  datatype MessageMetadata = MessageMetadata(messageId: Id, contentHash: string, length: nat, role: Role)

  datatype PolicyFacts = PolicyFacts(
    sufficiency: Option<Sufficiency>, conflict: bool, evidenceIds: seq<Id>, missingTopics: seq<string>)

  datatype Candidates = Candidates(
    duplicates: seq<DuplicateCandidate>, duplicatesFingerprint: Option<string>,
    slots: seq<CandidateSlot>, slotsFingerprint: Option<string>, selectedSlot: Option<CandidateSlot>)

  datatype SafeState = SafeState(
    traceId: Id, runStatus: Option<string>, owner: Owner, threadOwner: Option<OwnerProjection>,
    stage: WorkflowStage, taskIntent: Intent, utteranceIntent: Intent, intentVersion: int,
    issue: Issue, safetyFlags: seq<SafetyFlag>, safetyReview: bool, missing: seq<IssueField>,
    policy: PolicyFacts, target: Target, candidates: Candidates, windows: seq<TimeWindow>,
    pendingAction: PendingAction, lastTool: Option<ToolResult>, pending: Option<PendingProjection>,
    reconciling: Option<Reconciling>, referenceTime: Option<Time>, timezone: Option<string>,
    durationMinutes: Option<int>, messages: seq<MessageMetadata>)

  const SUMMARY_LIMIT := 1000
  const REDACTED := "[REDACTED FOR REPLAY]"

  /** The projection has room for the description. */
  predicate Summarized(s: AgentState) {
    s.issue.description.Some? ==> |s.issue.description.value| <= SUMMARY_LIMIT
  }

  function TargetId(target: Target): Option<Id> {
    if target.appointmentId.Some? then target.appointmentId else target.ticketId
  }

  /** Python's `or` on optional versions: a missing or zero version yields to the next. */
  function ExpectedVersion(p: PendingOperation): Option<int> {
    if p.appointmentVersion.Some? && p.appointmentVersion.value != 0 then p.appointmentVersion else p.ticketVersion
  }

  function ProjectPending(s: AgentState, p: PendingOperation): PendingProjection {
    PendingProjection((s.owner.actorType, s.owner.actorId, p.idempotencyKey), p.action, p.fingerprint,
                      if TargetId(s.target).None? then None
                      else if s.target.appointmentId.Some? then Some(AppointmentTarget) else Some(TicketTarget),
                      TargetId(s.target), ExpectedVersion(p))
  }

  function Metadata(messages: seq<Message>): seq<MessageMetadata> {
    seq(|messages|, i requires 0 <= i < |messages| =>
      MessageMetadata(messages[i].messageId, messages[i].content, |messages[i].content|, messages[i].role))
  }

  /** The projection. A summary holds 1000 characters where a description may hold 4000, so a
      longer description has none: the source's model refuses it. */
  function Project(s: AgentState, runStatus: Option<string>): Option<SafeState> {
    if !Summarized(s) then None
    else
      Some(SafeState(
        s.traceId, runStatus, s.owner,
        if s.owner.propertyVerified && s.owner.propertyId.Some? then
          Some(OwnerProjection(s.owner.actorType, s.owner.actorId, s.owner.userId, s.owner.propertyId.value))
        else None,
        s.stage, s.taskIntent, s.utteranceIntent, s.intentVersion, s.issue, s.safetyFlags, s.safetyReview, s.missing,
        PolicyFacts(s.plan.sufficiency, s.plan.conflict, s.plan.evidenceIds, s.plan.missingTopics),
        s.target,
        Candidates(s.plan.duplicates, s.plan.duplicatesFingerprint, s.plan.slots, s.plan.slotsFingerprint, s.plan.selectedSlot),
        s.windows, s.plan.pendingAction, s.plan.lastTool,
        if s.plan.pendingOperation.Some? then Some(ProjectPending(s, s.plan.pendingOperation.value)) else None,
        if s.reconciling.caseId.Some? || s.reconciling.status.Some? then Some(s.reconciling) else None,
        s.dialogue.referenceTime, s.dialogue.timezone, s.durationMinutes, Metadata(s.dialogue.messages)))
  }

  function Shorten(text: string): string {
    if |text| <= 32 then text else text[..32]
  }

  function RedactedKey(fingerprint: string): string {
    "replay-redacted-" + Shorten(fingerprint)
  }

  function RestorePending(safe: SafeState, p: PendingProjection): PendingOperation {
    PendingOperation(p.action, p.fingerprint, RedactedKey(p.fingerprint), safe.intentVersion,
                     if p.targetType == Some(TicketTarget) then p.expectedVersion else None,
                     if p.targetType == Some(AppointmentTarget) then p.expectedVersion else None)
  }

  function RestoreMessages(safe: SafeState): seq<Message> {
    if safe.referenceTime.None? then []
    else
      seq(|safe.messages|, i requires 0 <= i < |safe.messages| =>
        Message(safe.messages[i].messageId, safe.messages[i].role, REDACTED, safe.referenceTime.value, safe.traceId))
  }

  function Restore(safe: SafeState): AgentState {
    AgentState(
      safe.traceId, safe.owner, safe.target, safe.taskIntent, safe.utteranceIntent, safe.intentVersion,
      safe.issue, safe.durationMinutes, safe.safetyFlags, safe.windows,
      Plan(safe.policy.evidenceIds, safe.policy.conflict, safe.policy.sufficiency, safe.policy.missingTopics, None, None,
           safe.candidates.slots, safe.candidates.slotsFingerprint, safe.candidates.selectedSlot,
           safe.candidates.duplicates, safe.candidates.duplicatesFingerprint, None, safe.pendingAction,
           if safe.pending.Some? then Some(RestorePending(safe, safe.pending.value)) else None, safe.lastTool),
      safe.missing, safe.safetyReview, false, safe.stage,
      if safe.reconciling.Some? then safe.reconciling.value else Reconciling(None, None, None),
      Dialogue(RestoreMessages(safe),
               if safe.referenceTime.Some? && safe.timezone.Some? then Some(REDACTED) else None,
               safe.referenceTime, safe.timezone, None),
      0, None)
  }

  /** What the fingerprint covers: not the trace, the run status, the conversation, nor the moment
      a ticket snapshot was observed. */
  function Fingerprint(safe: SafeState): SafeState {
    safe.(traceId := 0, runStatus := None, messages := [],
          target := if safe.target.snapshot.Some?
                    then safe.target.(snapshot := Some(safe.target.snapshot.value.(observedAt := 0))) else safe.target)
  }

  /** The fingerprint of a state, when it can be projected. */
  function FingerprintOf(s: AgentState): Option<SafeState> {
    var safe := Project(s, None);
    if safe.Some? then Some(Fingerprint(safe.value)) else None
  }

  /** The pending operation reads the same after restoration. */
  predicate PendingSurvives(s: AgentState) {
    s.plan.pendingOperation.Some? ==>
      var p := s.plan.pendingOperation.value;
      && p.idempotencyKey == RedactedKey(p.fingerprint)
      && (TargetId(s.target).Some? || ExpectedVersion(p).None?)
  }

  /** Versions in a pending operation are positive. */
  predicate PendingValid(s: AgentState) {
    s.plan.pendingOperation.Some? ==>
      && (s.plan.pendingOperation.value.ticketVersion.Some? ==> s.plan.pendingOperation.value.ticketVersion.value >= 1)
      && (s.plan.pendingOperation.value.appointmentVersion.Some? ==> s.plan.pendingOperation.value.appointmentVersion.value >= 1)
  }

  /** What restoration gives back, written from the original: all but the policy's retrieval data,
      the confirmation, the refresh flag, the last reply, the retries and the escalation reason;
      a pending operation loses its key, and no message keeps its text. */
  lemma RestorationForgets(s: AgentState)
    requires Project(s, None).Some?
    ensures
      var t, p := Restore(Project(s, None).value), s.plan.pendingOperation;
      && t == s.(
        plan := s.plan.(asOf := None, policyFingerprint := None, confirmation := None, pendingOperation := t.plan.pendingOperation),
        reconciling := if s.reconciling.caseId.None? && s.reconciling.status.None? then t.reconciling else s.reconciling,
        dialogue := t.dialogue, snapshotRefresh := false, retryCount := 0, escalationReason := None)
      && (t.plan.pendingOperation.Some? <==> p.Some?)
      && (p.Some? ==>
            && t.plan.pendingOperation.value.action == p.value.action
            && t.plan.pendingOperation.value.fingerprint == p.value.fingerprint
            && t.plan.pendingOperation.value.idempotencyKey == RedactedKey(p.value.fingerprint))
      && t.dialogue.referenceTime == s.dialogue.referenceTime && t.dialogue.timezone == s.dialogue.timezone
      && t.dialogue.assistantMessage == None && t.dialogue.userMessage in {None, Some(REDACTED)}
      && |t.dialogue.messages| == (if s.dialogue.referenceTime.Some? then |s.dialogue.messages| else 0)
      && forall i :: 0 <= i < |t.dialogue.messages| ==>
           && t.dialogue.messages[i].content == REDACTED
           && t.dialogue.messages[i].messageId == s.dialogue.messages[i].messageId
           && t.dialogue.messages[i].role == s.dialogue.messages[i].role
  {
  }

  /** A state restored from the projection of a valid state passes the agent state's own validator. */
  lemma RestorationIsValid(fold: char -> string, s: AgentState)
    requires Valid(fold, s) && Project(s, None).Some?
    ensures Valid(fold, Restore(Project(s, None).value))
  {
    hide Normalize, MissingFields;
  }

  /** Two states read the same to a replay. */
  predicate ReadAlike(s: AgentState, t: AgentState) {
    && s.owner == t.owner && s.stage == t.stage && s.taskIntent == t.taskIntent && s.utteranceIntent == t.utteranceIntent
    && s.intentVersion == t.intentVersion && s.issue == t.issue && s.durationMinutes == t.durationMinutes
    && s.safetyFlags == t.safetyFlags && s.safetyReview == t.safetyReview && s.missing == t.missing
    && s.windows == t.windows
    && s.target.(snapshot := None) == t.target.(snapshot := None)
    && (s.target.snapshot.Some? <==> t.target.snapshot.Some?)
    && (s.target.snapshot.Some? ==> s.target.snapshot.value.facts == t.target.snapshot.value.facts)
    && s.plan.(asOf := None, policyFingerprint := None, confirmation := None, pendingOperation := None)
       == t.plan.(asOf := None, policyFingerprint := None, confirmation := None, pendingOperation := None)
    && (s.plan.pendingOperation.Some? <==> t.plan.pendingOperation.Some?)
    && (s.plan.pendingOperation.Some? ==>
          PendingReadAlike(s.plan.pendingOperation.value, t.plan.pendingOperation.value))
    && (s.reconciling == t.reconciling || (Unreported(s.reconciling) && Unreported(t.reconciling)))
    && s.dialogue.referenceTime == t.dialogue.referenceTime && s.dialogue.timezone == t.dialogue.timezone
  }

  predicate PendingReadAlike(p: PendingOperation, q: PendingOperation) {
    p.action == q.action && p.fingerprint == q.fingerprint && p.idempotencyKey == q.idempotencyKey
    && ExpectedVersion(p) == ExpectedVersion(q)
  }

  predicate Unreported(r: Reconciling) { r.caseId.None? && r.status.None? }

  /** Equal fingerprints mean exactly that a replay reads the two states alike. */
  lemma FingerprintSeparates(s: AgentState, t: AgentState)
    requires Project(s, None).Some? && Project(t, None).Some?
    ensures FingerprintOf(s) == FingerprintOf(t) <==> ReadAlike(s, t)
  {
    hide Metadata;
  }

  /** Projecting and restoring keeps the fingerprint exactly when there is no pending operation, or
      one whose key is already the redacted one and whose version has a target to hang on. */
  lemma RestorationKeepsFingerprint(s: AgentState)
    requires Project(s, None).Some? && PendingValid(s)
    ensures FingerprintOf(Restore(Project(s, None).value)) == FingerprintOf(s) <==> PendingSurvives(s)
  {
    var safe := Project(s, None).value;
    var t := Restore(safe);
    hide Metadata, RestoreMessages, RedactedKey;
    assert Project(t, None).Some?;
    var again := Project(t, None).value;
    assert Fingerprint(again).(pending := None) == Fingerprint(safe).(pending := None);
    if s.plan.pendingOperation.Some? {
      PendingRoundTrip(s, s.plan.pendingOperation.value);
      assert again.pending == Some(ProjectPending(t, RestorePending(safe, safe.pending.value)));
    }
    assert Fingerprint(again) == Fingerprint(safe) <==> again.pending == safe.pending;
  }

  lemma PendingRoundTrip(s: AgentState, p: PendingOperation)
    requires Project(s, None).Some? && s.plan.pendingOperation == Some(p) && PendingValid(s)
    ensures
      var safe := Project(s, None).value;
      ProjectPending(Restore(safe), RestorePending(safe, ProjectPending(s, p))) == ProjectPending(s, p) <==> PendingSurvives(s)
  {
    hide Metadata, RestoreMessages, RedactedKey;
  }

  /** Whatever the first restoration loses, a second loses nothing more: restoring twice keeps the
      fingerprint of restoring once. */
  lemma RestorationIsStable(s: AgentState)
    requires Project(s, None).Some? && PendingValid(s)
    ensures
      var once := Restore(Project(s, None).value);
      && Project(once, None).Some?
      && FingerprintOf(Restore(Project(once, None).value)) == FingerprintOf(once)
      && FingerprintOf(once).Some?
  {
    var once := Restore(Project(s, None).value);
    RestoredPendingSurvives(s);
    hide Project, Restore, FingerprintOf, PendingSurvives, PendingValid;
    RestorationKeepsFingerprint(once);
    FingerprintExists(once);
  }

  lemma FingerprintExists(s: AgentState)
    requires Project(s, None).Some?
    ensures FingerprintOf(s).Some?
  {
  }

  lemma RestoredPendingSurvives(s: AgentState)
    requires Project(s, None).Some? && PendingValid(s)
    ensures
      var once := Restore(Project(s, None).value);
      Project(once, None).Some? && PendingValid(once) && PendingSurvives(once)
  {
    hide Metadata, RestoreMessages, RedactedKey;
  }
}
