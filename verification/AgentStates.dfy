/** The agent's conversation state and what makes it valid (agent/state.py, agent/models.py). */
module AgentStates {
  import opened Domain

  datatype Intent =
    | NewRepair | ProvideInformation | QueryTicketStatus | SelectAppointmentSlot | RescheduleAppointment
    | CancelAppointment | CancelTicketIntent | AcceptRepair | RejectRepair | RequestHuman | UnknownIntent

  datatype PendingAction =
    NoAction | CreateTicketAction | BookAction | RescheduleAction | CancelAppointmentAction | CancelTicketAction
    | RecordAcceptance

  datatype CaseStatus = CasePending | CaseProcessing | CaseCommitted | CaseNotCommitted | CaseManualReview

  datatype SafetyFlag = ImmediateDanger | ActiveFlooding | ElectricalHazard | LockoutRisk | OtherReviewRequired

  datatype IssueField = PropertyField | CategoryField | LocationField | DescriptionField | SeverityField | AvailabilityField

  datatype WorkflowStage =
    | Intake | NeedProperty | NeedInfo | EmergencyReview | PolicyCheck | DuplicateCheck | ExistingTicket
    | CreatingTicket | ReconciliationPending | FindingSlots | AwaitingSlotConfirmation | Booking
    | MonitoringAppointment | Rescheduling | StatusConflict | AwaitingAcceptance | PlanningRework
    | HumanReview | DoneStage

  datatype Role = SystemRole | UserRole | AssistantRole

  datatype TimeWindow = TimeWindow(startsAt: Time, endsAt: Time)

  datatype CandidateSlot = CandidateSlot(workerId: Id, startsAt: Time, endsAt: Time, rank: int)

  datatype Message = Message(messageId: Id, role: Role, content: string, createdAt: Time, turnId: Id)

  datatype CachedAppointment = CachedAppointment(
    appointmentId: Id, workerId: Id, status: AppointmentStatus, startsAt: Time, endsAt: Time, version: int)

  /** What a ticket snapshot says, apart from when it was observed. */
  datatype TicketFacts = TicketFacts(
    ticketId: Id, version: int, status: TicketStatus, severity: Severity, reworkCount: int,
    appointment: Option<CachedAppointment>)

  datatype CachedTicket = CachedTicket(facts: TicketFacts, observedAt: Time)

  datatype DuplicateCandidate = DuplicateCandidate(ticketId: Id, version: int, status: TicketStatus, location: string)

  datatype ToolResult = ToolResult(code: string, message: string, resourceId: Option<Id>, version: Option<int>, retryable: bool)

  datatype PendingOperation = PendingOperation(
    action: PendingAction, fingerprint: string, idempotencyKey: string, intentVersion: int,
    ticketVersion: Option<int>, appointmentVersion: Option<int>)

  datatype Sufficiency = Sufficient | Insufficient | ConflictingEvidence

  // ----- The state, its fields grouped by what they are about -----

  datatype Owner = Owner(
    threadId: Id, actorType: ActorType, actorId: Id, userId: Id, propertyId: Option<Id>, propertyVerified: bool)

  datatype Target = Target(
    ticketId: Option<Id>, appointmentId: Option<Id>, snapshot: Option<CachedTicket>,
    ticketVersion: Option<int>, appointmentVersion: Option<int>)

  datatype Issue = Issue(
    category: Option<IssueCategory>, location: Option<string>, normalized: Option<string>,
    description: Option<string>, severity: Option<Severity>)

  /** Everything prepared for one goal, and void once the goal changes. */
  datatype Plan = Plan(
    evidenceIds: seq<Id>, conflict: bool, sufficiency: Option<Sufficiency>, missingTopics: seq<string>,
    asOf: Option<Time>, policyFingerprint: Option<string>,
    slots: seq<CandidateSlot>, slotsFingerprint: Option<string>, selectedSlot: Option<CandidateSlot>,
    duplicates: seq<DuplicateCandidate>, duplicatesFingerprint: Option<string>, confirmation: Option<bool>,
    pendingAction: PendingAction, pendingOperation: Option<PendingOperation>, lastTool: Option<ToolResult>)

  const EMPTY_PLAN :=
    Plan([], false, None, [], None, None, [], None, None, [], None, None, NoAction, None, None)

  datatype Dialogue = Dialogue(
    messages: seq<Message>, userMessage: Option<string>, referenceTime: Option<Time>, timezone: Option<string>,
    assistantMessage: Option<string>)

  datatype Reconciling = Reconciling(caseId: Option<Id>, status: Option<CaseStatus>, action: Option<PendingAction>)

  datatype AgentState = AgentState(
    traceId: Id, owner: Owner, target: Target, taskIntent: Intent, utteranceIntent: Intent, intentVersion: int,
    issue: Issue, durationMinutes: Option<int>, safetyFlags: seq<SafetyFlag>, windows: seq<TimeWindow>,
    plan: Plan, missing: seq<IssueField>, safetyReview: bool, snapshotRefresh: bool, stage: WorkflowStage,
    reconciling: Reconciling, dialogue: Dialogue, retryCount: int, escalationReason: Option<string>)

  // ----- Locations -----

  predicate Space(c: char) {
    c in {' ', '\t', '\n', '\r'}
  }

  /** Case folding replaces each character by a text. */
  function Fold(fold: char -> string, text: string): string {
    if text == [] then [] else Fold(fold, text[..|text| - 1]) + fold(text[|text| - 1])
  }

  /** The maximal runs of characters that are not white space. */
  function Words(text: string): seq<string> {
    if text == [] then []
    else
      var last := |text| - 1;
      var earlier := Words(text[..last]);
      if Space(text[last]) then earlier
      else if last > 0 && !Space(text[last - 1]) && earlier != [] then
        earlier[..|earlier| - 1] + [earlier[|earlier| - 1] + [text[last]]]
      else earlier + [[text[last]]]
  }

  function Join(words: seq<string>): string {
    if words == [] then []
    else if |words| == 1 then words[0]
    else Join(words[..|words| - 1]) + " " + words[|words| - 1]
  }

  /** Formatting differences removed: outer and repeated white space, and case. */
  function Normalize(fold: char -> string, location: Option<string>): Option<string> {
    match location
    case None => None
    case Some(text) =>
      var normalized := Join(Words(Fold(fold, text)));
      if normalized == [] then None else Some(normalized)
  }

  // ----- Missing fields -----

  function MissingFields(intent: Intent, propertyId: Option<Id>, category: Option<IssueCategory>,
                         normalized: Option<string>, description: Option<string>, windows: seq<TimeWindow>): seq<IssueField>
  {
    match intent
    case NewRepair =>
      (if propertyId.None? then [PropertyField] else []) + (if category.None? then [CategoryField] else [])
      + (if normalized.None? then [LocationField] else []) + (if description.None? then [DescriptionField] else [])
    case RescheduleAppointment => if windows == [] then [AvailabilityField] else []
    case _ => []
  }

  /** Appends each missing field to a growing list. */
  method ComputeMissingFields(intent: Intent, propertyId: Option<Id>, category: Option<IssueCategory>,
                              normalized: Option<string>, description: Option<string>, windows: seq<TimeWindow>)
    returns (missing: seq<IssueField>)
    ensures missing == MissingFields(intent, propertyId, category, normalized, description, windows)
    ensures missing == [] <==>
      && (intent == NewRepair ==> propertyId.Some? && category.Some? && normalized.Some? && description.Some?)
      && (intent == RescheduleAppointment ==> windows != [])
    ensures |missing| <= 4 && forall i, j :: 0 <= i < j < |missing| ==> missing[i] != missing[j]
  {
    missing := [];
    if intent == NewRepair {
      if propertyId.None? {
        missing := missing + [PropertyField];
      }
      if category.None? {
        missing := missing + [CategoryField];
      }
      if normalized.None? {
        missing := missing + [LocationField];
      }
      if description.None? {
        missing := missing + [DescriptionField];
      }
    } else if intent == RescheduleAppointment && windows == [] {
      missing := missing + [AvailabilityField];
    }
  }

  // ----- Validity -----

  /** A text field: no outer white space, not empty, and at most `limit` characters. */
  predicate Trimmed(text: string, limit: nat) {
    1 <= |text| <= limit && !Space(text[0]) && !Space(text[|text| - 1])
  }

  predicate TrimmedOption(text: Option<string>, limit: nat) {
    text.Some? ==> Trimmed(text.value, limit)
  }

  predicate WindowsValid(windows: seq<TimeWindow>) {
    |windows| <= 20 && forall i :: 0 <= i < |windows| ==> windows[i].startsAt < windows[i].endsAt
  }

  predicate SlotValid(slot: CandidateSlot) {
    slot.startsAt < slot.endsAt && slot.rank >= 1
  }

  predicate IssueValid(issue: Issue) {
    TrimmedOption(issue.location, 255) && TrimmedOption(issue.normalized, 255) && TrimmedOption(issue.description, 4000)
  }

  predicate PlanValid(plan: Plan) {
    && |plan.slots| <= 100 && (forall i :: 0 <= i < |plan.slots| ==> SlotValid(plan.slots[i]))
    && |plan.duplicates| <= 20 && |plan.evidenceIds| <= 50 && |plan.missingTopics| <= 9
    && (plan.selectedSlot.Some? ==> plan.selectedSlot.value in plan.slots)
  }

  predicate TargetValid(target: Target) {
    && (target.ticketVersion.Some? ==> target.ticketVersion.value >= 1)
    && (target.appointmentVersion.Some? ==> target.appointmentVersion.value >= 1)
    && (target.snapshot.Some? ==> target.ticketId == Some(target.snapshot.value.facts.ticketId))
  }

  predicate DialogueValid(d: Dialogue) {
    && |d.messages| <= 100
    && (forall i, j :: 0 <= i < j < |d.messages| ==> d.messages[i].messageId != d.messages[j].messageId)
    && (d.userMessage.Some? ==> 1 <= |d.userMessage.value| <= 4000)
  }

  /** Field limits and the whole-state validator together. */
  predicate Valid(fold: char -> string, s: AgentState) {
    && s.intentVersion >= 1 && 0 <= s.retryCount <= 20
    && (s.durationMinutes.Some? ==> 0 < s.durationMinutes.value <= 1440)
    && |s.safetyFlags| <= 10 && WindowsValid(s.windows) && |s.missing| <= 12
    && (s.owner.propertyVerified ==> s.owner.propertyId.Some?)
    && IssueValid(s.issue) && PlanValid(s.plan) && TargetValid(s.target) && DialogueValid(s.dialogue)
    && s.issue.normalized == Normalize(fold, s.issue.location)
    && s.missing == MissingFields(s.taskIntent, s.owner.propertyId, s.issue.category, s.issue.normalized,
                                  s.issue.description, s.windows)
  }
}
