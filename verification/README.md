# Repair coordination: a verified model

FixFlow takes residents' repair requests, books visits, follows the work and keeps a record of all
of it. These modules model the parts of its backend whose correctness does not show in any single
function, and prove what holds over every run, every interleaving and every input.

**The repair store.** `Tickets`, `Appointments` and `WorkerEvents` are the domain rules as written:
the transition table, the version and purpose checks, the event sequence, escalation and recovery.
`RepairStore` says what each of the seven use cases writes to the tickets, appointments, worker
events, histories and outbox; `RepairServices` has the same use cases as methods of a class that
update its tables row by row, each proved to write exactly that. `StoreInvariants` lists eleven
facts that no function states and no function checks. `StoreLegality` and `StorePreservation` prove
that every use case keeps them, `RepairRuns` draws the consequences for all runs from the empty
store, and `RuleAgreement` shows that the event and booking services, which do not consult the
transition table, never leave it. `SchemaGuard` separates what the rules guarantee from what only
the database constraints do. The rest are consequences over whole runs: `TerminalTickets`,
`Supersession`, `StoreHistories`, `LingeringBookings`.

**Execution and evidence.** `Execution` wraps a use case in the idempotent transaction and proves
that retries cannot be seen; `Evidence` and `EvidenceHonesty` prove that what is later said about an
operation whose commit was never confirmed is true, and that it is said when it should be;
`MovedOnClaims` is a run in which an honest claim stops being confirmed.

**Leases.** `Fencing` is one protocol of claims, expiries and late settlements by many workers. The
outbox (`Outbox`, `OutboxRuns`, `OutboxLeases`, `OutboxBackoff`) and the reconciliation cases
(`Reconciliation`, `ReconciliationFence`, `ReconciliationLeases`) are proved to refine it; tokens fence
whatever the clocks read, and only back-off needs one clock. `Projection` and `Dispatcher`
compose the outbox with the trace runtime (`TraceRuntime`) for exactly-once projection over
at-least-once delivery; `ReconciliationWorker` and `ReconciliationRuns` compose reconciliation with a
store that goes on changing.

**Replay.** `ReplayState` projects and restores the agent's state, `ReplayTape` has the cursor and
the observer, `ReplayVerdict` the replayed machine, `ReplayTheorems` and `ReplayCompleteness` the
exact meaning of PASSED, and `ReplayBundles`, `ReplayCapture` and `ReplayCapturedRun` the recording;
`ReplayUncaptured` is the run without capture, against which the captured one is measured.

**Smaller cores.** Slot generation and the booking checks (`Slots`, `BookingChecks`), merging an
interpretation into the agent's state (`AgentStates`, `Merge`) and rank fusion (`Fusion`).

**The rules from the other side.** The modules whose names end in `Facts` say what the functions of the
model answer without using them: who may do what, exactly when each use case is accepted and every
column it writes, which fields a digest tells apart, which rows a claim takes, what the evidence makes
of a case, how a crashed worker's rows come back, what each verdict and each merge means. Each is a
second reading of the same source, and the two are proved to agree.

`Domain`, `Commands` and `Schema` hold the vocabulary, the commands and the table constraints;
`Rows`, `Sorting` and `FiniteSets` are lemmas about sequences, sorting and sets.

## How to read it

Code that updates rows, fields or lists in place is a class or a loop, proved against a function;
the theorems are about that function. Identities are positions in a table, so they are fresh and in
creation order. Digests and derived identifiers are injective. A function that can raise returns a
`Result` or an `Option`, with one error per distinct code.

## Where the code falls short of what it promises

Each of these is a theorem, or part of one, with the condition under which the promise does hold. The
last two are differences with the documentation, where the model follows the code.

- Approving rework ignores the appointment, so a ticket can wait for rework with its booking live
  (`StoreHistories.ReworkMayKeepItsBooking`). `LingeringBookings.LingersOnlyByApprovedRework` says
  exactly when.
- The sequence rule admits a second STARTED (`WorkerEvents.SequenceRuleAdmitsSecondStart`); only the
  ticket's status keeps it out (`RepairRuns.EveryLogIsLegal`).
- An honest claim about a committed operation is confirmed exactly while the resource is at the
  version that operation wrote; afterwards it is INCONSISTENT
  (`EvidenceHonesty.HonestClaimConfirmedWhileUnmoved`, `MovedOnClaims.BookingUnsettlesTheCreation`).
- A merge can leave an invalid agent state, because case folding may lengthen a location: it keeps
  validity exactly while the folded location has at most 255 characters (`Merge.MergeKeepsValidity`,
  `Merge.FoldedLocationBreaksValidity`).
- A complete recording does not replay to PASSED when the start state holds a pending operation that
  redaction alters (`ReplayCompleteness.RecordedRunPasses`, `ReplayCompleteness.PendingKeyDiverges`), or when a node reads a field that the
  projection forgets (`ReplayCompleteness.ForgottenFieldsDiverge`).
- A capture is to leave its run alone, but the projection refuses descriptions over 1000 characters
  although the state allows 4000: a captured run ends as it would have without capture exactly when no
  state shown on the way has a longer one (`ReplayUncaptured.CaptureDisturbsLongDescriptions`,
  `ReplayUncaptured.LongDescriptionFailsCapture`).
- The adjacent-pair overlap check also reports pairs that share no instant
  (`BookingChecks.EmptyIntervalIsReported`). It does so exactly for an empty booking strictly inside
  another, or at the start of a non-empty one listed before it
  (`BookingChecks.RaisesOnSharedInstantOrEmpty`).
- A running run cannot be finished exactly when an append has taken the key of its terminal event
  (`TraceRuntime.RunningRunCanFinish`, `TraceRuntime.TakenKeyBlocksFinish`). `append_event` accepts any
  key text; none of the calls of `event_key` in the repository passes a bare lifecycle event type for an
  append, so only a new caller of that public parameter would meet this.
- Opening a ticket, the service works out whether an operator may, but the creation rule asks for it of
  residents alone: it refuses no operator (`PermissionFacts.WhoMayCreate`).
- The documentation (docs/STATE_MACHINE.md:174) lets an operator apply a recorded acceptance when
  recovering; the service refuses that disposition (backend/app/application/ticket_service.py:365-366).
- The documentation (docs/TRACE_RUNTIME.md:30) names two sources that may write after a run's end; the
  code allows a third, reconciliation (backend/app/trace/runtime.py:39-41).

## Model

| member | source | states |
|---|---|---|
| Tickets.AcceptanceCloses | backend/app/domain/tickets.py:401-430 | a transition closes a ticket exactly when it is the resident's accept, made by the resident with explicit acceptance from SCHEDULED, IN_PROGRESS or PENDING_ACCEPTANCE |
| Tickets.RecoveryIsGrounded | backend/app/domain/tickets.py:450-535 | each recovery target is backed by the appointment and last event it implies; never back to ESCALATED |
| RuleFacts.TransitionsActionByAction | backend/app/domain/tickets.py:380-431 | read action by action instead of status by status: a transition is made exactly from the listed statuses, by the listed actors, at the current version and without objection, and every other request gets the first error that applies |
| RuleFacts.RecoveriesByDisposition | backend/app/domain/tickets.py:450-535 | read disposition by disposition: where an escalated ticket goes from its prior status, its last visit and that visit's last event, or the first error |
| RuleAgreement.TableDrawsEdges | backend/app/domain/tickets.py:139-214 | the transition table draws exactly the listed edges between statuses; escalated, cancelled and closed tickets have none |
| RuleAgreement.EventChangesAreTransitions | backend/app/application/worker_event_service.py:152-199 | the event service never calls the ticket table, yet every ticket change it writes is the one the table would have made, status, version, rework count and saved status alike |
| RuleAgreement.EventClosesByTheRule | backend/app/application/worker_event_service.py:201-233 | a new event closes its visit exactly when it is a terminal one, and the row it writes is the one the appointment transition arrives at, with the event's own outcome |
| RuleAgreement.BookingIsATransition | backend/app/application/appointment_service.py:39-137 | every planned booking is the booking transition of the ticket table |
| WorkerEvents.RulesDecideLanguage | backend/app/domain/worker_events.py:106-183 | on a legal log, the snapshot and sequence rules admit an event exactly when the booking is live and the extended log is legal |
| WorkerEvents.AcceptedEventEffects | backend/app/domain/worker_events.py:186-280 | what each accepted event does to ticket, appointment and rework count |
| WorkerEvents.ClosedLogFacts | backend/app/domain/worker_events.py:155-183 | a legal log has at most five events, and is open exactly when it holds no terminal event |
| RuleFacts.EventsOneByOne | backend/app/domain/worker_events.py:106-280 | read event by event: the first thing that stands against an event, in the order of the checks, or what it does to ticket, visit and rework count |
| RuleFacts.AppointmentActionsOneByOne | backend/app/domain/appointments.py:109-157 | an appointment moves exactly at its current version, while booked, by a listed actor, with an outcome that blames the right actor; else the first error |
| RuleFacts.SnapshotTest | backend/app/domain/invariants.py:139-172 | with the one visit a review passes it, the snapshot test passes exactly when visit and last event are what the ticket's status implies |
| WorkerEvents.SequenceRuleAdmitsSecondStart | backend/app/domain/worker_events.py:155-183 | the sequence rule alone would let a visit start twice |
| StoreLegality.RecoverLegal | backend/app/application/ticket_service.py:354-432 | recovery never reads the status, but only an escalated ticket can recover, and what it writes is legal |
| StoreLegality.EventOnCurrentVisit | backend/app/application/worker_event_service.py:70-150 | an accepted event concerns the ticket's latest appointment, which is live, and keeps its log in the language |
| StoreLegality.PlanKeepsInv | backend/app/application/service_support.py:111-158 | whatever any of the seven commands writes keeps all eleven store invariants |
| PermissionFacts.WhoMayBook | backend/app/application/service_support.py:160-174 | only the ticket's resident, while occupying its property, and active operators book a visit; everyone else is refused as unauthorised |
| PermissionFacts.WhoMayMove | backend/app/application/appointment_service.py:160-185 | the same for rescheduling |
| PermissionFacts.WhoMayRecord | backend/app/application/worker_event_service.py:100-116 | a new event is planned only when it names the visit's worker and comes from that worker, an active operator or the system; everyone else is refused as unauthorised |
| PermissionFacts.WhoMayCreate | backend/app/domain/tickets.py:217-230 | a resident opens tickets only as the occupant, workers and the system never; the rule holds operators to nothing |
| PermissionFacts.WhoMayReview | backend/app/application/ticket_service.py:145-175 | only the ticket's resident, while occupying its property, reviews a repair |
| PermissionFacts.WhoMayEscalate | backend/app/application/ticket_service.py:270-290 | only active operators and the system escalate |
| PermissionFacts.WhoMayRecover | backend/app/application/ticket_service.py:354-366 | only active operators recover, and never by applying an acceptance |
| PermissionFacts.EveryEventByRights | backend/app/application/worker_event_service.py:100-116 | in every run each stored event names its visit's worker; one recorded by a worker was recorded by that worker, none by a resident, and a no-show never by a worker |
| PermissionFacts.ResidentsChangeTheirOwnTickets | backend/app/application/service_support.py:160-174 | in every run each history row a resident wrote is of that resident's own ticket |
| UseCaseFacts.CreationAcceptedExactly | backend/app/application/ticket_service.py:49-84 | a ticket is opened exactly when its reporter may, place and description are not blank, and it has no open twin unless an operator asks for one |
| UseCaseFacts.CreationRefusedFor | backend/app/domain/tickets.py:217-230 | the first thing that stands against a creation |
| UseCaseFacts.CreationWrites | backend/app/application/ticket_service.py:85-132 | every column an opened ticket, its history row, its event and the answer have |
| UseCaseFacts.StripTakesTheBlanksOff | backend/app/application/ticket_service.py:70-95 | stripping leaves the text between its outer blanks |
| UseCaseFacts.BookingAcceptedExactly | backend/app/application/appointment_service.py:39-105 | a visit is booked exactly for a proper interval not in the past, by one who may, with a worker who can serve it, at the ticket's version, while the ticket is open or waits for rework after a visit that is over |
| UseCaseFacts.BookingRefusedFor | backend/app/application/appointment_service.py:39-105 | the first thing that stands against a booking |
| UseCaseFacts.BookingWrites | backend/app/application/appointment_service.py:85-145 | every column of the booked visit, the ticket, both histories, both events and the answer |
| UseCaseFacts.MoveAcceptedExactly | backend/app/application/appointment_service.py:160-215 | a live visit of a scheduled ticket is moved exactly at both current versions, under the conditions of a booking |
| UseCaseFacts.MoveRefusedFor | backend/app/application/appointment_service.py:160-215 | the first thing that stands against a move |
| UseCaseFacts.MoveWrites | backend/app/application/appointment_service.py:195-264 | every column of the superseded visit, its replacement, the ticket, the histories, the event and the answer |
| UseCaseFacts.EscalationAcceptedExactly | backend/app/application/ticket_service.py:270-300 | exactly when a ticket is escalated |
| UseCaseFacts.EscalationRefusedFor | backend/app/application/ticket_service.py:270-300 | the first thing that stands against an escalation |
| UseCaseFacts.EscalationWrites | backend/app/application/ticket_service.py:295-341 | every column an escalation writes |
| UseCaseFacts.RecoveryAcceptedExactly | backend/app/application/ticket_service.py:354-400 | a recovery rests on the ticket, its last visit and that visit's last event, and is accepted exactly when the rule accepts them from an active operator |
| UseCaseFacts.RecoveryRefusedFor | backend/app/application/ticket_service.py:354-400 | the first thing that stands against a recovery |
| UseCaseFacts.RecoveryWrites | backend/app/application/ticket_service.py:395-432 | every column a recovery writes |
| UseCaseFacts.ReviewAcceptedExactly | backend/app/application/ticket_service.py:145-205 | a repair is accepted exactly from a visit that has begun, is under way or is complete, at the current versions, and rejected, for a reason, only once complete |
| UseCaseFacts.ReviewRefusedFor | backend/app/application/ticket_service.py:145-205 | the first thing that stands against a review |
| UseCaseFacts.ReviewWrites | backend/app/application/ticket_service.py:200-256 | every column a review writes, the fulfilled visit included |
| EventFacts.EventAcceptedExactly | backend/app/application/worker_event_service.py:70-150 | a new event is accepted exactly when its author may record it, ticket, visit, versions, log and details give it grounds, and it ends the visit with the reason that calls for |
| EventFacts.EventRefusedFor | backend/app/application/worker_event_service.py:70-150 | the first thing that stands against an event: author, rules, closing |
| EventFacts.EventRowsWritten | backend/app/application/worker_event_service.py:152-274 | every column an accepted event writes, event by event: its own numbered row, the ticket, the closed visit with the outcome that says who let it down, histories, announcement and answer |
| EventFacts.RecordedEventsAreRecognised | backend/app/application/worker_event_service.py:46-68 | an event whose external key is stored writes nothing: the same request is answered with the stored event, another is refused |
| EventFacts.EffectsLand | backend/app/application/service_support.py:111-158 | what a plan does to the tables, row by row; nothing else changes |
| RepairRuns.EveryRunKeepsInv | backend/app/application/service_support.py:111-158 | every run of commands from the empty store satisfies all the store invariants |
| RepairRuns.BookingsFollowTicketStatus | backend/app/domain/invariants.py:139-172 | in every run a ticket has at most one live booking, the last created; one when SCHEDULED or IN_PROGRESS; none when OPEN, PENDING_ACCEPTANCE, CANCELLED or CLOSED |
| RepairRuns.WorkFollowsVisit | backend/app/domain/invariants.py:139-172 | in every run IN_PROGRESS means the latest visit's last event is STARTED, PENDING_ACCEPTANCE that it is fulfilled and COMPLETED, SCHEDULED that it has not started |
| RepairRuns.EveryLogIsLegal | backend/app/application/worker_event_service.py:235-274 | in every run each visit's log is a word of the fixed language: at most five events, nothing after a terminal one, only completion or failure after a start |
| RepairRuns.RecoveryNeedsEscalation | backend/app/domain/tickets.py:482-535 | in every run a ticket is ESCALATED exactly when it remembers one of the five prior statuses, so recovery moves only escalated tickets |
| TerminalTickets.TerminalTicketsNeverChange | backend/app/domain/tickets.py:139-214 | once closed or cancelled, a ticket, its appointments and their logs are the same in every later store, and it gets no new appointment |
| TerminalTickets.ClosedByItsResident | backend/app/application/ticket_service.py:145-256 | in every run each closed ticket was closed by one call, open before it and closed after it, in which its own resident accepted |
| SchemaGuard.FlushRefusesOnlyDoubleBooking | backend/app/infrastructure/database/uow.py:32-95 | on a store kept by the rules, the flush can report nothing but a worker's overlapping bookings |
| SchemaGuard.CommitsUnlessWorkerBusy | backend/app/infrastructure/database/models/appointment.py:59-66 | after any run a planned command commits exactly unless it adds a booking that overlaps a live one of the same worker |
| SchemaGuard.WorkersNeverDoubleBooked | backend/app/infrastructure/database/models/appointment.py:59-66 | no run ever books a worker for two overlapping intervals |
| ScheduleFacts.NoWorkerInTwoPlaces | backend/app/infrastructure/database/models/appointment.py:59-66 | in every run a worker is on at most one live visit at any instant |
| ScheduleFacts.CommitsUnlessItClashes | backend/app/infrastructure/database/uow.py:32-95 | after any run a planned command commits, rows and answer, exactly unless its visit would need its worker in two places at some instant |
| Supersession.SupersededExactlyOnce | backend/app/domain/appointments.py:201-235 | in every run an appointment is SUPERSEDED exactly when one and only one later appointment names it |
| Supersession.EveryAppointmentEndsAChain | backend/app/application/appointment_service.py:160-253 | links form finite chains back to a root, within one ticket and purpose, all but the end superseded |
| Supersession.ChainsAreDisjoint | backend/app/domain/appointments.py:201-235 | chains never branch or merge |
| StoreHistories.TicketHistoryIsGapFree | backend/app/application/service_support.py:176-226 | in every run a ticket's history goes version by version from creation to its current row, counts its reworks, and its status changes match its outbox events one to one |
| StoreHistories.AppointmentHistoryIsGapFree | backend/app/application/service_support.py:228-251 | appointment histories chain likewise |
| StoreHistories.EventKeysNeverRepeat | backend/app/application/events.py:56-86 | no two outbox rows of a run share an event key |
| StoreHistories.ReworkMayKeepItsBooking | backend/app/domain/tickets.py:450-535 | a run in which approved rework leaves a live booking: the promise of no booking does not extend to REWORK_REQUIRED |
| LingeringBookings.LingersOnlyByApprovedRework | backend/app/domain/tickets.py:450-535 | exactly when that happens: a ticket comes to wait for rework with a live booking if and only if the command is an approved rework of a ticket that still has one |
| RepairServices.RepairDatabase.CreateTicket | backend/app/application/ticket_service.py:49-132 | the row-by-row handler leaves exactly the planned rows and answer, or raises the planned error: one open ticket at version 1, its creation row and its created event |
| RepairServices.RepairDatabase.ReviewRepair | backend/app/application/ticket_service.py:145-256 | the handler that fulfils the visit first and the ticket second leaves exactly the planned rows and answer, or raises the planned error |
| RepairServices.RepairDatabase.EscalateTicket | backend/app/application/ticket_service.py:270-341 | the same for escalation, with its status-changed and escalated events in that order |
| RepairServices.RepairDatabase.RecoverTicket | backend/app/application/ticket_service.py:354-432 | the same for recovery, from the latest appointment and its events |
| RepairServices.RepairDatabase.BookAppointment | backend/app/application/appointment_service.py:39-145 | the same for booking: the new visit, the ticket, both histories and both events |
| RepairServices.RepairDatabase.RescheduleAppointment | backend/app/application/appointment_service.py:160-264 | the same for rescheduling: the superseded visit, its replacement, the ticket version, both histories |
| RepairServices.RepairDatabase.LoadContext | backend/app/application/worker_event_service.py:70-150 | the recorded event to repeat, or the rows and decision of a new one, or the planned error |
| RepairServices.RepairDatabase.ApplyEffects | backend/app/application/worker_event_service.py:152-233 | the planned ticket and appointment rows of a worker event |
| RepairServices.RepairDatabase.RecordWorkerEvent | backend/app/application/worker_event_service.py:46-68 | replay or authorise, decide, apply, append: the whole handler does what is planned, and a repeated external event writes nothing |
| RepairServices.RepairDatabase.UpdateTicket | backend/app/infrastructure/database/repositories/ticket.py:111-130 | the version compare-and-set: succeeds exactly from the expected version, by one step |
| RepairServices.RepairDatabase.Acquire | backend/app/infrastructure/database/repositories/idempotency.py:22-70 | an existing record, a fresh pending one, or a clash of operation ids |
| RepairServices.RepairDatabase.Execute | backend/app/application/service_support.py:111-158 | acquire, handle, flush, store, and commit or roll back: the resulting tables, records and answer are those of the execution specification, all or nothing |
| Execution.OnlyCommitsWrite | backend/app/application/service_support.py:111-158 | a call changes the store exactly when it commits; every refusal or crash leaves it untouched, retry key included |
| Execution.EveryStoreTells | backend/app/application/service_support.py:111-158 | in every run the tables are those of the committed calls alone, and the records are their answers, one per key and one per operation |
| Execution.RetriesAreInvisible | backend/app/application/service_support.py:111-158 | deleting every repeat after a key's first success leaves the same store; so does keeping only committed calls |
| Execution.RecordedMeansSucceeded | backend/app/infrastructure/database/repositories/idempotency.py:22-70 | a key has a record exactly when one of its calls was answered |
| Execution.RepeatsAreAnsweredFromTheRecord | backend/app/application/service_support.py:70-92 | a repeat with the same fingerprint gets the stored code, resource, version and data marked replayed; with another it is refused; either way nothing changes |
| Execution.EveryRecordSucceeded | backend/app/application/service_support.py:131-137 | no run leaves an unfinished record, so a repeat is never told its request is in progress; only a spent operation id escapes uncaught |
| DigestFacts.DigestsTellRequestsApart | backend/app/application/service_support.py:57-67 | without supplied fingerprints, two requests have one digest exactly when they agree field by field in everything but retry key, trace id and clock reading; with one, the digest is that text |
| DigestFacts.KeysTellCallersApart | backend/app/application/events.py:47-53 | a retry key is the use case, the actor and the caller's key; an operation id the one given, or else the same three |
| DigestFacts.RepeatsAreComparedFieldByField | backend/app/application/service_support.py:111-137 | after a committed call, a repeat under its key is answered from the record exactly when it agrees in every such field, and refused as another payload when any differs |
| Evidence.AbsenceIsAuthoritative | backend/app/reconciliation/evidence.py:33-55 | an authorised query says NOT_COMMITTED exactly when no call of the operation committed; a committed one is COMMITTED or INCONSISTENT |
| Evidence.CommittedIsSound | backend/app/reconciliation/evidence.py:56-160 | COMMITTED is said only of a committed call with the claimed operation, scope, actor and fingerprint, whose target, property and resident are the claimed ones, with that call's own result |
| EvidenceFacts.WhoMayAsk | backend/app/reconciliation/evidence.py:162-185 | a question is denied exactly unless an active user asks about itself under its own role, a resident about a property it occupies |
| EvidenceFacts.ConfirmedExactly | backend/app/reconciliation/evidence.py:33-215 | for honest and dishonest claims alike: COMMITTED exactly when some committed call is of the claimed kind, operation, actor and fingerprint, the claim's target, property and resident are those of what it wrote, and that has not moved on |
| EvidenceHonesty.HonestClaimConfirmedWhileUnmoved | backend/app/reconciliation/evidence.py:115-215 | an honest authorised claim about a committed call is confirmed exactly while the resource is at the version it wrote, and INCONSISTENT afterwards |
| MovedOnClaims.BookingUnsettlesTheCreation | backend/app/reconciliation/evidence.py:115-160 | a run: an honest claim about a ticket just created is confirmed, and INCONSISTENT once the ticket has been booked |
| EvidenceHonesty.StepExtends | backend/app/reconciliation/validators.py:10-36 | commits only ever extend the store: ids, owners and logs persist, and an unmoved version means an unmoved row |
| Fencing.LeasesNeverOverlap | backend/app/outbox/repository.py:34-61 | two unsettled unexpired leases never cover one row whose claims read the clock in order; the covering one is the holder |
| Fencing.StaleReadingOverlaps | backend/app/outbox/repository.py:34-61 | the order is needed: a claim with an older reading can overlap an expired lease that was never settled, though the tokens still tell them apart |
| Fencing.OnlyNewestUnsettledTokenSettles | backend/app/outbox/repository.py:65-94 | whatever the clocks read, a settlement takes effect exactly when it presents the row's newest token, under its worker, for the first time |
| Fencing.EachLeaseSettlesOnce | backend/app/outbox/repository.py:65-94 | no lease settles twice |
| Fencing.DoneIsForever | backend/app/outbox/repository.py:34-47 | a finished row is never leased again |
| Outbox.PickIsTheFirstEligible | backend/app/outbox/repository.py:34-52 | a claim takes distinct eligible unlocked rows, each before every one it leaves, and all of them when they fit |
| Outbox.OutboxTable.ClaimBatch | backend/app/outbox/repository.py:25-63 | the loop claims the picked rows one by one, each under a fresh token, and hands them out as they stand: only unlocked rows that are pending and due or left by an expired lease, and all of those while the batch has room |
| OutboxFacts.ClaimTakesFreeRows | backend/app/outbox/repository.py:34-61 | a claim takes only unlocked rows that are pending and due or left by an expired lease, each under its own new token; other columns and rows stay |
| OutboxFacts.ClaimLeavesLaterRows | backend/app/outbox/repository.py:46-52 | a free row is left only when the batch is full of rows before it in time, creation and insertion |
| OutboxFacts.ClaimTakesAllThatFit | backend/app/outbox/repository.py:34-52 | every free row is taken when they fit the batch |
| OutboxFacts.RowsColumnByColumn | backend/app/outbox/repository.py:65-144 | what publication, delivery and failure leave in every column; without the row's own claim, nothing changes |
| Outbox.OutboxTable.MarkDispatched | backend/app/outbox/repository.py:65-94 | acknowledges exactly under the held claim |
| Outbox.OutboxTable.MarkFailed | backend/app/outbox/repository.py:96-144 | records a failure exactly under the held claim: retry with doubled back-off, or dead letter |
| OutboxRuns.OutboxIsFenced | backend/app/outbox/repository.py:25-144 | every outbox run, whatever its workers read on their clocks, refines the fencing protocol, and the claim columns always match the status |
| OutboxRuns.OnlyNewestTokenAcknowledges | backend/app/outbox/repository.py:65-144 | in every run, late workers included, an acknowledgement of either kind takes effect exactly with the row's newest unspent token |
| OutboxRuns.TerminalRowsNeverChange | backend/app/outbox/repository.py:34-61 | dispatched and dead-lettered rows never change again |
| OutboxFacts.CrashedRowsAreReclaimed | backend/app/outbox/repository.py:34-61 | a worker claims a row and crashes: whatever the others do, the first claim with room at or past the expiry takes the row, under a later token, with its attempts as they were |
| OutboxLeases.OutboxLeasesNeverOverlap | backend/app/outbox/repository.py:34-63 | two unacknowledged unexpired leases never cover one row; no shared clock is needed, only that a worker times a failure no earlier than its own claim |
| OutboxBackoff.AttemptsCountFailures | backend/app/outbox/repository.py:108-144 | in every run, whatever the clocks read, attempts count acknowledged failures, stay below the limit until dead letter and equal it there |
| OutboxBackoff.FailuresBackOff | backend/app/outbox/repository.py:108-144 | on one clock each failure comes a doubled back-off after the one before, so n failures span at least base*(2^(n-1)-1) seconds |
| Projection.EachDispatchedRowIsTracedOnce | backend/app/outbox/consumer.py:30-52 | whatever crashes or lost leases, a row has at most one trace event, exactly one once dispatched, and no two rows share one |
| Projection.TracedEventsWerePublished | backend/app/outbox/consumer.py:30-52 | nothing is traced under an outbox key that was never published |
| Dispatcher.DispatchOnce | backend/app/outbox/dispatcher.py:35-63 | one pass over the claimed batch is a run of the dispatch protocol |
| TraceRuntime.Runtime.StartRun | backend/app/trace/runtime.py:51-89 | the transaction leaves exactly the specified tables and answer: a new run with its run_started event, the same run again, or a conflict |
| TraceRuntime.Runtime.AppendEvent | backend/app/trace/runtime.py:91-148 | the same for appending: the stored event again, the next sequence number, or a refusal of lifecycle and late control events |
| TraceRuntime.Runtime.FinishRun | backend/app/trace/runtime.py:150-210 | the same for finishing: terminal event and final status together, or the same finish again |
| TraceRuntime.StoriesAreSequenced | backend/app/trace/runtime.py:51-210 | in every run of the runtime, events are numbered 1 to last_sequence from run_started; a lifecycle event exists exactly when the run is not running, is unique, matches, and only audit sources follow it |
| TraceRuntime.TraceKeysNeverRepeat | backend/app/trace/runtime.py:105-125 | no event key is stored twice |
| TraceRuntime.RepeatedAppendIsAnsweredFromTheTrace | backend/app/trace/runtime.py:105-125 | an append under a key already appended writes nothing, whatever it carries and whatever came between, and is answered with the event stored first |
| TraceRuntime.RunningRunCanFinish | backend/app/trace/runtime.py:150-210 | after any run of the runtime, a running run can be finished with any terminal status exactly unless an append was answered under the key of that terminal event |
| TraceRuntime.TakenKeyBlocksFinish | backend/app/trace/runtime.py:91-148 | a running run with an append answered under the key of its completion, whose completion is refused |
| TraceFacts.StartsCaseByCase | backend/app/trace/runtime.py:51-89 | a run starts once, under a trace id no other run has; every column of its row and event, or the refusal |
| TraceFacts.AppendsCaseByCase | backend/app/trace/runtime.py:91-148 | what each append is answered and writes: the stored event, a refusal for each of the four reasons, or the next number |
| TraceFacts.FinishesCaseByCase | backend/app/trace/runtime.py:150-210 | what each finish is answered and writes, the message outcome and the user's next action included |
| TraceFacts.EveryTraceTellsOneEach | backend/app/trace/runtime.py:51-210 | in every run of the runtime no two runs share a trace id, no run has two message terminals, and lifecycle events are the agent's own and followed only by the domain, the outbox and reconciliation |
| TraceFacts.ProjectionsTell | backend/app/outbox/consumer.py:30-52 | a domain event is projected under its own name, run, thread, trace and time, and two under one key exactly when kind, aggregate, version and operation agree |
| Reconciliation.CaseTable.CreateOrGet | backend/app/reconciliation/repository.py:31-64 | one case per operation; the same claim again is answered with its case, and only a claim of another action or digest is refused |
| Reconciliation.CaseTable.ClaimBatch | backend/app/reconciliation/repository.py:71-121 | the loop claims the cases its query selected, the first unlocked eligible ones in its order, each under a fresh token and one more attempt |
| Reconciliation.SelectionExists | backend/app/reconciliation/repository.py:76-93 | that query always has a result |
| CaseFacts.SelectionsAreTheFirstFree | backend/app/reconciliation/repository.py:76-93 | a selection is exactly distinct unlocked cases, pending and due or left by an expired lease, in order, as many as fit and those first in line |
| CaseFacts.SelectionsHoldAllThatFit | backend/app/reconciliation/repository.py:76-93 | every free case is selected when they fit |
| CaseFacts.ClaimedOneByOne | backend/app/reconciliation/repository.py:94-121 | what a claim leaves in every column of its cases and writes to the audit; other cases stay |
| CaseFacts.ReportsOpenOneCase | backend/app/reconciliation/repository.py:31-64 | a report opens a pending case with its two audit events unless the operation has one |
| Reconciliation.CaseTable.ResolveCase | backend/app/reconciliation/repository.py:123-177 | resolves exactly under the held claim |
| Reconciliation.CaseTable.RetryCase | backend/app/reconciliation/repository.py:179-221 | reschedules exactly under the held claim |
| ReconciliationWorker.RunOnce | backend/app/reconciliation/worker.py:30-69 | one pass over the claimed cases is a run of the reconciliation protocol |
| ReconciliationRuns.ResolutionsAreSound | backend/app/reconciliation/repository.py:123-177 | against a live store, each resolution was made under a claim that still held, on what one evidence query saw: resolved as committed, the operation had committed by that query, with its scope, actor and fingerprint; as not committed, no call of it had committed by that query; one case per operation |
| ReconciliationRuns.ResolvedCasesNeverChange | backend/app/reconciliation/repository.py:76-86 | a case resolved either way or handed over for review is the same row ever after |
| ReconciliationFacts.SettlementsFollowTheirQuery | backend/app/reconciliation/worker.py:30-69 | a worker asks, others go on, and it settles: under a held claim the case is put off by a doubled back-off or, on the last attempt, handed over when the query broke or was denied, and otherwise resolved as the store answered at the moment of the query; under a lost claim nothing is written |
| ReconciliationFacts.EvidenceDecidesTheCase | backend/app/reconciliation/worker.py:38-42 | an unbroken authorised query settles its case as committed exactly when a committed call is the claimed one and has not moved on, as not committed exactly when no call of the operation had committed, and otherwise for review |
| ReconciliationFacts.HonestClaimsResolveCommitted | backend/app/reconciliation/repository.py:123-177 | every honest claim about a committed call whose resource is unmoved is settled as committed, on matched evidence |
| ReconciliationFacts.CrashedCasesAreReclaimed | backend/app/reconciliation/repository.py:71-121 | a worker claims a case and crashes: whatever the others do, the first claim with room at or past the expiry takes the case, under a later token and as one more attempt |
| ReconciliationFence.CasesAreFenced | backend/app/reconciliation/repository.py:71-221 | every reconciliation run, whatever its workers read on their clocks, refines the fencing protocol |
| ReconciliationFence.AttemptsCountLeases | backend/app/reconciliation/repository.py:71-121 | in every run attempts count leases granted, claim columns match status, audit keys never repeat |
| ReconciliationFence.OnlyNewestTokenSettles | backend/app/reconciliation/repository.py:123-221 | in every run, late workers included, a case is settled exactly with its newest unspent token |
| ReconciliationLeases.CaseLeasesNeverOverlap | backend/app/reconciliation/repository.py:71-121 | two unsettled unexpired leases never cover one case, however the clocks disagree, because a retry is timed from the reading of its own claim |
| ReplayState.RestorationKeepsFingerprint | backend/app/replay/state.py:30-223 | projecting and restoring keeps the fingerprint exactly when there is no pending operation, or one that survives redaction |
| ReplayState.RestorationForgets | backend/app/replay/state.py:123-206 | restoration returns the original but for listed fields; keys are redacted and no message text comes back |
| ReplayState.RestorationIsValid | backend/app/replay/state.py:123-206 | what is restored from a valid state passes the validator of the agent state, so restoring never raises |
| ReplayState.RestorationIsStable | backend/app/replay/state.py:30-223 | restoring twice keeps the fingerprint of restoring once, even where the first restoration lost it |
| ReplayState.FingerprintSeparates | backend/app/replay/state.py:207-223 | equal fingerprints mean exactly agreement on every field a replay may read, the rest may differ |
| StateFacts.ProjectedFieldByField | backend/app/replay/state.py:19-122 | what the projection keeps of each field, the thread's owner, a pending operation and the messages, and the one state it refuses |
| StateFacts.RestoredPending | backend/app/replay/state.py:123-160 | a restored pending operation is keyed by its fingerprint, belongs to the current goal and hangs its version on its target's kind |
| StateFacts.RestoredDialogue | backend/app/replay/state.py:123-206 | messages come back redacted at the reference time, and none without it |
| ReplayTape.TapeCursor.Take | backend/app/replay/tape.py:40-91 | the cursor moves one step or raises a tape miss, and notes exactly the mismatches of the step it meets |
| ReplayTape.TapeCursor.Finish | backend/app/replay/tape.py:93-103 | one mismatch per step not consumed |
| ReplayTape.Observer.EnterNode | backend/app/replay/comparison.py:26-48 | entering a node consumes one step and notes a mismatch of node or fingerprint; the node is remembered either way |
| ReplayTape.Observer.DecideRoute | backend/app/replay/comparison.py:54-82 | a route decision consumes one step and notes a mismatch of the edge or of the input |
| ReplayTape.Observer.CompareInterrupt | backend/app/replay/comparison.py:97-112 | an interrupt consumes one step and is compared; no interrupt touches nothing |
| ReplayTape.Observer.Finish | backend/app/replay/comparison.py:114-177 | the verdict; PASSED only with the tape consumed and nothing noted |
| ReplayTheorems.PassedMeansTapeIsItsRecording | backend/app/replay/engine.py:81-106 | on any tape, PASSED exactly when the replayed machine, fed with the tape's own results, ends and its recording agrees with the tape step for step |
| ReplayTheorems.PassedIsSound | backend/app/replay/comparison.py:26-177 | PASSED implies the same nodes, routes and kinds of call, the recorded final fingerprint, and nothing left over |
| ReplayFacts.VerdictsExactly | backend/app/replay/engine.py:81-192 | all four verdicts on any tape, by walking the run's own course along it: INCOMPLETE where the tape lacks a step of the sort the run comes to, FAILED_SAFE where the run breaks, cannot be projected at its end or asks for another mutation, PASSED when tape and run say the same, DIVERGED otherwise |
| ReplayFacts.AgreementStepByStep | backend/app/replay/recorded.py:60-180 | what saying the same means, step by step: which calls compare which fingerprint, and that policy queries compare none |
| ReplayCompleteness.RecordedRunPasses | backend/app/replay/capture.py:103-210 | a complete tape of a machine that respects the fingerprint passes exactly when the start's pending operation, if any, survives redaction |
| ReplayCompleteness.PendingKeyDiverges | backend/app/replay/state.py:143-160 | a valid state in the middle of a booking, whose recorded run never passes: the restored key is another |
| ReplayCompleteness.ForgottenFieldsDiverge | backend/app/replay/state.py:123-206 | a machine that reads a field the projection forgets is recorded in full and never passes |
| ReplayCapture.PersistentCapture.NodeEntered | backend/app/replay/capture.py:103-116 | shows the node to the bundle, and the first state as its start unless that write fails; raises exactly when the description has more than 1000 characters |
| ReplayCapture.PersistentCapture.ExternalResult | backend/app/replay/capture.py:140-153 | shows an external result and, while nothing has failed, stores it last in the bundle, under its prefix and the next count of that prefix |
| ReplayCapture.PersistentCapture.RouteDecision | backend/app/replay/capture.py:125-138 | shows a route decision; raises exactly when the description has more than 1000 characters |
| ReplayCapture.PersistentCapture.Finalize | backend/app/replay/capture.py:155-210 | ready only if every step was written; then the tape is the steps shown, the interrupt and the final state; without failing writes, ready whenever that tape fits |
| StateFacts.ReportedFieldByField | backend/app/replay/capture.py:155-210 | the reported final state has the result's stage, ticket, appointment and case, and is the last state otherwise |
| StateFacts.CallsAreCountedApart | backend/app/replay/capture.py:140-153 | results of different kinds of call are counted apart |
| ReplayUncaptured.CaptureDisturbsLongDescriptions | backend/app/agent_runtime/graph.py:71-165 | a captured run ends as the run without capture does exactly when no state entered or routed on has a description of more than 1000 characters |
| ReplayUncaptured.LongDescriptionFailsCapture | backend/app/replay/models.py:166 | a valid state of 1001 characters whose run ends on its own and fails when captured |
| ReplayCapturedRun.CaptureRun | backend/app/replay/capture.py:83-210 | the run driven through the capture ends as the uncaptured run exactly when every state shown fits its summary; a ready bundle holds the tape and the start, is sound, and replays to PASSED exactly when the start survives redaction; with no failing write it is ready exactly when the tape fits |
| ReplayBundles.ValidateIntegrity | backend/app/replay/repository.py:552-585 | the loop accepts a bundle exactly when its steps are numbered without gaps under their own checksums and the whole under the bundle checksum |
| ReplayBundles.IntegrityMeansUnchanged | backend/app/replay/repository.py:599-639 | a copy that keeps the checksum is sound exactly when nothing it covers has changed |
| ReplayBundles.BundleStore.AppendStep | backend/app/replay/repository.py:146-207 | appends under a new key, accepts under a used key exactly the very step stored there, refuses the rest, and refuses everything once finalised or full |
| ReplayBundles.BundleStore.FinalizeBundle | backend/app/replay/repository.py:209-277 | finalises once, and never changes a finalised bundle; a ready bundle with a start state is sound |
| AgentStates.ComputeMissingFields | backend/app/agent/state.py:104-127 | the missing-field list; empty exactly when the goal has what it needs, never a repeat |
| Merge.MergeInterpretation | backend/app/agent/merge.py:37-120 | the dictionary filled in place, later groups overriding earlier ones, yields the merged state of the specification, or the refusal of a foreign property |
| Merge.MergeKeepsValidity | backend/app/agent/merge.py:37-120 | merging into a valid state leaves a valid state exactly when the normalised location is at most 255 characters |
| Merge.MergeInvalidates | backend/app/agent/merge.py:58-113 | the version rises by one exactly on a change, no flag is dropped, a change or new flag voids the plan and nothing else does; owner, target and conversation are untouched |
| MergeFacts.WhenTheGoalMoves | backend/app/agent/merge.py:40-62 | from a valid state the version changes exactly when a known category, normalised location or goal is now said otherwise, or a finished conversation starts over |
| MergeFacts.MergedFieldByField | backend/app/agent/merge.py:37-120 | category, location and description are the extraction's when it brings them, the goal the utterance's when it sets one, the windows the extraction's when it brings some or the goal moved; duration, refresh, plan and stage follow; all else stays |
| MergeFacts.MergedFlags | backend/app/agent/merge.py:61-76 | the flags are the state's and then the extraction's, each once, in order of appearance |
| MergeFacts.MissingFieldsNamed | backend/app/agent/state.py:104-127 | which fields are missing after a merge, and in what order |
| MergeFacts.WordsFallApartAtBlanks | backend/app/agent/models.py:47-53 | a text falls into words at every blank |
| MergeFacts.NormalisedAlike | backend/app/agent/models.py:47-53 | two locations are normalised alike exactly when they fold to the same words, and a normalised location has the words it came from |
| Merge.MergesKeepValidity | backend/app/agent/merge.py:37-120 | any sequence of merges of locations that stay short keeps validity, counts version changes and keeps every flag |
| Merge.FoldedLocationBreaksValidity | backend/app/agent/models.py:47-53 | a well-formed location whose folded form is 256 characters leaves an invalid state |
| Slots.CeilIsBoundary | backend/app/application/slot_queries.py:39-48 | the boundary is aligned and less than half an hour ahead |
| Slots.CeilIsLeastBoundary | backend/app/application/slot_queries.py:39-48 | and the first one at or after the value |
| Slots.AddWorker | backend/app/application/slot_queries.py:81-117 | the inner loop adds exactly the starts a source newly offers |
| Slots.GenerateAvailableSlots | backend/app/application/slot_queries.py:61-135 | the answer lists genuine slots in strict order, ranked from one, and leaves an offered slot out only when full of earlier ones |
| SlotFacts.OfferedExactly | backend/app/application/slot_queries.py:51-117 | a slot is offered exactly when a source of the worker serves the area, it starts on a half hour, lies in the search window and inside one stretch of availability, and touches no booking |
| SlotFacts.LoadOfTheFirstOffer | backend/app/application/slot_queries.py:81-117 | the load shown is that of the first source to offer the slot |
| Slots.BookingAnOfferedSlotStaysSilent | backend/app/application/slot_queries.py:51-58 | booking an offered slot never trips the overlap check when sources list all bookings, empty ones among them |
| BookingChecks.EnsureSingleActiveAppointment | backend/app/domain/invariants.py:25-36 | one pass finds a second live booking exactly when there is one |
| BookingChecks.EnsureNoWorkerOverlap | backend/app/domain/invariants.py:39-53 | finds clashing sorted neighbours exactly when there are some |
| BookingChecks.SilentMeansNoOverlap | backend/app/domain/invariants.py:39-53 | for non-empty intervals the adjacent-pair check is silent exactly when no worker is double-booked |
| BookingChecks.RaisesExactly | backend/app/domain/invariants.py:39-53 | on any rows, the adjacent-pair check raises exactly when some pair of one worker, in the order of the stable sort, ends after it starts |
| BookingChecks.RaisesOnSharedInstantOrEmpty | backend/app/domain/invariants.py:39-53 | on intervals that do not run backwards, the check raises exactly when a worker has two live bookings at one instant, or an empty one strictly inside another, or at the start of a non-empty one listed before it |
| BookingChecks.EmptyIntervalIsReported | backend/app/domain/invariants.py:39-53 | an empty interval is reported although it shares no instant with the other |
| Fusion.ScoresFollowLanes | backend/app/policy/retrieval.py:53-104 | scores lie in [0,1]; at least as good on both lanes never scores lower, missing lanes included; better somewhere scores higher |
| Fusion.ExtremeScores | backend/app/policy/retrieval.py:101-104 | the full score is reached exactly by a first place on both lanes, zero exactly by being on neither |
| FusionFacts.RankedExactly | backend/app/policy/retrieval.py:43-99 | ranks computed from the candidates alone: one below the distinct similarities, or shares of matched terms, above the candidate's own; no rank below the threshold or without a match |
| FusionFacts.ScoredExactly | backend/app/policy/retrieval.py:102-104 | the score is the sum of 1/(60 + rank) over the lanes, scaled by 61/2 |
| Fusion.FuseCandidates | backend/app/policy/retrieval.py:107-153 | the answer is the top_k prefix of one strict order of all supported evidence |

## Left out

Of the parts that are modelled:

- Reason codes, reason texts, evidence, trace ids and times of history rows, text-length limits of columns, and the
  parsing of commands: one-branch checks with no bearing on the properties. Every stale expected version is
  one error code.
- Row locks and transaction isolation: transactions of the repair store happen one after another.
  An integrity error during autoflush is reported with the flush's own code.
- Two identities may be equal by chance in the original; here a supplied operation id never equals a
  derived one, and a supplied request digest never equals a computed one.
- Unicode casing and white space are approximated in the duplicate-ticket check; in `Merge` the case
  folding is an arbitrary function of a character.
- "Purpose is REWORK exactly when the rework count is positive" is not claimed: resuming after a
  rework no-show returns the ticket to OPEN.
- OutboxLeases.OutboxLeasesNeverOverlap: a worker whose own clock runs backwards between a claim and
  the failure it reports is excluded; times are real numbers.
- OutboxBackoff.FailuresBackOff: stated on one clock that never runs backwards.
- Outbox.PickIsTheFirstEligible: rows with the same availability and creation time are ordered by
  insertion where the original compares random identifiers.
- Reconciliation.CaseTable.ClaimBatch: which of several cases with equal times comes first is a
  parameter, as the query leaves it open.
- ReconciliationRuns.ResolutionsAreSound: absence is proved as of the query the settlement rests on;
  nothing stops the operation from committing after it, and the case then stays as it is.
- ReconciliationWorker.RunOnce: a failure while handling a case is a parameter, case by case.
- ReplayTheorems.PassedMeansTapeIsItsRecording: node bodies and routers are arbitrary functions, and a
  run has a bound on its steps, the same for the recording and the replay. Priming of a RESUME run,
  the prelude that authorises a property, bundles of operator actions, replies composed from several
  results, schema versions, and the cut of the mismatch list at 200 entries are not modelled.
- ReplayTape.TapeCursor.Take: the optional step key of the source's `consume`, with its
  EXTERNAL_CALL_ORDER_MISMATCH; no caller passes one.
- ReplayCapturedRun.CaptureRun: a run that raises ends there; the original still finalises its bundle,
  with a safe failure result.
- ReplayBundles.BundleStore.AppendStep: the size limit of a payload is a flag.
- Slots.GenerateAvailableSlots: one time zone with a fixed offset, no change of clocks, and areas
  already normalised.
- Fusion.FuseCandidates: chunk identifiers are distinct, as the primary key makes them; scores are
  real numbers; excerpts and the instruction-marker screening of their text are not modelled.
- TraceRuntime.StoriesAreSequenced: payload sanitising and the writers of the agent's message events
  are not modelled.

Of the rest of the repository:

- PostgreSQL, SQLAlchemy, FastAPI, MCP transport, Pydantic, LangGraph and its checkpointer: libraries,
  present as atomic transactions, constraints and guards.
- The orchestration graph, its nodes and their termination; thread lifecycle, human review, recovery
  recommendation, conflict and sufficiency rules, error mapping: readings of single branches, or nodes
  taken as arbitrary functions.
- Language models, prompts, embeddings, evaluation data, seeds, configuration, migrations and the
  front end.
