/** Closed and cancelled tickets, over whole runs: nothing about them ever changes again, and a
    ticket closes only when its own resident accepts the repair. */
module TerminalTickets {
  import opened Domain
  import opened Commands
  import opened Appointments
  import opened WorkerEvents
  import opened RepairStore
  import opened StoreInvariants
  import opened RepairRuns
  import StoreLegality
  import StorePreservation
  import Tickets

  /** The resident's explicit acceptance of ticket `t`. */
  predicate AcceptsTicket(command: Command, t: Id, residentId: Id) {
    && command.Review? && command.review.accepted && command.review.ticketId == t
    && command.review.meta.actorType == Resident && command.review.meta.actorId == residentId
  }

  /** A command other than creation writes to one ticket that is still being worked on, keeps its
      owner, and closes it only as its resident's acceptance. */
  ghost predicate WorksOnOpenTicket(db: Db, command: Command, e: Effect) {
    && e.ticketId < |db.tickets|
    && !TerminalTicket(db.tickets[e.ticketId].status)
    && (e.ticket.Some? ==>
          && e.ticket.value.residentId == db.tickets[e.ticketId].residentId
          && e.ticket.value.propertyId == db.tickets[e.ticketId].propertyId
          && (e.ticket.value.status == Closed ==>
                AcceptsTicket(command, e.ticketId, db.tickets[e.ticketId].residentId)))
  }

  lemma BookWorks(db: Db, dir: Directory, c: BookCommand)
    requires PlanBook(db, dir, c).Ok?
    ensures WorksOnOpenTicket(db, Book(c), PlanBook(db, dir, c).value.effect)
  {
    hide Latest;
  }

  lemma MoveWorks(db: Db, dir: Directory, c: RescheduleCommand)
    requires PlanMove(db, dir, c).Ok?
    ensures WorksOnOpenTicket(db, Move(c), PlanMove(db, dir, c).value.effect)
  {
    hide Tickets.TransitionTicket;
    Tickets.RescheduleStays(Requested(db.tickets[c.ticketId], Reschedule, c.meta, c.ticketVersion).(hasBooking := true));
  }

  lemma EventWorks(db: Db, dir: Directory, c: EventCommand)
    requires StoreLegality.NewEvent(db, dir, c)
    ensures WorksOnOpenTicket(db, RecordEvent(c), PlanEvent(db, dir, c).value.effect)
  {
    hide Log, Latest, ValidateWorkerEvent, CloseByEvent;
    StoreLegality.EventAccepted(db, dir, c);
    AcceptedEventEffects(EventRequestFor(db, c));
  }

  lemma ReviewWorks(db: Db, dir: Directory, c: ReviewCommand)
    requires PlanReview(db, dir, c).Ok?
    ensures WorksOnOpenTicket(db, Review(c), PlanReview(db, dir, c).value.effect)
  {
    hide Tickets.TransitionTicket, Latest, Log, AggregateConsistency;
    var r := Requested(db.tickets[c.ticketId], if c.accepted then ResidentAccept else ResidentReject, c.meta, c.ticketVersion)
      .(acceptance := Some(c.accepted), rejection := if c.accepted then None else c.rejection);
    Tickets.AcceptanceCloses(r);
    if !c.accepted {
      Tickets.RejectionReworks(r);
    }
  }

  lemma EscalateWorks(db: Db, dir: Directory, c: EscalateCommand)
    requires PlanEscalate(db, dir, c).Ok?
    ensures WorksOnOpenTicket(db, EscalateTicket(c), PlanEscalate(db, dir, c).value.effect)
  {
    hide Tickets.TransitionTicket;
    Tickets.EscalationSavesPrior(
      Requested(db.tickets[c.ticketId], Escalate, c.meta, c.ticketVersion).(
        escalationReason := Some(c.reasonText), evidence := c.evidence));
  }

  lemma RecoverWorks(db: Db, dir: Directory, c: RecoverCommand)
    requires TicketRows(db) && PlanRecover(db, dir, c).Ok?
    ensures WorksOnOpenTicket(db, Recover(c), PlanRecover(db, dir, c).value.effect)
  {
    hide Tickets.RecoverEscalated, Log, Latest;
    var ticket := db.tickets[c.ticketId];
    Tickets.RecoveryIsGrounded(Tickets.RecoveryRequest(
      c.meta.actorType, c.ticketVersion, ticket.version, ticket.escalatedFrom,
      LatestStatus(db, c.ticketId), LastEvent(LatestLog(db, c.ticketId)),
      c.disposition, c.acceptance, c.reworkRecorded, c.conflictResolved, ticket.reworkCount));
    assert EscalationConsistent(ticket);
  }

  lemma CommandWorks(db: Db, dir: Directory, command: Command)
    requires TicketRows(db) && Plan(db, dir, command).Ok? && !command.CreateTicket?
    requires command.RecordEvent? ==> FindExternal(db.events, command.record.externalKey).None?
    ensures WorksOnOpenTicket(db, command, Plan(db, dir, command).value.effect)
  {
    hide WorksOnOpenTicket, PlanBook, PlanMove, PlanEvent, PlanReview, PlanEscalate, PlanRecover;
    match command
    case Book(c) => BookWorks(db, dir, c);
    case Move(c) => MoveWorks(db, dir, c);
    case RecordEvent(c) => EventWorks(db, dir, c);
    case Review(c) => ReviewWorks(db, dir, c);
    case EscalateTicket(c) => EscalateWorks(db, dir, c);
    case Recover(c) => RecoverWorks(db, dir, c);
    case CreateTicket(_) =>
  }

  // ----- Frozen tickets -----

  /** Everything the store says about ticket `t` reads the same in both stores. */
  ghost predicate SameTicket(db: Db, after: Db, t: Id) {
    && t < |db.tickets| && t < |after.tickets| && after.tickets[t] == db.tickets[t]
    && |db.appointments| <= |after.appointments|
    && (forall i :: 0 <= i < |db.appointments| ==> after.appointments[i].ticketId == db.appointments[i].ticketId)
    && (forall i :: 0 <= i < |db.appointments| && db.appointments[i].ticketId == t ==>
          after.appointments[i] == db.appointments[i] && Log(after.events, i) == Log(db.events, i))
    && (forall i :: |db.appointments| <= i < |after.appointments| ==> after.appointments[i].ticketId != t)
  }

  lemma EffectOnAnotherTicket(db: Db, e: Effect, t: Id)
    requires StorePreservation.Legal(db, e) && t < |db.tickets| && e.ticketId != t
    ensures SameTicket(db, Apply(db, e), t)
  {
    StorePreservation.AppointmentsAfter(db, e);
    StorePreservation.TicketsAfter(db, e);
    forall i | 0 <= i < |db.appointments| && db.appointments[i].ticketId == t
      ensures Log(Apply(db, e).events, i) == Log(db.events, i)
    {
      StorePreservation.LogAfter(db, e, i);
    }
  }

  lemma CreationEffect(db: Db, dir: Directory, c: CreateCommand)
    requires PlanCreate(db, dir, c).Ok?
    ensures PlanCreate(db, dir, c).value.effect.ticketId == |db.tickets|
    ensures PlanCreate(db, dir, c).value.effect.ticket.Some?
    ensures PlanCreate(db, dir, c).value.effect.ticket.value.status == Open
  {
    hide Tickets.PlanCreation, HasExactOpenMatch;
  }

  /** The effect a step applies, when it applies one: legal, and on an open or a new ticket. */
  ghost predicate Applied(db: Db, command: Command, e: Effect) {
    && StorePreservation.Legal(db, e)
    && (WorksOnOpenTicket(db, command, e)
        || (e.ticketId == |db.tickets| && e.ticket.Some? && e.ticket.value.status == Open))
  }

  /** A step either leaves the store alone or applies such an effect. */
  lemma StepCases(db: Db, call: Call) returns (e: Effect)
    requires Inv(db)
    ensures Step(db, call) == db || (Step(db, call) == Apply(db, e) && Applied(db, call.command, e))
  {
    hide Schema.Flush, Plan, Apply, Inv, StorePreservation.Legal, WorksOnOpenTicket;
    e := NO_EFFECT;
    var command := call.command;
    if Plan(db, call.dir, command).Ok? {
      if command.RecordEvent? && FindExternal(db.events, command.record.externalKey).Some? {
        ReplayedEventWritesNothing(db, call.dir, command.record);
      } else {
        e := Plan(db, call.dir, command).value.effect;
        InvParts(db);
        StoreLegality.CommandLegal(db, call.dir, command);
        if command.CreateTicket? {
          CreationOf(db, call.dir, command.create);
        } else {
          CommandWorks(db, call.dir, command);
        }
      }
    }
  }

  lemma AppliedElsewhere(db: Db, command: Command, e: Effect, t: Id)
    requires Applied(db, command, e) && t < |db.tickets| && TerminalTicket(db.tickets[t].status)
    ensures StorePreservation.Legal(db, e) && e.ticketId != t
  {
    hide StorePreservation.Legal;
  }

  lemma StepFreezesTerminal(db: Db, call: Call, t: Id)
    requires Inv(db) && t < |db.tickets| && TerminalTicket(db.tickets[t].status)
    ensures SameTicket(db, Step(db, call), t)
  {
    hide Step, SameTicket, Apply, Inv, Applied, StorePreservation.Legal;
    var e := StepCases(db, call);
    SameTicketRefl(db, t);
    if Step(db, call) != db {
      AppliedElsewhere(db, call.command, e, t);
      EffectOnAnotherTicket(db, e, t);
    }
  }

  lemma InvParts(db: Db)
    requires Inv(db)
    ensures TicketRows(db) && HistoriesTell(db)
  {
  }

  lemma SameTicketRefl(db: Db, t: Id)
    requires t < |db.tickets|
    ensures SameTicket(db, db, t)
  {
  }

  lemma CreationOf(db: Db, dir: Directory, c: CreateCommand)
    requires Plan(db, dir, CreateTicket(c)).Ok?
    ensures Plan(db, dir, CreateTicket(c)).value.effect.ticketId == |db.tickets|
    ensures Plan(db, dir, CreateTicket(c)).value.effect.ticket.Some?
    ensures Plan(db, dir, CreateTicket(c)).value.effect.ticket.value.status == Open
  {
    hide PlanCreate;
    CreationEffect(db, dir, c);
  }

  lemma ReplayedEventWritesNothing(db: Db, dir: Directory, c: EventCommand)
    requires Plan(db, dir, RecordEvent(c)).Ok? && FindExternal(db.events, c.externalKey).Some?
    ensures Plan(db, dir, RecordEvent(c)).value.effect == NO_EFFECT
    ensures Apply(db, NO_EFFECT) == db
  {
  }

  lemma SameRow(db: Db, after: Db, t: Id)
    requires SameTicket(db, after, t)
    ensures t < |db.tickets| && t < |after.tickets| && after.tickets[t] == db.tickets[t]
  {
  }

  lemma SameTicketTrans(a: Db, b: Db, c: Db, t: Id)
    requires SameTicket(a, b, t) && SameTicket(b, c, t)
    ensures SameTicket(a, c, t)
  {
    hide Log;
  }

  /** Once closed or cancelled, a ticket, its appointments and their logs are the same in every
      later store, and no appointment is ever added to it. */
  lemma {:induction false} TerminalTicketsNeverChange(calls: seq<Call>, more: seq<Call>, t: Id)
    requires t < |Run(calls).tickets| && TerminalTicket(Run(calls).tickets[t].status)
    ensures SameTicket(Run(calls), Run(calls + more), t)
  {
    hide Step, Inv, SameTicket;
    if more == [] {
      assert calls + more == calls;
      SameTicketRefl(Run(calls), t);
    } else {
      var last := |more| - 1;
      var all := calls + more;
      assert all[..|all| - 1] == calls + more[..last] && all[|all| - 1] == more[last];
      assert Run(all) == Step(Run(calls + more[..last]), more[last]);
      hide Run;
      TerminalTicketsNeverChange(calls, more[..last], t);
      SameRow(Run(calls), Run(calls + more[..last]), t);
      EveryRunKeepsInv(calls + more[..last]);
      StepFreezesTerminal(Run(calls + more[..last]), more[last], t);
      SameTicketTrans(Run(calls), Run(calls + more[..last]), Run(all), t);
    }
  }

  // ----- Closing -----

  lemma ClosesByEffect(db: Db, command: Command, e: Effect, t: Id)
    requires Applied(db, command, e) && t < |Apply(db, e).tickets|
    ensures t < |db.tickets| ==> Apply(db, e).tickets[t].residentId == db.tickets[t].residentId
    ensures Apply(db, e).tickets[t].status == Closed ==>
      t < |db.tickets| && (db.tickets[t].status == Closed || AcceptsTicket(command, t, db.tickets[t].residentId))
  {
    StorePreservation.TicketsAfter(db, e);
    hide Apply;
  }

  /** One step keeps every ticket's owner, and closes a ticket only as its owner's acceptance. */
  lemma StepCloses(db: Db, call: Call, t: Id)
    requires Inv(db) && t < |Step(db, call).tickets|
    ensures t < |db.tickets| ==> Step(db, call).tickets[t].residentId == db.tickets[t].residentId
    ensures Step(db, call).tickets[t].status == Closed ==>
      t < |db.tickets| && (db.tickets[t].status == Closed || AcceptsTicket(call.command, t, db.tickets[t].residentId))
  {
    hide Step, Apply, Inv, Applied;
    var e := StepCases(db, call);
    if Step(db, call) != db {
      ClosesByEffect(db, call.command, e, t);
    }
  }

  /** The `k`-th call closed ticket `t`, and was its resident's acceptance. */
  predicate ClosedBy(calls: seq<Call>, k: nat, t: Id, residentId: Id) {
    && k < |calls| && AcceptsTicket(calls[k].command, t, residentId)
    && t < |Run(calls[..k]).tickets| && Run(calls[..k]).tickets[t].status != Closed
    && t < |Run(calls[..k + 1]).tickets| && Run(calls[..k + 1]).tickets[t].status == Closed
  }

  /** In every run, each closed ticket was closed by a call in which its own resident accepted: the
      ticket was not closed before that call, and was closed after it. */
  lemma {:induction false} ClosedByItsResident(calls: seq<Call>, t: Id)
    requires t < |Run(calls).tickets| && Run(calls).tickets[t].status == Closed
    ensures exists k: nat :: ClosedBy(calls, k, t, Run(calls).tickets[t].residentId)
  {
    hide Step, Inv;
    if calls != [] {
      var last := |calls| - 1;
      var before := Run(calls[..last]);
      assert Run(calls) == Step(before, calls[last]);
      EveryRunKeepsInv(calls[..last]);
      StepCloses(before, calls[last], t);
      var owner := Run(calls).tickets[t].residentId;
      if before.tickets[t].status == Closed {
        ClosedByItsResident(calls[..last], t);
        var k: nat :| ClosedBy(calls[..last], k, t, owner);
        hide Run;
        assert calls[..last][..k] == calls[..k] && calls[..last][..k + 1] == calls[..k + 1];
        assert ClosedBy(calls, k, t, owner);
      } else {
        assert calls[..last + 1] == calls;
        assert ClosedBy(calls, last, t, owner);
      }
    }
  }
}
