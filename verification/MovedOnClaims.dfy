/** A run in which an honest claim about a committed operation stops being confirmed: the ticket it
    created has since been booked, so its version has moved on. */
module MovedOnClaims {
  import opened Domain
  import opened Commands
  import opened RepairStore
  import opened RepairRuns
  import opened Execution
  import opened Evidence
  import EvidenceHonesty
  import Schema
  import SchemaGuard
  import StoreHistories

  function Creation(): Call { StoreHistories.Created() }

  function Booking(): Call { StoreHistories.BookedOnce() }

  /** The resident, asking about the creation of the ticket. */
  function CreationClaim(): Claim {
    var m := Creation().command.Meta();
    Claim(Creation().command.OperationId(), CreateAction, Creation().command.Digest(), m.actorType, m.actorId, m.actorId,
          Creation().command.create.propertyId, None)
  }

  function ResidentsFacts(): Directory {
    StoreHistories.Facts().(users := map[StoreHistories.RESIDENT := User(Resident, true)])
  }

  lemma CreationPlan()
    ensures Plan(EMPTY_DB, Creation().dir, Creation().command).Ok?
    ensures Plan(EMPTY_DB, Creation().dir, Creation().command).value.effect.adding.None?
    ensures var r := Plan(EMPTY_DB, Creation().dir, Creation().command).value.result;
      r.resourceType == TicketResource && r.resourceId == 0 && r.resourceVersion == 1
  {
    StoreHistories.CreationIsPlanned();
  }

  lemma BookingPlan(db: Db)
    requires db.tickets == [StoreHistories.OPENED] && db.appointments == []
    ensures Plan(db, Booking().dir, Booking().command).Ok?
  {
    StoreHistories.BookingIsPlanned(db);
  }

  lemma CreationTransacts()
    ensures Transact(EMPTY_DB, Creation()).Ok?
    ensures var r := Transact(EMPTY_DB, Creation()).value.1;
      r.resourceType == TicketResource && r.resourceId == 0 && r.resourceVersion == 1
  {
    hide Plan, Apply, Schema.Flush, Creation;
    assert Run([]) == EMPTY_DB;
    CreationPlan();
    SchemaGuard.CommitsUnlessWorkerBusy([], Creation());
  }

  lemma BookingTransacts()
    ensures Transact(Run([Creation()]), Booking()).Ok?
  {
    hide Plan, Apply, Schema.Flush, Run, Step, Transact;
    StoreHistories.AfterCreation();
    BookingPlan(Run([Creation()]));
    SchemaGuard.CommitsUnlessWorkerBusy([Creation()], Booking());
  }

  lemma CreationCommits()
    ensures Committed([Creation()]) == [Creation()]
    ensures After([Creation()]).db == Run([Creation()])
    ensures |After([Creation()]).records| == 1
    ensures After([Creation()]).records[0].key == Creation().command.Key()
    ensures After([Creation()]).records[0].operationId == Creation().command.OperationId()
  {
    hide Transact, Step, Creation;
    CreationTransacts();
    assert [Creation()][..0] == [];
    assert Committed([]) == [] && After([]) == EMPTY_STORE && Run([]) == EMPTY_DB;
    EveryStoreTells([Creation()]);
  }

  lemma OtherScope()
    ensures Creation().command.Key() != Booking().command.Key()
    ensures Creation().command.OperationId() != Booking().command.OperationId()
  {
  }

  lemma BothCommit()
    ensures Committed([Creation(), Booking()]) == [Creation(), Booking()]
    ensures After([Creation(), Booking()]).db == Run([Creation(), Booking()])
  {
    hide Transact, Step, Run, Creation, Booking, Execute;
    var calls := [Creation(), Booking()];
    assert calls[..1] == [Creation()];
    CreationCommits();
    OtherScope();
    BookingTransacts();
    assert Commits(After([Creation()]), Booking());
    assert [Creation()] + [Booking()] == calls;
    EveryStoreTells(calls);
  }

  lemma ResultOfCreation(calls: seq<Call>)
    requires |Committed(calls)| > 0 && Committed(calls)[0] == Creation()
    ensures ResultOf(Committed(calls), 0) == Transact(EMPTY_DB, Creation())
  {
    hide Transact, Committed, Creation;
    assert Committed(calls)[..0] == [];
  }

  lemma ClaimIsHonest(db: Db)
    ensures EvidenceHonesty.Describes(CreationClaim(), Creation().command, db)
    ensures Authorized(ResidentsFacts(), CreationClaim()) && CreationClaim().action == CreateAction
  {
  }

  /** The resident's honest claim about the creation is confirmed right after it, and inconsistent once
      the ticket has been booked, though the creation committed all the same. */
  lemma BookingUnsettlesTheCreation()
    ensures var q := CreationClaim();
      && Authorized(ResidentsFacts(), q)
      && OperationOutcome(After([Creation()]), ResidentsFacts(), q).CommittedAs?
      && OperationOutcome(After([Creation(), Booking()]), ResidentsFacts(), q) == Inconsistent
      && CommittedOperation([Creation(), Booking()], q.operationId)
  {
    hide Transact, Step, Run, Creation, Booking, After, Committed, CreationClaim, ResidentsFacts, EvidenceHonesty.Describes,
      Authorized, OperationOutcome, ResultOf;
    CreationTransacts();
    CreationCommits();
    BothCommit();
    Confirmed([Creation()], 1);
    Confirmed([Creation(), Booking()], 2);
    assert Committed([Creation(), Booking()])[0].command.OperationId() == CreationClaim().operationId by {
      ClaimedOperation();
    }
  }

  lemma ClaimedOperation()
    ensures CreationClaim().operationId == Creation().command.OperationId()
  {
  }

  lemma Confirmed(calls: seq<Call>, version: int)
    requires |Committed(calls)| > 0 && Committed(calls)[0] == Creation() && After(calls).db == Run(calls)
    requires calls == [Creation()] || calls == [Creation(), Booking()]
    requires version == |calls|
    ensures Authorized(ResidentsFacts(), CreationClaim())
    ensures OperationOutcome(After(calls), ResidentsFacts(), CreationClaim()).CommittedAs? <==> version == 1
    ensures version != 1 ==> OperationOutcome(After(calls), ResidentsFacts(), CreationClaim()) == Inconsistent
  {
    hide Transact, Step, Run, After, Committed, CreationClaim, ResidentsFacts, EvidenceHonesty.Describes,
      Authorized, OperationOutcome, ResultOf;
    StoreHistories.AfterCreation();
    StoreHistories.AfterBooking();
    assert Run(calls).tickets[0].version == version;
    hide Creation, Booking;
    ClaimIsHonest(After(calls).db);
    CreationTransacts();
    ResultOfCreation(calls);
    EvidenceHonesty.HonestClaimConfirmedWhileUnmoved(calls, ResidentsFacts(), CreationClaim(), 0);
  }
}
