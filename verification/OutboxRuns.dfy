/** Runs of the outbox under any number of dispatching workers: every run is a fenced one, no
    terminal row changes, and retries back off. */
module OutboxRuns {
  import opened RepairStore
  import opened Outbox
  import Fencing

  datatype Event =
    | Publish(event: DomainEvent, at: real)
    | ClaimBatch(worker: string, at: real, lease: real, limit: nat, locked: set<nat>)
    | Dispatch(id: nat, worker: string, token: nat, at: real)
    | Fail(id: nat, worker: string, token: nat, at: real, error: string)

  function Next(s: State, e: Event, settings: Settings): State {
    match e
    case Publish(event, at) => s.(rows := s.rows + [NewRow(event, at)])
    case ClaimBatch(worker, at, lease, limit, locked) =>
      ClaimAll(s, Pick(s.rows, at, locked, limit), worker, at + lease)
    case Dispatch(id, worker, token, at) =>
      if HoldsClaim(s.rows, id, worker, token) then s.(rows := s.rows[id := DispatchedRow(s.rows[id], at)]) else s
    case Fail(id, worker, token, at, error) =>
      if HoldsClaim(s.rows, id, worker, token) then s.(rows := s.rows[id := FailedRow(s.rows[id], at, error, settings)])
      else s
  }

  function After(events: seq<Event>, settings: Settings): State {
    if events == [] then State([], 0)
    else Next(After(events[..|events| - 1], settings), events[|events| - 1], settings)
  }

  // ----- Refinement of the fencing protocol -----

  /** The schema's own check: the claim columns are set exactly on rows being processed. */
  predicate ClaimFieldsMatch(row: Row) {
    if row.status == Processing
    then row.claimedBy.Some? && row.claimToken.Some? && row.claimExpiresAt.Some?
    else row.claimedBy.None? && row.claimToken.None? && row.claimExpiresAt.None?
  }

  predicate DispatchTimeMatches(row: Row) {
    row.status == Dispatched <==> row.dispatchedAt.Some?
  }

  function SlotOf(row: Row): Fencing.Slot
    requires ClaimFieldsMatch(row)
  {
    match row.status
    case Pending => Fencing.Waiting
    case Processing => Fencing.Leased(row.claimedBy.value, row.claimToken.value, row.claimExpiresAt.value)
    case _ => Fencing.Done
  }

  ghost predicate Refines(s: State, f: Fencing.Fence) {
    && |f.slots| == |s.rows| && |f.grants| == s.tokens
    && (forall i :: 0 <= i < |s.rows| ==>
          ClaimFieldsMatch(s.rows[i]) && DispatchTimeMatches(s.rows[i]) && f.slots[i] == SlotOf(s.rows[i]))
  }

  /** The fencing events an outbox event stands for. */
  function FenceSteps(s: State, e: Event, settings: Settings): seq<Fencing.Event> {
    match e
    case Publish(_, _) => [Fencing.Add]
    case ClaimBatch(worker, at, lease, limit, locked) =>
      Fencing.Claims(Pick(s.rows, at, locked, limit), worker, at, at + lease)
    case Dispatch(id, worker, token, _) => [Fencing.Settle(id, worker, token, true)]
    case Fail(id, worker, token, _, _) =>
      [Fencing.Settle(id, worker, token, id < |s.rows| && s.rows[id].attempts + 1 >= settings.maxAttempts)]
  }

  function FenceEvents(events: seq<Event>, settings: Settings): seq<Fencing.Event> {
    if events == [] then []
    else
      var before := events[..|events| - 1];
      FenceEvents(before, settings) + FenceSteps(After(before, settings), events[|events| - 1], settings)
  }

  lemma {:induction false} ClaimsRefine(s: State, events: seq<Fencing.Event>, picked: seq<nat>, worker: string,
                                        at: real, expiresAt: real, k: nat)
    requires Refines(s, Fencing.After(events))
    requires k <= |picked| && InOrder(s.rows, picked)
    requires forall l :: 0 <= l < |picked| ==> Eligible(s.rows[picked[l]], at)
    ensures var f := Fencing.After(events + Fencing.Claims(picked[..k], worker, at, expiresAt));
      Refines(ClaimAll(s, picked[..k], worker, expiresAt), f)
    decreases k
  {
    var claims := Fencing.Claims(picked[..k], worker, at, expiresAt);
    if k == 0 {
      assert events + claims == events;
    } else {
      var earlier := Fencing.Claims(picked[..k - 1], worker, at, expiresAt);
      var id := picked[k - 1];
      assert events + claims == events + earlier + [Fencing.Claim(id, worker, at, expiresAt)];
      hide Fencing.After, ClaimAll, Eligible, InOrder;
      ClaimsRefine(s, events, picked, worker, at, expiresAt, k - 1);
      Fencing.OneMore(events + earlier, Fencing.Claim(id, worker, at, expiresAt));
      UnclaimedYet(s, picked, k - 1, worker, expiresAt);
      ClaimAllNext(s, picked, k - 1, worker, expiresAt);
      ClaimRefines(ClaimAll(s, picked[..k - 1], worker, expiresAt), Fencing.After(events + earlier), id, worker, at, expiresAt);
    }
  }

  lemma UnclaimedYet(s: State, picked: seq<nat>, k: nat, worker: string, expiresAt: real)
    requires k < |picked| && InOrder(s.rows, picked)
    ensures var before := ClaimAll(s, picked[..k], worker, expiresAt);
      picked[k] < |before.rows| == |s.rows| && before.rows[picked[k]] == s.rows[picked[k]]
  {
    ClaimAllShape(s, picked[..k], worker, expiresAt);
  }

  lemma ClaimRefines(s: State, f: Fencing.Fence, id: nat, worker: string, at: real, expiresAt: real)
    requires Refines(s, f) && id < |s.rows| && Eligible(s.rows[id], at)
    ensures Refines(State(s.rows[id := ClaimRow(s.rows[id], worker, s.tokens, expiresAt)], s.tokens + 1),
                    Fencing.Next(f, Fencing.Claim(id, worker, at, expiresAt)))
  {
    assert f.slots[id] == SlotOf(s.rows[id]);
  }

  lemma SettlesRefine(s: State, f: Fencing.Fence, e: Event, settings: Settings)
    requires Refines(s, f) && !e.ClaimBatch?
    ensures Refines(Next(s, e, settings), Fencing.Next(f, FenceSteps(s, e, settings)[0]))
  {
    if e.Dispatch? || e.Fail? {
      if e.id < |s.rows| {
        assert f.slots[e.id] == SlotOf(s.rows[e.id]);
      }
    }
  }

  lemma StepRefines(s: State, fence: seq<Fencing.Event>, e: Event, settings: Settings)
    requires Refines(s, Fencing.After(fence))
    ensures Refines(Next(s, e, settings), Fencing.After(fence + FenceSteps(s, e, settings)))
  {
    hide Refines, Fencing.After, Pick, ClaimAll;
    match e {
      case ClaimBatch(worker, at, lease, limit, locked) =>
        var picked := Pick(s.rows, at, locked, limit);
        PickIsTheFirstEligible(s.rows, at, locked, limit);
        assert forall l :: 0 <= l < |picked| ==> picked[l] in picked;
        ClaimsRefine(s, fence, picked, worker, at, at + lease, |picked|);
        assert picked[..|picked|] == picked;
      case _ =>
        var step := FenceSteps(s, e, settings)[0];
        SettlesRefine(s, Fencing.After(fence), e, settings);
        Fencing.OneMore(fence, step);
        assert FenceSteps(s, e, settings) == [step];
    }
  }

  lemma NothingToFence()
    ensures Refines(State([], 0), Fencing.After([]))
  {
  }

  /** Every run of the outbox, whatever its workers' clocks read, is a run of the fencing protocol, so
      whatever holds of all fenced runs holds of the outbox: see `Fencing`. The claim columns always
      match the status. */
  lemma {:induction false} OutboxIsFenced(events: seq<Event>, settings: Settings)
    ensures Refines(After(events, settings), Fencing.After(FenceEvents(events, settings)))
  {
    hide Refines, Fencing.After, Next, FenceSteps;
    if events == [] {
      NothingToFence();
    } else {
      var last := |events| - 1;
      var before, e := events[..last], events[last];
      OutboxIsFenced(before, settings);
      StepRefines(After(before, settings), FenceEvents(before, settings), e, settings);
    }
  }

  /** An acknowledgement of either kind takes effect exactly when it presents the row's newest
      token, for the first time, under the worker it was granted to. */
  lemma OnlyNewestTokenAcknowledges(events: seq<Event>, settings: Settings, ack: Event)
    requires ack.Dispatch? || ack.Fail?
    ensures var s, f := After(events, settings), Fencing.After(FenceEvents(events, settings));
      Next(s, ack, settings) != s <==>
        && Fencing.Newest(f.grants, ack.token) && ack.token !in f.settled
        && f.grants[ack.token].row == ack.id && f.grants[ack.token].worker == ack.worker
  {
    OutboxIsFenced(events, settings);
    var s, f := After(events, settings), Fencing.After(FenceEvents(events, settings));
    Fencing.OnlyNewestUnsettledTokenSettles(FenceEvents(events, settings), ack.id, ack.worker, ack.token, true);
    hide After, FenceEvents, Fencing.After;
    if ack.id < |s.rows| {
      assert f.slots[ack.id] == SlotOf(s.rows[ack.id]);
    }
    if HoldsClaim(s.rows, ack.id, ack.worker, ack.token) {
      assert Next(s, ack, settings).rows[ack.id].status != Processing;
    }
    HeldIsNoStutter(f, ack.id, ack.worker, ack.token);
  }

  lemma HeldIsNoStutter(f: Fencing.Fence, row: nat, worker: string, token: nat)
    ensures Fencing.Holds(f, row, worker, token) <==> Fencing.Next(f, Fencing.Settle(row, worker, token, true)) != f
  {
    assert Fencing.Holds(f, row, worker, token) ==>
      |Fencing.Next(f, Fencing.Settle(row, worker, token, true)).settled| == |f.settled| + 1;
  }

  /** Dispatched and dead-lettered rows never change again. */
  lemma {:induction false} TerminalRowsNeverChange(events: seq<Event>, more: seq<Event>, settings: Settings, id: nat)
    requires id < |After(events, settings).rows|
    requires After(events, settings).rows[id].status in {Dispatched, DeadLetter}
    ensures id < |After(events + more, settings).rows|
    ensures After(events + more, settings).rows[id] == After(events, settings).rows[id]
  {
    hide Next;
    if more == [] {
      assert events + more == events;
    } else {
      var last := |more| - 1;
      var all := events + more;
      assert all[..|all| - 1] == events + more[..last] && all[|all| - 1] == more[last];
      TerminalRowsNeverChange(events, more[..last], settings, id);
      NextKeepsTerminal(After(events + more[..last], settings), more[last], settings, id);
    }
  }

  lemma NextKeepsTerminal(s: State, e: Event, settings: Settings, id: nat)
    requires id < |s.rows| && s.rows[id].status in {Dispatched, DeadLetter}
    ensures id < |Next(s, e, settings).rows| && Next(s, e, settings).rows[id] == s.rows[id]
  {
    hide Pick, InOrder, Precedes, ClaimAll, FailedRow, DispatchedRow;
    if e.ClaimBatch? {
      var picked := Pick(s.rows, e.at, e.locked, e.limit);
      PickedAreRows(s.rows, e.at, e.locked, e.limit);
      ClaimAllShape(s, picked, e.worker, e.at + e.lease);
    }
  }
}
