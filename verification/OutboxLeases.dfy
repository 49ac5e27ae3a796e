/** Outbox leases do not overlap. No shared clock is needed: it is enough that a worker reads its own
    clock for an acknowledgement no earlier than it did for the claim. */
module OutboxLeases {
  import opened Domain
  import opened Outbox
  import opened OutboxRuns
  import Fencing

  /** Leases have a length, and a failure is timed no earlier than the claim it answers. */
  ghost predicate ReadsForward(s: State, f: Fencing.Fence, e: Event) {
    && (e.ClaimBatch? ==> e.lease >= 0.0)
    && (e.Fail? && HoldsClaim(s.rows, e.id, e.worker, e.token) && e.token < |f.grants| ==>
          f.grants[e.token].grantedAt <= e.at)
  }

  ghost function FenceOf(events: seq<Event>, settings: Settings): Fencing.Fence {
    Fencing.After(FenceEvents(events, settings))
  }

  ghost predicate WorkersReadForward(events: seq<Event>, settings: Settings) {
    forall k :: 0 <= k < |events| ==>
      ReadsForward(After(events[..k], settings), FenceOf(events[..k], settings), events[k])
  }

  /** A row that can be claimed again can be claimed only after every reading made for it. */
  ghost predicate RowReads(row: Row, grants: seq<Fencing.Grant>, i: nat) {
    && Fencing.ReadInOrder(grants, i)
    && (row.status == Pending ==> Fencing.ReadBy(grants, i, row.availableAt))
    && (row.status == Processing && row.claimExpiresAt.Some? ==> Fencing.ReadBy(grants, i, row.claimExpiresAt.value))
  }

  ghost predicate RowsRead(s: State, f: Fencing.Fence) {
    forall i :: 0 <= i < |s.rows| ==> RowReads(s.rows[i], f.grants, i)
  }

  lemma ClaimedRowReads(row: Row, next: Row, before: seq<Fencing.Grant>, after: seq<Fencing.Grant>,
                        i: nat, picked: seq<nat>, at: real, expiresAt: real)
    requires RowReads(row, before, i) && Fencing.GrantedAt(before, after, picked, at) && at <= expiresAt
    requires i in picked ==> Eligible(row, at) && next.status == Processing && next.claimExpiresAt == Some(expiresAt)
    requires i !in picked ==> next == row
    ensures RowReads(next, after, i)
  {
    if i in picked {
      assert Fencing.ReadBy(before, i, at);
    }
  }

  lemma ClaimsKeepReads(s: State, fence: seq<Fencing.Event>, e: Event, settings: Settings)
    requires e.ClaimBatch? && e.lease >= 0.0 && RowsRead(s, Fencing.After(fence))
    ensures RowsRead(Next(s, e, settings), Fencing.After(fence + FenceSteps(s, e, settings)))
  {
    hide Pick, Fencing.After, ClaimAll, Fencing.GrantedAt, RowReads, Fencing.Claims, Eligible;
    var picked := Pick(s.rows, e.at, e.locked, e.limit);
    PickedAreRows(s.rows, e.at, e.locked, e.limit);
    ClaimAllShape(s, picked, e.worker, e.at + e.lease);
    Fencing.ClaimsGrant(fence, picked, e.worker, e.at, e.at + e.lease);
    var f, g, n := Fencing.After(fence), Fencing.After(fence + FenceSteps(s, e, settings)), Next(s, e, settings);
    forall i | 0 <= i < |n.rows| ensures RowReads(n.rows[i], g.grants, i) {
      ClaimedRowReads(s.rows[i], n.rows[i], f.grants, g.grants, i, picked, e.at, e.at + e.lease);
    }
  }

  lemma FailureKeepsReads(s: State, fence: seq<Fencing.Event>, e: Event, settings: Settings)
    requires e.Fail? && HoldsClaim(s.rows, e.id, e.worker, e.token) && settings.retryBase >= 0.0
    requires var f := Fencing.After(fence); Refines(s, f) && RowReads(s.rows[e.id], f.grants, e.id) && ReadsForward(s, f, e)
    ensures RowReads(FailedRow(s.rows[e.id], e.at, e.error, settings), Fencing.After(fence).grants, e.id)
  {
    Fencing.EveryRunKeepsInv(fence);
    var f := Fencing.After(fence);
    assert f.slots[e.id] == SlotOf(s.rows[e.id]);
    assert Fencing.SlotTells(f, e.id);
    hide Fencing.After, Refines;
    assert Fencing.ReadBy(f.grants, e.id, e.at) by {
      assert Fencing.Newest(f.grants, e.token);
    }
    NonNegativeDelay(settings.retryBase, s.rows[e.id].attempts);
  }

  lemma NonNegativeDelay(base: real, attempts: nat)
    requires base >= 0.0
    ensures Delay(base, attempts) >= 0.0
  {
  }

  lemma StepKeepsReads(s: State, fence: seq<Fencing.Event>, e: Event, settings: Settings)
    requires var f := Fencing.After(fence); Refines(s, f) && RowsRead(s, f) && ReadsForward(s, f, e)
    requires settings.retryBase >= 0.0
    ensures RowsRead(Next(s, e, settings), Fencing.After(fence + FenceSteps(s, e, settings)))
  {
    if e.ClaimBatch? {
      ClaimsKeepReads(s, fence, e, settings);
    } else {
      var step := FenceSteps(s, e, settings)[0];
      assert FenceSteps(s, e, settings) == [step];
      Fencing.EveryRunKeepsInv(fence);
      Fencing.OneMore(fence, step);
      hide Fencing.After, Pick, ClaimAll, FailedRow, Refines;
      var f, g, n := Fencing.After(fence), Fencing.After(fence + [step]), Next(s, e, settings);
      assert g.grants == f.grants;
      forall i | 0 <= i < |n.rows| ensures RowReads(n.rows[i], g.grants, i) {
        if i < |s.rows| {
          assert RowReads(s.rows[i], f.grants, i);
          if e.Fail? && e.id == i && HoldsClaim(s.rows, i, e.worker, e.token) {
            FailureKeepsReads(s, fence, e, settings);
          }
        } else {
          assert |f.slots| == |s.rows|;
        }
      }
    }
  }

  lemma {:induction false} EveryRunReads(events: seq<Event>, settings: Settings)
    requires WorkersReadForward(events, settings) && settings.retryBase >= 0.0
    ensures RowsRead(After(events, settings), FenceOf(events, settings))
  {
    hide RowsRead, Next, FenceSteps, Refines, ReadsForward;
    if events == [] {
      NothingRead();
    } else {
      var last := |events| - 1;
      var before := events[..last];
      forall k | 0 <= k < last ensures ReadsForward(After(before[..k], settings), FenceOf(before[..k], settings), before[k]) {
        assert before[..k] == events[..k];
      }
      EveryRunReads(before, settings);
      OutboxIsFenced(before, settings);
      StepKeepsReads(After(before, settings), FenceEvents(before, settings), events[last], settings);
    }
  }

  lemma NothingRead()
    ensures RowsRead(State([], 0), Fencing.After([]))
  {
  }

  /** In every run whose workers each read their own clock forwards, however their readings
      interleave: two unacknowledged, unexpired leases never cover one row at the same instant. */
  lemma OutboxLeasesNeverOverlap(events: seq<Event>, settings: Settings, i: nat, j: nat, at: real)
    requires WorkersReadForward(events, settings) && settings.retryBase >= 0.0
    requires var f := FenceOf(events, settings);
      Fencing.Covers(f, i, at) && Fencing.Covers(f, j, at) && f.grants[i].row == f.grants[j].row
    ensures i == j
  {
    var f := FenceOf(events, settings);
    EveryRunReads(events, settings);
    OutboxIsFenced(events, settings);
    Fencing.EveryRunKeepsInv(FenceEvents(events, settings));
    assert f.grants[i].row < |After(events, settings).rows|;
    hide After, FenceEvents, Fencing.After;
    assert RowReads(After(events, settings).rows[f.grants[i].row], f.grants, f.grants[i].row);
    Fencing.LeasesNeverOverlap(FenceEvents(events, settings), i, j, at);
  }
}
