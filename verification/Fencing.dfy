/** Leased claims with fencing tokens, on their own: what any interleaving of claims, expiries,
    crashes and late settlements by many workers can do to a set of rows. A worker reads its clock
    before its transaction, so a claim may carry a reading older than ones already committed. A
    crash needs no event of its own: a crashed worker is one that never settles. */
module Fencing {

  datatype Slot = Waiting | Leased(worker: string, token: nat, expiresAt: real) | Done

  /** A lease as it was handed out. Its token is its position among all leases ever granted. */
  datatype Grant = Grant(row: nat, worker: string, grantedAt: real, expiresAt: real)

  datatype Fence = Fence(slots: seq<Slot>, grants: seq<Grant>, settled: seq<nat>)

  datatype Event =
    | Add
    | Claim(row: nat, worker: string, at: real, expiresAt: real)
    | Settle(row: nat, worker: string, token: nat, final: bool)

  const EMPTY_FENCE := Fence([], [], [])

  predicate Claimable(f: Fence, row: nat, at: real) {
    && row < |f.slots|
    && (f.slots[row].Waiting? || (f.slots[row].Leased? && f.slots[row].expiresAt <= at))
  }

  predicate Holds(f: Fence, row: nat, worker: string, token: nat) {
    row < |f.slots| && f.slots[row].Leased? && f.slots[row].worker == worker && f.slots[row].token == token
  }

  /** An event whose guard fails leaves everything as it is. */
  function Next(f: Fence, e: Event): Fence {
    match e
    case Add => f.(slots := f.slots + [Waiting])
    case Claim(row, worker, at, expiresAt) =>
      if Claimable(f, row, at) then
        Fence(f.slots[row := Leased(worker, |f.grants|, expiresAt)],
              f.grants + [Grant(row, worker, at, expiresAt)], f.settled)
      else f
    case Settle(row, worker, token, final) =>
      if Holds(f, row, worker, token) then
        f.(slots := f.slots[row := if final then Done else Waiting], settled := f.settled + [token])
      else f
  }

  function After(events: seq<Event>): Fence {
    if events == [] then EMPTY_FENCE else Next(After(events[..|events| - 1]), events[|events| - 1])
  }

  // ----- The invariant -----

  /** `t` is the last token granted on its row. */
  ghost predicate Newest(grants: seq<Grant>, t: nat) {
    t < |grants| && forall u :: t < u < |grants| ==> grants[u].row != grants[t].row
  }

  /** The lease `t` no longer stands in the way at instant `at`. */
  ghost predicate Over(f: Fence, t: nat, at: real)
    requires t < |f.grants|
  {
    t in f.settled || f.grants[t].expiresAt <= at
  }

  /** `j` is the next lease granted on the row of `i`. */
  ghost predicate Successive(grants: seq<Grant>, i: nat, j: nat) {
    && i < j < |grants| && grants[i].row == grants[j].row
    && forall k :: i < k < j ==> grants[k].row != grants[i].row
  }

  /** The row's slot is its newest lease, while that lease is unsettled. */
  ghost predicate SlotTells(f: Fence, row: nat)
    requires row < |f.slots|
  {
    match f.slots[row]
    case Leased(worker, token, expiresAt) =>
      && Newest(f.grants, token) && token !in f.settled
      && f.grants[token].row == row && f.grants[token].worker == worker && f.grants[token].expiresAt == expiresAt
    case _ => forall t: nat :: Newest(f.grants, t) && f.grants[t].row == row ==> t in f.settled
  }

  /** Every lease was over, by the reading of the one that came next on its row. */
  ghost predicate LeasesApart(f: Fence) {
    forall i: nat, j: nat :: Successive(f.grants, i, j) ==> Over(f, i, f.grants[j].grantedAt)
  }

  ghost predicate Inv(f: Fence) {
    && (forall row: nat :: row < |f.slots| ==> SlotTells(f, row))
    && LeasesApart(f)
    && (forall i, j :: 0 <= i < j < |f.settled| ==> f.settled[i] != f.settled[j])
    && (forall t: nat :: t < |f.grants| ==> f.grants[t].row < |f.slots|)
    && (forall t: nat :: t in f.settled ==> t < |f.grants|)
  }

  lemma {:induction false} NewestExists(grants: seq<Grant>, t: nat) returns (u: nat)
    requires t < |grants|
    ensures t <= u && Newest(grants, u) && grants[u].row == grants[t].row
    decreases |grants| - t
  {
    if v: nat :| t < v < |grants| && grants[v].row == grants[t].row {
      u := NewestExists(grants, v);
    } else {
      u := t;
    }
  }

  /** When a row can be claimed, its newest lease is over. */
  lemma ClaimableMeansOver(f: Fence, row: nat, at: real, t: nat)
    requires Inv(f) && Claimable(f, row, at) && Newest(f.grants, t) && f.grants[t].row == row
    ensures Over(f, t, at)
  {
    assert SlotTells(f, row);
    if f.slots[row].Leased? {
      var u := f.slots[row].token;
      assert t == u;
    }
  }

  lemma ClaimKeepsInv(f: Fence, row: nat, worker: string, at: real, expiresAt: real)
    requires Inv(f) && Claimable(f, row, at)
    ensures Inv(Next(f, Claim(row, worker, at, expiresAt)))
  {
    var n := Next(f, Claim(row, worker, at, expiresAt));
    forall r: nat | r < |n.slots| ensures SlotTells(n, r) {
      assert SlotTells(f, r);
      forall t: nat | Newest(n.grants, t) && t < |f.grants| ensures Newest(f.grants, t) {
        assert forall u :: t < u < |f.grants| ==> f.grants[u] == n.grants[u];
      }
      if r != row && f.slots[r].Leased? {
        assert Newest(n.grants, f.slots[r].token);
      }
    }
    forall i: nat, j: nat | Successive(n.grants, i, j) ensures Over(n, i, n.grants[j].grantedAt) {
      assert forall k :: 0 <= k < |f.grants| ==> n.grants[k] == f.grants[k];
      if j == |f.grants| {
        ClaimableMeansOver(f, row, at, i);
      } else {
        assert Successive(f.grants, i, j);
      }
    }
  }

  lemma SettleKeepsInv(f: Fence, row: nat, worker: string, token: nat, final: bool)
    requires Inv(f) && Holds(f, row, worker, token)
    ensures Inv(Next(f, Settle(row, worker, token, final)))
  {
    var n := Next(f, Settle(row, worker, token, final));
    assert SlotTells(f, row);
    forall r: nat | r < |n.slots| ensures SlotTells(n, r) {
      assert SlotTells(f, r);
    }
    forall i: nat, j: nat | Successive(n.grants, i, j) ensures Over(n, i, n.grants[j].grantedAt) {
      assert Over(f, i, f.grants[j].grantedAt);
    }
  }

  lemma AddKeepsInv(f: Fence)
    requires Inv(f)
    ensures Inv(Next(f, Add))
  {
    var n := Next(f, Add);
    forall r: nat | r < |n.slots| ensures SlotTells(n, r) {
      if r < |f.slots| {
        assert SlotTells(f, r);
      }
    }
    forall i: nat, j: nat | Successive(n.grants, i, j) ensures Over(n, i, n.grants[j].grantedAt) {
      assert Over(f, i, f.grants[j].grantedAt);
    }
  }

  lemma NextKeepsInv(f: Fence, e: Event)
    requires Inv(f)
    ensures Inv(Next(f, e))
  {
    hide Inv;
    match e
    case Add => AddKeepsInv(f);
    case Claim(row, worker, at, expiresAt) =>
      if Claimable(f, row, at) {
        ClaimKeepsInv(f, row, worker, at, expiresAt);
      }
    case Settle(row, worker, token, final) =>
      if Holds(f, row, worker, token) {
        SettleKeepsInv(f, row, worker, token, final);
      }
  }

  lemma {:induction false} EveryRunKeepsInv(events: seq<Event>)
    ensures Inv(After(events))
  {
    hide Inv, Next;
    if events == [] {
      EmptyInv();
    } else {
      EveryRunKeepsInv(events[..|events| - 1]);
      NextKeepsInv(After(events[..|events| - 1]), events[|events| - 1]);
    }
  }

  lemma EmptyInv()
    ensures Inv(EMPTY_FENCE)
  {
  }

  // ----- What every interleaving guarantees -----

  /** A lease covers an instant from its grant up to its expiry, unless it was settled. */
  ghost predicate Covers(f: Fence, t: nat, at: real) {
    t < |f.grants| && t !in f.settled && f.grants[t].grantedAt <= at < f.grants[t].expiresAt
  }

  /** The claims of a row read the clock in the order they were granted. */
  ghost predicate ReadInOrder(grants: seq<Grant>, row: nat) {
    forall i, j :: 0 <= i < j < |grants| && grants[i].row == row && grants[j].row == row ==>
      grants[i].grantedAt <= grants[j].grantedAt
  }

  lemma {:induction false} NextOnRow(grants: seq<Grant>, i: nat, j: nat) returns (k: nat)
    requires i < j < |grants| && grants[i].row == grants[j].row
    ensures k <= j && Successive(grants, i, k)
  {
    if l: nat :| i < l < j && grants[l].row == grants[i].row {
      k := NextOnRow(grants, i, l);
    } else {
      k := j;
    }
  }

  lemma EarlierLeaseIsOver(f: Fence, i: nat, j: nat, at: real)
    requires Inv(f) && i < j < |f.grants| && f.grants[i].row == f.grants[j].row && f.grants[j].grantedAt <= at
    requires ReadInOrder(f.grants, f.grants[i].row)
    ensures !Covers(f, i, at)
  {
    var k := NextOnRow(f.grants, i, j);
    assert Over(f, i, f.grants[k].grantedAt);
    assert f.grants[k].grantedAt <= f.grants[j].grantedAt;
  }

  /** On a row whose claims read the clock in order, two unsettled, unexpired leases never cover the
      same instant; and the one that covers an instant no claim of the row has read past is the one
      the row is held under. */
  lemma LeasesNeverOverlap(events: seq<Event>, i: nat, j: nat, at: real)
    requires Covers(After(events), i, at) && Covers(After(events), j, at)
    requires After(events).grants[i].row == After(events).grants[j].row
    requires ReadInOrder(After(events).grants, After(events).grants[i].row)
    ensures i == j
    ensures var f := After(events);
      (forall t :: 0 <= t < |f.grants| && f.grants[t].row == f.grants[i].row ==> f.grants[t].grantedAt <= at) ==>
        Holds(f, f.grants[i].row, f.grants[i].worker, i)
  {
    EveryRunKeepsInv(events);
    var f := After(events);
    hide After;
    if i < j {
      EarlierLeaseIsOver(f, i, j, at);
    } else if j < i {
      EarlierLeaseIsOver(f, j, i, at);
    } else {
      var u := NewestExists(f.grants, i);
      if i == u {
        assert SlotTells(f, f.grants[i].row);
      } else if f.grants[u].grantedAt <= at {
        EarlierLeaseIsOver(f, i, u, at);
      }
    }
  }

  /** Without that order they can overlap: a first lease expires, the second is settled, and a third
      claim comes with a reading older than both. The tokens still tell them apart. */
  lemma StaleReadingOverlaps()
    ensures
      var f := After([Add, Claim(0, "a", 0.0, 10.0), Claim(0, "b", 10.0, 20.0), Settle(0, "b", 1, false),
                      Claim(0, "c", 5.0, 15.0)]);
      Covers(f, 0, 5.0) && Covers(f, 2, 5.0) && !Holds(f, 0, "a", 0) && Holds(f, 0, "c", 2)
  {
    var events := [Add, Claim(0, "a", 0.0, 10.0), Claim(0, "b", 10.0, 20.0), Settle(0, "b", 1, false), Claim(0, "c", 5.0, 15.0)];
    assert After(events[..0]) == EMPTY_FENCE;
    assert events[..1][..0] == events[..0] && events[..2][..1] == events[..1] && events[..3][..2] == events[..2]
      && events[..4][..3] == events[..3] && events[..5][..4] == events[..4] && events[..5] == events;
    var f1, f2, f3, f4 := After(events[..1]), After(events[..2]), After(events[..3]), After(events[..4]);
    assert f1 == Fence([Waiting], [], []);
    assert f2 == Fence([Leased("a", 0, 10.0)], [Grant(0, "a", 0.0, 10.0)], []);
    assert f3 == Fence([Leased("b", 1, 20.0)], [Grant(0, "a", 0.0, 10.0), Grant(0, "b", 10.0, 20.0)], []);
    assert f4 == Fence([Waiting], f3.grants, [1]);
  }

  /** The claims of a batch, all made with one reading. */
  function Claims(picked: seq<nat>, worker: string, at: real, expiresAt: real): seq<Event> {
    seq(|picked|, k requires 0 <= k < |picked| => Claim(picked[k], worker, at, expiresAt))
  }

  lemma OneMore(events: seq<Event>, e: Event)
    ensures After(events + [e]) == Next(After(events), e)
  {
    assert (events + [e])[..|events|] == events;
  }

  /** No claim of the row read the clock past `bound`. */
  ghost predicate ReadBy(grants: seq<Grant>, row: nat, bound: real) {
    forall t :: 0 <= t < |grants| && grants[t].row == row ==> grants[t].grantedAt <= bound
  }

  /** Leases granted at `at`, on the picked rows alone. */
  ghost predicate GrantedAt(before: seq<Grant>, after: seq<Grant>, picked: seq<nat>, at: real) {
    && before <= after
    && forall t :: |before| <= t < |after| ==> after[t].grantedAt == at && after[t].row in picked
  }

  lemma ClaimsGrant(events: seq<Event>, picked: seq<nat>, worker: string, at: real, expiresAt: real)
    ensures GrantedAt(After(events).grants, After(events + Claims(picked, worker, at, expiresAt)).grants, picked, at)
  {
    hide After;
    var claims := Claims(picked, worker, at, expiresAt);
    NewGrantsReadTheClock(events, claims, at);
    forall row: nat | Names(claims, row) ensures row in picked {
      var k :| 0 <= k < |claims| && claims[k].Claim? && claims[k].row == row;
      assert picked[k] == row;
    }
  }

  predicate Names(events: seq<Event>, row: nat) {
    exists k :: 0 <= k < |events| && events[k].Claim? && events[k].row == row
  }

  lemma NamesLonger(events: seq<Event>, e: Event, row: nat)
    requires Names(events, row) || (e.Claim? && e.row == row)
    ensures Names(events + [e], row)
  {
    if Names(events, row) {
      var k :| 0 <= k < |events| && events[k].Claim? && events[k].row == row;
      assert (events + [e])[k] == events[k];
    } else {
      assert (events + [e])[|events|] == e;
    }
  }

  /** What claims that all read `at` add to the leases granted: leases on the rows they name. */
  lemma {:induction false} NewGrantsReadTheClock(events: seq<Event>, more: seq<Event>, at: real)
    requires forall k :: 0 <= k < |more| && more[k].Claim? ==> more[k].at == at
    ensures
      var before, after := After(events).grants, After(events + more).grants;
      && before <= after
      && (forall t :: |before| <= t < |after| ==> after[t].grantedAt == at && Names(more, after[t].row))
  {
    hide Names;
    if more == [] {
      assert events + more == events;
    } else {
      var last := |more| - 1;
      var all := events + more;
      assert all[..|all| - 1] == events + more[..last] && all[|all| - 1] == more[last];
      assert more[..last] + [more[last]] == more;
      NewGrantsReadTheClock(events, more[..last], at);
      var before, after := After(events).grants, After(all).grants;
      forall t | |before| <= t < |after| ensures after[t].grantedAt == at && Names(more, after[t].row) {
        NamesLonger(more[..last], more[last], after[t].row);
      }
    }
  }

  /** A settlement changes a row exactly when it presents the newest lease of that row, under the
      worker it was granted to, and that lease has not been settled before. */
  lemma OnlyNewestUnsettledTokenSettles(events: seq<Event>, row: nat, worker: string, token: nat, final: bool)
    ensures var f := After(events);
      Next(f, Settle(row, worker, token, final)) != f <==>
        && Newest(f.grants, token) && f.grants[token].row == row && f.grants[token].worker == worker
        && token !in f.settled
  {
    EveryRunKeepsInv(events);
    var f := After(events);
    hide After;
    var n := Next(f, Settle(row, worker, token, final));
    if Holds(f, row, worker, token) {
      assert SlotTells(f, row);
      assert |n.settled| == |f.settled| + 1;
    } else if Newest(f.grants, token) && f.grants[token].row == row {
      assert SlotTells(f, row);
      if f.slots[row].Leased? {
        var u := f.slots[row].token;
        assert u == token;
      }
    }
  }

  /** No lease settles twice. */
  lemma EachLeaseSettlesOnce(events: seq<Event>, i: nat, j: nat)
    requires i < j < |After(events).settled|
    ensures After(events).settled[i] != After(events).settled[j]
    ensures After(events).settled[i] < |After(events).grants|
  {
    EveryRunKeepsInv(events);
    assert After(events).settled[i] in After(events).settled;
    hide After;
  }

  /** A finished row stays finished and is never leased again. */
  lemma {:induction false} DoneIsForever(events: seq<Event>, more: seq<Event>, row: nat)
    requires row < |After(events).slots| && After(events).slots[row].Done?
    ensures var f, later := After(events), After(events + more);
      && row < |later.slots| && later.slots[row].Done?
      && |f.grants| <= |later.grants|
      && forall t: nat :: |f.grants| <= t < |later.grants| ==> later.grants[t].row != row
  {
    if more == [] {
      assert events + more == events;
    } else {
      var last := |more| - 1;
      var all := events + more;
      assert all[..|all| - 1] == events + more[..last] && all[|all| - 1] == more[last];
      DoneIsForever(events, more[..last], row);
    }
  }
}
