/** The outbox table under its dispatching workers: claiming batches, acknowledging delivery and
    recording failures (outbox/repository.py). */
module Outbox {
  import opened Domain
  import opened RepairStore
  import opened Sorting

  datatype Status = Pending | Processing | Dispatched | DeadLetter

  datatype Row = Row(
    event: DomainEvent, status: Status, createdAt: real, availableAt: real,
    claimedBy: Option<string>, claimToken: Option<nat>, claimExpiresAt: Option<real>,
    attempts: nat, dispatchedAt: Option<real>, lastError: Option<string>)

  /** What a claim hands to the worker. */
  datatype Claimed = Claimed(id: nat, token: nat, event: DomainEvent, attempts: nat)

  datatype Settings = Settings(maxAttempts: int, retryBase: real)

  /** The rows, and the number of claim tokens drawn so far; every token is new. */
  datatype State = State(rows: seq<Row>, tokens: nat)

  function NewRow(event: DomainEvent, at: real): Row {
    Row(event, Pending, at, at, None, None, None, 0, None, None)
  }

  function Power2(n: nat): (p: nat)
    ensures p >= 1
  {
    if n == 0 then 1 else 2 * Power2(n - 1)
  }

  /** The back-off after a failure that was preceded by `attempts` others. */
  function Delay(base: real, attempts: nat): real {
    base * Power2(attempts) as real
  }

  // ----- Which rows a claim takes -----

  predicate Eligible(row: Row, now: real) {
    || (row.status == Pending && row.availableAt <= now)
    || (row.status == Processing && row.claimExpiresAt.Some? && row.claimExpiresAt.value <= now)
  }

  /** The dispatch order: availability, then creation, then identity. */
  predicate Precedes(rows: seq<Row>, i: nat, j: nat)
    requires i < |rows| && j < |rows|
  {
    || rows[i].availableAt < rows[j].availableAt
    || (rows[i].availableAt == rows[j].availableAt && rows[i].createdAt < rows[j].createdAt)
    || (rows[i].availableAt == rows[j].availableAt && rows[i].createdAt == rows[j].createdAt && i < j)
  }

  /** The same order on all identities; those of no row come last. */
  function DispatchOrder(rows: seq<Row>): (nat, nat) -> bool {
    (i: nat, j: nat) => if i < |rows| && j < |rows| then Precedes(rows, i, j) else i < j
  }

  /** The eligible rows among the first `n` that no other transaction has locked. */
  function Selectable(rows: seq<Row>, now: real, locked: set<nat>, n: nat): (ids: seq<nat>)
    requires n <= |rows|
    ensures forall k :: 0 <= k < |ids| ==> ids[k] < n
    ensures forall k, l :: 0 <= k < l < |ids| ==> ids[k] != ids[l]
    ensures forall x: nat :: x in ids <==> x < n && Eligible(rows[x], now) && x !in locked
  {
    if n == 0 then []
    else
      Selectable(rows, now, locked, n - 1)
      + if Eligible(rows[n - 1], now) && n - 1 !in locked then [n - 1] else []
  }

  function Candidates(rows: seq<Row>, now: real, locked: set<nat>): seq<nat> {
    Sorted(DispatchOrder(rows), Selectable(rows, now, locked, |rows|))
  }

  function Pick(rows: seq<Row>, now: real, locked: set<nat>, limit: nat): seq<nat> {
    var ids := Candidates(rows, now, locked);
    if |ids| <= limit then ids else ids[..limit]
  }

  ghost predicate InOrder(rows: seq<Row>, ids: seq<nat>) {
    && (forall k :: 0 <= k < |ids| ==> ids[k] < |rows|)
    && (forall k, l :: 0 <= k < l < |ids| ==> ids[k] != ids[l] && Precedes(rows, ids[k], ids[l]))
  }

  lemma DispatchOrderIsStrict(rows: seq<Row>)
    ensures StrictOrder(DispatchOrder(rows))
  {
  }

  lemma CandidatesInOrder(rows: seq<Row>, now: real, locked: set<nat>)
    ensures InOrder(rows, Candidates(rows, now, locked))
    ensures forall x: nat :: x in Candidates(rows, now, locked) <==> x < |rows| && Eligible(rows[x], now) && x !in locked
  {
    var less, ids := DispatchOrder(rows), Selectable(rows, now, locked, |rows|);
    DispatchOrderIsStrict(rows);
    SortedPermutes(less, ids);
    SortedAscending(less, ids);
    hide Eligible, Sorted, Selectable;
    var sorted := Candidates(rows, now, locked);
    forall k | 0 <= k < |sorted| ensures sorted[k] < |rows| {
      assert sorted[k] in ids;
    }
    forall k, l | 0 <= k < l < |sorted| ensures sorted[k] != sorted[l] && Precedes(rows, sorted[k], sorted[l]) {
      var p, q := PairMoves(sorted, ids, k, l);
      assert !less(sorted[l], sorted[k]);
    }
  }

  lemma PrefixComesFirst(rows: seq<Row>, ids: seq<nat>, limit: nat)
    requires InOrder(rows, ids) && limit < |ids|
    ensures InOrder(rows, ids[..limit])
    ensures forall x, y :: x in ids && x !in ids[..limit] && y in ids[..limit] ==>
      x < |rows| && y < |rows| && Precedes(rows, y, x)
  {
    hide Precedes;
    assert forall m :: 0 <= m < limit ==> ids[m] == ids[..limit][m];
    assert forall m :: 0 <= m < limit ==> ids[m] in ids[..limit];
    forall x, y | x in ids && x !in ids[..limit] && y in ids[..limit]
      ensures x < |rows| && y < |rows| && Precedes(rows, y, x)
    {
      var l :| 0 <= l < |ids| && ids[l] == x;
      var k :| 0 <= k < limit && ids[..limit][k] == y;
      assert ids[k] == y;
    }
  }

  /** `picked` is what a claim of at most `limit` rows should take: distinct eligible unlocked rows
      in dispatch order, each before every such row left behind, and all of them when they fit. */
  ghost predicate FirstEligible(rows: seq<Row>, now: real, locked: set<nat>, limit: nat, picked: seq<nat>) {
    && InOrder(rows, picked) && |picked| <= limit
    && (forall x: nat :: x in picked ==> x < |rows| && Eligible(rows[x], now) && x !in locked)
    && (forall x: nat :: x < |rows| && Eligible(rows[x], now) && x !in locked && x !in picked ==>
          |picked| == limit && forall y: nat :: y in picked ==> y < |rows| && Precedes(rows, y, x))
  }

  lemma PickIsTheFirstEligible(rows: seq<Row>, now: real, locked: set<nat>, limit: nat)
    ensures FirstEligible(rows, now, locked, limit, Pick(rows, now, locked, limit))
  {
    var ids := Candidates(rows, now, locked);
    CandidatesInOrder(rows, now, locked);
    hide Candidates, Eligible, Precedes, InOrder;
    if |ids| > limit {
      PrefixComesFirst(rows, ids, limit);
    }
  }

  // ----- The writes -----

  function ClaimRow(row: Row, worker: string, token: nat, expiresAt: real): Row {
    row.(status := Processing, claimedBy := Some(worker), claimToken := Some(token), claimExpiresAt := Some(expiresAt))
  }

  /** The state after the rows of `picked` have been claimed one by one. */
  function ClaimAll(s: State, picked: seq<nat>, worker: string, expiresAt: real): State {
    if picked == [] then s
    else
      var last := |picked| - 1;
      var before := ClaimAll(s, picked[..last], worker, expiresAt);
      if picked[last] < |before.rows| then
        State(before.rows[picked[last] := ClaimRow(before.rows[picked[last]], worker, before.tokens, expiresAt)],
              before.tokens + 1)
      else before
  }

  /** Claiming leaves deliveries, attempts and availability alone, and draws one token a row. */
  lemma {:induction false} ClaimAllShape(s: State, picked: seq<nat>, worker: string, expiresAt: real)
    requires forall k :: 0 <= k < |picked| ==> picked[k] < |s.rows|
    ensures var n := ClaimAll(s, picked, worker, expiresAt);
      && |n.rows| == |s.rows| && n.tokens == s.tokens + |picked|
      && (forall x: nat :: x < |s.rows| ==>
            && n.rows[x].event == s.rows[x].event && n.rows[x].attempts == s.rows[x].attempts
            && n.rows[x].availableAt == s.rows[x].availableAt
            && (x !in picked ==> n.rows[x] == s.rows[x])
            && (x in picked ==> n.rows[x].status == Processing && n.rows[x].claimExpiresAt == Some(expiresAt)))
  {
    if picked != [] {
      var last := |picked| - 1;
      ClaimAllShape(s, picked[..last], worker, expiresAt);
      assert picked == picked[..last] + [picked[last]];
    }
  }

  lemma ClaimAllNext(s: State, picked: seq<nat>, k: nat, worker: string, expiresAt: real)
    requires k < |picked| && picked[k] < |ClaimAll(s, picked[..k], worker, expiresAt).rows|
    ensures
      var before := ClaimAll(s, picked[..k], worker, expiresAt);
      ClaimAll(s, picked[..k + 1], worker, expiresAt)
        == State(before.rows[picked[k] := ClaimRow(before.rows[picked[k]], worker, before.tokens, expiresAt)],
                 before.tokens + 1)
  {
    assert picked[..k + 1][..k] == picked[..k];
  }

  predicate HoldsClaim(rows: seq<Row>, id: nat, worker: string, token: nat) {
    && id < |rows| && rows[id].status == Processing
    && rows[id].claimedBy == Some(worker) && rows[id].claimToken == Some(token)
  }

  function Released(row: Row): Row {
    row.(claimedBy := None, claimToken := None, claimExpiresAt := None)
  }

  function DispatchedRow(row: Row, at: real): Row {
    Released(row).(status := Dispatched, dispatchedAt := Some(at), lastError := None)
  }

  /** A failed delivery: one more attempt, and either no further ones or a later retry. */
  function FailedRow(row: Row, at: real, error: string, settings: Settings): Row {
    var failed := Released(row).(attempts := row.attempts + 1, lastError := Some(error));
    if row.attempts + 1 >= settings.maxAttempts then failed.(status := DeadLetter)
    else failed.(status := Pending, availableAt := at + Delay(settings.retryBase, row.attempts))
  }

  lemma PickedAreRows(rows: seq<Row>, now: real, locked: set<nat>, limit: nat)
    ensures forall k :: 0 <= k < |Pick(rows, now, locked, limit)| ==> Pick(rows, now, locked, limit)[k] < |rows|
    ensures forall x: nat :: x in Pick(rows, now, locked, limit) ==> x < |rows| && Eligible(rows[x], now)
  {
    hide Pick, Eligible, Precedes;
    PickIsTheFirstEligible(rows, now, locked, limit);
  }

  /** Picked rows are due, or left by an expired lease, and unlocked; while there is room, all such rows
      are picked. */
  lemma PickedAreFree(rows: seq<Row>, now: real, locked: set<nat>, limit: nat)
    ensures forall k :: 0 <= k < |Pick(rows, now, locked, limit)| ==>
      var id := Pick(rows, now, locked, limit)[k];
      && id < |rows| && id !in locked
      && ((rows[id].status == Pending && rows[id].availableAt <= now)
          || (rows[id].status == Processing && rows[id].claimExpiresAt.Some? && rows[id].claimExpiresAt.value <= now))
    ensures |Pick(rows, now, locked, limit)| < limit ==>
      forall x: nat :: x < |rows| && x !in locked ==>
        (rows[x].status == Pending && rows[x].availableAt <= now)
        || (rows[x].status == Processing && rows[x].claimExpiresAt.Some? && rows[x].claimExpiresAt.value <= now) ==>
          exists k :: 0 <= k < |Pick(rows, now, locked, limit)| && Pick(rows, now, locked, limit)[k] == x
  {
    PickIsTheFirstEligible(rows, now, locked, limit);
    var picked := Pick(rows, now, locked, limit);
    assert forall k :: 0 <= k < |picked| ==> picked[k] in picked;
    hide Pick, Precedes;
  }

  lemma NothingClaimed(s: State, picked: seq<nat>, worker: string, expiresAt: real)
    ensures ClaimAll(s, picked[..0], worker, expiresAt) == s
  {
  }

  /** The outbox as the dispatcher's repository drives it. */
  class OutboxTable {
    var rows: seq<Row>
    var tokens: nat

    constructor ()
      ensures Contents() == State([], 0)
    {
      rows, tokens := [], 0;
    }

    function Contents(): State
      reads this
    {
      State(rows, tokens)
    }

    /** Claims a batch: every row taken gets a fresh token, also one whose lease has expired. */
    method ClaimBatch(worker: string, now: real, leaseSeconds: real, batchSize: nat, locked: set<nat>)
      returns (claimed: seq<Claimed>)
      modifies this
      ensures Contents() == ClaimAll(old(Contents()), Pick(old(rows), now, locked, batchSize), worker, now + leaseSeconds)
      ensures |claimed| == |Pick(old(rows), now, locked, batchSize)|
      ensures forall k :: 0 <= k < |claimed| ==>
        var id := Pick(old(rows), now, locked, batchSize)[k];
        id < |old(rows)| && claimed[k] == Claimed(id, old(tokens) + k, old(rows)[id].event, old(rows)[id].attempts)
      ensures forall k :: 0 <= k < |claimed| ==>
        var row := old(rows)[claimed[k].id];
        && claimed[k].id !in locked
        && ((row.status == Pending && row.availableAt <= now)
            || (row.status == Processing && row.claimExpiresAt.Some? && row.claimExpiresAt.value <= now))
      ensures |claimed| < batchSize ==>
        forall x: nat :: x < |old(rows)| && x !in locked ==>
          var row := old(rows)[x];
          (row.status == Pending && row.availableAt <= now)
          || (row.status == Processing && row.claimExpiresAt.Some? && row.claimExpiresAt.value <= now) ==>
            exists k :: 0 <= k < |claimed| && claimed[k].id == x
    {
      var picked := Pick(rows, now, locked, batchSize);
      PickedAreRows(rows, now, locked, batchSize);
      hide Pick, ClaimRow, ClaimAll;
      var expires := now + leaseSeconds;
      claimed := [];
      NothingClaimed(Contents(), picked, worker, expires);
      for k := 0 to |picked|
        invariant Contents() == ClaimAll(old(Contents()), picked[..k], worker, expires)
        invariant |claimed| == k
        invariant forall l :: 0 <= l < k ==>
          claimed[l] == Claimed(picked[l], old(tokens) + l, old(rows)[picked[l]].event, old(rows)[picked[l]].attempts)
      {
        ClaimAllShape(old(Contents()), picked[..k], worker, expires);
        ClaimAllNext(old(Contents()), picked, k, worker, expires);
        var id := picked[k];
        claimed := claimed + [Claimed(id, tokens, rows[id].event, rows[id].attempts)];
        rows := rows[id := ClaimRow(rows[id], worker, tokens, expires)];
        tokens := tokens + 1;
      }
      assert picked[..|picked|] == picked;
      PickedAreFree(old(rows), now, locked, batchSize);
    }

    /** False when the claim has been superseded: the source raises, and nothing is written. */
    method MarkDispatched(id: nat, worker: string, token: nat, at: real) returns (ok: bool)
      modifies `rows
      ensures ok == HoldsClaim(old(rows), id, worker, token)
      ensures rows == if ok then old(rows)[id := DispatchedRow(old(rows)[id], at)] else old(rows)
    {
      ok := HoldsClaim(rows, id, worker, token);
      if ok {
        rows := rows[id := DispatchedRow(rows[id], at)];
      }
    }

    method MarkFailed(id: nat, worker: string, token: nat, at: real, error: string, settings: Settings)
      returns (status: Option<Status>)
      modifies `rows
      ensures status.Some? <==> HoldsClaim(old(rows), id, worker, token)
      ensures status.Some? ==> rows == old(rows)[id := FailedRow(old(rows)[id], at, error, settings)] && status.value == rows[id].status
      ensures status.None? ==> rows == old(rows)
    {
      if !HoldsClaim(rows, id, worker, token) {
        return None;
      }
      rows := rows[id := FailedRow(rows[id], at, error, settings)];
      status := Some(rows[id].status);
    }
  }
}
