/** Which outbox rows a claim hands out, and what each transaction leaves of a row, column by column;
    above all that a crashed worker's rows are handed out again (outbox/repository.py). */
module OutboxFacts {
  import opened Domain
  import opened Outbox
  import opened OutboxRuns
  import opened FiniteSets

  // ----- One claim -----

  /** Due, or left behind by a lease that has run out. */
  predicate Takeable(row: Row, now: real) {
    match row.status
    case Pending => row.availableAt <= now
    case Processing => row.claimExpiresAt.Some? && now >= row.claimExpiresAt.value
    case Dispatched => false
    case DeadLetter => false
  }

  predicate Free(s: State, x: nat, now: real, locked: set<nat>) {
    x < |s.rows| && Takeable(s.rows[x], now) && x !in locked
  }

  /** Earlier available, or created, or inserted. */
  predicate Before(rows: seq<Row>, y: nat, x: nat)
    requires y < |rows| && x < |rows|
  {
    if rows[y].availableAt != rows[x].availableAt then rows[y].availableAt < rows[x].availableAt
    else if rows[y].createdAt != rows[x].createdAt then rows[y].createdAt < rows[x].createdAt
    else y < x
  }

  /** Row `x` carries a token the claim has just drawn. */
  predicate TakenNow(s: State, n: State, x: nat) {
    && x < |s.rows| && x < |n.rows|
    && n.rows[x].claimToken.Some? && s.tokens <= n.rows[x].claimToken.value < n.tokens
  }

  ghost predicate TokensDrawn(s: State) {
    forall x :: 0 <= x < |s.rows| && s.rows[x].claimToken.Some? ==> s.rows[x].claimToken.value < s.tokens
  }

  /** The same row in a worker's hands. */
  function InHands(row: Row, worker: string, token: nat, expiresAt: real): Row {
    Row(row.event, Processing, row.createdAt, row.availableAt, Some(worker), Some(token), Some(expiresAt),
        row.attempts, row.dispatchedAt, row.lastError)
  }

  lemma ClaimedIsInHands(row: Row, worker: string, token: nat, expiresAt: real)
    ensures ClaimRow(row, worker, token, expiresAt) == InHands(row, worker, token, expiresAt)
  {
  }

  predicate DistinctRows(rows: seq<Row>, picked: seq<nat>) {
    && (forall k :: 0 <= k < |picked| ==> picked[k] < |rows|)
    && (forall k, l :: 0 <= k < l < |picked| ==> picked[k] != picked[l])
  }

  /** Exactly the picked rows are in the worker's hands, under consecutive tokens. */
  ghost predicate HandedOut(s: State, n: State, picked: seq<nat>, worker: string, expiresAt: real)
    requires DistinctRows(s.rows, picked)
  {
    && |n.rows| == |s.rows| && n.tokens == s.tokens + |picked|
    && (forall k :: 0 <= k < |picked| ==> n.rows[picked[k]] == InHands(s.rows[picked[k]], worker, s.tokens + k, expiresAt))
    && (forall x: nat :: x < |s.rows| && x !in picked ==> n.rows[x] == s.rows[x])
  }

  lemma HandOneMore(s: State, before: State, init: seq<nat>, id: nat, worker: string, expiresAt: real)
    requires DistinctRows(s.rows, init) && DistinctRows(s.rows, init + [id]) && HandedOut(s, before, init, worker, expiresAt)
    requires id < |before.rows|
    ensures HandedOut(s, State(before.rows[id := ClaimRow(before.rows[id], worker, before.tokens, expiresAt)], before.tokens + 1),
                      init + [id], worker, expiresAt)
  {
    var picked := init + [id];
    forall k | 0 <= k < |init| ensures picked[k] == init[k] && init[k] != id {
      assert picked[k] != picked[|init|];
    }
    assert id !in init && id in picked;
    ClaimedIsInHands(before.rows[id], worker, before.tokens, expiresAt);
    hide ClaimRow, InHands;
  }

  lemma {:induction false} ClaimedOneByOne(s: State, picked: seq<nat>, worker: string, expiresAt: real)
    requires DistinctRows(s.rows, picked)
    ensures |ClaimAll(s, picked, worker, expiresAt).rows| == |s.rows|
    ensures HandedOut(s, ClaimAll(s, picked, worker, expiresAt), picked, worker, expiresAt)
  {
    hide ClaimRow, InHands;
    if picked != [] {
      var last := |picked| - 1;
      var init := picked[..last];
      assert picked == init + [picked[last]] && picked[..last + 1] == picked;
      ClaimedOneByOne(s, init, worker, expiresAt);
      hide ClaimAll, HandedOut;
      HandOneMore(s, ClaimAll(s, init, worker, expiresAt), init, picked[last], worker, expiresAt);
      ClaimAllNext(s, picked, last, worker, expiresAt);
    }
  }

  /** What a claim chooses: free rows, as many as it may, and those first in line. */
  ghost predicate Chosen(s: State, now: real, locked: set<nat>, limit: nat, picked: seq<nat>) {
    && DistinctRows(s.rows, picked) && |picked| <= limit
    && (forall x :: x in picked ==> Free(s, x, now, locked))
    && (forall x: nat :: Free(s, x, now, locked) && x !in picked ==>
          |picked| == limit && forall y :: y in picked ==> Before(s.rows, y, x))
  }

  /** Every claim hands out such a choice. */
  lemma ClaimsHandOutTheirChoice(s: State, claim: Event, settings: Settings) returns (picked: seq<nat>)
    requires claim.ClaimBatch?
    ensures DistinctRows(s.rows, picked) && Chosen(s, claim.at, claim.locked, claim.limit, picked)
    ensures HandedOut(s, Next(s, claim, settings), picked, claim.worker, claim.at + claim.lease)
  {
    hide Pick, ClaimAll, HandedOut, Chosen;
    picked := Pick(s.rows, claim.at, claim.locked, claim.limit);
    PickIsTheFirstEligible(s.rows, claim.at, claim.locked, claim.limit);
    FirstEligibleIsChosen(s, claim.at, claim.locked, claim.limit, picked);
    ClaimedOneByOne(s, picked, claim.worker, claim.at + claim.lease);
  }

  lemma FirstEligibleIsChosen(s: State, now: real, locked: set<nat>, limit: nat, picked: seq<nat>)
    requires FirstEligible(s.rows, now, locked, limit, picked)
    ensures DistinctRows(s.rows, picked) && Chosen(s, now, locked, limit, picked)
  {
    forall x: nat | x < |s.rows| ensures Eligible(s.rows[x], now) <==> Takeable(s.rows[x], now) {
    }
    forall x: nat, y: nat | x < |s.rows| && y < |s.rows| ensures Precedes(s.rows, y, x) <==> Before(s.rows, y, x) {
    }
    hide Eligible, Takeable, Precedes, Before;
  }

  lemma HandedOutCounts(s: State, n: State, picked: seq<nat>, claim: Event)
    requires claim.ClaimBatch? && DistinctRows(s.rows, picked)
    requires HandedOut(s, n, picked, claim.worker, claim.at + claim.lease)
    requires Chosen(s, claim.at, claim.locked, claim.limit, picked)
    ensures |n.rows| == |s.rows| && n.tokens == s.tokens + |picked| && |picked| <= claim.limit
    ensures forall x: nat :: x in picked ==> Free(s, x, claim.at, claim.locked)
    ensures forall x: nat, y: nat :: Free(s, x, claim.at, claim.locked) && x !in picked && y in picked ==>
      x < |s.rows| && y < |s.rows| && |picked| == claim.limit && Before(s.rows, y, x)
    ensures forall x: nat :: Free(s, x, claim.at, claim.locked) && x !in picked ==> |picked| == claim.limit
  {
    hide Before, InHands;
    FreeRowsExist(s, claim.at, claim.locked);
    hide Free;
  }

  lemma TakenIsPicked(s: State, n: State, picked: seq<nat>, worker: string, expiresAt: real, x: nat)
    requires TokensDrawn(s) && DistinctRows(s.rows, picked) && HandedOut(s, n, picked, worker, expiresAt) && x < |s.rows|
    ensures TakenNow(s, n, x) <==> x in picked
    ensures TakenNow(s, n, x) ==>
      n.rows[x].claimToken.Some? && n.rows[x] == InHands(s.rows[x], worker, n.rows[x].claimToken.value, expiresAt)
    ensures !TakenNow(s, n, x) ==> n.rows[x] == s.rows[x]
    ensures n.rows[x].claimToken.Some? ==> n.rows[x].claimToken.value < n.tokens
  {
    if x in picked {
      var k :| 0 <= k < |picked| && picked[k] == x;
      assert n.rows[picked[k]] == InHands(s.rows[x], worker, s.tokens + k, expiresAt);
    }
  }

  lemma TakenUnderOwnTokens(s: State, n: State, picked: seq<nat>, worker: string, expiresAt: real, x: nat, y: nat)
    requires TokensDrawn(s) && DistinctRows(s.rows, picked) && HandedOut(s, n, picked, worker, expiresAt)
    requires TakenNow(s, n, x) && TakenNow(s, n, y) && x != y
    ensures x < |n.rows| && y < |n.rows| && n.rows[x].claimToken != n.rows[y].claimToken
  {
    TakenIsPicked(s, n, picked, worker, expiresAt, x);
    TakenIsPicked(s, n, picked, worker, expiresAt, y);
    var k :| 0 <= k < |picked| && picked[k] == x;
    var l :| 0 <= l < |picked| && picked[l] == y;
    assert n.rows[picked[k]].claimToken == Some(s.tokens + k) && n.rows[picked[l]].claimToken == Some(s.tokens + l);
  }

  /** A claim takes rows that are free, each under its own new token, and nothing else about them
      changes. */
  lemma ClaimTakesFreeRows(s: State, claim: Event, settings: Settings)
    requires claim.ClaimBatch? && TokensDrawn(s)
    ensures var n := Next(s, claim, settings);
      && |n.rows| == |s.rows| && s.tokens <= n.tokens <= s.tokens + claim.limit && TokensDrawn(n)
      && (forall x: nat :: x < |s.rows| ==>
            if TakenNow(s, n, x)
            then Free(s, x, claim.at, claim.locked)
                 && n.rows[x] == InHands(s.rows[x], claim.worker, n.rows[x].claimToken.value, claim.at + claim.lease)
            else n.rows[x] == s.rows[x])
      && (forall x: nat, y: nat :: TakenNow(s, n, x) && TakenNow(s, n, y) && x != y ==> n.rows[x].claimToken != n.rows[y].claimToken)
  {
    hide Next, InHands, Free, Chosen, HandedOut, DistinctRows, TakenNow;
    var picked := ClaimsHandOutTheirChoice(s, claim, settings);
    var n := Next(s, claim, settings);
    HandedOutCounts(s, n, picked, claim);
    forall x: nat | x < |s.rows|
      ensures TakenNow(s, n, x) ==> Free(s, x, claim.at, claim.locked)
      ensures TakenNow(s, n, x) ==>
        n.rows[x].claimToken.Some? && n.rows[x] == InHands(s.rows[x], claim.worker, n.rows[x].claimToken.value, claim.at + claim.lease)
      ensures !TakenNow(s, n, x) ==> n.rows[x] == s.rows[x]
      ensures n.rows[x].claimToken.Some? ==> n.rows[x].claimToken.value < n.tokens
    {
      TakenIsPicked(s, n, picked, claim.worker, claim.at + claim.lease, x);
    }
    forall x: nat, y: nat | TakenNow(s, n, x) && TakenNow(s, n, y) && x != y
      ensures x < |n.rows| && y < |n.rows| && n.rows[x].claimToken != n.rows[y].claimToken
    {
      TakenUnderOwnTokens(s, n, picked, claim.worker, claim.at + claim.lease, x, y);
    }
  }

  /** What a claim leaves it leaves for lack of room, and after all it takes. */
  lemma ClaimLeavesLaterRows(s: State, claim: Event, settings: Settings, x: nat)
    requires claim.ClaimBatch? && TokensDrawn(s) && Free(s, x, claim.at, claim.locked)
    ensures var n := Next(s, claim, settings);
      && |n.rows| == |s.rows|
      && (TakenNow(s, n, x)
          || (n.tokens == s.tokens + claim.limit && forall y: nat :: TakenNow(s, n, y) ==> Before(s.rows, y, x)))
  {
    hide Next, InHands, Free, Before, Chosen, HandedOut, DistinctRows;
    var picked := ClaimsHandOutTheirChoice(s, claim, settings);
    FreeRowsExist(s, claim.at, claim.locked);
    var n := Next(s, claim, settings);
    HandedOutCounts(s, n, picked, claim);
    TakenIsPicked(s, n, picked, claim.worker, claim.at + claim.lease, x);
    if x !in picked {
      forall y: nat | TakenNow(s, n, y) ensures y < |s.rows| && Before(s.rows, y, x) {
        TakenIsPicked(s, n, picked, claim.worker, claim.at + claim.lease, y);
      }
    }
  }

  lemma FreeRowsExist(s: State, now: real, locked: set<nat>)
    ensures forall x: nat :: Free(s, x, now, locked) ==> x < |s.rows|
  {
  }

  /** The rows that are free. */
  ghost function FreeRows(s: State, now: real, locked: set<nat>): set<nat> {
    set x: nat | x < |s.rows| && Free(s, x, now, locked)
  }

  /** When they fit, a claim takes all of them. */
  lemma ClaimTakesAllThatFit(s: State, claim: Event, settings: Settings, x: nat)
    requires claim.ClaimBatch? && TokensDrawn(s) && Free(s, x, claim.at, claim.locked)
    requires |FreeRows(s, claim.at, claim.locked)| <= claim.limit
    ensures TakenNow(s, Next(s, claim, settings), x)
  {
    hide Next, Before, InHands, Free, Chosen, HandedOut, TakenNow;
    var picked := ClaimsHandOutTheirChoice(s, claim, settings);
    FreeRowsExist(s, claim.at, claim.locked);
    HandedOutCounts(s, Next(s, claim, settings), picked, claim);
    TakenIsPicked(s, Next(s, claim, settings), picked, claim.worker, claim.at + claim.lease, x);
    if x !in picked {
      var ids := picked + [x];
      assert forall k :: 0 <= k < |picked| ==> picked[k] in picked;
      DistinctMembers(ids, FreeRows(s, claim.at, claim.locked));
    }
  }

  // ----- The other transactions -----

  /** The claim is still the row's own. */
  predicate Held(s: State, id: nat, worker: string, token: nat) {
    && id < |s.rows| && s.rows[id].status == Processing
    && s.rows[id].claimedBy.Some? && s.rows[id].claimedBy.value == worker
    && s.rows[id].claimToken.Some? && s.rows[id].claimToken.value == token
  }

  /** Publication, delivery and failure, column by column; an acknowledgement under a claim that is not
      the row's own changes nothing. */
  lemma RowsColumnByColumn(s: State, e: Event, settings: Settings)
    requires !e.ClaimBatch?
    ensures var n := Next(s, e, settings);
      && n.tokens == s.tokens
      && match e
         case Publish(event, at) => n.rows == s.rows + [Row(event, Pending, at, at, None, None, None, 0, None, None)]
         case Dispatch(id, worker, token, at) =>
           if !Held(s, id, worker, token) then n == s
           else
             var row := s.rows[id];
             n.rows == s.rows[id := Row(row.event, Dispatched, row.createdAt, row.availableAt, None, None, None,
                                        row.attempts, Some(at), None)]
         case Fail(id, worker, token, at, error) =>
           if !Held(s, id, worker, token) then n == s
           else
             var row := s.rows[id];
             n.rows == s.rows[id :=
               if row.attempts + 1 >= settings.maxAttempts then
                 Row(row.event, DeadLetter, row.createdAt, row.availableAt, None, None, None,
                     row.attempts + 1, row.dispatchedAt, Some(error))
               else
                 Row(row.event, Pending, row.createdAt, at + Delay(settings.retryBase, row.attempts), None, None, None,
                     row.attempts + 1, row.dispatchedAt, Some(error))]
  {
    hide Delay;
  }

  /** The back-off starts at the base and doubles with every failure. */
  lemma BackoffDoubles(base: real, attempts: nat)
    ensures Delay(base, 0) == base
    ensures Delay(base, attempts + 1) == 2.0 * Delay(base, attempts)
  {
    var p := Power2(attempts) as real;
    assert Power2(attempts + 1) as real == 2.0 * p;
  }

  // ----- Crashes -----

  lemma {:induction false} EveryTokenIsDrawn(events: seq<Event>, settings: Settings)
    ensures TokensDrawn(After(events, settings))
  {
    hide Next;
    if events != [] {
      var s, e := After(events[..|events| - 1], settings), events[|events| - 1];
      EveryTokenIsDrawn(events[..|events| - 1], settings);
      if e.ClaimBatch? {
        ClaimTakesFreeRows(s, e, settings);
      } else {
        RowsColumnByColumn(s, e, settings);
      }
    }
  }

  /** Nobody acknowledges row `id` under `token`, and no claim that may take the row reads a clock at or
      past `expiry`. */
  predicate Undisturbed(more: seq<Event>, id: nat, token: nat, expiry: real) {
    forall k :: 0 <= k < |more| ==>
      match more[k]
      case Publish(_, _) => true
      case ClaimBatch(_, at, _, _, locked) => at < expiry || id in locked
      case Dispatch(row, _, acknowledged, _) => row != id || acknowledged != token
      case Fail(row, _, acknowledged, _, _) => row != id || acknowledged != token
  }

  lemma {:induction false} CrashedRowWaits(events: seq<Event>, more: seq<Event>, settings: Settings, id: nat)
    requires
      var s := After(events, settings);
      && id < |s.rows| && s.rows[id].status == Processing && s.rows[id].claimToken.Some? && s.rows[id].claimExpiresAt.Some?
      && Undisturbed(more, id, s.rows[id].claimToken.value, s.rows[id].claimExpiresAt.value)
    ensures id < |After(events + more, settings).rows|
    ensures After(events + more, settings).rows[id] == After(events, settings).rows[id]
  {
    hide Next;
    if more == [] {
      assert events + more == events;
    } else {
      var last := |more| - 1;
      var all := events + more;
      assert all[..|all| - 1] == events + more[..last] && all[|all| - 1] == more[last];
      CrashedRowWaits(events, more[..last], settings, id);
      var s := After(events + more[..last], settings);
      EveryTokenIsDrawn(events + more[..last], settings);
      if more[last].ClaimBatch? {
        ClaimTakesFreeRows(s, more[last], settings);
      } else {
        RowsColumnByColumn(s, more[last], settings);
      }
    }
  }

  /** A worker claims a row and crashes. Whatever the others do meanwhile, the first claim that reads
      the clock at or past the lease's expiry, finds the row unlocked and has room for the rows that are
      free takes it, under a token never drawn before, with its attempts as they were. */
  lemma CrashedRowsAreReclaimed(events: seq<Event>, first: Event, more: seq<Event>, again: Event, settings: Settings, id: nat)
    requires first.ClaimBatch? && again.ClaimBatch?
    requires TakenNow(After(events, settings), After(events + [first], settings), id)
    requires Undisturbed(more, id, After(events + [first], settings).rows[id].claimToken.value, first.at + first.lease)
    requires again.at >= first.at + first.lease && id !in again.locked
    requires |FreeRows(After(events + [first] + more, settings), again.at, again.locked)| <= again.limit
    ensures
      var was, before, after := After(events, settings), After(events + [first] + more, settings),
                                After(events + [first] + more + [again], settings);
      && TakenNow(before, after, id)
      && after.rows[id] == InHands(was.rows[id], again.worker, after.rows[id].claimToken.value, again.at + again.lease)
      && after.rows[id].claimToken.value > After(events + [first], settings).rows[id].claimToken.value
  {
    hide Next, FreeRows;
    assert (events + [first])[..|events|] == events;
    EveryTokenIsDrawn(events, settings);
    ClaimTakesFreeRows(After(events, settings), first, settings);
    CrashedRowWaits(events + [first], more, settings, id);
    var all := events + [first] + more;
    assert (all + [again])[..|all|] == all;
    EveryTokenIsDrawn(all, settings);
    ClaimTakesAllThatFit(After(all, settings), again, settings, id);
    ClaimTakesFreeRows(After(all, settings), again, settings);
  }
}
