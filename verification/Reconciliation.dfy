/** Reconciliation cases for operations whose commit was lost sight of, and the leased claims
    under which workers settle them (reconciliation/repository.py, reconciliation/worker.py). */
module Reconciliation {
  import opened Domain
  import Commands
  import Evidence
  import Sorting

  datatype Status = Pending | Processing | ResolvedCommitted | ResolvedNotCommitted | ManualReview

  datatype EvidenceStatus = EvidenceCommitted | EvidenceNotCommitted | EvidenceInconsistent

  datatype Case = Case(
    claim: Evidence.Claim, status: Status, createdAt: real, availableAt: real,
    claimedBy: Option<string>, claimToken: Option<nat>, claimExpiresAt: Option<real>, attempts: nat,
    evidence: Option<EvidenceStatus>, resolvedAt: Option<real>, resolutionCode: Option<string>,
    lastError: Option<string>)

  datatype AuditType =
    UnknownCommitDetected | CaseCreated | ReconciliationStarted | RetryScheduled
    | ResolvedCommittedEvent | ResolvedNotCommittedEvent | ManualReviewEvent

  /** The key of an audit event: the case, the event, and the claim it belongs to, if any. */
  datatype EventKey = EventKey(caseId: nat, kind: AuditType, token: Option<nat>)

  /** The cases, their audit events, and the number of claim tokens drawn so far. */
  datatype State = State(cases: seq<Case>, events: seq<EventKey>, tokens: nat)

  const EMPTY_STATE := State([], [], 0)

  function NewCase(claim: Evidence.Claim, at: real): Case {
    Case(claim, Pending, at, at, None, None, None, 0, None, None, None, None)
  }

  predicate OperationKnown(cases: seq<Case>, operationId: Commands.OperationId) {
    exists i :: 0 <= i < |cases| && cases[i].claim.operationId == operationId
  }

  predicate Eligible(c: Case, now: real) {
    || (c.status == Pending && c.availableAt <= now)
    || (c.status == Processing && c.claimExpiresAt.Some? && c.claimExpiresAt.value <= now)
  }

  /** Another claim about the same operation: the case keys differ. */
  predicate Contradicts(known: Evidence.Claim, claim: Evidence.Claim) {
    known.operationId == claim.operationId && (known.action != claim.action || known.digest != claim.digest)
  }

  /** Distinct eligible cases. */
  predicate Picks(cases: seq<Case>, now: real, picked: seq<nat>) {
    && (forall k :: 0 <= k < |picked| ==> picked[k] < |cases| && Eligible(cases[picked[k]], now))
    && (forall k, l :: 0 <= k < l < |picked| ==> picked[k] != picked[l])
  }

  /** The claim's query orders by availability, then creation; ties come in any order. */
  predicate Later(a: Case, b: Case) {
    a.availableAt > b.availableAt || (a.availableAt == b.availableAt && a.createdAt > b.createdAt)
  }

  /** A result of the claim's query: the first `limit` eligible cases that no other transaction has
      locked, or all of them when they fit, in the query's order. */
  predicate Selection(cases: seq<Case>, now: real, limit: nat, locked: set<nat>, picked: seq<nat>) {
    && |picked| <= limit && Picks(cases, now, picked)
    && (forall k :: 0 <= k < |picked| ==> picked[k] !in locked)
    && (forall k, l :: 0 <= k < l < |picked| ==> !Later(cases[picked[k]], cases[picked[l]]))
    && (forall x :: 0 <= x < |cases| && Eligible(cases[x], now) && x !in locked && x !in picked ==>
          |picked| == limit && forall k :: 0 <= k < |picked| ==> !Later(cases[picked[k]], cases[x]))
  }

  /** The eligible cases among the first `n` that no other transaction has locked. */
  function Available(cases: seq<Case>, now: real, locked: set<nat>, n: nat): (ids: seq<nat>)
    requires n <= |cases|
    ensures forall k :: 0 <= k < |ids| ==> ids[k] < n
    ensures forall k, l :: 0 <= k < l < |ids| ==> ids[k] != ids[l]
    ensures forall x: nat :: x in ids <==> x < n && Eligible(cases[x], now) && x !in locked
  {
    if n == 0 then []
    else
      Available(cases, now, locked, n - 1)
      + if Eligible(cases[n - 1], now) && n - 1 !in locked then [n - 1] else []
  }

  function ClaimOrder(cases: seq<Case>): (nat, nat) -> bool {
    (i: nat, j: nat) => if i < |cases| && j < |cases| then Later(cases[j], cases[i]) else i < |cases| && j >= |cases|
  }

  lemma ClaimOrderIsStrict(cases: seq<Case>)
    ensures Sorting.StrictOrder(ClaimOrder(cases))
  {
  }

  lemma SortedForClaim(cases: seq<Case>, ids: seq<nat>) returns (sorted: seq<nat>)
    requires forall k :: 0 <= k < |ids| ==> ids[k] < |cases|
    requires forall k, l :: 0 <= k < l < |ids| ==> ids[k] != ids[l]
    ensures forall x :: x in sorted <==> x in ids
    ensures forall k :: 0 <= k < |sorted| ==> sorted[k] < |cases|
    ensures forall k, l :: 0 <= k < l < |sorted| ==>
      sorted[k] != sorted[l] && !Later(cases[sorted[k]], cases[sorted[l]])
  {
    hide Sorting.StrictOrder, Sorting.Sorted;
    var less := ClaimOrder(cases);
    ClaimOrderIsStrict(cases);
    Sorting.SortedPermutes(less, ids);
    Sorting.SortedAscending(less, ids);
    sorted := Sorting.Sorted(less, ids);
    forall k | 0 <= k < |sorted| ensures sorted[k] < |cases| {
      assert sorted[k] in ids;
    }
    forall k, l | 0 <= k < l < |sorted| ensures sorted[k] != sorted[l] && !Later(cases[sorted[k]], cases[sorted[l]]) {
      var p, q := Sorting.PairMoves(sorted, ids, k, l);
      assert !less(sorted[l], sorted[k]);
    }
  }

  /** The query always has a result. */
  lemma SelectionExists(cases: seq<Case>, now: real, limit: nat, locked: set<nat>) returns (picked: seq<nat>)
    ensures Selection(cases, now, limit, locked, picked)
  {
    hide Eligible, Available, Later;
    var sorted := SortedForClaim(cases, Available(cases, now, locked, |cases|));
    assert forall k :: 0 <= k < |sorted| ==> sorted[k] in sorted;
    picked := if |sorted| <= limit then sorted else sorted[..limit];
    forall x | 0 <= x < |cases| && Eligible(cases[x], now) && x !in locked && x !in picked
      ensures |picked| == limit && forall k :: 0 <= k < |picked| ==> !Later(cases[picked[k]], cases[x])
    {
      assert x in sorted;
      var j :| 0 <= j < |sorted| && sorted[j] == x;
      assert forall k :: 0 <= k < |picked| ==> picked[k] in picked && picked[k] == sorted[k];
    }
  }

  // ----- The transactions -----

  function OpenCase(s: State, claim: Evidence.Claim, at: real): State {
    if OperationKnown(s.cases, claim.operationId) then s
    else
      var id := |s.cases|;
      s.(cases := s.cases + [NewCase(claim, at)],
         events := s.events + [EventKey(id, UnknownCommitDetected, None), EventKey(id, CaseCreated, None)])
  }

  /** One more attempt starts with every claim. */
  function ClaimCase(c: Case, worker: string, token: nat, expiresAt: real): Case {
    c.(status := Processing, claimedBy := Some(worker), claimToken := Some(token), claimExpiresAt := Some(expiresAt),
       attempts := c.attempts + 1)
  }

  function ClaimOne(s: State, id: nat, worker: string, expiresAt: real): State {
    if id >= |s.cases| then s
    else
      State(s.cases[id := ClaimCase(s.cases[id], worker, s.tokens, expiresAt)],
            s.events + [EventKey(id, ReconciliationStarted, Some(s.tokens))], s.tokens + 1)
  }

  function ClaimAll(s: State, picked: seq<nat>, worker: string, expiresAt: real): State {
    if picked == [] then s
    else ClaimOne(ClaimAll(s, picked[..|picked| - 1], worker, expiresAt), picked[|picked| - 1], worker, expiresAt)
  }

  lemma NothingClaimed(s: State, picked: seq<nat>, worker: string, expiresAt: real)
    ensures ClaimAll(s, picked[..0], worker, expiresAt) == s
  {
  }

  lemma ClaimAllNext(s: State, picked: seq<nat>, k: nat, worker: string, expiresAt: real)
    requires k < |picked|
    ensures ClaimAll(s, picked[..k + 1], worker, expiresAt)
         == ClaimOne(ClaimAll(s, picked[..k], worker, expiresAt), picked[k], worker, expiresAt)
  {
    assert picked[..k + 1][..k] == picked[..k];
  }

  predicate HoldsClaim(cases: seq<Case>, id: nat, worker: string, token: nat) {
    && id < |cases| && cases[id].status == Processing
    && cases[id].claimedBy == Some(worker) && cases[id].claimToken == Some(token)
  }

  function ResolvedStatus(outcome: EvidenceStatus): Status {
    match outcome
    case EvidenceCommitted => ResolvedCommitted
    case EvidenceNotCommitted => ResolvedNotCommitted
    case EvidenceInconsistent => ManualReview
  }

  function ResolvedEvent(outcome: EvidenceStatus): AuditType {
    match outcome
    case EvidenceCommitted => ResolvedCommittedEvent
    case EvidenceNotCommitted => ResolvedNotCommittedEvent
    case EvidenceInconsistent => ManualReviewEvent
  }

  function Released(c: Case): Case {
    c.(claimedBy := None, claimToken := None, claimExpiresAt := None)
  }

  function Resolve(s: State, id: nat, outcome: EvidenceStatus, at: real, code: string): State
    requires id < |s.cases|
  {
    s.(cases := s.cases[id := Released(s.cases[id]).(
         status := ResolvedStatus(outcome), evidence := Some(outcome), resolvedAt := Some(at), resolutionCode := Some(code))],
       events := s.events + [EventKey(id, ResolvedEvent(outcome), None)])
  }

  function Retry(s: State, id: nat, token: nat, availableAt: real, error: string): State
    requires id < |s.cases|
  {
    s.(cases := s.cases[id := Released(s.cases[id]).(
         status := Pending, availableAt := availableAt, lastError := Some(error))],
       events := s.events + [EventKey(id, RetryScheduled, Some(token))])
  }

  /** What the claim hands to the worker. */
  datatype Claimed = Claimed(id: nat, token: nat, claim: Evidence.Claim, attempts: nat)

  function Power2(n: nat): nat {
    if n == 0 then 1 else 2 * Power2(n - 1)
  }

  /** The back-off after the `attempts`-th attempt failed. */
  function RetryDelay(base: real, attempts: nat): real {
    base * Power2(if attempts >= 1 then attempts - 1 else 0) as real
  }

  datatype Settings = Settings(maxAttempts: int, retryBase: real)

  class CaseTable {
    var cases: seq<Case>
    var events: seq<EventKey>
    var tokens: nat

    constructor ()
      ensures Contents() == EMPTY_STATE
    {
      cases, events, tokens := [], [], 0;
    }

    function Contents(): State
      reads this
    {
      State(cases, events, tokens)
    }

    /** The case of an operation, opened on first sight; another claim under the same operation is
        an identity conflict. */
    method CreateOrGet(claim: Evidence.Claim, at: real) returns (id: Option<nat>)
      modifies this
      ensures Contents() == if id.Some? then OpenCase(old(Contents()), claim, at) else old(Contents())
      ensures id.Some? ==>
        && id.value < |cases| && cases[id.value].claim.operationId == claim.operationId
        && cases[id.value].claim.action == claim.action && cases[id.value].claim.digest == claim.digest
      ensures id.None? ==> exists i :: 0 <= i < |cases| && Contradicts(cases[i].claim, claim)
    {
      var i := 0;
      while i < |cases|
        invariant 0 <= i <= |cases|
        invariant forall j :: 0 <= j < i ==> cases[j].claim.operationId != claim.operationId
      {
        if cases[i].claim.operationId == claim.operationId {
          if Contradicts(cases[i].claim, claim) {
            return None;
          }
          return Some(i);
        }
        i := i + 1;
      }
      cases := cases + [NewCase(claim, at)];
      events := events + [EventKey(i, UnknownCommitDetected, None), EventKey(i, CaseCreated, None)];
      id := Some(i);
    }

    /** Claims the cases its query selected, each under a fresh token. */
    method ClaimBatch(worker: string, now: real, leaseSeconds: real, limit: nat,
                      locked: set<nat>, picked: seq<nat>)
      returns (claimed: seq<Claimed>)
      requires Selection(cases, now, limit, locked, picked)
      modifies this
      ensures Contents() == ClaimAll(old(Contents()), picked, worker, now + leaseSeconds)
      ensures |claimed| == |picked|
      ensures forall k :: 0 <= k < |picked| ==>
        claimed[k] == Claimed(picked[k], old(tokens) + k, old(cases)[picked[k]].claim, old(cases)[picked[k]].attempts + 1)
    {
      hide ClaimAll, Later, Eligible;
      claimed := [];
      NothingClaimed(Contents(), picked, worker, now + leaseSeconds);
      for k := 0 to |picked|
        invariant Contents() == ClaimAll(old(Contents()), picked[..k], worker, now + leaseSeconds)
        invariant |cases| == |old(cases)| && tokens == old(tokens) + k && |claimed| == k
        invariant forall l :: k <= l < |picked| ==> cases[picked[l]] == old(cases)[picked[l]]
        invariant forall l :: 0 <= l < k ==>
          claimed[l] == Claimed(picked[l], old(tokens) + l, old(cases)[picked[l]].claim, old(cases)[picked[l]].attempts + 1)
      {
        ClaimAllNext(old(Contents()), picked, k, worker, now + leaseSeconds);
        var id := picked[k];
        cases := cases[id := ClaimCase(cases[id], worker, tokens, now + leaseSeconds)];
        events := events + [EventKey(id, ReconciliationStarted, Some(tokens))];
        claimed := claimed + [Claimed(id, tokens, cases[id].claim, cases[id].attempts)];
        tokens := tokens + 1;
      }
      assert picked[..|picked|] == picked;
    }

    /** False when the claim has been superseded: the source raises, and nothing is written. */
    method ResolveCase(c: Claimed, worker: string, outcome: EvidenceStatus, now: real, code: string) returns (ok: bool)
      modifies this
      ensures ok == HoldsClaim(old(cases), c.id, worker, c.token)
      ensures Contents() == if ok then Resolve(old(Contents()), c.id, outcome, now, code) else old(Contents())
    {
      ok := HoldsClaim(cases, c.id, worker, c.token);
      if ok {
        cases := cases[c.id := Released(cases[c.id]).(
          status := ResolvedStatus(outcome), evidence := Some(outcome), resolvedAt := Some(now), resolutionCode := Some(code))];
        events := events + [EventKey(c.id, ResolvedEvent(outcome), None)];
      }
    }

    method RetryCase(c: Claimed, worker: string, availableAt: real, error: string) returns (ok: bool)
      modifies this
      ensures ok == HoldsClaim(old(cases), c.id, worker, c.token)
      ensures Contents() == if ok then Retry(old(Contents()), c.id, c.token, availableAt, error) else old(Contents())
    {
      ok := HoldsClaim(cases, c.id, worker, c.token);
      if ok {
        cases := cases[c.id := Released(cases[c.id]).(
          status := Pending, availableAt := availableAt, lastError := Some(error))];
        events := events + [EventKey(c.id, RetryScheduled, Some(c.token))];
      }
    }
  }
}
