/** Which reconciliation cases a claim hands out, and what each transaction leaves of a case, column by
    column (reconciliation/repository.py). */
module CaseFacts {
  import opened Domain
  import opened Reconciliation
  import Evidence
  import FiniteSets

  // ----- Which cases a claim takes -----

  /** Due, or left behind by a lease that has run out. */
  predicate Takeable(c: Case, now: real) {
    match c.status
    case Pending => c.availableAt <= now
    case Processing => c.claimExpiresAt.Some? && now >= c.claimExpiresAt.value
    case _ => false
  }

  predicate Free(cases: seq<Case>, x: nat, now: real, locked: set<nat>) {
    x < |cases| && Takeable(cases[x], now) && x !in locked
  }

  /** Neither earlier available nor, available at one time, earlier created. */
  predicate NotBefore(a: Case, b: Case) {
    a.availableAt >= b.availableAt && (a.availableAt == b.availableAt ==> a.createdAt >= b.createdAt)
  }

  /** A selection is distinct free cases in order, as many as fit, and those first in line. */
  lemma SelectionsAreTheFirstFree(cases: seq<Case>, now: real, limit: nat, locked: set<nat>, picked: seq<nat>)
    ensures Selection(cases, now, limit, locked, picked) <==>
      && |picked| <= limit
      && (forall k :: 0 <= k < |picked| ==> Free(cases, picked[k], now, locked))
      && (forall k, l :: 0 <= k < l < |picked| ==> picked[k] != picked[l])
      && (forall k, l :: 0 <= k < l < |picked| ==> NotBefore(cases[picked[l]], cases[picked[k]]))
      && (forall x: nat :: Free(cases, x, now, locked) && x !in picked ==>
            |picked| == limit && forall k :: 0 <= k < |picked| ==> NotBefore(cases[x], cases[picked[k]]))
  {
    forall x: nat | x < |cases| ensures Eligible(cases[x], now) <==> Takeable(cases[x], now) {
    }
    forall x: nat, y: nat | x < |cases| && y < |cases| ensures Later(cases[x], cases[y]) <==> !NotBefore(cases[y], cases[x]) {
    }
    hide Eligible, Takeable, Later, NotBefore;
  }

  ghost function FreeCases(cases: seq<Case>, now: real, locked: set<nat>): set<nat> {
    set x: nat | x < |cases| && Free(cases, x, now, locked)
  }

  /** When they fit, a selection holds all of them. */
  lemma SelectionsHoldAllThatFit(cases: seq<Case>, now: real, limit: nat, locked: set<nat>, picked: seq<nat>, x: nat)
    requires Selection(cases, now, limit, locked, picked) && Free(cases, x, now, locked)
    requires |FreeCases(cases, now, locked)| <= limit
    ensures x in picked
  {
    SelectionsAreTheFirstFree(cases, now, limit, locked, picked);
    hide Selection, NotBefore;
    if x !in picked {
      forall k | 0 <= k < |picked| + 1 ensures (picked + [x])[k] in FreeCases(cases, now, locked) {
        assert Free(cases, (picked + [x])[k], now, locked);
      }
      FiniteSets.DistinctMembers(picked + [x], FreeCases(cases, now, locked));
    }
  }

  // ----- What each transaction leaves of a case -----

  /** The same case in a worker's hands, one attempt further. */
  function InHands(c: Case, worker: string, token: nat, expiresAt: real): Case {
    Case(c.claim, Processing, c.createdAt, c.availableAt, Some(worker), Some(token), Some(expiresAt), c.attempts + 1,
         c.evidence, c.resolvedAt, c.resolutionCode, c.lastError)
  }

  /** The case once settled for good. */
  function ClosedCase(c: Case, status: Status, evidence: EvidenceStatus, at: real, code: string): Case {
    Case(c.claim, status, c.createdAt, c.availableAt, None, None, None, c.attempts, Some(evidence), Some(at), Some(code),
         c.lastError)
  }

  /** The case put off. */
  function PutOff(c: Case, until: real, error: string): Case {
    Case(c.claim, Pending, c.createdAt, until, None, None, None, c.attempts, c.evidence, c.resolvedAt, c.resolutionCode,
         Some(error))
  }

  lemma InHandsOne(s: State, id: nat, worker: string, expiresAt: real)
    requires id < |s.cases|
    ensures ClaimOne(s, id, worker, expiresAt)
         == State(s.cases[id := InHands(s.cases[id], worker, s.tokens, expiresAt)],
                  s.events + [EventKey(id, ReconciliationStarted, Some(s.tokens))], s.tokens + 1)
  {
  }

  predicate DistinctCases(cases: seq<Case>, picked: seq<nat>) {
    && (forall k :: 0 <= k < |picked| ==> picked[k] < |cases|)
    && (forall k, l :: 0 <= k < l < |picked| ==> picked[k] != picked[l])
  }

  /** The picked cases are in the worker's hands, under consecutive tokens and each start on record; the
      others are as they were. */
  ghost predicate HandedOut(s: State, n: State, picked: seq<nat>, worker: string, expiresAt: real)
    requires DistinctCases(s.cases, picked)
  {
    && |n.cases| == |s.cases| && n.tokens == s.tokens + |picked|
    && (forall k :: 0 <= k < |picked| ==> n.cases[picked[k]] == InHands(s.cases[picked[k]], worker, s.tokens + k, expiresAt))
    && (forall x: nat :: x < |s.cases| && x !in picked ==> n.cases[x] == s.cases[x])
    && |n.events| == |s.events| + |picked| && s.events <= n.events
    && (forall k :: 0 <= k < |picked| ==>
          n.events[|s.events| + k] == EventKey(picked[k], ReconciliationStarted, Some(s.tokens + k)))
  }

  lemma HandOneMore(s: State, before: State, init: seq<nat>, id: nat, worker: string, expiresAt: real)
    requires DistinctCases(s.cases, init) && DistinctCases(s.cases, init + [id]) && HandedOut(s, before, init, worker, expiresAt)
    ensures HandedOut(s, ClaimOne(before, id, worker, expiresAt), init + [id], worker, expiresAt)
  {
    var picked := init + [id];
    assert picked[|init|] == id;
    forall k | 0 <= k < |init| ensures picked[k] == init[k] && init[k] != id {
      assert picked[k] != picked[|init|];
    }
    assert id !in init && id in picked;
    InHandsOne(before, id, worker, expiresAt);
    hide ClaimOne, InHands;
  }

  /** A claim hands out the cases it selected. */
  lemma {:induction false} ClaimedOneByOne(s: State, picked: seq<nat>, worker: string, expiresAt: real)
    requires DistinctCases(s.cases, picked)
    ensures HandedOut(s, ClaimAll(s, picked, worker, expiresAt), picked, worker, expiresAt)
  {
    hide InHands;
    if picked != [] {
      var last := |picked| - 1;
      var init := picked[..last];
      assert picked == init + [picked[last]] && picked[..last + 1] == picked;
      ClaimedOneByOne(s, init, worker, expiresAt);
      hide ClaimAll, HandedOut;
      HandOneMore(s, ClaimAll(s, init, worker, expiresAt), init, picked[last], worker, expiresAt);
      ClaimAllNext(s, picked, last, worker, expiresAt);
    }
  }

  /** A report opens a case, with its two events, unless the operation has one. */
  lemma ReportsOpenOneCase(s: State, claim: Evidence.Claim, at: real)
    ensures OpenCase(s, claim, at) ==
      if exists i :: 0 <= i < |s.cases| && s.cases[i].claim.operationId == claim.operationId then s
      else State(s.cases + [Case(claim, Pending, at, at, None, None, None, 0, None, None, None, None)],
                 s.events + [EventKey(|s.cases|, UnknownCommitDetected, None), EventKey(|s.cases|, CaseCreated, None)],
                 s.tokens)
  {
  }

  /** The back-off starts at the base after the first attempt and doubles with every further one. */
  lemma BackoffDoubles(base: real, attempts: nat)
    ensures RetryDelay(base, 1) == base && RetryDelay(base, 0) == base
    ensures attempts >= 1 ==> RetryDelay(base, attempts + 1) == 2.0 * RetryDelay(base, attempts)
  {
    if attempts >= 1 {
      var p := Power2(attempts - 1) as real;
      assert Power2(attempts) as real == 2.0 * p;
    }
  }

  /** The claim is still the case's own. */
  predicate Held(cases: seq<Case>, id: nat, worker: string, token: nat) {
    && id < |cases| && cases[id].status == Processing
    && cases[id].claimedBy.Some? && cases[id].claimedBy.value == worker
    && cases[id].claimToken.Some? && cases[id].claimToken.value == token
  }

  lemma HandedOutOne(s: State, picked: seq<nat>, worker: string, expiresAt: real, id: nat) returns (token: nat)
    requires DistinctCases(s.cases, picked) && id in picked
    ensures
      var n := ClaimAll(s, picked, worker, expiresAt);
      && id < |s.cases| && id < |n.cases| && s.tokens <= token < n.tokens
      && n.cases[id] == InHands(s.cases[id], worker, token, expiresAt)
  {
    hide InHands, ClaimAll;
    ClaimedOneByOne(s, picked, worker, expiresAt);
    var k :| 0 <= k < |picked| && picked[k] == id;
    token := s.tokens + k;
  }

  lemma InHandsFields(c: Case, worker: string, token: nat, expiresAt: real)
    ensures var h := InHands(c, worker, token, expiresAt);
      h.status == Processing && h.claimToken == Some(token) && h.claimExpiresAt == Some(expiresAt)
  {
  }
}
