/** How each case is settled: by what the evidence says, and after a crash by whoever claims it next
    (reconciliation/worker.py). */
module ReconciliationFacts {
  import opened Domain
  import opened Reconciliation
  import opened ReconciliationRuns
  import opened CaseFacts
  import Commands
  import Evidence
  import EvidenceFacts
  import EvidenceHonesty
  import Execution
  import RepairRuns
  import RepairStore

  // ----- Settling by the evidence -----

  /** What the settlement of `c` writes, when its query was broken off (`reason`) or was answered. */
  function SettledAs(c: Case, attempts: nat, now: real, broken: Option<string>, answer: Evidence.Verdict,
                     settings: Settings): Case
  {
    if broken.Some? && attempts < settings.maxAttempts then
      PutOff(c, now + RetryDelay(settings.retryBase, attempts), broken.value)
    else if broken.Some? then ClosedCase(c, ManualReview, EvidenceInconsistent, now, "EVIDENCE_UNAVAILABLE")
    else
      match answer
      case CommittedAs(_, _) => ClosedCase(c, ResolvedCommitted, EvidenceCommitted, now, "DURABLE_EVIDENCE_MATCHED")
      case NotCommitted => ClosedCase(c, ResolvedNotCommitted, EvidenceNotCommitted, now, "AUTHORITATIVE_ABSENCE")
      case _ => ClosedCase(c, ManualReview, EvidenceInconsistent, now, "EVIDENCE_CONFLICT")
  }

  /** A query is broken off by a failure, or by being denied. */
  function BrokenOff(broken: bool, answer: Evidence.Verdict): Option<string> {
    if broken then Some("EVIDENCE_QUERY_FAILED") else if answer.Denied? then Some("PERMISSION_DENIED") else None
  }

  /** The audit event of a settlement. */
  function AuditOf(id: nat, settled: Case, token: nat): EventKey {
    match settled.status
    case ResolvedCommitted => EventKey(id, ResolvedCommittedEvent, None)
    case ResolvedNotCommitted => EventKey(id, ResolvedNotCommittedEvent, None)
    case ManualReview => EventKey(id, ManualReviewEvent, None)
    case _ => EventKey(id, RetryScheduled, Some(token))
  }

  /** Asking and settling under a claim that holds. */
  lemma SettledByTheEvidence(calls: seq<RepairRuns.Call>, table: State, worker: Worker, dir: RepairStore.Directory,
                             broken: bool, settings: Settings)
    requires worker.batch != [] && worker.batch[0].id < |table.cases|
    requires worker.verdict == Some(if broken then Broken("EVIDENCE_QUERY_FAILED") else Ask(calls, dir, worker.batch[0].claim))
    ensures
      var c := worker.batch[0];
      var answer := Evidence.OperationOutcome(Execution.After(calls), dir, c.claim);
      var settled := SettledAs(table.cases[c.id], c.attempts, worker.now, BrokenOff(broken, answer), answer, settings);
      Settled(table, worker, settings)
        == State(table.cases[c.id := settled], table.events + [AuditOf(c.id, settled, c.token)], table.tokens)
  {
    hide Evidence.OperationOutcome, Execution.After, RetryDelay;
  }

  /** The worker has a case to ask about. */
  predicate AboutToAsk(w: World, pid: nat) {
    pid in w.workers && w.workers[pid].batch != [] && w.workers[pid].verdict.None?
  }

  lemma Asks(w: World, query: Step, settings: Settings)
    requires query.Query? && AboutToAsk(w, query.pid)
    ensures
      var worker := w.workers[query.pid];
      var verdict := if query.broken then Broken("EVIDENCE_QUERY_FAILED") else Ask(w.calls, query.dir, worker.batch[0].claim);
      ReconciliationRuns.Next(w, query, settings) == w.(workers := w.workers[query.pid := worker.(verdict := Some(verdict))])
  {
    hide Ask;
  }

  predicate LeavesAlone(more: seq<Step>, pid: nat) {
    forall k :: 0 <= k < |more| ==> more[k] != Settle(pid) && more[k] != Crash(pid)
  }

  lemma {:induction false} VerdictWaits(steps: seq<Step>, more: seq<Step>, settings: Settings, pid: nat)
    requires LeavesAlone(more, pid) && pid in After(steps, settings).workers
    requires After(steps, settings).workers[pid].verdict.Some?
    ensures pid in After(steps + more, settings).workers
    ensures After(steps + more, settings).workers[pid] == After(steps, settings).workers[pid]
  {
    hide Settled, ClaimAll, Ask, RetryDelay, OpenCase, Selection, HoldsClaim;
    if more == [] {
      assert steps + more == steps;
    } else {
      var last := |more| - 1;
      var all := steps + more;
      assert all[..|all| - 1] == steps + more[..last] && all[|all| - 1] == more[last];
      VerdictWaits(steps, more[..last], settings, pid);
      assert more[last] != Settle(pid) && more[last] != Crash(pid);
    }
  }

  /** A worker asks, others go on, and then it settles. Under a claim that still holds, the case is put
      off or handed over when the query was broken off, and otherwise resolved by what the store said at
      the moment of the query; under a lost claim nothing is written. */
  lemma SettlementsFollowTheirQuery(steps: seq<Step>, query: Step, more: seq<Step>, settings: Settings)
    requires query.Query? && AboutToAsk(After(steps, settings), query.pid) && LeavesAlone(more, query.pid)
    ensures
      var asked, before := After(steps, settings), After(steps + [query] + more, settings).table;
      var after := After(steps + [query] + more + [Settle(query.pid)], settings).table;
      var worker := asked.workers[query.pid];
      var c := worker.batch[0];
      var answer := Evidence.OperationOutcome(Execution.After(asked.calls), query.dir, c.claim);
      if !Held(before.cases, c.id, worker.name, c.token) then after == before
      else
        var settled := SettledAs(before.cases[c.id], c.attempts, worker.now, BrokenOff(query.broken, answer), answer, settings);
        after == State(before.cases[c.id := settled], before.events + [AuditOf(c.id, settled, c.token)], before.tokens)
  {
    hide After, Settled, Ask, SettledAs, AuditOf, BrokenOff, Evidence.OperationOutcome, Execution.After, Held,
      ReconciliationRuns.Next, LeavesAlone;
    var asked := After(steps, settings);
    OneStep(steps, query, settings);
    OneStep(steps + [query] + more, Settle(query.pid), settings);
    Asks(asked, query, settings);
    VerdictWaits(steps + [query], more, settings, query.pid);
    var w := After(steps + [query] + more, settings);
    var worker := w.workers[query.pid];
    Settles(w, query.pid, settings);
    if Held(w.table.cases, worker.batch[0].id, worker.name, worker.batch[0].token) {
      SettledByTheEvidence(asked.calls, w.table, worker, query.dir, query.broken, settings);
    }
  }

  lemma OneStep(steps: seq<Step>, step: Step, settings: Settings)
    ensures After(steps + [step], settings) == ReconciliationRuns.Next(After(steps, settings), step, settings)
  {
    assert (steps + [step])[..|steps|] == steps;
  }

  lemma Settles(w: World, pid: nat, settings: Settings)
    requires pid in w.workers && w.workers[pid].batch != [] && w.workers[pid].verdict.Some?
    ensures
      var worker := w.workers[pid];
      var c := worker.batch[0];
      && (Held(w.table.cases, c.id, worker.name, c.token) ==> c.id < |w.table.cases|)
      && ReconciliationRuns.Next(w, Settle(pid), settings).table
           == if Held(w.table.cases, c.id, worker.name, c.token) then Settled(w.table, worker, settings) else w.table
  {
    hide Settled;
  }

  /** How an unbroken, authorised query decides its case: committed exactly when some committed call is
      the claimed one and what it wrote has not moved on, not committed exactly when no call of the
      operation had committed, and handed over for review in between. */
  lemma EvidenceDecidesTheCase(steps: seq<Step>, query: Step, more: seq<Step>, settings: Settings)
    requires query.Query? && AboutToAsk(After(steps, settings), query.pid) && LeavesAlone(more, query.pid) && !query.broken
    requires
      var worker := After(steps, settings).workers[query.pid];
      && Held(After(steps + [query] + more, settings).table.cases, worker.batch[0].id, worker.name, worker.batch[0].token)
      && Evidence.Authorized(query.dir, worker.batch[0].claim)
    ensures
      var asked, after := After(steps, settings), After(steps + [query] + more + [Settle(query.pid)], settings).table;
      var c := asked.workers[query.pid].batch[0];
      var committed := Execution.Committed(asked.calls);
      var db := Execution.After(asked.calls).db;
      var confirmed := exists k ::
        && 0 <= k < |committed| && EvidenceFacts.Claimed(committed, k, c.claim)
        && EvidenceFacts.Unmoved(db, Execution.ResultOf(committed, k).value.1);
      && c.id < |after.cases|
      && after.cases[c.id].status ==
           if confirmed then ResolvedCommitted
           else if !Evidence.CommittedOperation(asked.calls, c.claim.operationId) then ResolvedNotCommitted
           else ManualReview
  {
    SettlementsFollowTheirQuery(steps, query, more, settings);
    var asked := After(steps, settings);
    var q := asked.workers[query.pid].batch[0].claim;
    EvidenceFacts.ConfirmedExactly(asked.calls, query.dir, q);
    Evidence.AbsenceIsAuthoritative(asked.calls, query.dir, q);
    EvidenceFacts.WhoMayAsk(asked.calls, query.dir, q);
    hide After, Execution.After, Execution.Committed, Execution.ResultOf, Evidence.OperationOutcome, EvidenceFacts.Claimed,
      EvidenceFacts.Unmoved, Evidence.CommittedOperation, AboutToAsk, LeavesAlone, Held;
  }

  /** So an honest claim about a committed call whose resource is unmoved resolves its case as committed. */
  lemma HonestClaimsResolveCommitted(steps: seq<Step>, query: Step, more: seq<Step>, settings: Settings, k: nat)
    requires query.Query? && AboutToAsk(After(steps, settings), query.pid) && LeavesAlone(more, query.pid) && !query.broken
    requires
      var asked := After(steps, settings);
      var worker := asked.workers[query.pid];
      var q := worker.batch[0].claim;
      && Held(After(steps + [query] + more, settings).table.cases, worker.batch[0].id, worker.name, worker.batch[0].token)
      && Evidence.Authorized(query.dir, q)
      && k < |Execution.Committed(asked.calls)|
      && EvidenceHonesty.Describes(q, Execution.Committed(asked.calls)[k].command, Execution.After(asked.calls).db)
    requires
      var asked := After(steps, settings);
      Execution.ResultOf(Execution.Committed(asked.calls), k).Ok? ==>
        EvidenceFacts.Unmoved(Execution.After(asked.calls).db, Execution.ResultOf(Execution.Committed(asked.calls), k).value.1)
    ensures
      var after := After(steps + [query] + more + [Settle(query.pid)], settings).table;
      var c := After(steps, settings).workers[query.pid].batch[0];
      && c.id < |after.cases|
      && after.cases[c.id].status == ResolvedCommitted && after.cases[c.id].evidence == Some(EvidenceCommitted)
      && after.cases[c.id].resolutionCode == Some("DURABLE_EVIDENCE_MATCHED")
  {
    var asked := After(steps, settings);
    var q := asked.workers[query.pid].batch[0].claim;
    SettlementsFollowTheirQuery(steps, query, more, settings);
    HonestAnswer(asked.calls, query.dir, q, k);
    hide After, Execution.After, Execution.Committed, Execution.ResultOf, Evidence.OperationOutcome, EvidenceHonesty.Describes,
      EvidenceFacts.Unmoved, Evidence.Authorized, AboutToAsk, LeavesAlone, Held;
  }

  lemma HonestAnswer(calls: seq<RepairRuns.Call>, dir: RepairStore.Directory, q: Evidence.Claim, k: nat)
    requires k < |Execution.Committed(calls)| && Evidence.Authorized(dir, q)
    requires EvidenceHonesty.Describes(q, Execution.Committed(calls)[k].command, Execution.After(calls).db)
    requires Execution.ResultOf(Execution.Committed(calls), k).Ok? ==>
      EvidenceFacts.Unmoved(Execution.After(calls).db, Execution.ResultOf(Execution.Committed(calls), k).value.1)
    ensures Evidence.OperationOutcome(Execution.After(calls), dir, q).CommittedAs?
  {
    EvidenceHonesty.HonestClaimConfirmedWhileUnmoved(calls, dir, q, k);
    Execution.EveryStoreTells(calls);
    var committed := Execution.Committed(calls);
    hide Execution.After, Execution.Committed, Execution.ResultOf, Evidence.OperationOutcome, Evidence.Authorized, RepairRuns.Run;
    EvidenceHonesty.CommittedCallsLanded(committed, k);
    UnmovedVersion(Execution.After(calls).db, q, committed[k].command, Execution.ResultOf(committed, k).value.1);
  }

  lemma UnmovedVersion(db: RepairStore.Db, q: Evidence.Claim, command: Commands.Command, r: Commands.OperationResult)
    requires EvidenceHonesty.Landed(db, command, r) && EvidenceHonesty.Describes(q, command, db)
    requires EvidenceFacts.Unmoved(db, r) && Evidence.TicketOf(db, q.action, r.resourceId).Some?
    ensures Evidence.VersionOf(db, q.action, r.resourceId) == r.resourceVersion
  {
  }

  // ----- Crashes -----

  /** Some worker still has a case in hand under the token. */
  predicate Carried(w: World, token: nat) {
    exists pid :: pid in w.workers && Carries(w.workers[pid], token)
  }

  predicate Carries(worker: Worker, token: nat) {
    exists k :: 0 <= k < |worker.batch| && worker.batch[k].token == token
  }

  /** Only tokens that were drawn are carried. */
  predicate TokensDrawn(w: World) {
    forall pid :: pid in w.workers ==>
      forall k :: 0 <= k < |w.workers[pid].batch| ==> w.workers[pid].batch[k].token < w.table.tokens
  }

  lemma TokensOnlyGrow(w: World, step: Step, settings: Settings)
    ensures ReconciliationRuns.Next(w, step, settings).table.tokens >= w.table.tokens
    ensures step.Claim? && ReconciliationRuns.Next(w, step, settings) != w ==>
      ReconciliationRuns.Next(w, step, settings).table.tokens == w.table.tokens + |step.picked|
  {
    hide Ask, RetryDelay, ClaimAll, HoldsClaim;
    if step.Claim? && Selection(w.table.cases, step.at, step.limit, step.locked, step.picked) {
      ClaimedOneByOne(w.table, step.picked, step.name, step.at + step.lease);
    }
  }

  lemma NextTokens(w: World, step: Step, settings: Settings)
    requires TokensDrawn(w)
    ensures TokensDrawn(ReconciliationRuns.Next(w, step, settings))
    ensures forall token: nat :: token < w.table.tokens && !Carried(w, token) ==>
      !Carried(ReconciliationRuns.Next(w, step, settings), token)
  {
    var n := ReconciliationRuns.Next(w, step, settings);
    TokensOnlyGrow(w, step, settings);
    hide ReconciliationRuns.Next;
    forall pid, k | pid in n.workers && 0 <= k < |n.workers[pid].batch|
      ensures n.workers[pid].batch[k].token < n.table.tokens
      ensures n.workers[pid].batch[k].token >= w.table.tokens || Carried(w, n.workers[pid].batch[k].token)
    {
      NextBatch(w, step, settings, pid);
      var token := n.workers[pid].batch[k].token;
      if pid in w.workers {
        var l := if n.workers[pid].batch == w.workers[pid].batch then k else k + 1;
        assert w.workers[pid].batch[l].token == token;
        assert Carries(w.workers[pid], token);
      } else {
        assert token == w.table.tokens + k;
      }
    }
  }

  lemma {:induction false} EveryTokenIsDrawn(steps: seq<Step>, settings: Settings)
    ensures TokensDrawn(After(steps, settings))
  {
    hide ReconciliationRuns.Next, TokensDrawn;
    if steps == [] {
      assert TokensDrawn(EMPTY_WORLD) by { NothingDrawn(); }
    } else {
      EveryTokenIsDrawn(steps[..|steps| - 1], settings);
      NextTokens(After(steps[..|steps| - 1], settings), steps[|steps| - 1], settings);
    }
  }

  lemma NothingDrawn()
    ensures TokensDrawn(EMPTY_WORLD)
  {
  }

  /** No claim takes case `id` with a clock reading before its lease's expiry. */
  predicate NoLateClaim(more: seq<Step>, id: nat, expiry: real) {
    forall k :: 0 <= k < |more| && more[k].Claim? ==> more[k].at < expiry || id !in more[k].picked
  }

  /** A case in the hands of a crashed worker stays as it is until it is claimed again. */
  lemma {:induction false} CrashedCaseWaits(steps: seq<Step>, more: seq<Step>, settings: Settings, id: nat)
    requires
      var w := After(steps, settings);
      && id < |w.table.cases| && w.table.cases[id].status == Processing
      && w.table.cases[id].claimToken.Some? && w.table.cases[id].claimExpiresAt.Some?
      && w.table.cases[id].claimToken.value < w.table.tokens && !Carried(w, w.table.cases[id].claimToken.value)
      && NoLateClaim(more, id, w.table.cases[id].claimExpiresAt.value)
    ensures
      var w, n := After(steps, settings), After(steps + more, settings);
      && id < |n.table.cases| && n.table.cases[id] == w.table.cases[id] && n.table.tokens >= w.table.tokens
      && !Carried(n, w.table.cases[id].claimToken.value)
  {
    hide ReconciliationRuns.Next, Carried, TokensDrawn;
    if more == [] {
      assert steps + more == steps;
    } else {
      var last := |more| - 1;
      var all := steps + more;
      assert all[..|all| - 1] == steps + more[..last] && all[|all| - 1] == more[last];
      CrashedCaseWaits(steps, more[..last], settings, id);
      var w := After(steps + more[..last], settings);
      EveryTokenIsDrawn(steps + more[..last], settings);
      NextTokens(w, more[last], settings);
      TokensOnlyGrow(w, more[last], settings);
      UncarriedCaseStays(w, more[last], settings, id);
    }
  }

  lemma UncarriedCaseStays(w: World, step: Step, settings: Settings, id: nat)
    requires id < |w.table.cases| && w.table.cases[id].status == Processing
    requires w.table.cases[id].claimToken.Some? && w.table.cases[id].claimExpiresAt.Some?
    requires !Carried(w, w.table.cases[id].claimToken.value)
    requires step.Claim? ==> step.at < w.table.cases[id].claimExpiresAt.value || id !in step.picked
    ensures var n := ReconciliationRuns.Next(w, step, settings);
      id < |n.table.cases| && n.table.cases[id] == w.table.cases[id]
  {
    hide ReconciliationRuns.Next, Settled, Carried, SettlesNow, Selection;
    NextCase(w, step, settings, id);
    SettlersCarry(w, step, id);
    if step.Claim? {
      UnpickedCaseStays(w, step, settings, id);
    }
  }

  lemma UnpickedCaseStays(w: World, claim: Step, settings: Settings, id: nat)
    requires claim.Claim? && id < |w.table.cases|
    requires Takeable(w.table.cases[id], claim.at) ==> id !in claim.picked
    ensures var n := ReconciliationRuns.Next(w, claim, settings);
      id < |n.table.cases| && n.table.cases[id] == w.table.cases[id]
  {
    if Selection(w.table.cases, claim.at, claim.limit, claim.locked, claim.picked) {
      PickedAreFree(w.table, claim, id);
      ClaimedOneByOne(w.table, claim.picked, claim.name, claim.at + claim.lease);
    }
    hide Selection, ClaimAll, Takeable;
  }

  lemma SettlersCarry(w: World, step: Step, id: nat)
    requires id < |w.table.cases| && w.table.cases[id].claimToken.Some?
    ensures SettlesNow(w, step, id) ==> Carried(w, w.table.cases[id].claimToken.value)
  {
    if SettlesNow(w, step, id) {
      assert Carries(w.workers[step.pid], w.table.cases[id].claimToken.value);
    }
  }

  lemma PickedAreFree(s: State, step: Step, id: nat)
    requires step.Claim? && Selection(s.cases, step.at, step.limit, step.locked, step.picked)
    ensures id in step.picked ==> id < |s.cases| && Takeable(s.cases[id], step.at)
    ensures forall k :: 0 <= k < |step.picked| ==> step.picked[k] < |s.cases|
    ensures forall k, l :: 0 <= k < l < |step.picked| ==> step.picked[k] != step.picked[l]
  {
    SelectionsAreTheFirstFree(s.cases, step.at, step.limit, step.locked, step.picked);
    hide Selection, NotBefore;
    if id in step.picked {
      var k :| 0 <= k < |step.picked| && step.picked[k] == id;
      assert Free(s.cases, step.picked[k], step.at, step.locked);
    }
  }

  /** The claim takes effect. */
  predicate Goes(w: World, claim: Step) {
    claim.Claim? && claim.pid !in w.workers && Selection(w.table.cases, claim.at, claim.limit, claim.locked, claim.picked)
  }

  lemma ClaimStep(w: World, claim: Step, settings: Settings)
    requires Goes(w, claim) && claim.picked != []
    ensures DistinctCases(w.table.cases, claim.picked)
    ensures ReconciliationRuns.Next(w, claim, settings)
         == World(w.calls, ClaimAll(w.table, claim.picked, claim.name, claim.at + claim.lease),
                  w.workers[claim.pid := Busy(claim.name, claim.at, ClaimedBy(w.table, claim.picked), None)])
  {
    PickedAreFree(w.table, claim, 0);
    hide Selection, ClaimAll;
  }

  /** A claim that goes through puts its cases into its worker's hands. */
  lemma ClaimGoes(w: World, claim: Step, settings: Settings, id: nat) returns (token: nat)
    requires Goes(w, claim) && id in claim.picked
    ensures
      var n := ReconciliationRuns.Next(w, claim, settings);
      && id < |w.table.cases| && id < |n.table.cases| && w.table.tokens <= token < n.table.tokens
      && n.table.cases[id] == InHands(w.table.cases[id], claim.name, token, claim.at + claim.lease)
  {
    ClaimStep(w, claim, settings);
    hide Goes, Selection, ClaimAll, InHands, ReconciliationRuns.Next, DistinctCases, ClaimedBy;
    token := HandedOutOne(w.table, claim.picked, claim.name, claim.at + claim.lease, id);
  }

  /** Once its worker has crashed, nobody carries a case it had just claimed. */
  lemma CrashDrops(w: World, claim: Step, settings: Settings, id: nat, token: nat)
    requires Goes(w, claim) && claim.picked != [] && TokensDrawn(w) && w.table.tokens <= token
    ensures
      var n := ReconciliationRuns.Next(w, claim, settings);
      var crashed := ReconciliationRuns.Next(n, Crash(claim.pid), settings);
      crashed.table == n.table && !Carried(crashed, token)
  {
    ClaimStep(w, claim, settings);
    hide Goes, Selection, ClaimAll, ClaimedBy;
    var n := ReconciliationRuns.Next(w, claim, settings);
    var crashed := ReconciliationRuns.Next(n, Crash(claim.pid), settings);
    assert forall pid :: pid in crashed.workers ==> pid in w.workers && crashed.workers[pid] == w.workers[pid];
  }

  /** A worker claims a case and crashes. Whatever the others do meanwhile, the first claim that reads
      the clock at or past the lease's expiry, finds the case unlocked and has room for the cases that
      are free takes it, under a token drawn later and as one more attempt. */
  lemma CrashedCasesAreReclaimed(steps: seq<Step>, first: Step, more: seq<Step>, again: Step, settings: Settings, id: nat)
    returns (token: nat, next: nat)
    requires first.Claim? && again.Claim? && Goes(After(steps, settings), first) && id in first.picked
    requires NoLateClaim(more, id, first.at + first.lease)
    requires
      var w := After(steps + [first] + [Crash(first.pid)] + more, settings);
      Goes(w, again) && id !in again.locked && |FreeCases(w.table.cases, again.at, again.locked)| <= again.limit
    requires again.at >= first.at + first.lease
    ensures
      var was, claimed := After(steps, settings).table, After(steps + [first], settings).table;
      var after := After(steps + [first] + [Crash(first.pid)] + more + [again], settings).table;
      && id < |was.cases| && id < |claimed.cases| && id < |after.cases| && token < next
      && claimed.cases[id] == InHands(was.cases[id], first.name, token, first.at + first.lease)
      && after.cases[id] == InHands(claimed.cases[id], again.name, next, again.at + again.lease)
  {
    hide ReconciliationRuns.Next, After, Goes, Carried, Carries, FreeCases, TokensDrawn, NoLateClaim, InHands;
    var w := After(steps, settings);
    var crash := Crash(first.pid);
    OneStep(steps, first, settings);
    OneStep(steps + [first], crash, settings);
    OneStep(steps + [first] + [crash] + more, again, settings);
    token := ClaimGoes(w, first, settings, id);
    EveryTokenIsDrawn(steps, settings);
    CrashDrops(w, first, settings, id, token);
    InHandsFields(w.table.cases[id], first.name, token, first.at + first.lease);
    CrashedCaseWaits(steps + [first] + [crash], more, settings, id);
    var before := After(steps + [first] + [crash] + more, settings);
    ExpiredIsPicked(before, again, id);
    next := ClaimGoes(before, again, settings, id);
  }

  lemma ExpiredIsPicked(w: World, claim: Step, id: nat)
    requires Goes(w, claim) && id < |w.table.cases| && w.table.cases[id].status == Processing && id !in claim.locked
    requires w.table.cases[id].claimExpiresAt.Some? && w.table.cases[id].claimExpiresAt.value <= claim.at
    requires |FreeCases(w.table.cases, claim.at, claim.locked)| <= claim.limit
    ensures id in claim.picked
  {
    hide Selection, FreeCases;
    SelectionsHoldAllThatFit(w.table.cases, claim.at, claim.limit, claim.locked, claim.picked, id);
  }
}
