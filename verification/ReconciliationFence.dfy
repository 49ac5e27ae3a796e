/** Every reconciliation run is a fenced one: its claims, retries and resolutions are the leases and
    settlements of the fencing protocol; attempts count leases; audit keys never repeat. */
module ReconciliationFence {
  import opened Reconciliation
  import opened ReconciliationRuns
  import Fencing
  import Evidence

  function SlotOf(c: Case): Fencing.Slot {
    match c.status
    case Pending => Fencing.Waiting
    case Processing =>
      if c.claimedBy.Some? && c.claimToken.Some? && c.claimExpiresAt.Some?
      then Fencing.Leased(c.claimedBy.value, c.claimToken.value, c.claimExpiresAt.value)
      else Fencing.Done
    case _ => Fencing.Done
  }

  /** The schema's own check: the claim columns are set exactly on cases being processed. */
  predicate ClaimFieldsMatch(c: Case) {
    if c.status == Processing
    then c.claimedBy.Some? && c.claimToken.Some? && c.claimExpiresAt.Some?
    else c.claimedBy.None? && c.claimToken.None? && c.claimExpiresAt.None?
  }

  /** How many leases a row was granted. */
  function LeasesOf(grants: seq<Fencing.Grant>, row: nat): nat {
    if grants == [] then 0
    else LeasesOf(grants[..|grants| - 1], row) + if grants[|grants| - 1].row == row then 1 else 0
  }

  predicate Resolution(kind: AuditType) {
    kind in {ResolvedCommittedEvent, ResolvedNotCommittedEvent, ManualReviewEvent}
  }

  /** Each audit event records something that happened to its case under the protocol. */
  ghost predicate AuditTells(e: EventKey, f: Fencing.Fence) {
    && e.caseId < |f.slots|
    && (e.kind == ReconciliationStarted ==> e.token.Some? && e.token.value < |f.grants|)
    && (e.kind == RetryScheduled ==> e.token.Some? && e.token.value in f.settled)
    && (Resolution(e.kind) ==> f.slots[e.caseId].Done?)
  }

  ghost predicate KeysUnique(events: seq<EventKey>) {
    forall i, j :: 0 <= i < j < |events| ==> events[i] != events[j]
  }

  ghost predicate Refines(s: State, f: Fencing.Fence) {
    && |f.slots| == |s.cases| && |f.grants| == s.tokens
    && (forall i :: 0 <= i < |s.cases| ==>
          && ClaimFieldsMatch(s.cases[i]) && f.slots[i] == SlotOf(s.cases[i])
          && s.cases[i].attempts == LeasesOf(f.grants, i))
    && (forall k :: 0 <= k < |s.events| ==> AuditTells(s.events[k], f))
    && KeysUnique(s.events)
  }

  // ----- One fencing event at a time -----

  lemma OpenRefines(s: State, f: Fencing.Fence, claim: Evidence.Claim, at: real)
    requires Refines(s, f) && !OperationKnown(s.cases, claim.operationId)
    requires forall t :: 0 <= t < |f.grants| ==> f.grants[t].row < |f.slots|
    ensures Refines(OpenCase(s, claim, at), Fencing.Next(f, Fencing.Add))
  {
    NoLeasesYet(f.grants, |s.cases|);
    hide LeasesOf;
    var n, g := OpenCase(s, claim, at), Fencing.Next(f, Fencing.Add);
    forall k | 0 <= k < |n.events| ensures AuditTells(n.events[k], g) {
      if k < |s.events| {
        assert AuditTells(s.events[k], f);
      }
    }
    assert forall k :: 0 <= k < |s.events| ==> AuditTells(s.events[k], f);
  }

  lemma {:induction false} NoLeasesYet(grants: seq<Fencing.Grant>, row: nat)
    requires forall t :: 0 <= t < |grants| ==> grants[t].row != row
    ensures LeasesOf(grants, row) == 0
  {
    if grants != [] {
      NoLeasesYet(grants[..|grants| - 1], row);
    }
  }

  lemma ClaimRefines(s: State, f: Fencing.Fence, id: nat, worker: string, at: real, expiresAt: real)
    requires Refines(s, f) && id < |s.cases| && Eligible(s.cases[id], at)
    ensures Refines(ClaimOne(s, id, worker, expiresAt), Fencing.Next(f, Fencing.Claim(id, worker, at, expiresAt)))
  {
    var n, g := ClaimOne(s, id, worker, expiresAt), Fencing.Next(f, Fencing.Claim(id, worker, at, expiresAt));
    assert f.slots[id] == SlotOf(s.cases[id]);
    assert g.grants[..|f.grants|] == f.grants;
    forall k | 0 <= k < |n.events| ensures AuditTells(n.events[k], g) {
      if k < |s.events| {
        assert AuditTells(s.events[k], f);
      }
    }
    assert forall k :: 0 <= k < |s.events| ==> AuditTells(s.events[k], f);
  }

  lemma ResolveRefines(s: State, f: Fencing.Fence, id: nat, worker: string, token: nat,
                       outcome: EvidenceStatus, at: real, code: string)
    requires Refines(s, f) && HoldsClaim(s.cases, id, worker, token)
    ensures Refines(Resolve(s, id, outcome, at, code), Fencing.Next(f, Fencing.Settle(id, worker, token, true)))
  {
    hide LeasesOf;
    var n, g := Resolve(s, id, outcome, at, code), Fencing.Next(f, Fencing.Settle(id, worker, token, true));
    assert f.slots[id] == SlotOf(s.cases[id]);
    forall k | 0 <= k < |n.events| ensures AuditTells(n.events[k], g) {
      if k < |s.events| {
        assert AuditTells(s.events[k], f);
      }
    }
    assert forall k :: 0 <= k < |s.events| ==> AuditTells(s.events[k], f);
  }

  lemma RetryRefines(s: State, f: Fencing.Fence, id: nat, worker: string, token: nat, availableAt: real, error: string)
    requires Refines(s, f) && HoldsClaim(s.cases, id, worker, token) && token !in f.settled
    ensures Refines(Retry(s, id, token, availableAt, error), Fencing.Next(f, Fencing.Settle(id, worker, token, false)))
  {
    hide LeasesOf;
    var n, g := Retry(s, id, token, availableAt, error), Fencing.Next(f, Fencing.Settle(id, worker, token, false));
    assert f.slots[id] == SlotOf(s.cases[id]);
    forall k | 0 <= k < |n.events| ensures AuditTells(n.events[k], g) {
      if k < |s.events| {
        assert AuditTells(s.events[k], f);
      }
    }
    assert forall k :: 0 <= k < |s.events| ==> AuditTells(s.events[k], f);
  }

  // ----- Whole runs -----

  /** The fencing events a step stands for. */
  function FenceSteps(w: World, step: Step, settings: Settings): seq<Fencing.Event> {
    match step
    case Report(claim, _) => if OperationKnown(w.table.cases, claim.operationId) then [] else [Fencing.Add]
    case Claim(pid, name, at, lease, limit, locked, picked) =>
      if pid in w.workers || !Selection(w.table.cases, at, limit, locked, picked) then []
      else Fencing.Claims(picked, name, at, at + lease)
    case Settle(pid) =>
      if pid !in w.workers || w.workers[pid].batch == [] || w.workers[pid].verdict.None? then []
      else
        var worker := w.workers[pid];
        var c := worker.batch[0];
        [Fencing.Settle(c.id, worker.name, c.token, worker.verdict.value.Seen? || c.attempts >= settings.maxAttempts)]
    case _ => []
  }

  function FenceEvents(steps: seq<Step>, settings: Settings): seq<Fencing.Event> {
    if steps == [] then []
    else
      var before := steps[..|steps| - 1];
      FenceEvents(before, settings) + FenceSteps(After(before, settings), steps[|steps| - 1], settings)
  }

  lemma {:induction false} ClaimsRefine(s: State, events: seq<Fencing.Event>, picked: seq<nat>, worker: string,
                                        at: real, expiresAt: real, k: nat)
    requires Refines(s, Fencing.After(events)) && k <= |picked|
    requires Picks(s.cases, at, picked)
    ensures var f := Fencing.After(events + Fencing.Claims(picked[..k], worker, at, expiresAt));
      Refines(ClaimAll(s, picked[..k], worker, expiresAt), f)
    decreases k
  {
    hide Refines, Fencing.After, Eligible;
    var claims := Fencing.Claims(picked[..k], worker, at, expiresAt);
    if k == 0 {
      assert events + claims == events;
    } else {
      var earlier := Fencing.Claims(picked[..k - 1], worker, at, expiresAt);
      var id := picked[k - 1];
      assert events + claims == events + earlier + [Fencing.Claim(id, worker, at, expiresAt)];
      ClaimsRefine(s, events, picked, worker, at, expiresAt, k - 1);
      Fencing.OneMore(events + earlier, Fencing.Claim(id, worker, at, expiresAt));
      assert picked[..k][..k - 1] == picked[..k - 1];
      ClaimAllShape(s, picked[..k - 1], worker, expiresAt);
      assert id !in picked[..k - 1];
      ClaimRefines(ClaimAll(s, picked[..k - 1], worker, expiresAt), Fencing.After(events + earlier), id, worker, at, expiresAt);
    }
  }

  lemma HeldSettleRefines(s: State, f: Fencing.Fence, worker: Worker, settings: Settings)
    requires Refines(s, f) && worker.batch != [] && worker.verdict.Some?
    requires HoldsClaim(s.cases, worker.batch[0].id, worker.name, worker.batch[0].token)
    requires worker.batch[0].token !in f.settled
    ensures
      var c := worker.batch[0];
      var final := worker.verdict.value.Seen? || c.attempts >= settings.maxAttempts;
      Refines(Settled(s, worker, settings), Fencing.Next(f, Fencing.Settle(c.id, worker.name, c.token, final)))
  {
    hide Refines, RetryDelay, Resolve, Retry, Fencing.Next;
    var c := worker.batch[0];
    match worker.verdict.value
    case Seen(outcome, code) => ResolveRefines(s, f, c.id, worker.name, c.token, outcome, worker.now, code);
    case Broken(error) =>
      if c.attempts >= settings.maxAttempts {
        ResolveRefines(s, f, c.id, worker.name, c.token, EvidenceInconsistent, worker.now, "EVIDENCE_UNAVAILABLE");
      } else {
        RetryRefines(s, f, c.id, worker.name, c.token, worker.now + RetryDelay(settings.retryBase, c.attempts), error);
      }
  }

  /** A claim is held in the table exactly when its lease is held in the protocol. */
  lemma SameHolder(s: State, f: Fencing.Fence, id: nat, worker: string, token: nat)
    requires Refines(s, f)
    ensures HoldsClaim(s.cases, id, worker, token) <==> Fencing.Holds(f, id, worker, token)
  {
    hide AuditTells, LeasesOf, KeysUnique;
    if id < |s.cases| {
      assert f.slots[id] == SlotOf(s.cases[id]);
    }
  }

  lemma HeldIsUnsettled(events: seq<Fencing.Event>, id: nat, worker: string, token: nat)
    requires Fencing.Holds(Fencing.After(events), id, worker, token)
    ensures token !in Fencing.After(events).settled
  {
    Fencing.EveryRunKeepsInv(events);
    assert Fencing.SlotTells(Fencing.After(events), id);
  }

  lemma SettleRefines(w: World, pid: nat, fence: seq<Fencing.Event>, settings: Settings)
    requires Refines(w.table, Fencing.After(fence))
    ensures Refines(ReconciliationRuns.Next(w, Settle(pid), settings).table,
                    Fencing.After(fence + FenceSteps(w, Settle(pid), settings)))
  {
    hide Refines, Settled, HoldsClaim, Fencing.After;
    if pid !in w.workers || w.workers[pid].batch == [] || w.workers[pid].verdict.None? {
      assert fence + [] == fence;
    } else {
      var worker := w.workers[pid];
      var c, f := worker.batch[0], Fencing.After(fence);
      var final := worker.verdict.value.Seen? || c.attempts >= settings.maxAttempts;
      Fencing.OneMore(fence, Fencing.Settle(c.id, worker.name, c.token, final));
      SameHolder(w.table, f, c.id, worker.name, c.token);
      if HoldsClaim(w.table.cases, c.id, worker.name, c.token) {
        HeldIsUnsettled(fence, c.id, worker.name, c.token);
        HeldSettleRefines(w.table, f, worker, settings);
      }
    }
  }

  lemma StepRefines(w: World, step: Step, fence: seq<Fencing.Event>, settings: Settings)
    requires Refines(w.table, Fencing.After(fence))
    ensures Refines(ReconciliationRuns.Next(w, step, settings).table, Fencing.After(fence + FenceSteps(w, step, settings)))
  {
    hide Refines, Fencing.After, ClaimAll;
    assert fence + [] == fence;
    match step
    case Claim(pid, name, at, lease, limit, locked, picked) =>
      if pid !in w.workers && Selection(w.table.cases, at, limit, locked, picked) {
        ClaimsRefine(w.table, fence, picked, name, at, at + lease, |picked|);
        assert picked[..|picked|] == picked;
        if picked == [] {
          assert Fencing.Claims(picked, name, at, at + lease) == [];
        }
      }
    case Report(claim, at) =>
      if !OperationKnown(w.table.cases, claim.operationId) {
        Fencing.OneMore(fence, Fencing.Add);
        GrantsOnRows(fence);
        OpenRefines(w.table, Fencing.After(fence), claim, at);
      }
    case Settle(pid) => SettleRefines(w, pid, fence, settings);
    case _ =>
  }

  lemma GrantsOnRows(events: seq<Fencing.Event>)
    ensures var f := Fencing.After(events); forall t :: 0 <= t < |f.grants| ==> f.grants[t].row < |f.slots|
  {
    Fencing.EveryRunKeepsInv(events);
  }

  lemma NothingToFence()
    ensures Refines(EMPTY_STATE, Fencing.After([]))
  {
  }

  /** Every run of reconciliation, whatever its workers' clocks read, is a run of the fencing protocol:
      whatever holds of all fenced runs holds of its cases. */
  lemma {:induction false} CasesAreFenced(steps: seq<Step>, settings: Settings)
    ensures Refines(After(steps, settings).table, Fencing.After(FenceEvents(steps, settings)))
  {
    hide Refines, Fencing.After, ReconciliationRuns.Next, FenceSteps;
    if steps == [] {
      NothingToFence();
    } else {
      var before, step := steps[..|steps| - 1], steps[|steps| - 1];
      CasesAreFenced(before, settings);
      StepRefines(After(before, settings), step, FenceEvents(before, settings), settings);
    }
  }

  /** In every run: a case's attempts are the leases it was granted, its claim columns match its
      status, and no audit key is ever written twice, so recording an event can never fail. */
  lemma AttemptsCountLeases(steps: seq<Step>, settings: Settings, i: nat)
    requires i < |After(steps, settings).table.cases|
    ensures var s, f := After(steps, settings).table, Fencing.After(FenceEvents(steps, settings));
      && s.cases[i].attempts == LeasesOf(f.grants, i)
      && ClaimFieldsMatch(s.cases[i])
      && (forall j, k :: 0 <= j < k < |s.events| ==> s.events[j] != s.events[k])
  {
    CasesAreFenced(steps, settings);
    hide After, Fencing.After, FenceEvents, AuditTells;
  }

  /** A worker settles its case exactly when it presents the case's newest token, for the first
      time, under the name it was granted to. */
  lemma OnlyNewestTokenSettles(steps: seq<Step>, settings: Settings, id: nat, worker: string, token: nat)
    ensures var s, f := After(steps, settings).table, Fencing.After(FenceEvents(steps, settings));
      HoldsClaim(s.cases, id, worker, token) <==>
        && Fencing.Newest(f.grants, token) && token !in f.settled
        && f.grants[token].row == id && f.grants[token].worker == worker
  {
    CasesAreFenced(steps, settings);
    var events := FenceEvents(steps, settings);
    var s, f := After(steps, settings).table, Fencing.After(events);
    Fencing.OnlyNewestUnsettledTokenSettles(events, id, worker, token, true);
    hide After, Fencing.After, FenceEvents, Refines;
    SameHolder(s, f, id, worker, token);
    assert Fencing.Holds(f, id, worker, token) ==>
      |Fencing.Next(f, Fencing.Settle(id, worker, token, true)).settled| == |f.settled| + 1;
  }
}
