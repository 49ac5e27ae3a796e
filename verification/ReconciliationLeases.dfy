/** Reconciliation leases do not overlap, whatever the workers' clocks read: a retry is scheduled from
    the very reading its claim was made with. */
module ReconciliationLeases {
  import opened Domain
  import opened Reconciliation
  import opened ReconciliationRuns
  import opened ReconciliationFence
  import Fencing

  /** Leases have a length. */
  predicate LeasesLast(steps: seq<Step>) {
    forall k :: 0 <= k < |steps| && steps[k].Claim? ==> steps[k].lease >= 0.0
  }

  /** A case that can be claimed again can be claimed only after every reading made for it. */
  ghost predicate CaseReads(c: Case, grants: seq<Fencing.Grant>, i: nat) {
    && Fencing.ReadInOrder(grants, i)
    && (c.status == Pending ==> Fencing.ReadBy(grants, i, c.availableAt))
    && (c.status == Processing && c.claimExpiresAt.Some? ==> Fencing.ReadBy(grants, i, c.claimExpiresAt.value))
  }

  /** A worker's leases were granted at the reading it works with. */
  ghost predicate WorkerReads(worker: Worker, grants: seq<Fencing.Grant>) {
    forall k :: 0 <= k < |worker.batch| ==>
      worker.batch[k].token < |grants| && grants[worker.batch[k].token].grantedAt == worker.now
  }

  ghost predicate Reads(w: World, grants: seq<Fencing.Grant>) {
    && (forall i :: 0 <= i < |w.table.cases| ==> CaseReads(w.table.cases[i], grants, i))
    && (forall pid :: pid in w.workers ==> WorkerReads(w.workers[pid], grants))
  }

  lemma ClaimedCaseReads(c: Case, next: Case, before: seq<Fencing.Grant>, after: seq<Fencing.Grant>,
                         i: nat, picked: seq<nat>, at: real, expiresAt: real)
    requires CaseReads(c, before, i) && Fencing.GrantedAt(before, after, picked, at) && at <= expiresAt
    requires i in picked ==> Eligible(c, at)
    requires next == c || (i in picked && next.status == Processing && next.claimExpiresAt == Some(expiresAt))
    requires i in picked ==> next.status == Processing && next.claimExpiresAt == Some(expiresAt)
    ensures CaseReads(next, after, i)
  {
    if i in picked {
      assert Fencing.ReadBy(before, i, at);
    }
  }

  lemma {:induction false} PickedAreProcessing(s: State, picked: seq<nat>, worker: string, expiresAt: real)
    requires forall k :: 0 <= k < |picked| ==> picked[k] < |s.cases|
    ensures var n := ClaimAll(s, picked, worker, expiresAt);
      && |n.cases| == |s.cases|
      && forall i: nat :: i in picked ==> n.cases[i].status == Processing && n.cases[i].claimExpiresAt == Some(expiresAt)
  {
    if picked != [] {
      PickedAreProcessing(s, picked[..|picked| - 1], worker, expiresAt);
      assert picked == picked[..|picked| - 1] + [picked[|picked| - 1]];
    }
  }

  lemma ClaimKeepsReads(w: World, step: Step, fence: seq<Fencing.Event>, settings: Settings)
    requires step.Claim? && step.lease >= 0.0 && step.pid !in w.workers && step.picked != []
    requires Selection(w.table.cases, step.at, step.limit, step.locked, step.picked)
    requires Refines(w.table, Fencing.After(fence)) && Reads(w, Fencing.After(fence).grants)
    ensures Reads(Next(w, step, settings), Fencing.After(fence + FenceSteps(w, step, settings)).grants)
  {
    hide Fencing.After, ClaimAll, Fencing.GrantedAt, CaseReads, Fencing.Claims, Eligible, Refines;
    var before, after := Fencing.After(fence).grants, Fencing.After(fence + FenceSteps(w, step, settings)).grants;
    var n, expiresAt := Next(w, step, settings), step.at + step.lease;
    StepRefines(w, step, fence, settings);
    SameTokens(w.table, Fencing.After(fence));
    SameTokens(n.table, Fencing.After(fence + FenceSteps(w, step, settings)));
    ClaimAllShape(w.table, step.picked, step.name, expiresAt);
    PickedAreProcessing(w.table, step.picked, step.name, expiresAt);
    Fencing.ClaimsGrant(fence, step.picked, step.name, step.at, expiresAt);
    forall i | 0 <= i < |n.table.cases| ensures CaseReads(n.table.cases[i], after, i) {
      if i in step.picked {
        var k :| 0 <= k < |step.picked| && step.picked[k] == i;
        assert Eligible(w.table.cases[step.picked[k]], step.at);
      }
      ClaimedCaseReads(w.table.cases[i], n.table.cases[i], before, after, i, step.picked, step.at, expiresAt);
    }
    forall pid | pid in n.workers ensures WorkerReads(n.workers[pid], after) {
      if pid in w.workers {
        assert WorkerReads(w.workers[pid], before);
        GrantsStay(before, after, step.picked, step.at);
      } else {
        NewLeases(before, after, step.picked, step.at, n.workers[pid]);
      }
    }
  }

  lemma GrantsStay(before: seq<Fencing.Grant>, after: seq<Fencing.Grant>, picked: seq<nat>, at: real)
    requires Fencing.GrantedAt(before, after, picked, at)
    ensures before <= after
  {
  }

  lemma NewLeases(before: seq<Fencing.Grant>, after: seq<Fencing.Grant>, picked: seq<nat>, at: real, worker: Worker)
    requires Fencing.GrantedAt(before, after, picked, at) && worker.now == at
    requires forall k :: 0 <= k < |worker.batch| ==> |before| <= worker.batch[k].token < |after|
    ensures WorkerReads(worker, after)
  {
  }

  lemma SameTokens(s: State, f: Fencing.Fence)
    requires Refines(s, f)
    ensures |f.grants| == s.tokens && |f.slots| == |s.cases|
  {
  }

  lemma NonNegativeDelay(base: real, attempts: nat)
    requires base >= 0.0
    ensures RetryDelay(base, attempts) >= 0.0
  {
  }

  /** What one settlement leaves of its case can be claimed only after every reading made for it. */
  lemma SettledReads(w: World, pid: nat, fence: seq<Fencing.Event>, settings: Settings, i: nat)
    requires Refines(w.table, Fencing.After(fence)) && Reads(w, Fencing.After(fence).grants)
    requires i < |w.table.cases| && SettlesNow(w, Settle(pid), i) && settings.retryBase >= 0.0
    ensures i < |Settled(w.table, w.workers[pid], settings).cases|
    ensures CaseReads(Settled(w.table, w.workers[pid], settings).cases[i], Fencing.After(fence).grants, i)
  {
    var f, worker := Fencing.After(fence), w.workers[pid];
    var c := worker.batch[0];
    Fencing.EveryRunKeepsInv(fence);
    SameHolder(w.table, f, i, worker.name, c.token);
    assert Fencing.SlotTells(f, i);
    hide Fencing.After, Refines, RetryDelay, Fencing.Inv;
    assert CaseReads(w.table.cases[i], f.grants, i) && WorkerReads(worker, f.grants);
    assert Fencing.ReadBy(f.grants, i, worker.now) by {
      assert Fencing.Newest(f.grants, c.token);
    }
    NonNegativeDelay(settings.retryBase, c.attempts);
  }

  lemma SettleKeepsReads(w: World, pid: nat, fence: seq<Fencing.Event>, settings: Settings)
    requires Refines(w.table, Fencing.After(fence)) && Reads(w, Fencing.After(fence).grants) && settings.retryBase >= 0.0
    ensures Reads(Next(w, Settle(pid), settings), Fencing.After(fence).grants)
  {
    hide Fencing.After, Refines, CaseReads, Settled, HoldsClaim;
    var n, grants := Next(w, Settle(pid), settings), Fencing.After(fence).grants;
    NewCases(w, Settle(pid), settings);
    forall i | 0 <= i < |n.table.cases| ensures CaseReads(n.table.cases[i], grants, i) {
      hide Next;
      NextCase(w, Settle(pid), settings, i);
      if SettlesNow(w, Settle(pid), i) {
        SettledReads(w, pid, fence, settings, i);
      }
    }
    forall p | p in n.workers ensures WorkerReads(n.workers[p], grants) {
      NextBatch(w, Settle(pid), settings, p);
      hide Next;
      assert WorkerReads(w.workers[p], grants);
    }
  }

  /** A new case has no leases. */
  lemma OpenKeepsReads(w: World, step: Step, fence: seq<Fencing.Event>, settings: Settings)
    requires step.Report? && Refines(w.table, Fencing.After(fence)) && Reads(w, Fencing.After(fence).grants)
    ensures Reads(Next(w, step, settings), Fencing.After(fence).grants)
  {
    hide Fencing.After, Refines;
    GrantsOnRows(fence);
    SameTokens(w.table, Fencing.After(fence));
  }

  lemma SettleGrantsNothing(w: World, step: Step, fence: seq<Fencing.Event>, settings: Settings)
    requires !step.Claim?
    ensures Fencing.After(fence + FenceSteps(w, step, settings)).grants == Fencing.After(fence).grants
  {
    assert fence + [] == fence;
    if FenceSteps(w, step, settings) != [] {
      var e := FenceSteps(w, step, settings)[0];
      assert FenceSteps(w, step, settings) == [e];
      Fencing.OneMore(fence, e);
      hide Fencing.After;
    }
  }

  lemma StepKeepsReads(w: World, step: Step, fence: seq<Fencing.Event>, settings: Settings)
    requires Refines(w.table, Fencing.After(fence)) && Reads(w, Fencing.After(fence).grants)
    requires settings.retryBase >= 0.0 && (step.Claim? ==> step.lease >= 0.0)
    ensures Reads(Next(w, step, settings), Fencing.After(fence + FenceSteps(w, step, settings)).grants)
  {
    hide Fencing.After, Refines, CaseReads, ClaimAll, Settled, Ask, OpenCase;
    match step
    case Claim(pid, name, at, lease, limit, locked, picked) =>
      if pid !in w.workers && picked != [] && Selection(w.table.cases, at, limit, locked, picked) {
        ClaimKeepsReads(w, step, fence, settings);
      } else {
        assert FenceSteps(w, step, settings) == [];
        assert fence + [] == fence;
      }
    case Settle(pid) =>
      SettleGrantsNothing(w, step, fence, settings);
      SettleKeepsReads(w, pid, fence, settings);
    case Report(_, _) =>
      SettleGrantsNothing(w, step, fence, settings);
      OpenKeepsReads(w, step, fence, settings);
    case _ =>
      SettleGrantsNothing(w, step, fence, settings);
      forall p | p in Next(w, step, settings).workers
        ensures WorkerReads(Next(w, step, settings).workers[p], Fencing.After(fence).grants)
      {
        assert WorkerReads(w.workers[p], Fencing.After(fence).grants);
      }
  }

  lemma NothingRead()
    ensures Reads(EMPTY_WORLD, Fencing.After([]).grants)
  {
  }

  lemma {:induction false} EveryRunReads(steps: seq<Step>, settings: Settings)
    requires LeasesLast(steps) && settings.retryBase >= 0.0
    ensures Reads(After(steps, settings), Fencing.After(FenceEvents(steps, settings)).grants)
  {
    hide Reads, Next, FenceSteps, Refines, Fencing.After;
    if steps == [] {
      NothingRead();
    } else {
      var before, step := steps[..|steps| - 1], steps[|steps| - 1];
      EveryRunReads(before, settings);
      CasesAreFenced(before, settings);
      StepKeepsReads(After(before, settings), step, FenceEvents(before, settings), settings);
    }
  }

  /** In every run, however the workers' clocks disagree: two unsettled, unexpired leases never cover
      one case at the same instant. */
  lemma CaseLeasesNeverOverlap(steps: seq<Step>, settings: Settings, i: nat, j: nat, at: real)
    requires LeasesLast(steps) && settings.retryBase >= 0.0
    requires var f := Fencing.After(FenceEvents(steps, settings));
      Fencing.Covers(f, i, at) && Fencing.Covers(f, j, at) && f.grants[i].row == f.grants[j].row
    ensures i == j
  {
    var f := Fencing.After(FenceEvents(steps, settings));
    EveryRunReads(steps, settings);
    CasesAreFenced(steps, settings);
    SameTokens(After(steps, settings).table, f);
    GrantsOnRows(FenceEvents(steps, settings));
    hide After, FenceEvents, Fencing.After;
    assert CaseReads(After(steps, settings).table.cases[f.grants[i].row], f.grants, f.grants[i].row);
    Fencing.LeasesNeverOverlap(FenceEvents(steps, settings), i, j, at);
  }
}
