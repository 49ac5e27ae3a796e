/** One bounded pass of a reconciliation worker, as it runs (reconciliation/worker.py). */
module ReconciliationWorker {
  import opened Domain
  import opened Reconciliation
  import opened ReconciliationRuns
  import Evidence
  import Execution
  import RepairRuns
  import RepairStore

  lemma TwoMore(w: World, steps: seq<Step>, a: Step, b: Step, settings: Settings)
    ensures RunFrom(w, steps + [a, b], settings)
         == ReconciliationRuns.Next(ReconciliationRuns.Next(RunFrom(w, steps, settings), a, settings), b, settings)
  {
    hide ReconciliationRuns.Next;
    assert (steps + [a, b])[..|steps| + 1] == steps + [a];
    assert (steps + [a])[..|steps|] == steps;
  }

  lemma ClaimStep(w: World, step: Step, batch: seq<Claimed>, settings: Settings)
    requires step.Claim? && w.workers == map[] && Selection(w.table.cases, step.at, step.limit, step.locked, step.picked)
    requires |batch| == |step.picked|
    requires forall k :: 0 <= k < |batch| ==>
      var id := step.picked[k];
      batch[k] == Claimed(id, w.table.tokens + k, w.table.cases[id].claim, w.table.cases[id].attempts + 1)
    ensures ReconciliationRuns.Next(w, step, settings)
         == World(w.calls, ClaimAll(w.table, step.picked, step.name, step.at + step.lease),
                  if batch == [] then map[] else map[step.pid := Busy(step.name, step.at, batch, None)])
  {
    assert batch == ClaimedBy(w.table, step.picked);
  }

  /** Asking and settling the head of a batch. */
  lemma HandlingSteps(w: World, pid: nat, name: string, now: real, batch: seq<Claimed>,
                      dir: RepairStore.Directory, broken: bool, settings: Settings)
    requires w.workers == map[pid := Busy(name, now, batch, None)] && batch != []
    ensures
      var c := batch[0];
      var verdict := if broken then Broken("EVIDENCE_QUERY_FAILED") else Ask(w.calls, dir, c.claim);
      ReconciliationRuns.Next(ReconciliationRuns.Next(w, Query(pid, dir, broken), settings), Settle(pid), settings)
        == if HoldsClaim(w.table.cases, c.id, name, c.token) then
             World(w.calls, Settled(w.table, Busy(name, now, batch, Some(verdict)), settings),
                   if |batch| == 1 then map[] else map[pid := Busy(name, now, batch[1..], None)])
           else World(w.calls, w.table, map[])
  {
    hide Ask, Settled;
  }

  /** A pass that is not killed claims the selected cases and settles them one by one: by the
      evidence, by a retry when the evidence cannot be had, or by manual review when it could not
      be had on the last attempt; it stops when a lease turns out to be lost. It is a run of the
      reconciliation protocol: `steps` are its steps. */
  method RunOnce(table: CaseTable, ghost calls: seq<RepairRuns.Call>, store: Execution.Store,
                 dir: RepairStore.Directory, ghost pid: nat, name: string, now: real, leaseSeconds: real,
                 limit: nat, locked: set<nat>, picked: seq<nat>, broken: nat -> bool, settings: Settings)
    returns (handled: nat, leaseLost: bool, ghost steps: seq<Step>)
    requires store == Execution.After(calls)
    requires Selection(table.cases, now, limit, locked, picked)
    modifies table
    ensures World(calls, table.Contents(), map[]) == RunFrom(World(calls, old(table.Contents()), map[]), steps, settings)
    ensures handled <= |picked| && (!leaseLost ==> handled == |picked|)
    ensures |steps| == 1 + 2 * (if leaseLost then handled + 1 else handled)
    ensures steps[0] == Claim(pid, name, now, leaseSeconds, limit, locked, picked)
  {
    hide ReconciliationRuns.Next, ClaimAll, Ask, AskStore, Settled, Execution.After;
    ghost var start := World(calls, table.Contents(), map[]);
    var batch := table.ClaimBatch(name, now, leaseSeconds, limit, locked, picked);
    steps := [Claim(pid, name, now, leaseSeconds, limit, locked, picked)];
    handled, leaseLost := 0, false;
    assert steps[..0] == [] && batch[0..] == batch;
    ClaimStep(start, steps[0], batch, settings);
    while handled < |batch|
      invariant handled <= |batch| == |picked| && |steps| == 1 + 2 * handled
      invariant steps[0] == Claim(pid, name, now, leaseSeconds, limit, locked, picked)
      invariant RunFrom(start, steps, settings)
        == World(calls, table.Contents(),
                 if handled == |batch| then map[] else map[pid := Busy(name, now, batch[handled..], None)])
    {
      var c := batch[handled];
      ghost var before := World(calls, table.Contents(), map[pid := Busy(name, now, batch[handled..], None)]);
      HandlingSteps(before, pid, name, now, batch[handled..], dir, broken(handled), settings);
      assert batch[handled..][1..] == batch[handled + 1..];
      TwoMore(start, steps, Query(pid, dir, broken(handled)), Settle(pid), settings);
      var verdict := if broken(handled) then Broken("EVIDENCE_QUERY_FAILED") else AskStore(store, dir, c.claim);
      SettledCases(table.Contents(), Busy(name, now, batch[handled..], Some(verdict)), settings);
      AskReadsStore(calls, store, dir, c.claim);
      var settled;
      match verdict {
        case Seen(outcome, code) =>
          settled := table.ResolveCase(c, name, outcome, now, code);
        case Broken(error) =>
          if c.attempts >= settings.maxAttempts {
            settled := table.ResolveCase(c, name, EvidenceInconsistent, now, "EVIDENCE_UNAVAILABLE");
          } else {
            settled := table.RetryCase(c, name, now + RetryDelay(settings.retryBase, c.attempts), error);
          }
      }
      steps := steps + [Query(pid, dir, broken(handled)), Settle(pid)];
      if !settled {
        leaseLost := true;
        return;
      }
      handled := handled + 1;
    }
  }

  lemma AskReadsStore(calls: seq<RepairRuns.Call>, store: Execution.Store, dir: RepairStore.Directory, claim: Evidence.Claim)
    requires store == Execution.After(calls)
    ensures Ask(calls, dir, claim) == AskStore(store, dir, claim)
  {
  }

  lemma SettledCases(s: State, worker: Worker, settings: Settings)
    requires worker.batch != [] && worker.verdict.Some?
    ensures
      var c := worker.batch[0];
      c.id < |s.cases| ==>
        Settled(s, worker, settings)
          == match worker.verdict.value
             case Seen(outcome, code) => Resolve(s, c.id, outcome, worker.now, code)
             case Broken(error) =>
               if c.attempts >= settings.maxAttempts
               then Resolve(s, c.id, EvidenceInconsistent, worker.now, "EVIDENCE_UNAVAILABLE")
               else Retry(s, c.id, c.token, worker.now + RetryDelay(settings.retryBase, c.attempts), error)
  {
  }
}
