/** Reconciliation against a live repair store: commands commit while workers claim cases, ask for
    evidence, settle, crash and lose leases, in any order. */
module ReconciliationRuns {
  import opened Domain
  import opened Reconciliation
  import Evidence
  import Execution
  import RepairRuns
  import RepairStore
  import Commands

  /** What the worker learnt about the case at the head of its batch. */
  datatype Verdict = Seen(outcome: EvidenceStatus, code: string) | Broken(error: string)

  datatype Worker = Busy(name: string, now: real, batch: seq<Claimed>, verdict: Option<Verdict>)

  datatype World = World(calls: seq<RepairRuns.Call>, table: State, workers: map<nat, Worker>)

  const EMPTY_WORLD := World([], EMPTY_STATE, map[])

  datatype Step =
    | Execute(call: RepairRuns.Call)
    | Report(claim: Evidence.Claim, at: real)
    | Claim(pid: nat, name: string, at: real, lease: real, limit: nat, locked: set<nat>, picked: seq<nat>)
    | Query(pid: nat, dir: RepairStore.Directory, broken: bool)
    | Settle(pid: nat)
    | Crash(pid: nat)

  /** What an evidence query over the store tells the worker. */
  function AskStore(store: Execution.Store, dir: RepairStore.Directory, claim: Evidence.Claim): Verdict {
    match Evidence.OperationOutcome(store, dir, claim)
    case Denied => Broken("PERMISSION_DENIED")
    case NotCommitted => Seen(EvidenceNotCommitted, "AUTHORITATIVE_ABSENCE")
    case Inconsistent => Seen(EvidenceInconsistent, "EVIDENCE_CONFLICT")
    case CommittedAs(_, _) => Seen(EvidenceCommitted, "DURABLE_EVIDENCE_MATCHED")
  }

  function Ask(calls: seq<RepairRuns.Call>, dir: RepairStore.Directory, claim: Evidence.Claim): Verdict {
    AskStore(Execution.After(calls), dir, claim)
  }

  function ClaimedBy(s: State, picked: seq<nat>): seq<Claimed>
    requires forall k :: 0 <= k < |picked| ==> picked[k] < |s.cases|
  {
    seq(|picked|, k requires 0 <= k < |picked| =>
      Claimed(picked[k], s.tokens + k, s.cases[picked[k]].claim, s.cases[picked[k]].attempts + 1))
  }

  /** The rest of the batch, once its head is settled. */
  function Forward(workers: map<nat, Worker>, pid: nat): map<nat, Worker>
    requires pid in workers && workers[pid].batch != []
  {
    var w := workers[pid];
    if |w.batch| == 1 then workers - {pid} else workers[pid := w.(batch := w.batch[1..], verdict := None)]
  }

  function Next(w: World, step: Step, settings: Settings): World {
    match step
    case Execute(call) => w.(calls := w.calls + [call])
    case Report(claim, at) => w.(table := OpenCase(w.table, claim, at))
    case Claim(pid, name, at, lease, limit, locked, picked) =>
      if pid in w.workers || picked == [] || !Selection(w.table.cases, at, limit, locked, picked) then w
      else
        World(w.calls, ClaimAll(w.table, picked, name, at + lease),
              w.workers[pid := Busy(name, at, ClaimedBy(w.table, picked), None)])
    case Query(pid, dir, broken) =>
      if pid !in w.workers || w.workers[pid].batch == [] || w.workers[pid].verdict.Some? then w
      else
        var verdict := if broken then Broken("EVIDENCE_QUERY_FAILED") else Ask(w.calls, dir, w.workers[pid].batch[0].claim);
        w.(workers := w.workers[pid := w.workers[pid].(verdict := Some(verdict))])
    case Settle(pid) =>
      if pid !in w.workers || w.workers[pid].batch == [] || w.workers[pid].verdict.None? then w
      else
        var worker := w.workers[pid];
        var c := worker.batch[0];
        if !HoldsClaim(w.table.cases, c.id, worker.name, c.token) then w.(workers := w.workers - {pid})
        else
          World(w.calls, Settled(w.table, worker, settings), Forward(w.workers, pid))
    case Crash(pid) => w.(workers := w.workers - {pid})
  }

  /** How the head of a worker's batch is settled under a claim that still holds. */
  function Settled(s: State, worker: Worker, settings: Settings): State
    requires worker.batch != [] && worker.verdict.Some? && worker.batch[0].id < |s.cases|
  {
    var c := worker.batch[0];
    match worker.verdict.value
    case Seen(outcome, code) => Resolve(s, c.id, outcome, worker.now, code)
    case Broken(error) =>
      if c.attempts >= settings.maxAttempts then
        Resolve(s, c.id, EvidenceInconsistent, worker.now, "EVIDENCE_UNAVAILABLE")
      else
        Retry(s, c.id, c.token, worker.now + RetryDelay(settings.retryBase, c.attempts), error)
  }

  function RunFrom(w: World, steps: seq<Step>, settings: Settings): World {
    if steps == [] then w
    else Next(RunFrom(w, steps[..|steps| - 1], settings), steps[|steps| - 1], settings)
  }

  function After(steps: seq<Step>, settings: Settings): World {
    RunFrom(EMPTY_WORLD, steps, settings)
  }

  // ----- What a verdict is worth -----

  /** Some committed call is the claimed one. */
  ghost predicate Confirmed(calls: seq<RepairRuns.Call>, claim: Evidence.Claim) {
    exists k :: 0 <= k < |Execution.Committed(calls)| && Fits(Execution.Committed(calls)[k].command, claim)
  }

  predicate Fits(command: Commands.Command, claim: Evidence.Claim) {
    && command.OperationId() == claim.operationId && command.Scope() == Evidence.ScopeOf(claim.action)
    && command.Meta().actorType == claim.actorType && command.Meta().actorId == claim.actorId
    && command.Digest() == claim.digest
  }

  lemma AskIsHonest(calls: seq<RepairRuns.Call>, dir: RepairStore.Directory, claim: Evidence.Claim)
    ensures var v := Ask(calls, dir, claim);
      && (v.Seen? && v.outcome == EvidenceCommitted ==> Confirmed(calls, claim))
      && (v.Seen? && v.outcome == EvidenceNotCommitted ==> !Evidence.CommittedOperation(calls, claim.operationId))
  {
    var v := Evidence.OperationOutcome(Execution.After(calls), dir, claim);
    hide Execution.After, Execution.Committed, Evidence.Matches, Execution.ResultOf, Evidence.CommittedOperation;
    if v.CommittedAs? {
      Evidence.CommittedIsSound(calls, dir, claim);
      var committed := Execution.Committed(calls);
      var k :| 0 <= k < |committed| && Evidence.Vouches(committed, k, claim, v);
      assert Fits(committed[k].command, claim);
    } else if v == Evidence.NotCommitted {
      Evidence.AbsenceIsAuthoritative(calls, dir, claim);
    }
  }

  lemma ConfirmedStays(calls: seq<RepairRuns.Call>, call: RepairRuns.Call, claim: Evidence.Claim)
    requires Confirmed(calls, claim)
    ensures Confirmed(calls + [call], claim)
  {
    hide Execution.Commits, Fits, Execution.After;
    assert (calls + [call])[..|calls|] == calls;
    var k :| 0 <= k < |Execution.Committed(calls)| && Fits(Execution.Committed(calls)[k].command, claim);
    assert Execution.Committed(calls + [call])[k] == Execution.Committed(calls)[k];
  }

  lemma {:induction false} ConfirmedGrows(calls: seq<RepairRuns.Call>, more: seq<RepairRuns.Call>, claim: Evidence.Claim)
    requires Confirmed(calls, claim) && calls <= more
    ensures Confirmed(more, claim)
    decreases |more|
  {
    hide Confirmed;
    if calls != more {
      var last := |more| - 1;
      ConfirmedGrows(calls, more[..last], claim);
      ConfirmedStays(more[..last], more[last], claim);
      assert more[..last] + [more[last]] == more;
    }
  }

  // ----- The invariant -----

  /** A case carries its evidence once it is settled, and not before. */
  predicate CaseTells(c: Case) {
    if c.status in {Pending, Processing} then c.resolvedAt.None? && c.evidence.None?
    else c.resolvedAt.Some? && c.evidence.Some? && c.status == ResolvedStatus(c.evidence.value)
  }

  /** A worker's batch carries the claims of its cases. */
  predicate WorkerTells(w: World, worker: Worker) {
    forall k :: 0 <= k < |worker.batch| ==>
      worker.batch[k].id < |w.table.cases| && worker.batch[k].claim == w.table.cases[worker.batch[k].id].claim
  }

  predicate Inv(w: World) {
    && (forall i :: 0 <= i < |w.table.cases| ==> CaseTells(w.table.cases[i]))
    && (forall pid :: pid in w.workers ==> WorkerTells(w, w.workers[pid]))
    && (forall i, j :: 0 <= i < j < |w.table.cases| ==>
          w.table.cases[i].claim.operationId != w.table.cases[j].claim.operationId)
  }

  predicate SettledCase(c: Case) { c.status !in {Pending, Processing} }

  lemma {:induction false} ClaimAllShape(s: State, picked: seq<nat>, worker: string, expiresAt: real)
    ensures var n := ClaimAll(s, picked, worker, expiresAt);
      && |n.cases| == |s.cases|
      && ((forall k :: 0 <= k < |picked| ==> picked[k] < |s.cases|) ==> n.tokens == s.tokens + |picked|)
      && (forall i :: 0 <= i < |s.cases| ==>
            && n.cases[i].claim == s.cases[i].claim && n.cases[i].resolvedAt == s.cases[i].resolvedAt
            && n.cases[i].evidence == s.cases[i].evidence
            && (n.cases[i] == s.cases[i]
                || (i in picked && n.cases[i].status == Processing && n.cases[i].claimExpiresAt == Some(expiresAt))))
  {
    if picked != [] {
      ClaimAllShape(s, picked[..|picked| - 1], worker, expiresAt);
    }
  }

  /** The case at the head of worker `pid`'s batch is settled by this step, on what the worker saw. */
  predicate SettlesNow(w: World, step: Step, i: nat) {
    && step.Settle? && step.pid in w.workers
    && var worker := w.workers[step.pid];
    && worker.batch != [] && worker.verdict.Some? && worker.batch[0].id == i
    && HoldsClaim(w.table.cases, i, worker.name, worker.batch[0].token)
  }

  /** What one step does to one case. */
  lemma NextCase(w: World, step: Step, settings: Settings, i: nat)
    requires i < |w.table.cases|
    ensures i < |Next(w, step, settings).table.cases|
    ensures
      var c, n := w.table.cases[i], Next(w, step, settings).table.cases[i];
      && n.claim == c.claim
      && (n == c
          || (step.Claim? && !SettledCase(c) && n.status == Processing && n.resolvedAt == c.resolvedAt && n.evidence == c.evidence)
          || (SettlesNow(w, step, i)
              && n == Settled(w.table, w.workers[step.pid], settings).cases[i]))
  {
    hide Settled, ClaimAll, Execution.After, Ask, RetryDelay;
    match step
    case Claim(pid, name, at, lease, limit, locked, picked) =>
      ClaimAllShape(w.table, picked, name, at + lease);
      if i in picked && Selection(w.table.cases, at, limit, locked, picked) {
        var k :| 0 <= k < |picked| && picked[k] == i;
        assert Eligible(w.table.cases[picked[k]], at);
      }
    case Settle(pid) =>
      if pid in w.workers && w.workers[pid].batch != [] && w.workers[pid].verdict.Some?
        && HoldsClaim(w.table.cases, w.workers[pid].batch[0].id, w.workers[pid].name, w.workers[pid].batch[0].token) {
        SettledShape(w.table, w.workers[pid], settings);
      }
    case _ =>
  }

  /** Settling the head of a batch touches its case alone. */
  lemma SettledShape(s: State, worker: Worker, settings: Settings)
    requires worker.batch != [] && worker.verdict.Some? && worker.batch[0].id < |s.cases|
    ensures
      var n, id := Settled(s, worker, settings), worker.batch[0].id;
      && |n.cases| == |s.cases| && n.cases[id].claim == s.cases[id].claim
      && (CaseTells(s.cases[id]) && s.cases[id].status == Processing ==> CaseTells(n.cases[id]))
      && (match worker.verdict.value
          case Seen(outcome, _) => n.cases[id].status == ResolvedStatus(outcome)
          case Broken(_) => n.cases[id].status in {Pending, ManualReview})
      && (forall i :: 0 <= i < |s.cases| && i != id ==> n.cases[i] == s.cases[i])
  {
    hide RetryDelay;
  }

  /** What one step does to one worker. */
  lemma NextWorker(w: World, step: Step, settings: Settings, pid: nat)
    requires pid in Next(w, step, settings).workers
    ensures
      var n := Next(w, step, settings).workers[pid];
      || (pid in w.workers && n == w.workers[pid])
      || n.verdict.None?
      || (step.Query? && step.pid == pid && pid in w.workers && w.workers[pid].batch != []
          && w.workers[pid].verdict.None? && n == w.workers[pid].(verdict := n.verdict)
          && (n.verdict.value.Seen? ==>
                !step.broken && n.verdict.value == Ask(w.calls, step.dir, w.workers[pid].batch[0].claim)))
  {
    hide Settled, ClaimAll, Ask, RetryDelay, OpenCase;
  }

  lemma NextCasesTell(w: World, step: Step, settings: Settings)
    requires Inv(w)
    ensures var n := Next(w, step, settings); forall i :: 0 <= i < |n.table.cases| ==> CaseTells(n.table.cases[i])
  {
    var n := Next(w, step, settings);
    forall i | 0 <= i < |n.table.cases| ensures CaseTells(n.table.cases[i]) {
      if i < |w.table.cases| {
        NextCase(w, step, settings, i);
        hide Next, Settled;
        if SettlesNow(w, step, i) {
          SettledShape(w.table, w.workers[step.pid], settings);
        }
      } else {
        NewCases(w, step, settings);
      }
    }
  }

  /** Only a report adds a case: one, about an operation no case was about. */
  lemma NewCases(w: World, step: Step, settings: Settings)
    ensures var n := Next(w, step, settings);
      && |w.table.cases| <= |n.table.cases| <= |w.table.cases| + 1
      && (|n.table.cases| > |w.table.cases| ==>
            && step.Report? && n.table.cases[|w.table.cases|] == NewCase(step.claim, step.at)
            && !OperationKnown(w.table.cases, step.claim.operationId))
  {
    hide Settled, ClaimAll, Ask, RetryDelay;
    if step.Claim? {
      ClaimAllShape(w.table, step.picked, step.name, step.at + step.lease);
    } else if step.Settle? && step.pid in w.workers && w.workers[step.pid].batch != []
      && w.workers[step.pid].verdict.Some? && w.workers[step.pid].batch[0].id < |w.table.cases| {
      SettledShape(w.table, w.workers[step.pid], settings);
    }
  }

  lemma NextOperationsDiffer(w: World, step: Step, settings: Settings)
    requires Inv(w)
    ensures var cases := Next(w, step, settings).table.cases;
      forall i, j :: 0 <= i < j < |cases| ==> cases[i].claim.operationId != cases[j].claim.operationId
  {
    var cases := Next(w, step, settings).table.cases;
    NewCases(w, step, settings);
    hide Next, CaseTells, WorkerTells;
    forall i, j | 0 <= i < j < |cases| ensures cases[i].claim.operationId != cases[j].claim.operationId {
      NextCase(w, step, settings, i);
      if j < |w.table.cases| {
        NextCase(w, step, settings, j);
      }
    }
  }

  /** Where a worker's batch comes from: it had it, it had one case more, or the step claimed it. */
  lemma NextBatch(w: World, step: Step, settings: Settings, pid: nat)
    requires pid in Next(w, step, settings).workers
    ensures
      var n := Next(w, step, settings).workers[pid];
      || (pid in w.workers && n.now == w.workers[pid].now && n.name == w.workers[pid].name
          && (n.batch == w.workers[pid].batch || (w.workers[pid].batch != [] && n.batch == w.workers[pid].batch[1..])))
      || (step.Claim? && step.pid == pid && pid !in w.workers && Selection(w.table.cases, step.at, step.limit, step.locked, step.picked)
          && step.picked != [] && n == Busy(step.name, step.at, ClaimedBy(w.table, step.picked), None))
  {
    hide Settled, ClaimAll, Ask, RetryDelay, OpenCase;
  }

  lemma NextWorkersTell(w: World, step: Step, settings: Settings)
    requires Inv(w)
    ensures var n := Next(w, step, settings); forall pid :: pid in n.workers ==> WorkerTells(n, n.workers[pid])
  {
    var n := Next(w, step, settings);
    hide Next;
    forall pid | pid in n.workers ensures WorkerTells(n, n.workers[pid]) {
      NextBatch(w, step, settings, pid);
      forall k | 0 <= k < |n.workers[pid].batch|
        ensures n.workers[pid].batch[k].id < |n.table.cases|
             && n.workers[pid].batch[k].claim == n.table.cases[n.workers[pid].batch[k].id].claim
      {
        if pid in w.workers {
          assert WorkerTells(w, w.workers[pid]);
        }
        NextCase(w, step, settings, n.workers[pid].batch[k].id);
      }
    }
  }

  lemma {:induction false} EveryRunKeepsInv(steps: seq<Step>, settings: Settings)
    ensures Inv(After(steps, settings))
  {
    hide Next;
    if steps != [] {
      hide CaseTells, WorkerTells;
      var w, step := After(steps[..|steps| - 1], settings), steps[|steps| - 1];
      EveryRunKeepsInv(steps[..|steps| - 1], settings);
      NextCasesTell(w, step, settings);
      NextWorkersTell(w, step, settings);
      NextOperationsDiffer(w, step, settings);
    }
  }

  // ----- What a resolution rests on -----

  /** Step `q` is the evidence query that gave the worker its verdict: the store it asked is the one
      of that very moment. */
  ghost predicate AskedAt(steps: seq<Step>, settings: Settings, pid: nat, worker: Worker, q: nat) {
    && q < |steps| && steps[q].Query? && steps[q].pid == pid && !steps[q].broken && worker.batch != []
    && var w := After(steps[..q], settings);
    && pid in w.workers && w.workers[pid] == worker.(verdict := None)
    && worker.verdict == Some(Ask(w.calls, steps[q].dir, worker.batch[0].claim))
  }

  /** Step `r` settled case `i`, under a claim that still held, on what query `q` had seen. */
  ghost predicate SettledOn(steps: seq<Step>, settings: Settings, i: nat, claim: Evidence.Claim, outcome: EvidenceStatus,
                            q: nat, r: nat)
  {
    && q < r < |steps|
    && var w := After(steps[..r], settings);
    && SettlesNow(w, steps[r], i)
    && var worker := w.workers[steps[r].pid];
    && AskedAt(steps[..r], settings, steps[r].pid, worker, q)
    && worker.verdict.value.Seen? && worker.verdict.value.outcome == outcome && worker.batch[0].claim == claim
  }

  predicate HasSeen(worker: Worker) {
    worker.batch != [] && worker.verdict.Some? && worker.verdict.value.Seen?
  }

  ghost predicate VerdictsAsked(steps: seq<Step>, settings: Settings) {
    var w := After(steps, settings);
    forall pid :: pid in w.workers && HasSeen(w.workers[pid]) ==>
      exists q: nat :: AskedAt(steps, settings, pid, w.workers[pid], q)
  }

  lemma AskedStays(steps: seq<Step>, settings: Settings, step: Step, pid: nat, worker: Worker, q: nat)
    requires AskedAt(steps, settings, pid, worker, q)
    ensures AskedAt(steps + [step], settings, pid, worker, q)
  {
    hide After, Ask;
    assert (steps + [step])[..q] == steps[..q];
  }

  lemma {:induction false} EveryVerdictWasAsked(steps: seq<Step>, settings: Settings)
    ensures VerdictsAsked(steps, settings)
  {
    hide Next, AskedAt;
    if steps != [] {
      var last := |steps| - 1;
      var w, n, step := After(steps[..last], settings), After(steps, settings), steps[last];
      EveryVerdictWasAsked(steps[..last], settings);
      assert steps[..last] + [step] == steps;
      forall pid | pid in n.workers && HasSeen(n.workers[pid])
        ensures exists q: nat :: AskedAt(steps, settings, pid, n.workers[pid], q)
      {
        VerdictNext(steps[..last], settings, step, pid);
      }
    }
  }

  lemma VerdictNext(steps: seq<Step>, settings: Settings, step: Step, pid: nat)
    requires VerdictsAsked(steps, settings)
    requires var n := Next(After(steps, settings), step, settings);
      pid in n.workers && HasSeen(n.workers[pid])
    ensures exists q: nat :: AskedAt(steps + [step], settings, pid, Next(After(steps, settings), step, settings).workers[pid], q)
  {
    var w := After(steps, settings);
    var worker := Next(w, step, settings).workers[pid];
    NextWorker(w, step, settings, pid);
    hide Next, After, Ask;
    if pid in w.workers && worker == w.workers[pid] {
      hide AskedAt;
      var q: nat :| AskedAt(steps, settings, pid, worker, q);
      AskedStays(steps, settings, step, pid, worker, q);
    } else {
      assert (steps + [step])[..|steps|] == steps;
      assert AskedAt(steps + [step], settings, pid, worker, |steps|);
    }
  }

  /** The evidence a settled case was settled on, unless it was handed over for review. */
  predicate Decided(c: Case, outcome: EvidenceStatus) {
    outcome != EvidenceInconsistent && c.status == ResolvedStatus(outcome)
  }

  lemma SettledStays(steps: seq<Step>, settings: Settings, step: Step, i: nat, claim: Evidence.Claim,
                     outcome: EvidenceStatus, q: nat, r: nat)
    requires SettledOn(steps, settings, i, claim, outcome, q, r)
    ensures SettledOn(steps + [step], settings, i, claim, outcome, q, r)
  {
    hide After, Ask, AskedAt, HoldsClaim;
    assert (steps + [step])[..r] == steps[..r];
  }

  /** Every resolution but a hand-over was made by one settlement, on what one query saw. */
  lemma {:induction false} ResolutionRestsOnAQuery(steps: seq<Step>, settings: Settings, i: nat, outcome: EvidenceStatus)
    requires i < |After(steps, settings).table.cases| && Decided(After(steps, settings).table.cases[i], outcome)
    ensures exists q: nat, r: nat :: SettledOn(steps, settings, i, After(steps, settings).table.cases[i].claim, outcome, q, r)
  {
    hide Next, SettledOn;
    if steps != [] {
      var last := |steps| - 1;
      var before, step := steps[..last], steps[last];
      var w := After(before, settings);
      assert before + [step] == steps && After(steps, settings) == Next(w, step, settings);
      NewCases(w, step, settings);
      if i < |w.table.cases| {
        NextCase(w, step, settings, i);
        if Decided(w.table.cases[i], outcome) {
          ResolutionRestsOnAQuery(before, settings, i, outcome);
          var q: nat, r: nat :| SettledOn(before, settings, i, w.table.cases[i].claim, outcome, q, r);
          SettledStays(before, settings, step, i, w.table.cases[i].claim, outcome, q, r);
        } else {
          SettlingStep(before, settings, step, i, outcome);
        }
      }
    }
  }

  lemma SettlingStep(steps: seq<Step>, settings: Settings, step: Step, i: nat, outcome: EvidenceStatus)
    requires var w := After(steps, settings);
      i < |w.table.cases| && SettlesNow(w, step, i)
      && i < |Settled(w.table, w.workers[step.pid], settings).cases|
      && Decided(Settled(w.table, w.workers[step.pid], settings).cases[i], outcome)
    ensures exists q: nat, r: nat :: SettledOn(steps + [step], settings, i, After(steps, settings).table.cases[i].claim, outcome, q, r)
  {
    hide Settled, After, AskedAt, HoldsClaim, CaseTells, Ask, Next;
    var w := After(steps, settings);
    var worker := w.workers[step.pid];
    SettledShape(w.table, worker, settings);
    EveryVerdictWasAsked(steps, settings);
    EveryRunKeepsInv(steps, settings);
    assert WorkerTells(w, worker) && HasSeen(worker);
    var q: nat :| AskedAt(steps, settings, step.pid, worker, q);
    QueryComesBefore(steps, settings, step.pid, worker, q);
    assert (steps + [step])[..|steps|] == steps && (steps + [step])[|steps|] == step;
    assert SettledOn(steps + [step], settings, i, w.table.cases[i].claim, outcome, q, |steps|);
  }

  lemma QueryComesBefore(steps: seq<Step>, settings: Settings, pid: nat, worker: Worker, q: nat)
    requires AskedAt(steps, settings, pid, worker, q)
    ensures q < |steps|
  {
  }

  lemma {:induction false} CallsOnlyGrow(steps: seq<Step>, settings: Settings, q: nat)
    requires q <= |steps|
    ensures After(steps[..q], settings).calls <= After(steps, settings).calls
    decreases |steps|
  {
    if q == |steps| {
      assert steps[..q] == steps;
    } else {
      CallsOnlyGrow(steps[..|steps| - 1], settings, q);
      assert steps[..|steps| - 1][..q] == steps[..q];
    }
  }

  /** Whatever interleaves, each case resolved as committed or as not committed was settled, under a
      claim that still held, on what one evidence query had seen. A case resolved as committed names
      an operation that had committed by the moment of that query, with the case's scope, actor and
      fingerprint, and so has committed still; one resolved as not committed names an operation of
      which no call had committed by the moment of that query. Every operation has at most one
      case. */
  lemma ResolutionsAreSound(steps: seq<Step>, settings: Settings, i: nat)
    requires i < |After(steps, settings).table.cases|
    ensures var w, c := After(steps, settings), After(steps, settings).table.cases[i];
      && (c.status == ResolvedCommitted ==>
            && Confirmed(w.calls, c.claim)
            && exists q: nat, r: nat :: SettledOn(steps, settings, i, c.claim, EvidenceCommitted, q, r)
                              && Confirmed(After(steps[..q], settings).calls, c.claim))
      && (c.status == ResolvedNotCommitted ==>
            exists q: nat, r: nat :: SettledOn(steps, settings, i, c.claim, EvidenceNotCommitted, q, r)
                           && !Evidence.CommittedOperation(After(steps[..q], settings).calls, c.claim.operationId))
      && (forall j :: 0 <= j < |w.table.cases| && w.table.cases[j].claim.operationId == c.claim.operationId ==> j == i)
  {
    hide After, Confirmed, SettledOn, Evidence.CommittedOperation, CaseTells, WorkerTells, Ask, Next;
    EveryRunKeepsInv(steps, settings);
    var w := After(steps, settings);
    var c := w.table.cases[i];
    if c.status == ResolvedCommitted {
      var q, r := ResolutionIsHonest(steps, settings, i, EvidenceCommitted);
      CallsOnlyGrow(steps, settings, q);
      ConfirmedGrows(After(steps[..q], settings).calls, w.calls, c.claim);
    } else if c.status == ResolvedNotCommitted {
      var q, r := ResolutionIsHonest(steps, settings, i, EvidenceNotCommitted);
    }
  }

  lemma ResolutionIsHonest(steps: seq<Step>, settings: Settings, i: nat, outcome: EvidenceStatus) returns (q: nat, r: nat)
    requires i < |After(steps, settings).table.cases| && Decided(After(steps, settings).table.cases[i], outcome)
    ensures q <= |steps| && SettledOn(steps, settings, i, After(steps, settings).table.cases[i].claim, outcome, q, r)
    ensures outcome == EvidenceCommitted ==>
      Confirmed(After(steps[..q], settings).calls, After(steps, settings).table.cases[i].claim)
    ensures outcome == EvidenceNotCommitted ==>
      !Evidence.CommittedOperation(After(steps[..q], settings).calls, After(steps, settings).table.cases[i].claim.operationId)
  {
    hide After, Confirmed, SettledOn, Evidence.CommittedOperation, Ask;
    var claim := After(steps, settings).table.cases[i].claim;
    ResolutionRestsOnAQuery(steps, settings, i, outcome);
    q, r :| SettledOn(steps, settings, i, claim, outcome, q, r);
    SettledIsHonest(steps, settings, i, claim, outcome, q, r);
  }

  lemma SettledIsHonest(steps: seq<Step>, settings: Settings, i: nat, claim: Evidence.Claim, outcome: EvidenceStatus, q: nat, r: nat)
    requires SettledOn(steps, settings, i, claim, outcome, q, r)
    ensures q <= |steps|
    ensures outcome == EvidenceCommitted ==> Confirmed(After(steps[..q], settings).calls, claim)
    ensures outcome == EvidenceNotCommitted ==>
      !Evidence.CommittedOperation(After(steps[..q], settings).calls, claim.operationId)
  {
    hide After, Confirmed, Evidence.CommittedOperation, Ask, HoldsClaim;
    assert steps[..r][..q] == steps[..q];
    AskIsHonest(After(steps[..q], settings).calls, steps[q].dir, claim);
  }

  // ----- Settled cases -----

  /** A case resolved either way, or handed over for review, never changes again. */
  lemma {:induction false} ResolvedCasesNeverChange(steps: seq<Step>, more: seq<Step>, settings: Settings, i: nat)
    requires i < |After(steps, settings).table.cases| && SettledCase(After(steps, settings).table.cases[i])
    ensures i < |After(steps + more, settings).table.cases|
    ensures After(steps + more, settings).table.cases[i] == After(steps, settings).table.cases[i]
  {
    hide Next;
    if more == [] {
      assert steps + more == steps;
    } else {
      var last := |more| - 1;
      var all := steps + more;
      assert all[..|all| - 1] == steps + more[..last] && all[|all| - 1] == more[last];
      ResolvedCasesNeverChange(steps, more[..last], settings, i);
      NextCase(After(steps + more[..last], settings), more[last], settings, i);
    }
  }
}
