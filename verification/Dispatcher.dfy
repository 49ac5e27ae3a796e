/** One pass of a dispatching worker, as it runs (outbox/dispatcher.py). */
module Dispatcher {
  import opened Outbox
  import opened Projection
  import TraceRuntime

  function WorldOf(table: OutboxTable, runtime: TraceRuntime.Runtime, workers: map<nat, Projection.Worker>): World
    reads table, runtime
  {
    World(table.Contents(), runtime.Contents(), workers)
  }

  /** The steps of delivering and acknowledging one claimed row. */
  function Handling(pid: nat, at: real): seq<Step> {
    [Deliver(pid, NoFault), Acknowledge(pid, at)]
  }

  lemma TwoMore(w: World, steps: seq<Step>, a: Step, b: Step, settings: Settings)
    ensures RunFrom(w, steps + [a, b], settings) == Projection.Next(Projection.Next(RunFrom(w, steps, settings), a, settings), b, settings)
  {
    hide Projection.Next;
    assert (steps + [a, b])[..|steps| + 1] == steps + [a];
    assert (steps + [a])[..|steps|] == steps;
  }

  lemma ClaimStep(w: World, step: Step, batch: seq<Claimed>, settings: Settings)
    requires step.Claim? && w.workers == map[]
    requires |batch| == |Pick(w.outbox.rows, step.at, step.locked, step.limit)|
    requires forall k :: 0 <= k < |batch| ==>
      var id := Pick(w.outbox.rows, step.at, step.locked, step.limit)[k];
      id < |w.outbox.rows| && batch[k] == Claimed(id, w.outbox.tokens + k, w.outbox.rows[id].event, w.outbox.rows[id].attempts)
    ensures Projection.Next(w, step, settings)
         == World(ClaimAll(w.outbox, Pick(w.outbox.rows, step.at, step.locked, step.limit), step.name, step.at + step.lease),
                  w.trace, if batch == [] then map[] else map[step.pid := Busy(step.name, batch, ToDeliver)])
  {
    hide Pick;
    PickedAreRows(w.outbox.rows, step.at, step.locked, step.limit);
    var picked := Pick(w.outbox.rows, step.at, step.locked, step.limit);
    assert batch == ClaimedBy(w.outbox.rows, picked, w.outbox.tokens);
  }

  lemma HandlingSteps(w: World, pid: nat, name: string, batch: seq<Claimed>, at: real, settings: Settings)
    requires w.workers == map[pid := Busy(name, batch, ToDeliver)] && batch != []
    ensures
      var c, rows := batch[0], w.outbox.rows;
      var (trace, answer) := TraceRuntime.Append(w.trace, Projected(c.event));
      Projection.Next(Projection.Next(w, Deliver(pid, NoFault), settings), Acknowledge(pid, at), settings)
        == if HoldsClaim(rows, c.id, name, c.token) then
             World(w.outbox.(rows := rows[c.id := if answer.Returned? then DispatchedRow(rows[c.id], at)
                                                  else FailedRow(rows[c.id], at, "consumer delivery failed", settings)]),
                   trace, if |batch| == 1 then map[] else map[pid := Busy(name, batch[1..], ToDeliver)])
           else World(w.outbox, trace, map[])
  {
    hide TraceRuntime.Append, FailedRow, DispatchedRow, Projected;
  }

  /** An undisturbed pass claims a batch and then delivers and acknowledges its rows one by one,
      until the batch is done or a lease turns out to be lost. It is a run of the dispatch
      protocol: `steps` are its steps. */
  method DispatchOnce(table: OutboxTable, runtime: TraceRuntime.Runtime, ghost pid: nat, name: string,
                      clock: nat -> real, leaseSeconds: real, batchSize: nat, locked: set<nat>, settings: Settings)
    returns (handled: nat, leaseLost: bool, ghost steps: seq<Step>)
    modifies table, runtime
    ensures WorldOf(table, runtime, map[]) == RunFrom(old(WorldOf(table, runtime, map[])), steps, settings)
    ensures handled <= |Pick(old(table.rows), clock(0), locked, batchSize)|
    ensures !leaseLost ==> handled == |Pick(old(table.rows), clock(0), locked, batchSize)|
    ensures |steps| == 1 + 2 * (if leaseLost then handled + 1 else handled)
    ensures steps[0] == Claim(pid, name, clock(0), leaseSeconds, batchSize, locked)
  {
    hide Projection.Next, Pick, ClaimAll, TraceRuntime.Append, FailedRow, DispatchedRow, Projected;
    ghost var start := WorldOf(table, runtime, map[]);
    var batch := table.ClaimBatch(name, clock(0), leaseSeconds, batchSize, locked);
    steps := [Claim(pid, name, clock(0), leaseSeconds, batchSize, locked)];
    handled, leaseLost := 0, false;
    assert steps[..0] == [] && batch[0..] == batch;
    ClaimStep(start, steps[0], batch, settings);
    while handled < |batch|
      invariant handled <= |batch| && |steps| == 1 + 2 * handled
      invariant steps[0] == Claim(pid, name, clock(0), leaseSeconds, batchSize, locked)
      invariant RunFrom(start, steps, settings)
        == WorldOf(table, runtime, if handled == |batch| then map[] else map[pid := Busy(name, batch[handled..], ToDeliver)])
    {
      var c := batch[handled];
      ghost var before := WorldOf(table, runtime, map[pid := Busy(name, batch[handled..], ToDeliver)]);
      var delivered := runtime.AppendEvent(Projected(c.event));
      var at := clock(handled + 1);
      var acknowledged;
      if delivered.Returned? {
        acknowledged := table.MarkDispatched(c.id, name, c.token, at);
      } else {
        var status := table.MarkFailed(c.id, name, c.token, at, "consumer delivery failed", settings);
        acknowledged := status.Some?;
      }
      HandlingSteps(before, pid, name, batch[handled..], at, settings);
      assert batch[handled..][1..] == batch[handled + 1..];
      TwoMore(start, steps, Deliver(pid, NoFault), Acknowledge(pid, at), settings);
      steps := steps + Handling(pid, at);
      if !acknowledged {
        leaseLost := true;
        return;
      }
      handled := handled + 1;
    }
  }
}
