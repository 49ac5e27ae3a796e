/** At-least-once dispatch of the outbox into an idempotent trace: workers claim, deliver and
    acknowledge, and may crash or lose their lease between any two steps (outbox/dispatcher.py,
    outbox/consumer.py). */
module Projection {
  import opened Outbox
  import RepairStore
  import OutboxRuns
  import TraceRuntime

  /** A worker in the middle of a batch; its name may be shared with other workers. */
  datatype Stage = ToDeliver | ToAcknowledge(delivered: bool)

  datatype Worker = Busy(name: string, batch: seq<Claimed>, stage: Stage)

  datatype World = World(outbox: State, trace: TraceRuntime.Trace, workers: map<nat, Worker>)

  const EMPTY_WORLD := World(State([], 0), TraceRuntime.EMPTY_TRACE, map[])

  /** Where a delivery breaks: nowhere, before its transaction commits, or after. */
  datatype Fault = NoFault | BeforeWrite | AfterWrite

  datatype Step =
    | Publish(event: RepairStore.DomainEvent, at: real)
    | OtherTrace(call: TraceRuntime.Call)
    | Claim(pid: nat, name: string, at: real, lease: real, limit: nat, locked: set<nat>)
    | Deliver(pid: nat, fault: Fault)
    | Acknowledge(pid: nat, at: real)
    | Crash(pid: nat)

  function TraceKey(event: RepairStore.DomainEvent): TraceRuntime.Key {
    TraceRuntime.OutboxKey(event.EventKey())
  }

  function TraceEventName(kind: RepairStore.DomainEventType): string {
    match kind
    case TicketCreated => "domain_ticket_created"
    case TicketStatusChanged => "domain_ticket_status_changed"
    case AppointmentBooked => "domain_appointment_booked"
    case AppointmentRescheduled => "domain_appointment_rescheduled"
    case TicketEscalated => "domain_ticket_escalated"
  }

  /** The trace event a domain event is projected to. */
  function Projected(event: RepairStore.DomainEvent): TraceRuntime.AppendCommand {
    TraceRuntime.AppendCommand(TraceKey(event), event.runId, event.threadId, event.traceId,
                               TraceRuntime.DomainSource, TraceRuntime.Other(TraceEventName(event.kind)), event.occurredAt)
  }

  predicate KeyPublished(rows: seq<Row>, event: RepairStore.DomainEvent) {
    exists i :: 0 <= i < |rows| && rows[i].event.EventKey() == event.EventKey()
  }

  /** Outbox keys are written by the projector alone. */
  predicate LeavesOutboxKeysAlone(call: TraceRuntime.Call) {
    call.AppendCall? ==> !call.append.key.OutboxKey?
  }

  function ClaimedBy(rows: seq<Row>, picked: seq<nat>, token: nat): seq<Claimed>
    requires forall k :: 0 <= k < |picked| ==> picked[k] < |rows|
  {
    seq(|picked|, k requires 0 <= k < |picked| =>
      Claimed(picked[k], token + k, rows[picked[k]].event, rows[picked[k]].attempts))
  }

  /** The worker's next stop after an acknowledgement that held: the rest of its batch. */
  function Forward(workers: map<nat, Worker>, pid: nat): map<nat, Worker>
    requires pid in workers && workers[pid].batch != []
  {
    var w := workers[pid];
    if |w.batch| == 1 then workers - {pid} else workers[pid := Busy(w.name, w.batch[1..], ToDeliver)]
  }

  function Next(w: World, step: Step, settings: Settings): World {
    match step
    case Publish(event, at) =>
      if KeyPublished(w.outbox.rows, event) then w
      else w.(outbox := OutboxRuns.Next(w.outbox, OutboxRuns.Publish(event, at), settings))
    case OtherTrace(call) =>
      if LeavesOutboxKeysAlone(call) then w.(trace := TraceRuntime.Next(w.trace, call)) else w
    case Claim(pid, name, at, lease, limit, locked) =>
      var picked := Pick(w.outbox.rows, at, locked, limit);
      PickedAreRows(w.outbox.rows, at, locked, limit);
      if pid in w.workers || picked == [] then w
      else
        World(OutboxRuns.Next(w.outbox, OutboxRuns.ClaimBatch(name, at, lease, limit, locked), settings), w.trace,
              w.workers[pid := Busy(name, ClaimedBy(w.outbox.rows, picked, w.outbox.tokens), ToDeliver)])
    case Deliver(pid, fault) =>
      if pid !in w.workers || w.workers[pid].batch == [] || w.workers[pid].stage != ToDeliver then w
      else
        var worker := w.workers[pid];
        var (trace, answer) := TraceRuntime.Append(w.trace, Projected(worker.batch[0].event));
        World(w.outbox, if fault == BeforeWrite then w.trace else trace,
              w.workers[pid := worker.(stage := ToAcknowledge(fault == NoFault && answer.Returned?))])
    case Acknowledge(pid, at) =>
      if pid !in w.workers || w.workers[pid].batch == [] || !w.workers[pid].stage.ToAcknowledge? then w
      else
        var worker := w.workers[pid];
        var c := worker.batch[0];
        if !HoldsClaim(w.outbox.rows, c.id, worker.name, c.token) then w.(workers := w.workers - {pid})
        else
          var ack := if worker.stage.delivered then OutboxRuns.Dispatch(c.id, worker.name, c.token, at)
                     else OutboxRuns.Fail(c.id, worker.name, c.token, at, "consumer delivery failed");
          World(OutboxRuns.Next(w.outbox, ack, settings), w.trace, Forward(w.workers, pid))
    case Crash(pid) => w.(workers := w.workers - {pid})
  }

  function RunFrom(w: World, steps: seq<Step>, settings: Settings): World {
    if steps == [] then w
    else Next(RunFrom(w, steps[..|steps| - 1], settings), steps[|steps| - 1], settings)
  }

  function After(steps: seq<Step>, settings: Settings): World {
    RunFrom(EMPTY_WORLD, steps, settings)
  }

  // ----- The invariant -----

  predicate Traced(t: TraceRuntime.Trace, event: RepairStore.DomainEvent) {
    exists k :: 0 <= k < |t.events| && t.events[k].key == TraceKey(event)
  }

  ghost predicate WorkerTells(w: World, worker: Worker) {
    && (forall k :: 0 <= k < |worker.batch| ==>
          worker.batch[k].id < |w.outbox.rows| && worker.batch[k].event == w.outbox.rows[worker.batch[k].id].event)
    && (worker.batch != [] && worker.stage == ToAcknowledge(true) ==> Traced(w.trace, worker.batch[0].event))
  }

  ghost predicate RowsDistinct(rows: seq<Row>) {
    forall i, j :: 0 <= i < j < |rows| ==> rows[i].event.EventKey() != rows[j].event.EventKey()
  }

  ghost predicate DispatchedTraced(rows: seq<Row>, t: TraceRuntime.Trace) {
    forall i :: 0 <= i < |rows| && rows[i].status == Dispatched ==> Traced(t, rows[i].event)
  }

  /** Every trace event under an outbox key is the projection of an outbox row. */
  ghost predicate TracedPublished(rows: seq<Row>, t: TraceRuntime.Trace) {
    forall k :: 0 <= k < |t.events| && t.events[k].key.OutboxKey? ==>
      exists i :: 0 <= i < |rows| && t.events[k].key == TraceKey(rows[i].event)
  }

  ghost predicate Inv(w: World) {
    && TraceRuntime.KeysUnique(w.trace.events)
    && RowsDistinct(w.outbox.rows)
    && DispatchedTraced(w.outbox.rows, w.trace)
    && TracedPublished(w.outbox.rows, w.trace)
    && (forall pid :: pid in w.workers ==> WorkerTells(w, w.workers[pid]))
  }

  /** The trace only grows, and stays free of repeated keys. */
  lemma TraceGrows(t: TraceRuntime.Trace, call: TraceRuntime.Call)
    requires TraceRuntime.KeysUnique(t.events)
    ensures var n := TraceRuntime.Next(t, call);
      && t.events <= n.events && TraceRuntime.KeysUnique(n.events)
      && |n.events| <= |t.events| + 1
      && (LeavesOutboxKeysAlone(call) && |n.events| > |t.events| ==> !n.events[|t.events|].key.OutboxKey?)
  {
  }

  lemma StillTraced(t: TraceRuntime.Trace, n: TraceRuntime.Trace, event: RepairStore.DomainEvent)
    requires Traced(t, event) && t.events <= n.events
    ensures Traced(n, event)
  {
    var k :| 0 <= k < |t.events| && t.events[k].key == TraceKey(event);
    assert n.events[k].key == TraceKey(event);
  }

  /** What a changed world must show to keep the invariant. */
  lemma Kept(w: World, n: World)
    requires Inv(w)
    requires w.trace.events <= n.trace.events && TraceRuntime.KeysUnique(n.trace.events)
    requires |w.outbox.rows| <= |n.outbox.rows| && RowsDistinct(n.outbox.rows)
    requires forall i :: 0 <= i < |w.outbox.rows| ==> n.outbox.rows[i].event == w.outbox.rows[i].event
    requires forall i :: 0 <= i < |n.outbox.rows| && n.outbox.rows[i].status == Dispatched ==>
      (i < |w.outbox.rows| && w.outbox.rows[i].status == Dispatched) || Traced(n.trace, n.outbox.rows[i].event)
    requires TracedPublished(n.outbox.rows, n.trace)
    requires forall pid :: pid in n.workers ==> (pid in w.workers && n.workers[pid] == w.workers[pid]) || WorkerTells(n, n.workers[pid])
    ensures Inv(n)
  {
    forall i | 0 <= i < |n.outbox.rows| && n.outbox.rows[i].status == Dispatched
      ensures Traced(n.trace, n.outbox.rows[i].event)
    {
      if i < |w.outbox.rows| && w.outbox.rows[i].status == Dispatched {
        StillTraced(w.trace, n.trace, w.outbox.rows[i].event);
      }
    }
    forall pid | pid in n.workers ensures WorkerTells(n, n.workers[pid]) {
      if pid in w.workers && n.workers[pid] == w.workers[pid] {
        var worker := w.workers[pid];
        assert WorkerTells(w, worker);
        if worker.batch != [] && worker.stage == ToAcknowledge(true) {
          StillTraced(w.trace, n.trace, worker.batch[0].event);
        }
      }
    }
  }

  // ----- Preservation, step by step -----

  lemma PublishKeepsInv(w: World, event: RepairStore.DomainEvent, at: real, settings: Settings)
    requires Inv(w)
    ensures Inv(Next(w, Publish(event, at), settings))
  {
    var n := Next(w, Publish(event, at), settings);
    if !KeyPublished(w.outbox.rows, event) {
      forall k | 0 <= k < |n.trace.events| && n.trace.events[k].key.OutboxKey?
        ensures exists i :: 0 <= i < |n.outbox.rows| && n.trace.events[k].key == TraceKey(n.outbox.rows[i].event)
      {
        var i :| 0 <= i < |w.outbox.rows| && w.trace.events[k].key == TraceKey(w.outbox.rows[i].event);
        assert n.outbox.rows[i] == w.outbox.rows[i];
      }
      hide Traced, TraceKey;
      Kept(w, n);
    }
  }

  lemma OtherTraceKeepsInv(w: World, call: TraceRuntime.Call, settings: Settings)
    requires Inv(w)
    ensures Inv(Next(w, OtherTrace(call), settings))
  {
    hide TraceRuntime.Next, Traced;
    if LeavesOutboxKeysAlone(call) {
      TraceGrows(w.trace, call);
      Kept(w, Next(w, OtherTrace(call), settings));
    }
  }

  /** A claim hands a worker rows as they stand and dispatches nothing. */
  lemma ClaimChanges(w: World, step: Step, settings: Settings)
    requires step.Claim?
    ensures var n := Next(w, step, settings);
      && n.trace == w.trace && |n.outbox.rows| == |w.outbox.rows|
      && (forall i :: 0 <= i < |w.outbox.rows| ==>
            && n.outbox.rows[i].event == w.outbox.rows[i].event
            && (n.outbox.rows[i].status == Dispatched ==> w.outbox.rows[i].status == Dispatched))
      && (forall pid :: pid in n.workers ==>
            || (pid in w.workers && n.workers[pid] == w.workers[pid])
            || (n.workers[pid].stage == ToDeliver
                && forall k :: 0 <= k < |n.workers[pid].batch| ==>
                     var c := n.workers[pid].batch[k];
                     c.id < |w.outbox.rows| && c.event == w.outbox.rows[c.id].event))
  {
    hide Pick, ClaimAll, Eligible;
    var picked := Pick(w.outbox.rows, step.at, step.locked, step.limit);
    PickedAreRows(w.outbox.rows, step.at, step.locked, step.limit);
    ClaimAllShape(w.outbox, picked, step.name, step.at + step.lease);
  }

  lemma ClaimKeepsInv(w: World, step: Step, settings: Settings)
    requires Inv(w) && step.Claim?
    ensures Inv(Next(w, step, settings))
  {
    hide Next, Traced, TraceKey;
    var n := Next(w, step, settings);
    ClaimChanges(w, step, settings);
    TracedRowsStay(w, n);
    Kept(w, n);
  }

  /** Rows that keep their events keep vouching for the trace. */
  lemma TracedRowsStay(w: World, n: World)
    requires TracedPublished(w.outbox.rows, w.trace) && n.trace == w.trace
    requires |w.outbox.rows| == |n.outbox.rows|
    requires forall i :: 0 <= i < |w.outbox.rows| ==> n.outbox.rows[i].event == w.outbox.rows[i].event
    ensures TracedPublished(n.outbox.rows, n.trace)
    ensures RowsDistinct(w.outbox.rows) ==> RowsDistinct(n.outbox.rows)
  {
    forall k | 0 <= k < |n.trace.events| && n.trace.events[k].key.OutboxKey?
      ensures exists i :: 0 <= i < |n.outbox.rows| && n.trace.events[k].key == TraceKey(n.outbox.rows[i].event)
    {
      var i :| 0 <= i < |w.outbox.rows| && w.trace.events[k].key == TraceKey(w.outbox.rows[i].event);
      assert n.outbox.rows[i].event == w.outbox.rows[i].event;
    }
  }

  /** What appending a projected event does: it is traced afterwards whenever the append returns. */
  lemma ProjectionTraces(t: TraceRuntime.Trace, event: RepairStore.DomainEvent)
    requires TraceRuntime.KeysUnique(t.events)
    ensures var (n, answer) := TraceRuntime.Append(t, Projected(event));
      && t.events <= n.events && TraceRuntime.KeysUnique(n.events)
      && |n.events| <= |t.events| + 1
      && (|n.events| > |t.events| ==> n.events[|t.events|].key == TraceKey(event))
      && (answer.Returned? ==> Traced(n, event))
  {
    TraceGrows(t, TraceRuntime.AppendCall(Projected(event)));
    var (n, answer) := TraceRuntime.Append(t, Projected(event));
    if answer.Returned? {
      var existing := TraceRuntime.FindEvent(t.events, TraceKey(event));
      if existing.Some? {
        var k :| 0 <= k < |t.events| && t.events[k] == existing.value;
        assert n.events[k].key == TraceKey(event);
      } else {
        assert n.events[|t.events|].key == TraceKey(event);
      }
    }
  }

  lemma DeliverKeepsInv(w: World, pid: nat, fault: Fault, settings: Settings)
    requires Inv(w)
    ensures Inv(Next(w, Deliver(pid, fault), settings))
  {
    if pid in w.workers && w.workers[pid].batch != [] && w.workers[pid].stage == ToDeliver {
      var worker := w.workers[pid];
      var c := worker.batch[0];
      assert WorkerTells(w, worker);
      ProjectionTraces(w.trace, c.event);
      hide Traced, TraceRuntime.Append, Projected;
      var n := Next(w, Deliver(pid, fault), settings);
      assert n.trace.events == w.trace.events
          || (w.trace.events <= n.trace.events && |n.trace.events| == |w.trace.events| + 1
              && n.trace.events[|w.trace.events|].key == TraceKey(w.outbox.rows[c.id].event));
      assert TracedPublished(n.outbox.rows, n.trace);
      Kept(w, n);
    }
  }

  lemma AcknowledgeKeepsInv(w: World, pid: nat, at: real, settings: Settings)
    requires Inv(w)
    ensures Inv(Next(w, Acknowledge(pid, at), settings))
  {
    hide Traced, FailedRow;
    if pid in w.workers && w.workers[pid].batch != [] && w.workers[pid].stage.ToAcknowledge? {
      var worker := w.workers[pid];
      var n := Next(w, Acknowledge(pid, at), settings);
      assert WorkerTells(w, worker);
      FailedRowShape(w.outbox.rows[worker.batch[0].id], at, "consumer delivery failed", settings);
      TracedRowsStay(w, n);
      if pid in n.workers {
        assert WorkerTells(n, n.workers[pid]);
      }
      Kept(w, n);
    }
  }

  lemma FailedRowShape(row: Row, at: real, error: string, settings: Settings)
    ensures FailedRow(row, at, error, settings).event == row.event
    ensures FailedRow(row, at, error, settings).status in {Pending, DeadLetter}
  {
  }

  lemma NextKeepsInv(w: World, step: Step, settings: Settings)
    requires Inv(w)
    ensures Inv(Next(w, step, settings))
  {
    match step
    case Publish(event, at) => PublishKeepsInv(w, event, at, settings);
    case OtherTrace(call) => OtherTraceKeepsInv(w, call, settings);
    case Claim(_, _, _, _, _, _) => ClaimKeepsInv(w, step, settings);
    case Deliver(pid, fault) => DeliverKeepsInv(w, pid, fault, settings);
    case Acknowledge(pid, at) => AcknowledgeKeepsInv(w, pid, at, settings);
    case Crash(pid) => CrashKeepsInv(w, pid, settings);
  }

  lemma CrashKeepsInv(w: World, pid: nat, settings: Settings)
    requires Inv(w)
    ensures Inv(Next(w, Crash(pid), settings))
  {
    hide Traced;
    Kept(w, Next(w, Crash(pid), settings));
  }

  lemma {:induction false} RunKeepsInv(w: World, steps: seq<Step>, settings: Settings)
    requires Inv(w)
    ensures Inv(RunFrom(w, steps, settings))
  {
    hide Next, Inv;
    if steps != [] {
      RunKeepsInv(w, steps[..|steps| - 1], settings);
      NextKeepsInv(RunFrom(w, steps[..|steps| - 1], settings), steps[|steps| - 1], settings);
    }
  }

  lemma EveryRunKeepsInv(steps: seq<Step>, settings: Settings)
    ensures Inv(After(steps, settings))
  {
    RunKeepsInv(EMPTY_WORLD, steps, settings);
  }

  /** The trace positions stored under a row's key. */
  ghost function Copies(w: World, i: nat): set<nat>
    requires i < |w.outbox.rows|
  {
    set k: nat | k < |w.trace.events| && w.trace.events[k].key == TraceKey(w.outbox.rows[i].event)
  }

  /** Exactly-once projection: whatever crashes between delivery and acknowledgement, whatever
      leases are lost and however often a row is delivered, no outbox row ever has more than one
      trace event, a dispatched row has exactly one, and no two rows share one. */
  lemma EachDispatchedRowIsTracedOnce(steps: seq<Step>, settings: Settings, i: nat)
    requires i < |After(steps, settings).outbox.rows|
    ensures var w := After(steps, settings);
      && |Copies(w, i)| <= 1
      && (w.outbox.rows[i].status == Dispatched ==> |Copies(w, i)| == 1)
      && (forall j: nat :: j < |w.outbox.rows| && j != i ==> Copies(w, j) !! Copies(w, i))
  {
    EveryRunKeepsInv(steps, settings);
    var w := After(steps, settings);
    hide After;
    var copies := Copies(w, i);
    if Traced(w.trace, w.outbox.rows[i].event) {
      var k: nat :| k < |w.trace.events| && w.trace.events[k].key == TraceKey(w.outbox.rows[i].event);
      assert k in copies;
    }
    if k: nat :| k in copies {
      assert copies == {k};
    }
    forall j: nat | j < |w.outbox.rows| && j != i ensures Copies(w, j) !! copies {
      assert w.outbox.rows[j].event.EventKey() != w.outbox.rows[i].event.EventKey();
    }
  }

  /** Nothing is traced under an outbox key that was never published. */
  lemma TracedEventsWerePublished(steps: seq<Step>, settings: Settings, k: nat)
    requires k < |After(steps, settings).trace.events| && After(steps, settings).trace.events[k].key.OutboxKey?
    ensures var w := After(steps, settings);
      exists i :: 0 <= i < |w.outbox.rows| && w.trace.events[k].key == TraceKey(w.outbox.rows[i].event)
  {
    EveryRunKeepsInv(steps, settings);
    assert TracedPublished(After(steps, settings).outbox.rows, After(steps, settings).trace);
    hide After, Inv;
  }
}
