/** What the trace runtime accepts, refuses and writes, case by case, and what that keeps of every run:
    one trace id a run, one message terminal a run, and after a run's end only word from the domain,
    the outbox and reconciliation (trace/runtime.py). */
module TraceFacts {
  import opened Domain
  import opened TraceRuntime
  import Projection
  import RepairStore

  predicate Known(t: Trace, key: Key) {
    exists k :: 0 <= k < |t.events| && t.events[k].key == key
  }

  lemma KnownIsFound(t: Trace, key: Key)
    ensures FindEvent(t.events, key).Some? <==> Known(t, key)
    ensures Known(t, key) ==> FindEvent(t.events, key).value in t.events && FindEvent(t.events, key).value.key == key
  {
    var found := FindEvent(t.events, key);
    if Known(t, key) {
      var k :| 0 <= k < |t.events| && t.events[k].key == key;
      assert t.events[k] in t.events;
    }
    if found.Some? {
      var k :| 0 <= k < |t.events| && t.events[k] == found.value;
      assert t.events[k].key == key;
    }
  }

  // ----- Starting -----

  /** A run starts once, under a trace id no other run has. */
  lemma StartsCaseByCase(t: Trace, c: StartCommand)
    ensures
      var (n, answer) := Start(t, c);
      if c.runId in t.runs then n == t && answer == Returned(t.runs[c.runId])
      else if Known(t, RunKey(c.runId, RunStarted)) || exists id :: id in t.runs && t.runs[id].traceId == c.traceId then
        n == t && answer == Raised(ConstraintViolated)
      else
        var run := AgentRun(c.threadId, c.traceId, Running, 1, c.startedAt, None, None, None, NoAction, None, None);
        && answer == Returned(run) && n.runs == t.runs[c.runId := run]
        && n.events == t.events + [TraceEvent(RunKey(c.runId, RunStarted), Some(c.runId), c.threadId, c.traceId, Some(1),
                                              Agent, RunStarted, c.startedAt)]
  {
    KnownIsFound(t, RunKey(c.runId, RunStarted));
    hide FindEvent, Known;
  }

  // ----- Appending -----

  /** A second message terminal for the run. */
  predicate SecondTerminal(t: Trace, c: AppendCommand, id: Id) {
    && c.kind.MessageTerminal?
    && exists k :: 0 <= k < |t.events| && t.events[k].runId == Some(id) && t.events[k].kind.MessageTerminal?
  }

  /** An append under a known key is answered with what is stored there. A new one is refused for an
      unknown run, for a lifecycle event, for a run that has ended unless it comes from the domain, the
      outbox or reconciliation, and as a second message terminal; otherwise it is numbered next. */
  lemma AppendsCaseByCase(t: Trace, c: AppendCommand)
    ensures
      var (n, answer) := Append(t, c);
      if Known(t, c.key) then n == t && answer.Returned? && answer.value in t.events && answer.value.key == c.key
      else if c.runId.None? then
        var event := TraceEvent(c.key, None, c.threadId, c.traceId, None, c.source, c.kind, c.occurredAt);
        answer == Returned(event) && n == Trace(t.runs, t.events + [event])
      else
        var id := c.runId.value;
        if id !in t.runs then n == t && answer == Raised(RunNotFound)
        else if c.kind.Lifecycle? then n == t && answer == Raised(LifecycleReserved)
        else if t.runs[id].status != Running && (c.source == Api || c.source == Agent || c.source == Mcp || c.source == ReplaySource)
        then n == t && answer == Raised(RunClosed)
        else if SecondTerminal(t, c, id) then n == t && answer == Raised(ConstraintViolated)
        else
          var run := t.runs[id];
          var event := TraceEvent(c.key, Some(id), run.threadId, run.traceId, Some(run.lastSequence + 1), c.source, c.kind,
                                  c.occurredAt);
          && answer == Returned(event)
          && n == Trace(t.runs[id := run.(lastSequence := run.lastSequence + 1)], t.events + [event])
  {
    KnownIsFound(t, c.key);
    hide FindEvent, Known;
  }

  // ----- Finishing -----

  /** A running run ends once, as it is told; a repeat of the same end is answered with the run. */
  lemma FinishesCaseByCase(t: Trace, c: FinishCommand)
    ensures
      var (n, answer) := Finish(t, c);
      if c.status == Running then n == t && answer == Raised(NotTerminal)
      else if c.runId !in t.runs then n == t && answer == Raised(RunNotFound)
      else
        var run := t.runs[c.runId];
        if run.status == c.status then n == t && answer == Returned(run)
        else if run.status != Running then n == t && answer == Raised(FinishedOtherwise)
        else if Known(t, RunKey(c.runId, Lifecycle(c.status))) then n == t && answer == Raised(ConstraintViolated)
        else
          var well := c.status == Finished || c.status == Interrupted;
          var ended := AgentRun(run.threadId, run.traceId, c.status, run.lastSequence + 1, run.startedAt, Some(c.occurredAt),
                                Some(Lifecycle(c.status)), Some(if well then MessageCompleted else MessageFailed),
                                if well then NoAction else Retry, c.finalIntentVersion, c.errorCode);
          && answer == Returned(ended) && n.runs == t.runs[c.runId := ended]
          && n.events == t.events + [TraceEvent(RunKey(c.runId, Lifecycle(c.status)), Some(c.runId), run.threadId, run.traceId,
                                                Some(run.lastSequence + 1), Agent, Lifecycle(c.status), c.occurredAt)]
  {
    KnownIsFound(t, RunKey(c.runId, Lifecycle(c.status)));
    hide FindEvent, Known;
  }

  // ----- Every run -----

  ghost predicate OneTraceIdEach(t: Trace) {
    forall i, j :: i in t.runs && j in t.runs && t.runs[i].traceId == t.runs[j].traceId ==> i == j
  }

  ghost predicate OneMessageEach(t: Trace) {
    forall j, k :: 0 <= j < k < |t.events| && t.events[j].runId.Some? && t.events[j].runId == t.events[k].runId ==>
      !(t.events[j].kind.MessageTerminal? && t.events[k].kind.MessageTerminal?)
  }

  /** A run starts and ends in the agent's own words, and goes on after its end only in others'. */
  ghost predicate SpokenFor(t: Trace) {
    forall k :: 0 <= k < |t.events| && t.events[k].runId.Some? ==>
      && t.events[k].runId.value in t.runs
      && (t.events[k].kind.Lifecycle? ==> t.events[k].source == Agent && t.runs[t.events[k].runId.value].status != Running)
      && forall l :: k < l < |t.events| && t.events[l].runId == t.events[k].runId && t.events[k].kind.Lifecycle? ==>
           t.events[l].source in {DomainSource, OutboxSource, ReconciliationSource}
  }

  lemma NextKeepsOneEach(t: Trace, c: Call)
    requires OneTraceIdEach(t) && OneMessageEach(t) && SpokenFor(t)
    requires forall k :: 0 <= k < |t.events| && t.events[k].runId.Some? ==> t.events[k].runId.value in t.runs
    ensures OneTraceIdEach(Next(t, c)) && OneMessageEach(Next(t, c)) && SpokenFor(Next(t, c))
  {
    match c
    case StartCall(x) =>
      StartsCaseByCase(t, x);
      hide Start, Known;
    case AppendCall(x) =>
      AppendsCaseByCase(t, x);
      hide Append, Known;
    case FinishCall(x) =>
      FinishesCaseByCase(t, x);
      hide Finish, Known;
  }

  lemma {:induction false} EveryTraceTellsOneEach(calls: seq<Call>)
    ensures OneTraceIdEach(After(calls)) && OneMessageEach(After(calls)) && SpokenFor(After(calls))
  {
    hide Next;
    if calls != [] {
      hide OneTraceIdEach, OneMessageEach;
      EveryTraceTellsOneEach(calls[..|calls| - 1]);
      NextKeepsOneEach(After(calls[..|calls| - 1]), calls[|calls| - 1]);
    }
  }

  // ----- What the outbox says -----

  /** A domain event is told in its own words: under its own key, for its own run, thread, trace and
      time, from the domain. */
  lemma ProjectionsTell(a: RepairStore.DomainEvent, b: RepairStore.DomainEvent)
    ensures
      var c := Projection.Projected(a);
      && c.runId == a.runId && c.threadId == a.threadId && c.traceId == a.traceId && c.occurredAt == a.occurredAt
      && c.source == DomainSource
      && c.kind == Other(if a.kind == RepairStore.TicketCreated then "domain_ticket_created"
                         else if a.kind == RepairStore.TicketStatusChanged then "domain_ticket_status_changed"
                         else if a.kind == RepairStore.AppointmentBooked then "domain_appointment_booked"
                         else if a.kind == RepairStore.AppointmentRescheduled then "domain_appointment_rescheduled"
                         else "domain_ticket_escalated")
    ensures Projection.Projected(a).key == Projection.Projected(b).key <==>
      a.kind == b.kind && a.aggregateId == b.aggregateId && a.aggregateVersion == b.aggregateVersion && a.operationId == b.operationId
  {
  }
}
