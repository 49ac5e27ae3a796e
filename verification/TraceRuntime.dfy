/** Agent runs and their trace: starting a run, appending events and finishing it, each in one
    transaction (trace/runtime.py). */
module TraceRuntime {
  import opened Domain
  import opened Rows
  import RepairStore
  import Commands

  datatype RunStatus = Running | Interrupted | Finished | FailedSafe | Failed

  datatype Source = Api | Agent | Mcp | DomainSource | OutboxSource | ReconciliationSource | ReplaySource

  /** Event types: the run's own lifecycle, the message terminals, and every other name. */
  datatype Kind = RunStarted | Lifecycle(status: RunStatus) | MessageTerminal(name: string) | Other(name: string)

  /** Event keys. A digest is injective, so a key is the text it digests. */
  datatype Key =
    | RunKey(runId: Id, kind: Kind)
    | OutboxKey(eventKey: (RepairStore.DomainEventType, Id, int, Commands.OperationId))
    | Text(text: string)

  datatype MessageOutcome = MessageCompleted | MessageFailed
  datatype UserAction = NoAction | Retry

  datatype AgentRun = AgentRun(
    threadId: Option<Id>, traceId: Id, status: RunStatus, lastSequence: int, startedAt: Time,
    finishedAt: Option<Time>, terminal: Option<Kind>, outcome: Option<MessageOutcome>, userAction: UserAction,
    finalIntentVersion: Option<int>, errorCode: Option<string>)

  datatype TraceEvent = TraceEvent(
    key: Key, runId: Option<Id>, threadId: Option<Id>, traceId: Id, sequence: Option<int>,
    source: Source, kind: Kind, occurredAt: Time)

  datatype Trace = Trace(runs: map<Id, AgentRun>, events: seq<TraceEvent>)

  const EMPTY_TRACE := Trace(map[], [])

  datatype Problem = RunNotFound | LifecycleReserved | RunClosed | FinishedOtherwise | NotTerminal | ConstraintViolated

  datatype Answer<T> = Returned(value: T) | Raised(problem: Problem)

  predicate AuditSource(source: Source) {
    source in {DomainSource, OutboxSource, ReconciliationSource}
  }

  function FindEvent(events: seq<TraceEvent>, key: Key): (r: Option<TraceEvent>)
    ensures r.Some? ==> r.value in events && r.value.key == key
    ensures r.None? ==> forall e :: e in events ==> e.key != key
  {
    if events == [] then None
    else if events[|events| - 1].key == key then Some(events[|events| - 1])
    else FindEvent(events[..|events| - 1], key)
  }

  predicate TraceIdTaken(runs: map<Id, AgentRun>, traceId: Id) {
    exists id :: id in runs && runs[id].traceId == traceId
  }

  predicate HasMessageTerminal(events: seq<TraceEvent>, runId: Id) {
    exists k :: 0 <= k < |events| && events[k].runId == Some(runId) && events[k].kind.MessageTerminal?
  }

  // ----- The three transactions -----

  datatype StartCommand = StartCommand(runId: Id, threadId: Option<Id>, traceId: Id, startedAt: Time)

  datatype AppendCommand = AppendCommand(
    key: Key, runId: Option<Id>, threadId: Option<Id>, traceId: Id, source: Source, kind: Kind, occurredAt: Time)

  datatype FinishCommand = FinishCommand(
    runId: Id, status: RunStatus, occurredAt: Time, finalIntentVersion: Option<int>, errorCode: Option<string>)

  function Start(t: Trace, c: StartCommand): (Trace, Answer<AgentRun>) {
    if c.runId in t.runs then (t, Returned(t.runs[c.runId]))
    else if TraceIdTaken(t.runs, c.traceId) || FindEvent(t.events, RunKey(c.runId, RunStarted)).Some? then
      (t, Raised(ConstraintViolated))
    else
      var run := AgentRun(c.threadId, c.traceId, Running, 1, c.startedAt, None, None, None, NoAction, None, None);
      var event := TraceEvent(RunKey(c.runId, RunStarted), Some(c.runId), c.threadId, c.traceId, Some(1),
                              Agent, RunStarted, c.startedAt);
      (Trace(t.runs[c.runId := run], t.events + [event]), Returned(run))
  }

  function Append(t: Trace, c: AppendCommand): (Trace, Answer<TraceEvent>) {
    var existing := FindEvent(t.events, c.key);
    if existing.Some? then (t, Returned(existing.value))
    else
      match c.runId
      case None =>
        var event := TraceEvent(c.key, None, c.threadId, c.traceId, None, c.source, c.kind, c.occurredAt);
        (t.(events := t.events + [event]), Returned(event))
      case Some(id) =>
        if id !in t.runs then (t, Raised(RunNotFound))
        else if c.kind.Lifecycle? then (t, Raised(LifecycleReserved))
        else if t.runs[id].status != Running && !AuditSource(c.source) then (t, Raised(RunClosed))
        else if c.kind.MessageTerminal? && HasMessageTerminal(t.events, id) then (t, Raised(ConstraintViolated))
        else
          var run := t.runs[id].(lastSequence := t.runs[id].lastSequence + 1);
          var event := TraceEvent(c.key, Some(id), run.threadId, run.traceId, Some(run.lastSequence),
                                  c.source, c.kind, c.occurredAt);
          (Trace(t.runs[id := run], t.events + [event]), Returned(event))
  }

  function Finish(t: Trace, c: FinishCommand): (Trace, Answer<AgentRun>) {
    if c.status == Running then (t, Raised(NotTerminal))
    else if c.runId !in t.runs then (t, Raised(RunNotFound))
    else if t.runs[c.runId].status != Running then
      (t, if t.runs[c.runId].status == c.status then Returned(t.runs[c.runId]) else Raised(FinishedOtherwise))
    else if FindEvent(t.events, RunKey(c.runId, Lifecycle(c.status))).Some? then (t, Raised(ConstraintViolated))
    else
      var before := t.runs[c.runId];
      var failed := c.status in {Failed, FailedSafe};
      var run := before.(lastSequence := before.lastSequence + 1, status := c.status, finishedAt := Some(c.occurredAt),
                         terminal := Some(Lifecycle(c.status)), finalIntentVersion := c.finalIntentVersion,
                         errorCode := c.errorCode,
                         outcome := Some(if failed then MessageFailed else MessageCompleted),
                         userAction := if failed then Retry else NoAction);
      var event := TraceEvent(RunKey(c.runId, Lifecycle(c.status)), Some(c.runId), run.threadId, run.traceId,
                              Some(run.lastSequence), Agent, Lifecycle(c.status), c.occurredAt);
      (Trace(t.runs[c.runId := run], t.events + [event]), Returned(run))
  }

  // ----- The runtime as it runs -----

  class Runtime {
    var runs: map<Id, AgentRun>
    var events: seq<TraceEvent>

    constructor ()
      ensures Contents() == EMPTY_TRACE
    {
      runs, events := map[], [];
    }

    function Contents(): Trace
      reads this
    {
      Trace(runs, events)
    }

    method StartRun(c: StartCommand) returns (answer: Answer<AgentRun>)
      modifies this
      ensures (Contents(), answer) == Start(old(Contents()), c)
    {
      if c.runId in runs {
        return Returned(runs[c.runId]);
      }
      if TraceIdTaken(runs, c.traceId) || FindEvent(events, RunKey(c.runId, RunStarted)).Some? {
        return Raised(ConstraintViolated);
      }
      var run := AgentRun(c.threadId, c.traceId, Running, 1, c.startedAt, None, None, None, NoAction, None, None);
      runs := runs[c.runId := run];
      events := events + [TraceEvent(RunKey(c.runId, RunStarted), Some(c.runId), c.threadId, c.traceId, Some(1),
                                     Agent, RunStarted, c.startedAt)];
      answer := Returned(run);
    }

    method AppendEvent(c: AppendCommand) returns (answer: Answer<TraceEvent>)
      modifies this
      ensures (Contents(), answer) == Append(old(Contents()), c)
    {
      var existing := FindEvent(events, c.key);
      if existing.Some? {
        return Returned(existing.value);
      }
      var threadId, traceId, sequence := c.threadId, c.traceId, None;
      if c.runId.Some? {
        var id := c.runId.value;
        if id !in runs {
          return Raised(RunNotFound);
        }
        if c.kind.Lifecycle? {
          return Raised(LifecycleReserved);
        }
        if runs[id].status != Running && !AuditSource(c.source) {
          return Raised(RunClosed);
        }
        if c.kind.MessageTerminal? && HasMessageTerminal(events, id) {
          return Raised(ConstraintViolated);
        }
        runs := runs[id := runs[id].(lastSequence := runs[id].lastSequence + 1)];
        threadId, traceId, sequence := runs[id].threadId, runs[id].traceId, Some(runs[id].lastSequence);
      }
      var event := TraceEvent(c.key, c.runId, threadId, traceId, sequence, c.source, c.kind, c.occurredAt);
      events := events + [event];
      answer := Returned(event);
    }

    method FinishRun(c: FinishCommand) returns (answer: Answer<AgentRun>)
      modifies this
      ensures (Contents(), answer) == Finish(old(Contents()), c)
    {
      if c.status == Running {
        return Raised(NotTerminal);
      }
      if c.runId !in runs {
        return Raised(RunNotFound);
      }
      var run := runs[c.runId];
      if run.status != Running {
        if run.status != c.status {
          return Raised(FinishedOtherwise);
        }
        return Returned(run);
      }
      var kind := Lifecycle(c.status);
      if FindEvent(events, RunKey(c.runId, kind)).Some? {
        return Raised(ConstraintViolated);
      }
      run := run.(lastSequence := run.lastSequence + 1);
      events := events + [TraceEvent(RunKey(c.runId, kind), Some(c.runId), run.threadId, run.traceId,
                                     Some(run.lastSequence), Agent, kind, c.occurredAt)];
      var failed := c.status in {Failed, FailedSafe};
      run := run.(status := c.status, finishedAt := Some(c.occurredAt), terminal := Some(kind));
      run := run.(finalIntentVersion := c.finalIntentVersion, errorCode := c.errorCode);
      run := run.(outcome := Some(if failed then MessageFailed else MessageCompleted),
                  userAction := if failed then Retry else NoAction);
      runs := runs[c.runId := run];
      answer := Returned(run);
    }
  }

  // ----- Every run -----

  datatype Call = StartCall(start: StartCommand) | AppendCall(append: AppendCommand) | FinishCall(finish: FinishCommand)

  function Next(t: Trace, c: Call): Trace {
    match c
    case StartCall(x) => Start(t, x).0
    case AppendCall(x) => Append(t, x).0
    case FinishCall(x) => Finish(t, x).0
  }

  function After(calls: seq<Call>): Trace {
    if calls == [] then EMPTY_TRACE else Next(After(calls[..|calls| - 1]), calls[|calls| - 1])
  }

  ghost function OfRun(id: Id): TraceEvent -> bool { (e: TraceEvent) => e.runId == Some(id) }

  ghost function Story(t: Trace, id: Id): seq<TraceEvent> { Select(t.events, OfRun(id)) }

  /** The terminal event of a finished run stands at `m`, and only audit sources come after it. */
  ghost predicate EndsAt(story: seq<TraceEvent>, status: RunStatus, m: nat) {
    && m < |story| && story[m].kind == Lifecycle(status)
    && (forall k :: 0 <= k < |story| && k != m ==> !story[k].kind.Lifecycle?)
    && (forall k :: m < k < |story| ==> AuditSource(story[k].source))
  }

  ghost predicate StoryTells(story: seq<TraceEvent>, run: AgentRun) {
    && |story| == run.lastSequence && |story| > 0 && story[0].kind == RunStarted
    && (forall k :: 0 <= k < |story| ==> story[k].sequence == Some(k + 1) && story[k].traceId == run.traceId)
    && if run.status == Running then forall k :: 0 <= k < |story| ==> !story[k].kind.Lifecycle?
       else exists m: nat :: EndsAt(story, run.status, m)
  }

  /** The schema's checks on a run row. */
  predicate RunChecks(run: AgentRun) {
    if run.status == Running then run.finishedAt.None? && run.terminal.None? && run.outcome.None?
    else run.finishedAt.Some? && run.terminal == Some(Lifecycle(run.status)) && run.outcome.Some?
  }

  ghost predicate KeysUnique(events: seq<TraceEvent>) {
    forall j, k :: 0 <= j < k < |events| ==> events[j].key != events[k].key
  }

  ghost predicate Inv(t: Trace) {
    && (forall id :: id in t.runs ==> StoryTells(Story(t, id), t.runs[id]) && RunChecks(t.runs[id]))
    && (forall k :: 0 <= k < |t.events| ==>
          && (t.events[k].runId.Some? ==> t.events[k].runId.value in t.runs)
          && (t.events[k].runId.None? <==> t.events[k].sequence.None?))
    && KeysUnique(t.events)
  }

  lemma StoryAfter(t: Trace, runs: map<Id, AgentRun>, event: TraceEvent, id: Id)
    ensures Story(Trace(runs, t.events + [event]), id)
         == if event.runId == Some(id) then Story(t, id) + [event] else Story(t, id)
  {
    SelectAppend(t.events, [event], OfRun(id));
    SelectOne(event, OfRun(id));
  }

  lemma KeysStayUnique(events: seq<TraceEvent>, event: TraceEvent)
    requires KeysUnique(events) && FindEvent(events, event.key).None?
    ensures KeysUnique(events + [event])
  {
  }

  /** A story goes on with the next sequence number, after its end only from an audit source. */
  lemma StoryGoesOn(story: seq<TraceEvent>, run: AgentRun, event: TraceEvent)
    requires StoryTells(story, run) && event.sequence == Some(run.lastSequence + 1) && event.traceId == run.traceId
    requires !event.kind.Lifecycle? && (run.status == Running || AuditSource(event.source))
    ensures StoryTells(story + [event], run.(lastSequence := run.lastSequence + 1))
  {
    if run.status != Running {
      var m: nat :| EndsAt(story, run.status, m);
      assert EndsAt(story + [event], run.status, m);
    }
  }

  lemma StoryEnds(story: seq<TraceEvent>, run: AgentRun, event: TraceEvent, ended: AgentRun)
    requires StoryTells(story, run) && run.status == Running && ended.status != Running
    requires event.sequence == Some(run.lastSequence + 1) && event.traceId == run.traceId
    requires event.kind == Lifecycle(ended.status)
    requires ended.lastSequence == run.lastSequence + 1 && ended.traceId == run.traceId
    ensures StoryTells(story + [event], ended)
  {
    assert EndsAt(story + [event], ended.status, |story|);
  }

  /** Adding an event to one run, or to none, keeps the invariant when that run's story goes on. */
  lemma EventKeepsInv(t: Trace, runs: map<Id, AgentRun>, event: TraceEvent)
    requires Inv(t) && FindEvent(t.events, event.key).None?
    requires event.runId.None? <==> event.sequence.None?
    requires event.runId.None? ==> runs == t.runs
    requires event.runId.Some? ==>
      && event.runId.value in runs && runs == t.runs[event.runId.value := runs[event.runId.value]]
      && RunChecks(runs[event.runId.value])
      && StoryTells(Story(t, event.runId.value) + [event], runs[event.runId.value])
    ensures Inv(Trace(runs, t.events + [event]))
  {
    hide StoryTells, RunChecks, Story;
    KeysStayUnique(t.events, event);
    forall id | id in runs
      ensures StoryTells(Story(Trace(runs, t.events + [event]), id), runs[id]) && RunChecks(runs[id])
    {
      StoryAfter(t, runs, event, id);
    }
  }

  lemma StartKeepsInv(t: Trace, c: StartCommand)
    requires Inv(t)
    ensures Inv(Start(t, c).0)
  {
    var n := Start(t, c).0;
    if n != t {
      var event := n.events[|t.events|];
      SelectNone(t.events, OfRun(c.runId));
      assert Story(t, c.runId) + [event] == [event];
      EventKeepsInv(t, n.runs, event);
    }
  }

  lemma AppendKeepsInv(t: Trace, c: AppendCommand)
    requires Inv(t)
    ensures Inv(Append(t, c).0)
  {
    var n := Append(t, c).0;
    if n != t {
      var event := n.events[|t.events|];
      if c.runId.Some? {
        StoryGoesOn(Story(t, c.runId.value), t.runs[c.runId.value], event);
      }
      hide StoryTells, Story;
      EventKeepsInv(t, n.runs, event);
    }
  }

  lemma FinishKeepsInv(t: Trace, c: FinishCommand)
    requires Inv(t)
    ensures Inv(Finish(t, c).0)
  {
    var n := Finish(t, c).0;
    if n != t {
      var event := n.events[|t.events|];
      StoryEnds(Story(t, c.runId), t.runs[c.runId], event, n.runs[c.runId]);
      hide StoryTells, Story;
      EventKeepsInv(t, n.runs, event);
    }
  }

  lemma NextKeepsInv(t: Trace, c: Call)
    requires Inv(t)
    ensures Inv(Next(t, c))
  {
    hide Inv, Start, Append, Finish;
    match c
    case StartCall(x) => StartKeepsInv(t, x);
    case AppendCall(x) => AppendKeepsInv(t, x);
    case FinishCall(x) => FinishKeepsInv(t, x);
  }

  lemma {:induction false} EveryTraceKeepsInv(calls: seq<Call>)
    ensures Inv(After(calls))
  {
    hide Next;
    if calls != [] {
      hide Inv;
      EveryTraceKeepsInv(calls[..|calls| - 1]);
      NextKeepsInv(After(calls[..|calls| - 1]), calls[|calls| - 1]);
    }
  }

  /** The lifecycle events of a story: none while the run runs, and otherwise one, of the run's own
      status, with nothing but audit events after it. */
  ghost predicate LifecycleTold(story: seq<TraceEvent>, status: RunStatus) {
    && ((exists k :: 0 <= k < |story| && story[k].kind.Lifecycle?) <==> status != Running)
    && (forall j, k :: 0 <= j < k < |story| && story[j].kind.Lifecycle? ==>
          !story[k].kind.Lifecycle? && AuditSource(story[k].source))
    && (forall k :: 0 <= k < |story| && story[k].kind.Lifecycle? ==> story[k].kind == Lifecycle(status))
  }

  lemma LifecycleIsTold(story: seq<TraceEvent>, run: AgentRun)
    requires StoryTells(story, run)
    ensures LifecycleTold(story, run.status)
  {
    if run.status != Running {
      var m: nat :| EndsAt(story, run.status, m);
      assert story[m].kind.Lifecycle?;
    }
  }

  /** Every run's stored events are numbered 1 to `last_sequence`, begin with its start, and share
      its trace id. A lifecycle terminal event exists exactly when the run is no longer running;
      it is then the only one, matches the status, and is followed by audit sources alone. */
  lemma StoriesAreSequenced(calls: seq<Call>, id: Id)
    requires id in After(calls).runs
    ensures
      var run, story := After(calls).runs[id], Story(After(calls), id);
      && |story| == run.lastSequence > 0 && story[0].kind == RunStarted
      && (forall k :: 0 <= k < |story| ==> story[k].sequence == Some(k + 1) && story[k].traceId == run.traceId)
      && LifecycleTold(story, run.status)
      && RunChecks(run)
  {
    EveryTraceKeepsInv(calls);
    hide After, Story, LifecycleTold;
    LifecycleIsTold(Story(After(calls), id), After(calls).runs[id]);
  }

  /** No event key is ever stored twice. */
  lemma TraceKeysNeverRepeat(calls: seq<Call>, j: nat, k: nat)
    requires j < k < |After(calls).events|
    ensures After(calls).events[j].key != After(calls).events[k].key
  {
    EveryTraceKeepsInv(calls);
    hide After;
  }

  lemma NextExtends(t: Trace, c: Call)
    ensures t.events <= Next(t, c).events
  {
    hide FindEvent;
  }

  lemma {:induction false} TraceOnlyGrows(calls: seq<Call>, more: seq<Call>)
    ensures After(calls).events <= After(calls + more).events
  {
    hide Next;
    if more == [] {
      assert calls + more == calls;
    } else {
      var last := |more| - 1;
      var all := calls + more;
      assert all[..|all| - 1] == calls + more[..last] && all[|all| - 1] == more[last];
      TraceOnlyGrows(calls, more[..last]);
      assert After(all) == Next(After(calls + more[..last]), more[last]);
      hide After;
      NextExtends(After(calls + more[..last]), more[last]);
    }
  }

  lemma StoredUnderItsKey(t: Trace, c: AppendCommand)
    requires Append(t, c).1.Returned?
    ensures Append(t, c).1.value in Append(t, c).0.events && Append(t, c).1.value.key == c.key
  {
  }

  lemma KeyFindsItsEvent(events: seq<TraceEvent>, more: seq<TraceEvent>, e: TraceEvent)
    requires e in events && events <= more && KeysUnique(more)
    ensures FindEvent(more, e.key) == Some(e)
  {
    var k :| 0 <= k < |events| && events[k] == e;
    assert more[k] == e;
    hide FindEvent;
    var found := FindEvent(more, e.key).value;
    var j :| 0 <= j < |more| && more[j] == found;
  }

  /** An append under a key already appended writes nothing, whatever it carries and whatever has
      happened since, and is answered with the event that was stored first. */
  lemma RepeatedAppendIsAnsweredFromTheTrace(calls: seq<Call>, c: AppendCommand, more: seq<Call>, again: AppendCommand)
    requires Append(After(calls), c).1.Returned? && again.key == c.key
    ensures
      var later := After(calls + [AppendCall(c)] + more);
      Append(later, again) == (later, Append(After(calls), c).1)
  {
    var all := calls + [AppendCall(c)];
    StoredUnderItsKey(After(calls), c);
    assert all[..|calls|] == calls && After(all) == Next(After(calls), AppendCall(c));
    hide After, FindEvent;
    TraceOnlyGrows(all, more);
    EveryTraceKeepsInv(all + more);
    KeyFindsItsEvent(After(all).events, After(all + more).events, Append(After(calls), c).1.value);
  }

  /** Some append of the run was answered under `key`. */
  ghost predicate Appended(calls: seq<Call>, key: Key) {
    exists k :: 0 <= k < |calls| && calls[k].AppendCall? && calls[k].append.key == key
      && Append(After(calls[..k]), calls[k].append).1.Returned?
  }

  lemma AppendedStays(calls: seq<Call>, c: Call, key: Key)
    requires Appended(calls, key)
    ensures Appended(calls + [c], key)
  {
    hide Append, After;
    var k :| 0 <= k < |calls| && calls[k].AppendCall? && calls[k].append.key == key
      && Append(After(calls[..k]), calls[k].append).1.Returned?;
    assert (calls + [c])[..k] == calls[..k] && (calls + [c])[k] == calls[k];
  }

  predicate HasEnded(t: Trace, id: Id) { id in t.runs && t.runs[id].status != Running }

  /** A step leaves an ended run ended, and stores a run's terminal key only as that run's end or for
      an append that carries it. */
  lemma NextTerminalKey(t: Trace, c: Call, id: Id, status: RunStatus)
    ensures HasEnded(t, id) ==> HasEnded(Next(t, c), id)
    ensures (FindEvent(t.events, RunKey(id, Lifecycle(status))).None?
             && FindEvent(Next(t, c).events, RunKey(id, Lifecycle(status))).Some?) ==>
        || HasEnded(Next(t, c), id)
        || (c.AppendCall? && c.append.key == RunKey(id, Lifecycle(status)) && Append(t, c.append).1.Returned?)
  {
    hide TraceIdTaken, HasMessageTerminal;
    var key := RunKey(id, Lifecycle(status));
    var n := Next(t, c);
    if |n.events| > |t.events| {
      assert n.events[..|n.events| - 1] == t.events;
    }
  }

  lemma {:induction false} TerminalKeyTaken(calls: seq<Call>, id: Id, status: RunStatus)
    requires FindEvent(After(calls).events, RunKey(id, Lifecycle(status))).Some?
    ensures Appended(calls, RunKey(id, Lifecycle(status))) || HasEnded(After(calls), id)
  {
    hide Next, FindEvent, Appended;
    var key := RunKey(id, Lifecycle(status));
    if calls == [] {
      NoEventYet(key);
    } else {
      var last := |calls| - 1;
      var before, c := calls[..last], calls[last];
      assert before + [c] == calls && After(calls) == Next(After(before), c);
      NextTerminalKey(After(before), c, id, status);
      if FindEvent(After(before).events, key).Some? {
        TerminalKeyTaken(before, id, status);
        if Appended(before, key) {
          AppendedStays(before, c, key);
        }
      } else if !HasEnded(After(calls), id) {
        AppendedLast(before, c, key);
      }
    }
  }

  lemma NoEventYet(key: Key)
    ensures FindEvent(After([]).events, key).None?
  {
  }

  lemma AppendedLast(calls: seq<Call>, c: Call, key: Key)
    requires c.AppendCall? && c.append.key == key && Append(After(calls), c.append).1.Returned?
    ensures Appended(calls + [c], key)
  {
    hide Append, After;
    assert (calls + [c])[..|calls|] == calls && (calls + [c])[|calls|] == c;
  }

  lemma AppendedIsFound(calls: seq<Call>, key: Key)
    requires Appended(calls, key)
    ensures FindEvent(After(calls).events, key).Some?
  {
    hide After, Append, FindEvent;
    var k :| 0 <= k < |calls| && calls[k].AppendCall? && calls[k].append.key == key
      && Append(After(calls[..k]), calls[k].append).1.Returned?;
    var c := calls[k].append;
    assert calls == calls[..k] + [AppendCall(c)] + calls[k + 1..];
    RepeatedAppendIsAnsweredFromTheTrace(calls[..k], c, calls[k + 1..], c);
    if FindEvent(After(calls).events, key).None? {
      FoundMeansUnchanged(After(calls), c);
    }
  }

  lemma FoundMeansUnchanged(t: Trace, c: AppendCommand)
    requires FindEvent(t.events, c.key).None?
    ensures Append(t, c).1.Returned? ==> Append(t, c).0 != t
  {
    hide FindEvent, TraceIdTaken, HasMessageTerminal;
    if Append(t, c).1.Returned? {
      assert |Append(t, c).0.events| == |t.events| + 1;
    }
  }

  /** After any run of the runtime, a run still running can be finished with any terminal status,
      unless some append has been answered under the very key its terminal event needs; in
      particular always, when no append carries the key of a run's own terminal event. */
  lemma RunningRunCanFinish(calls: seq<Call>, c: FinishCommand)
    requires c.runId in After(calls).runs && After(calls).runs[c.runId].status == Running && c.status != Running
    ensures
      var (after, answer) := Finish(After(calls), c);
      if Appended(calls, RunKey(c.runId, Lifecycle(c.status))) then answer.Raised? && after == After(calls)
      else answer.Returned? && c.runId in after.runs && after.runs[c.runId].status == c.status
  {
    hide After, FindEvent, Appended;
    var key := RunKey(c.runId, Lifecycle(c.status));
    if Appended(calls, key) {
      AppendedIsFound(calls, key);
    } else if FindEvent(After(calls).events, key).Some? {
      TerminalKeyTaken(calls, c.runId, c.status);
    }
  }

  // ----- A run that cannot be finished -----

  function Started(): Call { StartCall(StartCommand(1, None, 5, 0)) }

  /** An append under the key of run 1's own completion. */
  function KeyTaking(): AppendCommand {
    AppendCommand(RunKey(1, Lifecycle(Finished)), Some(1), None, 5, Agent, Other("x"), 0)
  }

  lemma RunStarts()
    ensures var t := After([Started()]);
      && 1 in t.runs && t.runs[1].status == Running
      && Append(t, KeyTaking()).1.Returned?
      && 1 in Append(t, KeyTaking()).0.runs && Append(t, KeyTaking()).0.runs[1].status == Running
  {
    assert [Started()][..0] == [];
    assert After([]) == EMPTY_TRACE;
    var t := After([Started()]);
    assert t == Start(EMPTY_TRACE, Started().start).0;
    assert |t.events| == 1 && t.events[..0] == [];
    assert t.events[0].key == RunKey(1, RunStarted);
    assert FindEvent(t.events, KeyTaking().key).None?;
  }

  /** An append answered under the key of a run's completion leaves the run running, and its completion
      refused. */
  lemma TakenKeyBlocksFinish()
    ensures
      var calls := [Started(), AppendCall(KeyTaking())];
      && 1 in After(calls).runs && After(calls).runs[1].status == Running
      && Finish(After(calls), FinishCommand(1, Finished, 0, None, None)).1.Raised?
  {
    hide Append, Finish, Appended, FindEvent;
    var calls := [Started(), AppendCall(KeyTaking())];
    RunStarts();
    assert [Started()] + [AppendCall(KeyTaking())] == calls;
    assert calls[..1] == [Started()];
    assert After(calls) == Append(After([Started()]), KeyTaking()).0;
    AppendedLast([Started()], AppendCall(KeyTaking()), KeyTaking().key);
    hide After;
    RunningRunCanFinish(calls, FinishCommand(1, Finished, 0, None, None));
  }
}
