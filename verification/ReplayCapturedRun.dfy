/** A captured run of the graph: the calls the graph makes to the capture port, in order, and the
    bundle they leave (agent_runtime/graph.py, replay/recording.py). */
module ReplayCapturedRun {
  import opened Domain
  import opened AgentStates
  import opened ReplayState
  import opened ReplayTape
  import opened ReplayBundles
  import opened ReplayVerdict
  import opened ReplayUncaptured
  import opened ReplayCapture
  import ReplayCompleteness

  /** The capture has been shown what the recording lists, on top of what it had. */
  ghost predicate Showed(r: Option<Recorded>, ended: Option<Ended>, shown: seq<Step>, nodes: seq<Node>, routes: seq<RouteStep>,
                         was: seq<Step>, wasNodes: seq<Node>, wasRoutes: seq<RouteStep>, latest: Option<AgentState>)
  {
    && (r.Some? <==> ended.Some?)
    && (r.Some? ==>
          && shown == was + r.value.steps && nodes == wasNodes + r.value.nodes && routes == wasRoutes + r.value.routes
          && ended.value == Ended(r.value.final, r.value.interrupt) && latest == Some(r.value.final))
  }

  method DriveEnter(m: Machine, node: Node, s: AgentState, live: seq<Response>, fuel: nat, capture: PersistentCapture)
    returns (ended: Option<Ended>)
    requires capture.Valid()
    modifies capture, capture.store
    ensures Showed(RecordEnter(m, node, s, live, fuel), ended, capture.shown, capture.nodePath, capture.routes,
                   old(capture.shown), old(capture.nodePath), old(capture.routes), capture.latest)
    ensures old(capture.error).Some? ==> capture.error.Some?
    ensures ended.Some? ==> capture.Valid() && (capture.error.None? ==>
      capture.store.bundle.start == if old(capture.store.bundle.start).Some? then old(capture.store.bundle.start) else Project(s, None))
    decreases fuel, 1
  {
    hide FingerprintOf, Summarized, Project;
    if fuel == 0 {
      return None;
    }
    FingerprintNeedsSummary(s);
    var ok := capture.NodeEntered(node, s);
    if !ok {
      return None;
    }
    StartedSomewhere(capture);
    ended := DriveBody(m, node, s, [], live, fuel - 1, capture);
  }

  lemma StartedSomewhere(capture: PersistentCapture)
    requires capture.Valid() && capture.latest.Some?
    ensures capture.error.None? ==> capture.store.bundle.start.Some?
  {
  }

  method DriveBody(m: Machine, node: Node, s: AgentState, got: seq<Response>, live: seq<Response>, fuel: nat,
                   capture: PersistentCapture)
    returns (ended: Option<Ended>)
    requires capture.Valid() && capture.latest == Some(s)
    modifies capture, capture.store
    ensures Showed(RecordBody(m, node, s, got, live, fuel), ended, capture.shown, capture.nodePath, capture.routes,
                   old(capture.shown), old(capture.nodePath), old(capture.routes), capture.latest)
    ensures old(capture.error).Some? ==> capture.error.Some?
    ensures ended.Some? ==> capture.Valid() && (capture.error.None? ==> capture.store.bundle.start == old(capture.store.bundle.start))
    decreases fuel, 0
  {
    hide FingerprintOf, Summarized, Project;
    if fuel == 0 {
      return None;
    }
    match m.body(node, s, got) {
      case Call(kind, action, fingerprint) =>
        if live == [] {
          return None;
        }
        capture.ExternalResult(kind, action, fingerprint, live[0]);
        ended := DriveBody(m, node, s, got + [live[0]], live[1..], fuel - 1, capture);
      case Finish(next) =>
        capture.NodeCompleted(next);
        ended := DriveRoute(m, node, next, live, fuel - 1, capture);
      case Pause(interrupt) =>
        ended := Some(Ended(s, Some(interrupt)));
      case Raise =>
        ended := None;
    }
  }

  method DriveRoute(m: Machine, node: Node, s: AgentState, live: seq<Response>, fuel: nat, capture: PersistentCapture)
    returns (ended: Option<Ended>)
    requires capture.Valid() && capture.latest == Some(s)
    modifies capture, capture.store
    ensures Showed(RecordRoute(m, node, s, live, fuel), ended, capture.shown, capture.nodePath, capture.routes,
                   old(capture.shown), old(capture.nodePath), old(capture.routes), capture.latest)
    ensures old(capture.error).Some? ==> capture.error.Some?
    ensures ended.Some? ==> capture.Valid() && (capture.error.None? ==> capture.store.bundle.start == old(capture.store.bundle.start))
    decreases fuel, 2
  {
    hide FingerprintOf, Summarized, Project;
    match m.route(node, s) {
      case Stop =>
        ended := Some(Ended(s, None));
      case Follow(to) =>
        ended := DriveEnter(m, to, s, live, fuel, capture);
      case Decide(to) =>
        FingerprintNeedsSummary(s);
        var ok := capture.RouteDecision(node, to, s);
        if !ok {
          return None;
        }
        ended := DriveEnter(m, to, s, live, fuel, capture);
    }
  }

  /** The result a run reports of the state it ended in. */
  function ResultOf(ended: Ended, runStatus: string): RunResult {
    RunResult(runStatus, ended.final.stage, ended.final.target.ticketId, ended.final.target.appointmentId,
              ended.final.reconciling, ended.interrupt)
  }

  lemma ReportedFinal(capture: PersistentCapture, final: AgentState, interrupt: Option<Interrupt>, runStatus: string)
    requires Project(final, Some(runStatus)).Some?
    ensures FingerprintOf(final).Some?
    ensures Fingerprint(capture.Reported(Project(final, Some(runStatus)).value, ResultOf(Ended(final, interrupt), runStatus)))
         == FingerprintOf(final).value
  {
    hide Metadata;
  }

  lemma ProjectsWhateverTheStatus(final: AgentState, runStatus: string)
    ensures FingerprintOf(final).Some? <==> Project(final, Some(runStatus)).Some?
  {
  }

  /** A bundle that stores the recording of a run, with its start, replays to PASSED exactly when the
      start's pending operation, if any, survives redaction. */
  lemma StoredBundleReplays(m: Machine, entry: Node, s: AgentState, live: seq<Response>, fuel: nat, tape: seq<Step>,
                            start: Option<SafeState>, contentHash: string)
    requires ReplayCompleteness.RespectsFingerprint(m) && PendingValid(s) && start.Some? && start == Project(s, None)
    requires var r := RecordEnter(m, entry, s, live, fuel);
      r.Some? && FingerprintOf(r.value.final).Some? && tape == Tape(r.value)
    requires ReplayCompleteness.InterpretsInput(tape, contentHash)
    ensures Verdict(m, entry, start.value, tape, contentHash, fuel) == Passed <==> PendingSurvives(s)
  {
    hide Project, FingerprintOf, Verdict, RecordEnter;
    ReplayCompleteness.RecordedRunPasses(m, entry, s, live, contentHash, fuel);
  }

  /** The stored bundle passes its replay exactly when the start survives redaction. */
  ghost predicate Replays(m: Machine, entry: Node, s: AgentState, fuel: nat, tape: seq<Step>, start: Option<SafeState>) {
    && start.Some?
    && (ReplayCompleteness.RespectsFingerprint(m) && PendingValid(s) ==>
          forall contentHash: string :: ReplayCompleteness.InterpretsInput(tape, contentHash) ==>
            (Verdict(m, entry, start.value, tape, contentHash, fuel) == Passed <==> PendingSurvives(s)))
  }

  lemma StoredBundleAlwaysReplays(m: Machine, entry: Node, s: AgentState, live: seq<Response>, fuel: nat, tape: seq<Step>,
                                  start: Option<SafeState>)
    requires start.Some? && start == Project(s, None)
    requires var r := RecordEnter(m, entry, s, live, fuel);
      r.Some? && FingerprintOf(r.value.final).Some? && tape == Tape(r.value)
    ensures Replays(m, entry, s, fuel, tape, start)
  {
    hide Project, FingerprintOf, Verdict, RecordEnter, ReplayCompleteness.RespectsFingerprint, PendingSurvives, Tape,
      ReplayCompleteness.InterpretsInput;
    if ReplayCompleteness.RespectsFingerprint(m) && PendingValid(s) {
      forall contentHash: string | ReplayCompleteness.InterpretsInput(tape, contentHash)
        ensures Verdict(m, entry, start.value, tape, contentHash, fuel) == Passed <==> PendingSurvives(s)
      {
        StoredBundleReplays(m, entry, s, live, fuel, tape, start, contentHash);
      }
    }
  }

  /** Whatever writes fail, a captured run ends as the run on its own does, exactly when every state it
      is shown fits its summary. A bundle that comes out ready holds the recording's tape and its start,
      its checksum vouches for it, and it replays to PASSED exactly when the start survives redaction.
      When no write fails, it comes out ready exactly when the run can be recorded to its end and the
      tape fits. */
  method CaptureRun(m: Machine, entry: Node, s: AgentState, live: seq<Response>, fuel: nat, store: BundleStore,
                    runStatus: string, faults: Faults)
    returns (ended: Option<Ended>, ready: bool)
    requires store.WellKept() && store.bundle.status == Capturing && store.bundle.steps == [] && store.bundle.start.None?
    modifies store
    ensures
      var run := RunEnter(m, entry, s, live, fuel);
      && (ended.Some? <==> run.Some? && AllSummarized(run.value.seen))
      && (ended.Some? ==> ended.value == run.value.ended)
    ensures
      var r := RecordEnter(m, entry, s, live, fuel);
      && (ready ==>
            && r.Some? && FingerprintOf(r.value.final).Some?
            && store.bundle.status == Ready && Sound(store.bundle)
            && store.bundle.start == Project(s, None) && Payloads(store.bundle.steps) == Tape(r.value)
            && Replays(m, entry, s, fuel, Payloads(store.bundle.steps), store.bundle.start))
      && (Faultless(faults) ==>
            (ready <==> r.Some? && FingerprintOf(r.value.final).Some? && |Tape(r.value)| <= store.maxSteps))
  {
    hide RecordEnter, RunEnter, FingerprintOf, Sound, Project, Faultless, Replays, AllSummarized, Summarized;
    ready := false;
    EnterUndisturbed(m, entry, s, live, fuel);
    var capture := new PersistentCapture(store, faults);
    ended := DriveEnter(m, entry, s, live, fuel, capture);
    ghost var r := RecordEnter(m, entry, s, live, fuel);
    if ended.Some? {
      var result := ResultOf(ended.value, runStatus);
      FingerprintNeedsSummary(ended.value.final);
      ProjectsWhateverTheStatus(ended.value.final, runStatus);
      if Project(ended.value.final, Some(runStatus)).Some? {
        ReportedFinal(capture, ended.value.final, ended.value.interrupt, runStatus);
      }
      assert capture.shown == r.value.steps && capture.nodePath == r.value.nodes && capture.routes == r.value.routes;
      var ok := capture.Finalize(result);
      ready := ok && store.bundle.status == Ready;
      if ready {
        assert Payloads(store.bundle.steps) == Tape(r.value);
        StoredBundleAlwaysReplays(m, entry, s, live, fuel, Payloads(store.bundle.steps), store.bundle.start);
      }
    }
  }
}
