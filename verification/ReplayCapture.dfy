/** Capturing one run: the port the graph calls at every node, route and external result, and the
    bundle it leaves (replay/capture.py). A failed write never disturbs the run; it spoils the
    bundle. */
module ReplayCapture {
  import opened Domain
  import opened AgentStates
  import opened ReplayState
  import opened ReplayTape
  import opened ReplayBundles

  function CallPrefix(kind: CallKind): string {
    match kind
    case InterpretationCall => "interpretation"
    case PropertyCall => "property-authorization"
    case PolicyCall => "policy"
    case DuplicateCall => "duplicate-lookup"
    case SnapshotCall => "ticket-snapshot"
    case SlotCall => "slot-lookup"
    case MutationCall => "mcp-mutation"
  }

  /** What a run's outcome reports besides its final state. */
  datatype RunResult = RunResult(
    runStatus: string, stage: WorkflowStage, ticketId: Option<Id>, appointmentId: Option<Id>,
    reconciling: Reconciling, interrupt: Option<Interrupt>)

  /** Which writes of a capture fail: that of the start state, tried anew at the n-th node entered
      until it succeeds; each step's, under its key; and the one that seals the bundle. */
  datatype Faults = Faults(start: nat -> bool, write: StepKey -> bool, seal: bool)

  ghost predicate Faultless(faults: Faults) {
    (forall n :: !faults.start(n)) && (forall key :: !faults.write(key)) && !faults.seal
  }

  class PersistentCapture {
    const store: BundleStore
    const faults: Faults
    var latest: Option<AgentState>
    var nodePath: seq<Node>
    var routes: seq<RouteStep>
    var counters: map<string, nat>
    var error: Option<string>
    /** Every step the run has shown, written or not. */
    ghost var shown: seq<Step>

    constructor (store: BundleStore, faults: Faults)
      requires store.WellKept() && store.bundle.status == Capturing && store.bundle.steps == []
      ensures this.store == store && this.faults == faults && Valid() && shown == [] && error.None? && latest.None?
      ensures nodePath == [] && routes == []
    {
      this.store, this.faults := store, faults;
      latest, nodePath, routes, counters, error, shown := None, [], [], map[], None, [];
    }

    /** A key the capture has used up to now. */
    predicate Used(key: StepKey)
      reads this
    {
      match key
      case NodeKey(n, _) => n <= |nodePath|
      case RouteKey(n, _) => n <= |routes|
      case ExternalKey(prefix, n) => prefix in counters && n <= counters[prefix]
      case _ => false
    }

    /** While nothing has failed, the bundle holds exactly the steps shown, under keys used; and nothing
        fails but by a fault or for want of room. */
    ghost predicate Valid()
      reads this, store
    {
      && store.WellKept() && store.bundle.status == Capturing
      && (error.None? ==> Payloads(store.bundle.steps) == shown)
      && (error.None? && latest.Some? ==> store.bundle.start.Some?)
      && (forall i :: 0 <= i < |store.bundle.steps| ==> Used(store.bundle.steps[i].key))
      && (Faultless(faults) && |shown| <= store.maxSteps ==> error.None?)
    }

    /** Writes one step unless an earlier write failed. */
    method Put(key: StepKey, payload: Step, fingerprint: Option<string>)
      requires store.WellKept() && store.bundle.status == Capturing
      requires !HasKey(store.bundle.steps, key)
      modifies this`error, store
      ensures store.WellKept() && store.bundle.status == Capturing && store.bundle.start == old(store.bundle).start
      ensures old(error).Some? ==> error == old(error)
      ensures error.None? <==> old(error).None? && !faults.write(key) && old(store.bundle).stepCount < store.maxSteps
      ensures error.None? ==>
        store.bundle.steps == old(store.bundle).steps
          + [NewRow(old(store.bundle).stepCount + 1, key, fingerprint, payload)]
      ensures error.Some? ==> store.bundle == old(store.bundle)
    {
      if error.Some? {
        return;
      }
      var ok := store.AppendStep(key, fingerprint, payload, faults.write(key));
      if !ok {
        error := Some("REPLAY_STEP_CAPTURE_FAILED");
      }
    }

    /** Shows a step of the run to the bundle, under a key that has been allotted but not stored. */
    method Show(key: StepKey, payload: Step, fingerprint: Option<string>)
      requires Valid() && Used(key) && !HasKey(store.bundle.steps, key)
      modifies this`error, this`shown, store
      ensures Valid() && shown == old(shown) + [payload] && store.bundle.start == old(store.bundle.start)
      ensures old(error).Some? ==> error.Some?
      ensures error.None? ==>
        store.bundle.steps == old(store.bundle.steps)
          + [NewRow(old(store.bundle.stepCount) + 1, key, fingerprint, payload)]
    {
      hide Checksum;
      ghost var before := store.bundle.steps;
      Put(key, payload, fingerprint);
      shown := shown + [payload];
      AppendedPayload(before, store.bundle.steps, payload);
    }

    /** False when the state's description is too long to project: the source raises out of the node.
        The first state shown becomes the bundle's start, unless writing it fails. */
    method NodeEntered(node: Node, s: AgentState) returns (ok: bool)
      requires Valid()
      modifies this, store
      ensures ok <==> Summarized(s)
      ensures old(error).Some? ==> error.Some?
      ensures ok ==>
        && Valid() && latest == Some(s)
        && shown == old(shown) + [Step.NodeEntered(node, FingerprintOf(s).value)]
        && nodePath == old(nodePath) + [node] && routes == old(routes)
        && (error.None? ==>
              store.bundle.start == if old(store.bundle.start).Some? then old(store.bundle.start) else Project(s, None))
    {
      latest := Some(s);
      var safe := Project(s, None);
      if safe.None? {
        return false;
      }
      if store.bundle.start.None? {
        if faults.start(|nodePath| + 1) {
          error := Some("REPLAY_START_STATE_CAPTURE_FAILED");
        } else {
          store.SetStart(safe.value);
        }
      }
      nodePath := nodePath + [node];
      Show(NodeKey(|nodePath|, node), Step.NodeEntered(node, Fingerprint(safe.value)), None);
      ok := true;
    }

    method NodeCompleted(s: AgentState)
      requires Valid() && latest.Some?
      modifies this`latest
      ensures Valid() && latest == Some(s)
    {
      latest := Some(s);
    }

    /** False, again, when the state cannot be projected. */
    method RouteDecision(from: Node, to: Node, s: AgentState) returns (ok: bool)
      requires Valid()
      modifies this`routes, this`error, this`shown, store
      ensures ok <==> Summarized(s)
      ensures old(error).Some? ==> error.Some?
      ensures ok ==>
        && Valid() && store.bundle.start == old(store.bundle.start)
        && shown == old(shown) + [RouteTaken(from, to, to, FingerprintOf(s).value)]
        && routes == old(routes) + [(from, to, to)]
    {
      var safe := Project(s, None);
      if safe.None? {
        return false;
      }
      routes := routes + [(from, to, to)];
      Show(RouteKey(|routes|, from), RouteTaken(from, to, to, Fingerprint(safe.value)), None);
      ok := true;
    }

    method ExternalResult(kind: CallKind, action: string, fingerprint: string, response: Response)
      requires Valid()
      modifies this`counters, this`error, this`shown, store
      ensures Valid() && store.bundle.start == old(store.bundle.start)
      ensures old(error).Some? ==> error.Some?
      ensures shown == old(shown) + [External(kind, action, Some(fingerprint), response)]
      ensures counters == old(counters)[CallPrefix(kind) :=
        (if CallPrefix(kind) in old(counters) then old(counters)[CallPrefix(kind)] else 0) + 1]
      ensures error.None? ==>
        && store.bundle.steps != []
        && store.bundle.steps[..|store.bundle.steps| - 1] == old(store.bundle.steps)
        && store.bundle.steps[|store.bundle.steps| - 1].key == ExternalKey(CallPrefix(kind), counters[CallPrefix(kind)])
    {
      var prefix := CallPrefix(kind);
      var count := (if prefix in counters then counters[prefix] else 0) + 1;
      counters := counters[prefix := count];
      Show(ExternalKey(prefix, count), External(kind, action, Some(fingerprint), response), Some(fingerprint));
    }

    /** The final state as the run's result reports it. */
    function Reported(safe: SafeState, result: RunResult): SafeState {
      safe.(stage := result.stage,
            target := safe.target.(ticketId := result.ticketId, appointmentId := result.appointmentId),
            reconciling := if result.reconciling.caseId.Some? || result.reconciling.status.Some?
                           then Some(result.reconciling) else safe.reconciling)
    }

    /** The tape a run's result completes: the steps shown, the interrupt, if any, and the end. */
    ghost function Completed(safe: SafeState, result: RunResult): seq<Step>
      reads this
    {
      shown + (if result.interrupt.Some? then [Interrupted(result.interrupt.value)] else [])
      + [Final(Fingerprint(Reported(safe, result)), nodePath, routes)]
    }

    /** The last state can be projected and the completed tape has room in the bundle. */
    ghost predicate Fits(result: RunResult)
      reads this, store
    {
      && latest.Some? && Project(latest.value, Some(result.runStatus)).Some?
      && |Completed(Project(latest.value, Some(result.runStatus)).value, result)| <= store.maxSteps
    }

    /** Seals the bundle; false when the source raises. It is ready only if every step of the run was
        written, and then its tape is the completed one; and without faults it is ready whenever that
        tape fits. */
    method Finalize(result: RunResult) returns (ok: bool)
      requires Valid()
      modifies this`error, store
      ensures ok <==> !faults.seal && (old(error).Some? || old(latest).None? || Summarized(old(latest).value))
      ensures store.bundle.start == old(store.bundle.start)
      ensures ok ==> store.bundle.status in {Ready, IncompleteBundle}
      ensures !ok ==> store.bundle.status == Capturing
      ensures store.bundle.status == Ready ==>
        && error.None? && old(error).None? && old(latest).Some? && Project(old(latest).value, Some(result.runStatus)).Some?
        && var safe := Project(old(latest).value, Some(result.runStatus)).value;
        && Payloads(store.bundle.steps) == Completed(safe, result)
        && store.bundle.expected
             == Some(Expected(Some(Reported(safe, result)), nodePath, routes, Some(Fingerprint(Reported(safe, result)))))
        && Sound(store.bundle) && |store.bundle.steps| <= store.maxSteps
      ensures ok && store.bundle.status == IncompleteBundle ==> error.Some? || old(latest).None?
      ensures Faultless(faults) && Fits(result) ==> store.bundle.status == Ready
    {
      hide Checksum, Metadata;
      if error.Some? || latest.None? {
        ok := !faults.seal;
        if ok {
          store.FinalizeBundle(IncompleteBundle, None, if error.Some? then error else Some("REPLAY_START_STATE_MISSING"));
        }
        return;
      }
      var projected := Project(latest.value, Some(result.runStatus));
      if projected.None? {
        return false;
      }
      var safe := Reported(projected.value, result);
      ghost var tape := shown;
      if result.interrupt.Some? {
        var payload := Interrupted(result.interrupt.value);
        ghost var before := store.bundle.steps;
        Put(InterruptKey, payload, None);
        tape := tape + [payload];
        AppendedPayload(before, store.bundle.steps, payload);
      }
      var last := Final(Fingerprint(safe), nodePath, routes);
      ghost var before := store.bundle.steps;
      Put(FinalKey, last, None);
      AppendedPayload(before, store.bundle.steps, last);
      ok := !faults.seal;
      if ok {
        if error.Some? {
          store.FinalizeBundle(IncompleteBundle, None, error);
        } else {
          store.FinalizeBundle(Ready, Some(Expected(Some(safe), nodePath, routes, Some(Fingerprint(safe)))), None);
        }
      }
    }
  }

  lemma AppendedPayload(before: seq<StepRow>, after: seq<StepRow>, payload: Step)
    ensures forall row: StepRow :: after == before + [row] && row.payload == payload ==>
      Payloads(after) == Payloads(before) + [payload]
  {
  }
}
