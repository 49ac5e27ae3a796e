/** Which recorded runs replay to PASSED: all those of a machine that looks at nothing the
    fingerprint leaves out, exactly when their start state survives redaction. */
module ReplayCompleteness {
  import opened Domain
  import opened AgentStates
  import opened ReplayState
  import opened ReplayTape
  import opened ReplayVerdict
  import ReplayTheorems
  import ReplayUncaptured

  /** Two actions that a replay cannot tell apart. */
  predicate SameAction(a: Action, b: Action) {
    match (a, b)
    case (Call(k, x, f), Call(l, y, g)) => k == l && x == y && (k in {InterpretationCall, PolicyCall} || f == g)
    case (Finish(s), Finish(t)) => FingerprintOf(s) == FingerprintOf(t)
    case (Pause(i), Pause(j)) => i == j
    case (Raise, Raise) => true
    case _ => false
  }

  /** Nodes and routers depend only on what the fingerprint covers. */
  ghost predicate RespectsFingerprint(m: Machine) {
    && (forall node: Node, s: AgentState, t: AgentState, got: seq<Response> ::
          FingerprintOf(s) == FingerprintOf(t) && FingerprintOf(s).Some? ==>
            SameAction(m.body(node, s, got), m.body(node, t, got)))
    && (forall node: Node, s: AgentState, t: AgentState ::
          FingerprintOf(s) == FingerprintOf(t) && FingerprintOf(s).Some? ==> m.route(node, s) == m.route(node, t))
  }

  predicate SameStep(a: Step, b: Step) {
    if a.External? then
      && b.External? && a.kind == b.kind && a.action == b.action && a.response == b.response
      && a.fingerprint.Some? && b.fingerprint.Some?
      && (a.kind in {InterpretationCall, PolicyCall} || a.fingerprint == b.fingerprint)
    else a == b
  }

  ghost predicate SameSteps(a: seq<Step>, b: seq<Step>) {
    |a| == |b| && forall k :: 0 <= k < |a| ==> SameStep(a[k], b[k])
  }

  /** A recording that ends in a state with a fingerprint is made again, as far as a replay can tell. */
  ghost predicate SameRecording(a: Option<Recorded>, b: Option<Recorded>) {
    a.Some? && FingerprintOf(a.value.final).Some? ==>
      && b.Some? && SameSteps(a.value.steps, b.value.steps)
      && a.value.nodes == b.value.nodes && a.value.routes == b.value.routes && a.value.interrupt == b.value.interrupt
      && FingerprintOf(a.value.final) == FingerprintOf(b.value.final)
  }

  lemma SamePreceded(x: Step, y: Step, nodes: seq<Node>, routes: seq<RouteStep>, a: Option<Recorded>, b: Option<Recorded>)
    requires SameStep(x, y) && SameRecording(a, b)
    ensures SameRecording(Preceded([x], nodes, routes, a), Preceded([y], nodes, routes, b))
  {
    hide SameStep, FingerprintOf;
    if a.Some? && FingerprintOf(a.value.final).Some? {
      var p, q := [x] + a.value.steps, [y] + b.value.steps;
      forall k | 0 <= k < |p| ensures SameStep(p[k], q[k]) {
        if k > 0 {
          assert SameStep(a.value.steps[k - 1], b.value.steps[k - 1]);
        }
      }
    }
  }

  // ----- States alike are recorded alike -----

  lemma {:induction false} EnterAlike(m: Machine, node: Node, s: AgentState, t: AgentState, live: seq<Response>, fuel: nat)
    requires RespectsFingerprint(m) && FingerprintOf(s) == FingerprintOf(t)
    ensures SameRecording(RecordEnter(m, node, s, live, fuel), RecordEnter(m, node, t, live, fuel))
    decreases fuel, 1
  {
    hide SameRecording, FingerprintOf;
    NothingAlike();
    if FingerprintOf(s).Some? && fuel > 0 {
      BodyAlike(m, node, s, t, [], live, fuel - 1);
      var step := NodeEntered(node, FingerprintOf(s).value);
      SamePreceded(step, step, [node], [], RecordBody(m, node, s, [], live, fuel - 1), RecordBody(m, node, t, [], live, fuel - 1));
    }
  }

  lemma NothingAlike()
    ensures forall b: Option<Recorded> :: SameRecording(None, b)
  {
  }

  lemma EndAlike(s: AgentState, t: AgentState, interrupt: Option<Interrupt>)
    requires FingerprintOf(s) == FingerprintOf(t)
    ensures SameRecording(Some(Recorded([], [], [], s, interrupt)), Some(Recorded([], [], [], t, interrupt)))
  {
    hide FingerprintOf;
  }

  lemma {:induction false} BodyAlike(m: Machine, node: Node, s: AgentState, t: AgentState, got: seq<Response>,
                                     live: seq<Response>, fuel: nat)
    requires RespectsFingerprint(m) && FingerprintOf(s) == FingerprintOf(t) && FingerprintOf(s).Some?
    ensures SameRecording(RecordBody(m, node, s, got, live, fuel), RecordBody(m, node, t, got, live, fuel))
    decreases fuel, 0
  {
    hide SameRecording, FingerprintOf;
    NothingAlike();
    if fuel > 0 {
      assert SameAction(m.body(node, s, got), m.body(node, t, got));
      match m.body(node, s, got)
      case Call(kind, action, fingerprint) =>
        if live != [] {
          var other := m.body(node, t, got).fingerprint;
          BodyAlike(m, node, s, t, got + [live[0]], live[1..], fuel - 1);
          SamePreceded(External(kind, action, Some(fingerprint), live[0]), External(kind, action, Some(other), live[0]), [], [],
                       RecordBody(m, node, s, got + [live[0]], live[1..], fuel - 1),
                       RecordBody(m, node, t, got + [live[0]], live[1..], fuel - 1));
        }
      case Finish(next) => RouteAlike(m, node, next, m.body(node, t, got).next, live, fuel - 1);
      case Pause(interrupt) => EndAlike(s, t, Some(interrupt));
      case Raise =>
    }
  }

  lemma {:induction false} RouteAlike(m: Machine, node: Node, s: AgentState, t: AgentState, live: seq<Response>, fuel: nat)
    requires RespectsFingerprint(m) && FingerprintOf(s) == FingerprintOf(t)
    ensures SameRecording(RecordRoute(m, node, s, live, fuel), RecordRoute(m, node, t, live, fuel))
    decreases fuel, 2
  {
    hide SameRecording, FingerprintOf;
    NothingAlike();
    if FingerprintOf(s).None? {
      UnprojectableEnd(m, node, s, t, live, fuel);
    } else {
      assert m.route(node, s) == m.route(node, t);
      match m.route(node, s)
      case Stop => EndAlike(s, t, None);
      case Follow(to) => EnterAlike(m, to, s, t, live, fuel);
      case Decide(to) =>
        EnterAlike(m, to, s, t, live, fuel);
        var step := RouteTaken(node, to, to, FingerprintOf(s).value);
        SamePreceded(step, step, [], [(node, to, to)], RecordEnter(m, to, s, live, fuel), RecordEnter(m, to, t, live, fuel));
    }
  }

  lemma UnprojectableEnd(m: Machine, node: Node, s: AgentState, t: AgentState, live: seq<Response>, fuel: nat)
    requires FingerprintOf(s).None?
    ensures SameRecording(RecordRoute(m, node, s, live, fuel), RecordRoute(m, node, t, live, fuel))
  {
    hide FingerprintOf, SameSteps;
  }

  // ----- A recording needs only the results it used -----

  /** The recording `r` is made again from the results on its own tape, followed by anything. */
  ghost predicate UsesOwn(r: Option<Recorded>, again: Option<Recorded>) {
    r.Some? ==> again == r
  }

  lemma {:induction false} ResponsesConcat(a: seq<Step>, b: seq<Step>)
    ensures Responses(a + b) == Responses(a) + Responses(b)
  {
    if a == [] {
      assert a + b == b;
    } else {
      assert (a + b)[1..] == a[1..] + b;
      ResponsesConcat(a[1..], b);
    }
  }

  function Used(r: Option<Recorded>): seq<Response> {
    if r.Some? then Responses(r.value.steps) else []
  }

  lemma UsedPreceded(step: Step, nodes: seq<Node>, routes: seq<RouteStep>, r: Option<Recorded>)
    requires r.Some?
    ensures Used(Preceded([step], nodes, routes, r)) == (if step.External? then [step.response] else []) + Used(r)
  {
    ResponsesConcat([step], r.value.steps);
    assert [step][1..] == [];
  }

  lemma {:induction false} EnterUsesOwn(m: Machine, node: Node, s: AgentState, live: seq<Response>, more: seq<Response>, fuel: nat)
    ensures var r := RecordEnter(m, node, s, live, fuel);
      UsesOwn(r, RecordEnter(m, node, s, Used(r) + more, fuel))
    decreases fuel, 1
  {
    hide FingerprintOf, Used;
    var r := RecordEnter(m, node, s, live, fuel);
    if r.Some? {
      var rest := RecordBody(m, node, s, [], live, fuel - 1);
      UsedPreceded(NodeEntered(node, FingerprintOf(s).value), [node], [], rest);
      assert Used(r) == Used(rest);
      BodyUsesOwn(m, node, s, [], live, more, fuel - 1);
    }
  }

  lemma {:induction false} BodyUsesOwn(m: Machine, node: Node, s: AgentState, got: seq<Response>, live: seq<Response>,
                                       more: seq<Response>, fuel: nat)
    ensures var r := RecordBody(m, node, s, got, live, fuel);
      UsesOwn(r, RecordBody(m, node, s, got, Used(r) + more, fuel))
    decreases fuel, 0
  {
    hide FingerprintOf, Used;
    var r := RecordBody(m, node, s, got, live, fuel);
    if r.Some? {
      match m.body(node, s, got)
      case Call(kind, action, fingerprint) =>
        var rest := RecordBody(m, node, s, got + [live[0]], live[1..], fuel - 1);
        var step := External(kind, action, Some(fingerprint), live[0]);
        UsedPreceded(step, [], [], rest);
        BodyUsesOwn(m, node, s, got + [live[0]], live[1..], more, fuel - 1);
        var own := Used(r) + more;
        assert own[0] == live[0] && own[1..] == Used(rest) + more;
      case Finish(next) => RouteUsesOwn(m, node, next, live, more, fuel - 1);
      case Pause(_) =>
      case Raise =>
    }
  }

  lemma {:induction false} RouteUsesOwn(m: Machine, node: Node, s: AgentState, live: seq<Response>, more: seq<Response>, fuel: nat)
    ensures var r := RecordRoute(m, node, s, live, fuel);
      UsesOwn(r, RecordRoute(m, node, s, Used(r) + more, fuel))
    decreases fuel, 2
  {
    hide FingerprintOf, Used;
    var r := RecordRoute(m, node, s, live, fuel);
    if r.Some? {
      match m.route(node, s)
      case Stop =>
      case Follow(to) => EnterUsesOwn(m, to, s, live, more, fuel);
      case Decide(to) =>
        var rest := RecordEnter(m, to, s, live, fuel);
        UsedPreceded(RouteTaken(node, to, to, FingerprintOf(s).value), [], [(node, to, to)], rest);
        assert Used(r) == Used(rest);
        EnterUsesOwn(m, to, s, live, more, fuel);
    }
  }

  // ----- Completeness -----

  /** Every interpretation on the tape was of the run's own input message. */
  ghost predicate InterpretsInput(tape: seq<Step>, contentHash: string) {
    forall k :: 0 <= k < |tape| && tape[k].External? && tape[k].kind == InterpretationCall ==>
      tape[k].fingerprint == Some(contentHash)
  }

  lemma SameTapesAgree(a: Recorded, b: Recorded, contentHash: string)
    requires SameRecording(Some(a), Some(b)) && FingerprintOf(a.final).Some?
    requires InterpretsInput(Tape(a), contentHash)
    ensures FingerprintOf(b.final).Some? && Agrees(Tape(a), Tape(b), contentHash)
  {
    hide FingerprintOf;
    var s, t := Tape(a), Tape(b);
    forall k | 0 <= k < |s| ensures StepAgrees(s[k], t[k], contentHash) {
      if k < |a.steps| {
        assert SameStep(a.steps[k], b.steps[k]) && s[k] == a.steps[k] && t[k] == b.steps[k];
      }
    }
  }

  lemma TapeResponses(r: Recorded)
    requires FingerprintOf(r.final).Some?
    ensures Responses(Tape(r)) == Responses(r.steps)
  {
    hide FingerprintOf;
    var ending := ReplayTheorems.Ending(r);
    assert Tape(r) == r.steps + ending;
    ResponsesConcat(r.steps, ending);
    if r.interrupt.Some? {
      assert ending[1..] == [ending[1]] && ending[1..][1..] == [];
      assert Responses(ending[1..]) == [];
    } else {
      assert ending[1..] == [];
    }
    assert Responses(ending) == [];
  }

  /** A complete tape of a machine that respects the fingerprint passes its replay, through
      projection and restoration, exactly when the start state's pending operation, if it has one,
      survives redaction; with no pending operation it always does. */
  lemma RecordedRunPasses(m: Machine, entry: Node, s: AgentState, live: seq<Response>, contentHash: string, fuel: nat)
    requires RespectsFingerprint(m) && PendingValid(s)
    requires RecordEnter(m, entry, s, live, fuel).Some?
    requires var r := RecordEnter(m, entry, s, live, fuel).value;
      FingerprintOf(r.final).Some? && InterpretsInput(Tape(r), contentHash)
    ensures Project(s, None).Some?
    ensures var r := RecordEnter(m, entry, s, live, fuel).value;
      Verdict(m, entry, Project(s, None).value, Tape(r), contentHash, fuel) == Passed <==> PendingSurvives(s)
    ensures s.plan.pendingOperation.None? ==> PendingSurvives(s)
  {
    var r := RecordEnter(m, entry, s, live, fuel);
    EnterUsesOwn(m, entry, s, live, [], fuel);
    ProjectableStart(m, entry, s, live, fuel);
    var start := Project(s, None).value;
    RestorationKeepsFingerprint(s);
    TapeResponses(r.value);
    assert Used(r) + [] == Responses(Tape(r.value));
    PassedAgainstTape(m, entry, s, r.value, contentHash, fuel);
  }

  lemma ProjectableStart(m: Machine, entry: Node, s: AgentState, live: seq<Response>, fuel: nat)
    requires RecordEnter(m, entry, s, live, fuel).Some?
    ensures Project(s, None).Some? && FingerprintOf(s).Some?
    ensures var r := RecordEnter(m, entry, s, live, fuel).value;
      |r.steps| > 0 && r.steps[0] == NodeEntered(entry, FingerprintOf(s).value)
  {
    hide RecordBody;
  }

  lemma PassedAgainstTape(m: Machine, entry: Node, s: AgentState, r: Recorded, contentHash: string, fuel: nat)
    requires RespectsFingerprint(m) && Project(s, None).Some? && FingerprintOf(r.final).Some?
    requires RecordEnter(m, entry, s, Responses(Tape(r)), fuel) == Some(r)
    requires InterpretsInput(Tape(r), contentHash)
    ensures Verdict(m, entry, Project(s, None).value, Tape(r), contentHash, fuel) == Passed <==>
      FingerprintOf(Restore(Project(s, None).value)) == FingerprintOf(s)
  {
    var start := Project(s, None).value;
    var t, tape := Restore(start), Tape(r);
    var again := RecordEnter(m, entry, t, Responses(tape), fuel);
    ReplayTheorems.PassedMeansTapeIsItsRecording(m, entry, start, tape, contentHash, fuel);
    ProjectableStart(m, entry, s, Responses(tape), fuel);
    if FingerprintOf(t) == FingerprintOf(s) {
      EnterAlike(m, entry, s, t, Responses(tape), fuel);
      SameTapesAgree(r, again.value, contentHash);
    } else if again.Some? && FingerprintOf(again.value.final).Some? {
      ProjectableStart(m, entry, t, Responses(tape), fuel);
      assert !StepAgrees(tape[0], Tape(again.value)[0], contentHash);
    }
  }

  // ----- A start that does not survive redaction -----

  /** A new conversation in the middle of a booking. */
  function MidOperation(): AgentState {
    var s := ReplayUncaptured.Saying("the tap drips");
    s.(plan := EMPTY_PLAN.(pendingOperation := Some(PendingOperation(BookAction, seq(64, i => 'a'), "book", 1, None, None))))
  }

  lemma IdleRecording(s: AgentState)
    requires FingerprintOf(s).Some?
    ensures RecordEnter(ReplayUncaptured.Idle(), "entry", s, [], 2)
         == Some(Recorded([NodeEntered("entry", FingerprintOf(s).value)], ["entry"], [], s, None))
  {
    hide FingerprintOf;
    var m := ReplayUncaptured.Idle();
    var end := Some(Recorded([], [], [], s, None));
    assert RecordRoute(m, "entry", s, [], 0) == end;
    assert m.body("entry", s, []) == ReplayVerdict.Finish(s);
    assert RecordBody(m, "entry", s, [], [], 1) == end;
    var noSteps: seq<Step>, noNodes: seq<Node>, noRoutes: seq<RouteStep> := [], [], [];
    var entered := NodeEntered("entry", FingerprintOf(s).value);
    assert [entered] + noSteps == [entered] && ["entry"] + noNodes == ["entry"] && noRoutes + noRoutes == noRoutes;
  }

  lemma IdleRespectsFingerprint()
    ensures RespectsFingerprint(ReplayUncaptured.Idle())
  {
    hide FingerprintOf;
  }

  /** A valid state with a pending operation under the key "book", and a machine that does nothing:
      the run is recorded in full, and its tape does not pass, for the restored key is another. */
  lemma PendingKeyDiverges(fold: char -> string, contentHash: string)
    ensures Valid(fold, MidOperation()) && PendingValid(MidOperation()) && Project(MidOperation(), None).Some?
    ensures RespectsFingerprint(ReplayUncaptured.Idle())
    ensures var r := RecordEnter(ReplayUncaptured.Idle(), "entry", MidOperation(), [], 2);
      && r.Some? && FingerprintOf(r.value.final).Some?
      && Verdict(ReplayUncaptured.Idle(), "entry", Project(MidOperation(), None).value, Tape(r.value), contentHash, 2) != Passed
  {
    hide MidOperation, FingerprintOf, Project, PendingSurvives, PendingValid, Valid, RespectsFingerprint, ReplayUncaptured.Idle, Verdict;
    var s := MidOperation();
    MidOperationIsValid(fold);
    KeyIsRedacted();
    FingerprintDefined(s);
    IdleRecording(s);
    IdleRespectsFingerprint();
    RecordedRunPasses(ReplayUncaptured.Idle(), "entry", s, [], contentHash, 2);
  }

  lemma MidOperationIsValid(fold: char -> string)
    ensures Valid(fold, MidOperation()) && PendingValid(MidOperation()) && Project(MidOperation(), None).Some?
  {
    assert ReplayUncaptured.Saying("the tap drips").issue.description == Some("the tap drips");
  }

  lemma KeyIsRedacted()
    ensures !PendingSurvives(MidOperation())
  {
    var p := MidOperation().plan.pendingOperation.value;
    assert |RedactedKey(p.fingerprint)| > |p.idempotencyKey|;
  }

  // ----- Respecting the fingerprint is needed -----

  /** A machine whose router reads the retry count, which the projection forgets. */
  function RetryReader(): Machine {
    Machine((node, s, got) => Finish(s),
            (node, s: AgentState) => if node != "entry" then Stop else if s.retryCount > 0 then Decide("retried") else Decide("first"))
  }

  /** Its runs can be recorded in full and still never pass. */
  lemma ForgottenFieldsDiverge(s: AgentState, contentHash: string)
    requires s.retryCount > 0 && s.plan.pendingOperation.None? && Project(s, None).Some?
    ensures RecordEnter(RetryReader(), "entry", s, [], 4).Some?
    ensures var r := RecordEnter(RetryReader(), "entry", s, [], 4).value;
      && FingerprintOf(r.final).Some?
      && Verdict(RetryReader(), "entry", Project(s, None).value, Tape(r), contentHash, 4) != Passed
  {
    hide Project, FingerprintOf;
    var start := Project(s, None).value;
    var t := Restore(start);
    FingerprintDefined(s);
    RestorationKeepsFingerprint(s);
    TwoNodes(s, "retried");
    TwoNodes(t, "first");
    var r, q := RecordEnter(RetryReader(), "entry", s, [], 4).value, RecordEnter(RetryReader(), "entry", t, [], 4).value;
    ReplayTheorems.PassedMeansTapeIsItsRecording(RetryReader(), "entry", start, Tape(r), contentHash, 4);
    TapeResponses(r);
    NoResponses(r.steps[0], r.steps[1], r.steps[2]);
    assert Tape(r)[1] == r.steps[1] && Tape(q)[1] == q.steps[1];
    assert !StepAgrees(Tape(r)[1], Tape(q)[1], contentHash);
  }

  lemma NoResponses(a: Step, b: Step, c: Step)
    requires !a.External? && !b.External? && !c.External?
    ensures Responses([a, b, c]) == []
  {
    assert [a, b, c] == [a] + ([b] + [c]);
    ResponsesConcat([a], [b] + [c]);
    ResponsesConcat([b], [c]);
    assert [a][1..] == [] && [b][1..] == [] && [c][1..] == [];
  }

  lemma FingerprintDefined(s: AgentState)
    requires Project(s, None).Some?
    ensures FingerprintOf(s).Some?
  {
  }

  lemma TwoNodes(s: AgentState, to: Node)
    requires FingerprintOf(s).Some? && to == if s.retryCount > 0 then "retried" else "first"
    ensures RecordEnter(RetryReader(), "entry", s, [], 4)
         == Some(Recorded([NodeEntered("entry", FingerprintOf(s).value), RouteTaken("entry", to, to, FingerprintOf(s).value),
                           NodeEntered(to, FingerprintOf(s).value)],
                          ["entry", to], [("entry", to, to)], s, None))
  {
    hide FingerprintOf;
    var m := RetryReader();
    assert to[0] != "entry"[0];
    assert to != "entry";
    assert m.route(to, s) == Stop && m.route("entry", s) == Decide(to);
    assert m.body(to, s, []) == Finish(s) && m.body("entry", s, []) == Finish(s);
    var f := FingerprintOf(s).value;
    var entered, routed, first := NodeEntered(to, f), RouteTaken("entry", to, to, f), NodeEntered("entry", f);
    var end := Some(Recorded([], [], [], s, None));
    assert RecordRoute(m, to, s, [], 0) == end;
    assert RecordBody(m, to, s, [], [], 1) == end;
    var noSteps: seq<Step>, noNodes: seq<Node>, noRoutes: seq<RouteStep> := [], [], [];
    assert [entered] + noSteps == [entered] && [routed] + [entered] == [routed, entered]
      && [first] + [routed, entered] == [first, routed, entered];
    assert [to] + noNodes == [to] && noNodes + [to] == [to] && ["entry"] + [to] == ["entry", to];
    assert noRoutes + noRoutes == noRoutes && [("entry", to, to)] + noRoutes == [("entry", to, to)]
      && noRoutes + [("entry", to, to)] == [("entry", to, to)];
    assert RecordEnter(m, to, s, [], 2) == Preceded([entered], [to], [], end);
    assert RecordRoute(m, "entry", s, [], 2) == Some(Recorded([routed, entered], [to], [("entry", to, to)], s, None));
    assert RecordBody(m, "entry", s, [], [], 3) == RecordRoute(m, "entry", s, [], 2);
    assert RecordEnter(m, "entry", s, [], 4) == Preceded([first], ["entry"], [], RecordBody(m, "entry", s, [], [], 3));
  }
}
