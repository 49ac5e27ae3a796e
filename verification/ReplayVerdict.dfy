/** A deterministic node and router machine, its recording, its replay from a tape, and what the
    PASSED verdict means (replay/capture.py, replay/engine.py, replay/recorded.py,
    agent_runtime/graph.py). Node bodies are arbitrary functions. */
module ReplayVerdict {
  import opened Domain
  import opened AgentStates
  import opened ReplayState
  import opened ReplayTape

  /** What a node body does next, given its input state and the results it has received. */
  datatype Action =
    | Call(kind: CallKind, action: string, fingerprint: string)
    | Finish(next: AgentState)
    | Pause(interrupt: Interrupt)
    | Raise

  datatype Route = Decide(decided: Node) | Follow(to: Node) | Stop

  datatype Machine = Machine(body: (Node, AgentState, seq<Response>) -> Action, route: (Node, AgentState) -> Route)

  // ----- Recording a run against live results -----

  datatype Recorded = Recorded(
    steps: seq<Step>, nodes: seq<Node>, routes: seq<RouteStep>, final: AgentState, interrupt: Option<Interrupt>)

  function Preceded(step: seq<Step>, node: seq<Node>, route: seq<RouteStep>, r: Option<Recorded>): Option<Recorded> {
    if r.None? then None
    else Some(r.value.(steps := step + r.value.steps, nodes := node + r.value.nodes, routes := route + r.value.routes))
  }

  /** The recording of a run that enters `node`; None when the run raises, cannot be projected, or
      has not ended within `fuel` moves. */
  function RecordEnter(m: Machine, node: Node, s: AgentState, live: seq<Response>, fuel: nat): Option<Recorded>
    decreases fuel, 1
  {
    var fingerprint := FingerprintOf(s);
    if fingerprint.None? || fuel == 0 then None
    else Preceded([NodeEntered(node, fingerprint.value)], [node], [], RecordBody(m, node, s, [], live, fuel - 1))
  }

  function RecordBody(m: Machine, node: Node, s: AgentState, got: seq<Response>, live: seq<Response>, fuel: nat): Option<Recorded>
    decreases fuel, 0
  {
    if fuel == 0 then None
    else
      match m.body(node, s, got)
      case Call(kind, action, fingerprint) =>
        if live == [] then None
        else
          Preceded([External(kind, action, Some(fingerprint), live[0])], [], [],
                   RecordBody(m, node, s, got + [live[0]], live[1..], fuel - 1))
      case Finish(next) => RecordRoute(m, node, next, live, fuel - 1)
      case Pause(interrupt) => Some(Recorded([], [], [], s, Some(interrupt)))
      case Raise => None
  }

  function RecordRoute(m: Machine, node: Node, s: AgentState, live: seq<Response>, fuel: nat): Option<Recorded>
    decreases fuel, 2
  {
    match m.route(node, s)
    case Stop => Some(Recorded([], [], [], s, None))
    case Follow(to) => RecordEnter(m, to, s, live, fuel)
    case Decide(to) =>
      var fingerprint := FingerprintOf(s);
      if fingerprint.None? then None
      else
        Preceded([RouteTaken(node, to, to, fingerprint.value)], [], [(node, to, to)], RecordEnter(m, to, s, live, fuel))
  }

  /** The whole tape of a recording, as it is finalised. */
  function Tape(r: Recorded): seq<Step>
    requires FingerprintOf(r.final).Some?
  {
    r.steps + (if r.interrupt.Some? then [Interrupted(r.interrupt.value)] else [])
    + [ReplayTape.Final(FingerprintOf(r.final).value, r.nodes, r.routes)]
  }

  // ----- Replaying from a tape -----

  datatype Outcome = Missed | Failed | Ran(view: View, final: AgentState, interrupt: Option<Interrupt>)

  /** The fingerprint a recorded dependency presents: none for a policy query, the hash of the input
      message for an interpretation, and the request's own otherwise. */
  function Presented(kind: CallKind, fingerprint: string, contentHash: string): Option<string> {
    match kind
    case PolicyCall => None
    case InterpretationCall => Some(contentHash)
    case _ => Some(fingerprint)
  }

  function ReplayEnter(m: Machine, node: Node, s: AgentState, tape: seq<Step>, v: View, contentHash: string, fuel: nat): Outcome
    decreases fuel, 1
  {
    var fingerprint := FingerprintOf(s);
    if fingerprint.None? || fuel == 0 then Failed
    else
      var seen := ObserveNode(tape, v, node, fingerprint.value);
      if seen.None? then Missed else ReplayBody(m, node, s, [], tape, seen.value, contentHash, fuel - 1)
  }

  function ReplayBody(m: Machine, node: Node, s: AgentState, got: seq<Response>, tape: seq<Step>, v: View,
                      contentHash: string, fuel: nat): Outcome
    decreases fuel, 0
  {
    if fuel == 0 then Failed
    else
      match m.body(node, s, got)
      case Call(kind, action, fingerprint) =>
        var (c, step) := Consume(tape, v.cursor, ExternalKind(kind), Presented(kind, fingerprint, contentHash));
        if step.None? then Missed
        else if kind == MutationCall && step.value.action != action then Failed
        else ReplayBody(m, node, s, got + [step.value.response], tape, v.(cursor := c), contentHash, fuel - 1)
      case Finish(next) => ReplayRoute(m, node, next, tape, v, contentHash, fuel - 1)
      case Pause(interrupt) => Ran(v, s, Some(interrupt))
      case Raise => Failed
  }

  function ReplayRoute(m: Machine, node: Node, s: AgentState, tape: seq<Step>, v: View, contentHash: string, fuel: nat): Outcome
    decreases fuel, 2
  {
    match m.route(node, s)
    case Stop => Ran(v, s, None)
    case Follow(to) => ReplayEnter(m, to, s, tape, v, contentHash, fuel)
    case Decide(to) =>
      var fingerprint := FingerprintOf(s);
      if fingerprint.None? then Failed
      else
        var seen := ObserveRoute(tape, v, node, to, fingerprint.value);
        if seen.None? then Missed else ReplayEnter(m, to, s, tape, seen.value, contentHash, fuel)
  }

  const START := View(Cursor(0, []), [], [])

  function Verdict(m: Machine, entry: Node, start: SafeState, tape: seq<Step>, contentHash: string, fuel: nat): Status {
    match ReplayEnter(m, entry, Restore(start), tape, START, contentHash, fuel)
    case Missed => Incomplete
    case Failed => FailedSafe
    case Ran(view, final, interrupt) =>
      var compared := if interrupt.Some? then ObserveInterrupt(tape, view, interrupt.value) else Some(view);
      if compared.None? then Incomplete
      else if FingerprintOf(final).None? then FailedSafe
      else Conclude(tape, compared.value, FingerprintOf(final).value)
  }

  // ----- Agreement between a tape and a recording -----

  /** A tape step says what the actual step says; request fingerprints are compared where the
      replayed dependency presents one and the tape has one. */
  predicate StepAgrees(taped: Step, actual: Step, contentHash: string) {
    if actual.External? then
      && taped.External? && taped.kind == actual.kind && taped.response == actual.response
      && (actual.kind == MutationCall ==> taped.action == actual.action)
      && (actual.fingerprint.Some? ==>
            var presented := Presented(actual.kind, actual.fingerprint.value, contentHash);
            presented.Some? && taped.fingerprint.Some? ==> presented == taped.fingerprint)
    else taped == actual
  }

  ghost predicate Agrees(taped: seq<Step>, actual: seq<Step>, contentHash: string) {
    |taped| == |actual| && forall k :: 0 <= k < |taped| ==> StepAgrees(taped[k], actual[k], contentHash)
  }

  /** The results stored on a tape, in order. */
  function Responses(tape: seq<Step>): seq<Response> {
    if tape == [] then []
    else (if tape[0].External? then [tape[0].response] else []) + Responses(tape[1..])
  }

  /** The tape goes on from `i` with steps that agree. */
  ghost predicate Continues(tape: seq<Step>, i: nat, steps: seq<Step>, contentHash: string) {
    i + |steps| <= |tape| && Agrees(tape[i..i + |steps|], steps, contentHash)
  }

  lemma AgreesCons(t: Step, taped: seq<Step>, a: Step, actual: seq<Step>, contentHash: string)
    ensures Agrees([t] + taped, [a] + actual, contentHash) <==>
      StepAgrees(t, a, contentHash) && Agrees(taped, actual, contentHash)
  {
    hide StepAgrees;
    var x, y := [t] + taped, [a] + actual;
    assert x[0] == t && y[0] == a;
    assert forall k :: 0 <= k < |taped| ==> x[k + 1] == taped[k];
    assert forall k :: 0 <= k < |actual| ==> y[k + 1] == actual[k];
    if Agrees(x, y, contentHash) {
      forall k | 0 <= k < |taped| ensures StepAgrees(taped[k], actual[k], contentHash) {
        assert StepAgrees(x[k + 1], y[k + 1], contentHash);
      }
    }
  }

  lemma ContinuesCons(tape: seq<Step>, i: nat, step: Step, rest: seq<Step>, contentHash: string)
    ensures Continues(tape, i, [step] + rest, contentHash) <==>
      i < |tape| && StepAgrees(tape[i], step, contentHash) && Continues(tape, i + 1, rest, contentHash)
  {
    hide StepAgrees, Agrees;
    var n := 1 + |rest|;
    assert |[step] + rest| == n;
    if i + n <= |tape| {
      assert tape[i..i + n] == [tape[i]] + tape[i + 1..i + 1 + |rest|];
      AgreesCons(tape[i], tape[i + 1..i + 1 + |rest|], step, rest, contentHash);
    }
  }

  /** No mismatch was noted on the way. */
  ghost predicate Clean(o: Outcome, v: View) {
    o.Ran? && o.view.cursor.mismatches == v.cursor.mismatches
  }

  /** A clean replay and the recording went the same way. */
  ghost predicate SameWay(o: Outcome, v: View, r: Option<Recorded>) {
    && o.Ran? && r.Some?
    && o.view.cursor.index == v.cursor.index + |r.value.steps|
    && o.view.nodes == v.nodes + r.value.nodes && o.view.routes == v.routes + r.value.routes
    && o.final == r.value.final && o.interrupt == r.value.interrupt
  }

  ghost predicate Lockstep(o: Outcome, v: View, r: Option<Recorded>, tape: seq<Step>, contentHash: string) {
    && (Clean(o, v) <==> r.Some? && Continues(tape, v.cursor.index, r.value.steps, contentHash))
    && (Clean(o, v) ==> SameWay(o, v, r))
    && (o.Ran? ==> |o.view.cursor.mismatches| >= |v.cursor.mismatches|)
  }

  /** One step of the run: the tape's step was consumed, and noted exactly where it disagrees. */
  lemma MoveInLockstep(o: Outcome, v: View, w: View, step: Step, nodes: seq<Node>, routes: seq<RouteStep>,
                       rest: Option<Recorded>, tape: seq<Step>, contentHash: string)
    requires Lockstep(o, w, rest, tape, contentHash)
    requires v.cursor.index < |tape| && w.cursor.index == v.cursor.index + 1
    requires |w.cursor.mismatches| >= |v.cursor.mismatches|
    requires StepAgrees(tape[v.cursor.index], step, contentHash) ==> w.cursor.mismatches == v.cursor.mismatches
    requires !StepAgrees(tape[v.cursor.index], step, contentHash) ==> |w.cursor.mismatches| > |v.cursor.mismatches|
    requires w.nodes == v.nodes + nodes && w.routes == v.routes + routes
    ensures Lockstep(o, v, Preceded([step], nodes, routes, rest), tape, contentHash)
  {
    hide StepAgrees, Continues;
    if rest.Some? {
      ContinuesCons(tape, v.cursor.index, step, rest.value.steps, contentHash);
    }
  }

  /** A tape that was missed, or a run that failed, agrees with no recording that starts so. */
  lemma StoppedInLockstep(o: Outcome, v: View, step: Step, nodes: seq<Node>, routes: seq<RouteStep>,
                          rest: Option<Recorded>, tape: seq<Step>, contentHash: string)
    requires !o.Ran?
    requires v.cursor.index < |tape| ==> !StepAgrees(tape[v.cursor.index], step, contentHash)
    ensures Lockstep(o, v, Preceded([step], nodes, routes, rest), tape, contentHash)
  {
    hide StepAgrees, Continues;
    if rest.Some? {
      ContinuesCons(tape, v.cursor.index, step, rest.value.steps, contentHash);
    }
  }

  lemma NothingRecorded(o: Outcome, v: View, tape: seq<Step>, contentHash: string)
    requires !o.Ran?
    ensures Lockstep(o, v, None, tape, contentHash)
  {
  }

  lemma EndsInLockstep(v: View, final: AgentState, interrupt: Option<Interrupt>, tape: seq<Step>, contentHash: string)
    requires v.cursor.index <= |tape|
    ensures Lockstep(Ran(v, final, interrupt), v, Some(Recorded([], [], [], final, interrupt)), tape, contentHash)
  {
  }

  lemma ResponsesFrom(tape: seq<Step>, i: nat)
    requires i < |tape|
    ensures Responses(tape[i..])
         == (if tape[i].External? then [tape[i].response] else []) + Responses(tape[i + 1..])
  {
    assert tape[i..][1..] == tape[i + 1..];
  }

  /** The replay of a run and the recording of the same run, fed with the tape's own results, keep
      step: the replay stays clean exactly as long as the tape agrees with the recording. */
  lemma {:induction false} EnterInLockstep(m: Machine, node: Node, s: AgentState, tape: seq<Step>, v: View,
                                           contentHash: string, fuel: nat)
    requires v.cursor.index <= |tape|
    ensures Lockstep(ReplayEnter(m, node, s, tape, v, contentHash, fuel), v,
                     RecordEnter(m, node, s, Responses(tape[v.cursor.index..]), fuel), tape, contentHash)
    decreases fuel, 1
  {
    hide Lockstep;
    var o := ReplayEnter(m, node, s, tape, v, contentHash, fuel);
    var live := Responses(tape[v.cursor.index..]);
    if FingerprintOf(s).None? || fuel == 0 {
      NothingRecorded(o, v, tape, contentHash);
    } else {
      var step := NodeEntered(node, FingerprintOf(s).value);
      var rest := RecordBody(m, node, s, [], live, fuel - 1);
      var seen := ObserveNode(tape, v, node, FingerprintOf(s).value);
      if seen.None? {
        StoppedInLockstep(o, v, step, [node], [], rest, tape, contentHash);
      } else {
        ResponsesFrom(tape, v.cursor.index);
        assert live == Responses(tape[seen.value.cursor.index..]);
        BodyInLockstep(m, node, s, [], tape, seen.value, contentHash, fuel - 1);
        MoveInLockstep(o, v, seen.value, step, [node], [], rest, tape, contentHash);
      }
    }
  }

  lemma {:induction false} BodyInLockstep(m: Machine, node: Node, s: AgentState, got: seq<Response>, tape: seq<Step>, v: View,
                                          contentHash: string, fuel: nat)
    requires v.cursor.index <= |tape|
    ensures Lockstep(ReplayBody(m, node, s, got, tape, v, contentHash, fuel), v,
                     RecordBody(m, node, s, got, Responses(tape[v.cursor.index..]), fuel), tape, contentHash)
    decreases fuel, 0
  {
    hide Lockstep;
    var o := ReplayBody(m, node, s, got, tape, v, contentHash, fuel);
    var live := Responses(tape[v.cursor.index..]);
    if fuel == 0 {
      NothingRecorded(o, v, tape, contentHash);
    } else {
      match m.body(node, s, got)
      case Call(kind, action, fingerprint) => CallInLockstep(m, node, s, got, tape, v, contentHash, fuel, kind, action, fingerprint);
      case Finish(next) => RouteInLockstep(m, node, next, tape, v, contentHash, fuel - 1);
      case Pause(interrupt) => EndsInLockstep(v, s, Some(interrupt), tape, contentHash);
      case Raise => NothingRecorded(o, v, tape, contentHash);
    }
  }

  lemma {:induction false} CallInLockstep(m: Machine, node: Node, s: AgentState, got: seq<Response>, tape: seq<Step>, v: View,
                                          contentHash: string, fuel: nat, kind: CallKind, action: string, fingerprint: string)
    requires v.cursor.index <= |tape| && fuel > 0 && m.body(node, s, got) == Call(kind, action, fingerprint)
    ensures Lockstep(ReplayBody(m, node, s, got, tape, v, contentHash, fuel), v,
                     RecordBody(m, node, s, got, Responses(tape[v.cursor.index..]), fuel), tape, contentHash)
    decreases fuel - 1, 3
  {
    hide Lockstep;
    var o := ReplayBody(m, node, s, got, tape, v, contentHash, fuel);
    var live := Responses(tape[v.cursor.index..]);
    var (c, taped) := Consume(tape, v.cursor, ExternalKind(kind), Presented(kind, fingerprint, contentHash));
    if live == [] {
      if v.cursor.index < |tape| {
        ResponsesFrom(tape, v.cursor.index);
      }
      NothingRecorded(o, v, tape, contentHash);
    } else {
      var step := External(kind, action, Some(fingerprint), live[0]);
      var rest := RecordBody(m, node, s, got + [live[0]], live[1..], fuel - 1);
      if taped.None? || (kind == MutationCall && taped.value.action != action) {
        StoppedInLockstep(o, v, step, [], [], rest, tape, contentHash);
      } else {
        ResponsesFrom(tape, v.cursor.index);
        assert live[1..] == Responses(tape[v.cursor.index + 1..]);
        BodyInLockstep(m, node, s, got + [live[0]], tape, v.(cursor := c), contentHash, fuel - 1);
        MoveInLockstep(o, v, v.(cursor := c), step, [], [], rest, tape, contentHash);
      }
    }
  }

  lemma {:induction false} RouteInLockstep(m: Machine, node: Node, s: AgentState, tape: seq<Step>, v: View,
                                           contentHash: string, fuel: nat)
    requires v.cursor.index <= |tape|
    ensures Lockstep(ReplayRoute(m, node, s, tape, v, contentHash, fuel), v,
                     RecordRoute(m, node, s, Responses(tape[v.cursor.index..]), fuel), tape, contentHash)
    decreases fuel, 2
  {
    hide Lockstep;
    var o := ReplayRoute(m, node, s, tape, v, contentHash, fuel);
    var live := Responses(tape[v.cursor.index..]);
    match m.route(node, s)
    case Stop => EndsInLockstep(v, s, None, tape, contentHash);
    case Follow(to) => EnterInLockstep(m, to, s, tape, v, contentHash, fuel);
    case Decide(to) =>
      if FingerprintOf(s).None? {
        NothingRecorded(o, v, tape, contentHash);
      } else {
        var step := RouteTaken(node, to, to, FingerprintOf(s).value);
        var rest := RecordEnter(m, to, s, live, fuel);
        var seen := ObserveRoute(tape, v, node, to, FingerprintOf(s).value);
        if seen.None? {
          StoppedInLockstep(o, v, step, [], [(node, to, to)], rest, tape, contentHash);
        } else {
          ResponsesFrom(tape, v.cursor.index);
          assert live == Responses(tape[seen.value.cursor.index..]);
          EnterInLockstep(m, to, s, tape, seen.value, contentHash, fuel);
          MoveInLockstep(o, v, seen.value, step, [], [(node, to, to)], rest, tape, contentHash);
        }
      }
  }
}
