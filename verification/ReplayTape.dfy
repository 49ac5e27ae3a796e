/** The recorded tape, its single-use cursor, and the observer that compares a replayed graph with
    it (replay/steps.py, replay/tape.py, replay/comparison.py). */
module ReplayTape {
  import opened Domain
  import opened ReplayState

  type Node = string

  datatype CallKind =
    | InterpretationCall | PropertyCall | PolicyCall | DuplicateCall | SnapshotCall | SlotCall | MutationCall

  /** A validated provider, policy or tool result. */
  datatype Response = Response(body: string, unknownCommit: bool)

  datatype Interrupt = Interrupt(kind: string, payload: string)

  type RouteStep = (Node, Node, Node)

  /** A recorded step: its payload and, for an external call, the fingerprint of the request. */
  datatype Step =
    | NodeEntered(node: Node, state: SafeState)
    | External(kind: CallKind, action: string, fingerprint: Option<string>, response: Response)
    | RouteTaken(from: Node, decision: Node, to: Node, input: SafeState)
    | Interrupted(interrupt: Interrupt)
    | Final(final: SafeState, nodes: seq<Node>, routes: seq<RouteStep>)
    | OperatorMutation

  datatype StepKind = NodeKind | ExternalKind(kind: CallKind) | RouteKind | InterruptKind | FinalKind | OperatorKind

  function KindOf(step: Step): StepKind {
    match step
    case NodeEntered(_, _) => NodeKind
    case External(kind, _, _, _) => ExternalKind(kind)
    case RouteTaken(_, _, _, _) => RouteKind
    case Interrupted(_) => InterruptKind
    case Final(_, _, _) => FinalKind
    case OperatorMutation => OperatorKind
  }

  datatype Mismatch =
    | TapeMiss | UnexpectedCall | RequestFingerprintMismatch | NodeSequenceMismatch | NodeStateMismatch
    | RouteDecisionMismatch | RouteInputMismatch | InterruptMismatch | RouteDigestMismatch | FinalStateMismatch
    | UnconsumedStep

  datatype Status = Passed | Diverged | Incomplete | FailedSafe

  // ----- The cursor -----

  datatype Cursor = Cursor(index: nat, mismatches: seq<Mismatch>)

  function Noted(c: Cursor, condition: bool, mismatch: Mismatch): Cursor {
    if condition then c.(mismatches := c.mismatches + [mismatch]) else c
  }

  function StepFingerprint(step: Step): Option<string> {
    if step.External? then step.fingerprint else None
  }

  /** The next step, when it is of the wanted kind; otherwise the tape is missed. Differing request
      fingerprints are noted only when both sides have one. */
  function Consume(tape: seq<Step>, c: Cursor, kind: StepKind, fingerprint: Option<string>): (Cursor, Option<Step>) {
    if c.index >= |tape| then (Noted(c, true, TapeMiss), None)
    else
      var step, next := tape[c.index], c.(index := c.index + 1);
      if KindOf(step) != kind then (Noted(next, true, UnexpectedCall), None)
      else
        (Noted(next, fingerprint.Some? && StepFingerprint(step).Some? && StepFingerprint(step) != fingerprint,
               RequestFingerprintMismatch),
         Some(step))
  }

  function Unconsumed(n: nat): seq<Mismatch> {
    if n == 0 then [] else Unconsumed(n - 1) + [UnconsumedStep]
  }

  class TapeCursor {
    const steps: seq<Step>
    var index: nat
    var mismatches: seq<Mismatch>

    constructor (steps: seq<Step>)
      ensures this.steps == steps && Position() == Cursor(0, [])
    {
      this.steps := steps;
      index, mismatches := 0, [];
    }

    function Position(): Cursor
      reads this
    {
      Cursor(index, mismatches)
    }

    /** None stands for the raised tape miss. */
    method Take(kind: StepKind, fingerprint: Option<string>) returns (step: Option<Step>)
      modifies this
      ensures (Position(), step) == Consume(steps, old(Position()), kind, fingerprint)
    {
      if index >= |steps| {
        mismatches := mismatches + [TapeMiss];
        return None;
      }
      var expected := steps[index];
      index := index + 1;
      if KindOf(expected) != kind {
        mismatches := mismatches + [UnexpectedCall];
        return None;
      }
      if fingerprint.Some? && StepFingerprint(expected).Some? && StepFingerprint(expected) != fingerprint {
        mismatches := mismatches + [RequestFingerprintMismatch];
      }
      step := Some(expected);
    }

    /** Every step not consumed is a mismatch of its own. */
    method Finish()
      requires index <= |steps|
      modifies this
      ensures index == |steps|
      ensures mismatches == old(mismatches) + Unconsumed(|steps| - old(index))
    {
      ghost var before := mismatches;
      var k := index;
      assert mismatches == before + Unconsumed(0);
      while k < |steps|
        invariant old(index) <= k <= |steps| && index == old(index)
        invariant mismatches == before + Unconsumed(k - old(index))
        modifies `mismatches
      {
        mismatches := mismatches + [UnconsumedStep];
        k := k + 1;
      }
      index := |steps|;
    }
  }

  // ----- The observer -----

  datatype View = View(cursor: Cursor, nodes: seq<Node>, routes: seq<RouteStep>)

  /** What entering a node does to the comparison, when the state can be projected; None when the
      tape is missed. */
  function ObserveNode(tape: seq<Step>, v: View, node: Node, state: SafeState): Option<View> {
    var (c, step) := Consume(tape, v.cursor, NodeKind, None);
    if step.None? then None
    else
      var named := Noted(c, step.value.node != node, NodeSequenceMismatch);
      Some(View(Noted(named, step.value.state != state, NodeStateMismatch), v.nodes + [node], v.routes))
  }

  function ObserveRoute(tape: seq<Step>, v: View, from: Node, to: Node, input: SafeState): Option<View> {
    var (c, step) := Consume(tape, v.cursor, RouteKind, None);
    if step.None? then None
    else
      var s := step.value;
      var decided := Noted(c, (s.from, s.decision, s.to) != (from, to, to), RouteDecisionMismatch);
      Some(View(Noted(decided, s.input != input, RouteInputMismatch), v.nodes, v.routes + [(from, to, to)]))
  }

  function ObserveInterrupt(tape: seq<Step>, v: View, interrupt: Interrupt): Option<View> {
    var (c, step) := Consume(tape, v.cursor, InterruptKind, None);
    if step.None? then None
    else Some(v.(cursor := Noted(c, step.value.interrupt != interrupt, InterruptMismatch)))
  }

  /** The verdict once the graph has ended in `final`. */
  function Conclude(tape: seq<Step>, v: View, final: SafeState): Status {
    var (c, step) := Consume(tape, v.cursor, FinalKind, None);
    if step.None? then Incomplete
    else
      var routed := Noted(c, (step.value.nodes, step.value.routes) != (v.nodes, v.routes), RouteDigestMismatch);
      var stated := Noted(routed, step.value.final != final, FinalStateMismatch);
      if stated.mismatches == [] && stated.index == |tape| then Passed else Diverged
  }

  class Observer {
    const cursor: TapeCursor
    var nodes: seq<Node>
    var routes: seq<RouteStep>

    constructor (cursor: TapeCursor)
      ensures this.cursor == cursor && nodes == [] && routes == []
    {
      this.cursor := cursor;
      nodes, routes := [], [];
    }

    function Seen(): View
      reads this, cursor
    {
      View(cursor.Position(), nodes, routes)
    }

    /** False stands for the raised tape miss. */
    method EnterNode(node: Node, state: SafeState) returns (ok: bool)
      modifies this, cursor
      ensures ok <==> ObserveNode(cursor.steps, old(Seen()), node, state).Some?
      ensures ok ==> Seen() == ObserveNode(cursor.steps, old(Seen()), node, state).value
    {
      nodes := nodes + [node];
      var step := cursor.Take(NodeKind, None);
      if step.None? {
        return false;
      }
      if step.value.node != node {
        cursor.mismatches := cursor.mismatches + [NodeSequenceMismatch];
      }
      if step.value.state != state {
        cursor.mismatches := cursor.mismatches + [NodeStateMismatch];
      }
      ok := true;
    }

    method DecideRoute(from: Node, to: Node, input: SafeState) returns (ok: bool)
      modifies this, cursor
      ensures ok <==> ObserveRoute(cursor.steps, old(Seen()), from, to, input).Some?
      ensures ok ==> Seen() == ObserveRoute(cursor.steps, old(Seen()), from, to, input).value
    {
      routes := routes + [(from, to, to)];
      var step := cursor.Take(RouteKind, None);
      if step.None? {
        return false;
      }
      if (step.value.from, step.value.decision, step.value.to) != (from, to, to) {
        cursor.mismatches := cursor.mismatches + [RouteDecisionMismatch];
      }
      if step.value.input != input {
        cursor.mismatches := cursor.mismatches + [RouteInputMismatch];
      }
      ok := true;
    }

    method CompareInterrupt(interrupt: Option<Interrupt>) returns (ok: bool)
      modifies cursor
      ensures interrupt.None? ==> ok && Seen() == old(Seen())
      ensures interrupt.Some? ==> (ok <==> ObserveInterrupt(cursor.steps, old(Seen()), interrupt.value).Some?)
      ensures interrupt.Some? && ok ==> Seen() == ObserveInterrupt(cursor.steps, old(Seen()), interrupt.value).value
    {
      if interrupt.None? {
        return true;
      }
      var step := cursor.Take(InterruptKind, None);
      if step.None? {
        return false;
      }
      if step.value.interrupt != interrupt.value {
        cursor.mismatches := cursor.mismatches + [InterruptMismatch];
      }
      ok := true;
    }

    method Finish(final: SafeState) returns (status: Status)
      requires cursor.index <= |cursor.steps|
      modifies cursor
      ensures status == Conclude(cursor.steps, old(Seen()), final)
      ensures status == Passed ==> cursor.index == |cursor.steps| && cursor.mismatches == []
    {
      var step := cursor.Take(FinalKind, None);
      if step.None? {
        return Incomplete;
      }
      if (step.value.nodes, step.value.routes) != (nodes, routes) {
        cursor.mismatches := cursor.mismatches + [RouteDigestMismatch];
      }
      if step.value.final != final {
        cursor.mismatches := cursor.mismatches + [FinalStateMismatch];
      }
      cursor.Finish();
      status := if cursor.mismatches == [] then Passed else Diverged;
    }
  }
}
