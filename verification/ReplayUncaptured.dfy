/** The graph's run on its own, with no capture attached, and what attaching one does to it
    (agent_runtime/graph.py, replay/capture.py). */
module ReplayUncaptured {
  import opened Domain
  import opened AgentStates
  import opened ReplayState
  import opened ReplayTape
  import opened ReplayVerdict

  /** How a run ended. */
  datatype Ended = Ended(final: AgentState, interrupt: Option<Interrupt>)

  /** A run, and the states it entered a node with or decided a route on: those a capture is shown. */
  datatype Plain = Plain(ended: Ended, seen: seq<AgentState>)

  function Saw(s: AgentState, run: Option<Plain>): Option<Plain> {
    if run.None? then None else Some(run.value.(seen := [s] + run.value.seen))
  }

  /** The run itself; None when it raises or has not ended within `fuel` moves. */
  function RunEnter(m: Machine, node: Node, s: AgentState, live: seq<Response>, fuel: nat): Option<Plain>
    decreases fuel, 1
  {
    if fuel == 0 then None else Saw(s, RunBody(m, node, s, [], live, fuel - 1))
  }

  function RunBody(m: Machine, node: Node, s: AgentState, got: seq<Response>, live: seq<Response>, fuel: nat): Option<Plain>
    decreases fuel, 0
  {
    if fuel == 0 then None
    else
      match m.body(node, s, got)
      case Call(_, _, _) => if live == [] then None else RunBody(m, node, s, got + [live[0]], live[1..], fuel - 1)
      case Finish(next) => RunRoute(m, node, next, live, fuel - 1)
      case Pause(interrupt) => Some(Plain(Ended(s, Some(interrupt)), []))
      case Raise => None
  }

  function RunRoute(m: Machine, node: Node, s: AgentState, live: seq<Response>, fuel: nat): Option<Plain>
    decreases fuel, 2
  {
    match m.route(node, s)
    case Stop => Some(Plain(Ended(s, None), []))
    case Follow(to) => RunEnter(m, to, s, live, fuel)
    case Decide(to) => Saw(s, RunEnter(m, to, s, live, fuel))
  }

  predicate AllSummarized(states: seq<AgentState>) {
    forall k :: 0 <= k < |states| ==> Summarized(states[k])
  }

  /** The recording exists exactly when the run ends and every state shown fits its summary, and then
      it is of that very run. */
  predicate Undisturbed(run: Option<Plain>, r: Option<Recorded>) {
    && (r.Some? <==> run.Some? && AllSummarized(run.value.seen))
    && (r.Some? ==> run.value.ended == Ended(r.value.final, r.value.interrupt))
  }

  lemma ShownNext(s: AgentState, run: Option<Plain>, steps: seq<Step>, nodes: seq<Node>, routes: seq<RouteStep>, r: Option<Recorded>)
    requires Undisturbed(run, r)
    ensures Undisturbed(Saw(s, run), if Summarized(s) then Preceded(steps, nodes, routes, r) else None)
  {
    hide Summarized;
    if run.Some? {
      var seen := [s] + run.value.seen;
      assert seen[0] == s && forall k :: 0 <= k < |run.value.seen| ==> seen[k + 1] == run.value.seen[k];
      if AllSummarized(seen) {
        forall k | 0 <= k < |run.value.seen| ensures Summarized(run.value.seen[k]) {
          assert Summarized(seen[k + 1]);
        }
      }
    }
  }

  lemma FingerprintNeedsSummary(s: AgentState)
    ensures FingerprintOf(s).Some? <==> Summarized(s)
  {
  }

  lemma {:induction false} EnterUndisturbed(m: Machine, node: Node, s: AgentState, live: seq<Response>, fuel: nat)
    ensures Undisturbed(RunEnter(m, node, s, live, fuel), RecordEnter(m, node, s, live, fuel))
    decreases fuel, 1
  {
    hide FingerprintOf, Summarized;
    if fuel > 0 {
      FingerprintNeedsSummary(s);
      BodyUndisturbed(m, node, s, [], live, fuel - 1);
      hide Undisturbed;
      var steps := if FingerprintOf(s).Some? then [NodeEntered(node, FingerprintOf(s).value)] else [];
      ShownNext(s, RunBody(m, node, s, [], live, fuel - 1), steps, [node], [], RecordBody(m, node, s, [], live, fuel - 1));
    }
  }

  lemma {:induction false} BodyUndisturbed(m: Machine, node: Node, s: AgentState, got: seq<Response>, live: seq<Response>, fuel: nat)
    ensures Undisturbed(RunBody(m, node, s, got, live, fuel), RecordBody(m, node, s, got, live, fuel))
    decreases fuel, 0
  {
    hide FingerprintOf, Summarized;
    if fuel > 0 {
      match m.body(node, s, got)
      case Call(_, _, _) =>
        if live != [] {
          BodyUndisturbed(m, node, s, got + [live[0]], live[1..], fuel - 1);
        }
      case Finish(next) => RouteUndisturbed(m, node, next, live, fuel - 1);
      case Pause(_) =>
      case Raise =>
    }
  }

  lemma {:induction false} RouteUndisturbed(m: Machine, node: Node, s: AgentState, live: seq<Response>, fuel: nat)
    ensures Undisturbed(RunRoute(m, node, s, live, fuel), RecordRoute(m, node, s, live, fuel))
    decreases fuel, 2
  {
    hide FingerprintOf, Summarized;
    match m.route(node, s)
    case Stop =>
    case Follow(to) => EnterUndisturbed(m, to, s, live, fuel);
    case Decide(to) =>
      FingerprintNeedsSummary(s);
      EnterUndisturbed(m, to, s, live, fuel);
      hide Undisturbed;
      var steps := if FingerprintOf(s).Some? then [RouteTaken(node, to, to, FingerprintOf(s).value)] else [];
      ShownNext(s, RunEnter(m, to, s, live, fuel), steps, [], [(node, to, to)], RecordEnter(m, to, s, live, fuel));
  }

  /** Attaching a capture leaves a run as it is exactly when no state shown to it, on entering a node
      or deciding a route, has a description of more than 1000 characters; otherwise the run, which
      would have ended, fails. */
  lemma CaptureDisturbsLongDescriptions(m: Machine, entry: Node, s: AgentState, live: seq<Response>, fuel: nat)
    ensures
      var run, r := RunEnter(m, entry, s, live, fuel), RecordEnter(m, entry, s, live, fuel);
      && (r.Some? ==> run.Some? && run.value.ended == Ended(r.value.final, r.value.interrupt))
      && (run.Some? ==>
            (r.Some? <==> forall k :: 0 <= k < |run.value.seen| ==>
               var description := run.value.seen[k].issue.description;
               description.Some? ==> |description.value| <= 1000))
  {
    EnterUndisturbed(m, entry, s, live, fuel);
    hide RunEnter, RecordEnter;
  }

  // ----- A run that a capture fails -----

  const NO_LOCATION := Issue(None, None, None, None, None)

  /** A new conversation that says `description` of the issue. */
  function Saying(description: string): AgentState {
    AgentState(1, Owner(1, ActorType.Resident, 1, 1, None, false), Target(None, None, None, None, None),
               UnknownIntent, UnknownIntent, 1, NO_LOCATION.(description := Some(description)), None, [], [], EMPTY_PLAN, [],
               false, false, Intake, Reconciling(None, None, None), Dialogue([], None, None, None, None), 0, None)
  }

  /** One node that does nothing. */
  function Idle(): Machine {
    Machine((node, s, got) => Finish(s), (node, s) => Stop)
  }

  lemma IdleRuns(s: AgentState)
    ensures RunEnter(Idle(), "entry", s, [], 2) == Some(Plain(Ended(s, None), [s]))
  {
    var m := Idle();
    assert RunRoute(m, "entry", s, [], 0) == Some(Plain(Ended(s, None), []));
    assert m.body("entry", s, []) == Finish(s);
    assert RunBody(m, "entry", s, [], [], 1) == RunRoute(m, "entry", s, [], 0);
    var none: seq<AgentState> := [];
    assert [s] + none == [s];
  }

  /** A valid state whose description has 1001 characters: its run ends on its own, and fails with a
      capture attached. */
  lemma LongDescriptionFailsCapture(fold: char -> string)
    ensures var s := Saying(seq(1001, i => 'x'));
      && Valid(fold, s)
      && RunEnter(Idle(), "entry", s, [], 2) == Some(Plain(Ended(s, None), [s]))
      && RecordEnter(Idle(), "entry", s, [], 2).None?
  {
    var s := Saying(seq(1001, i => 'x'));
    IdleRuns(s);
    CaptureDisturbsLongDescriptions(Idle(), "entry", s, [], 2);
    hide RunEnter, RecordEnter;
    var run: Option<Plain> := Some(Plain(Ended(s, None), [s]));
    assert run.value.seen[0] == s;
  }
}
