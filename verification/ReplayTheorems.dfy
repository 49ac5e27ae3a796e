/** What PASSED means, both ways: on any tape it means the tape is what a recorder would have
    recorded from the replayed run; and a recorded run passes exactly when its start survives
    redaction. */
module ReplayTheorems {
  import opened Domain
  import opened AgentStates
  import opened ReplayState
  import opened ReplayTape
  import opened ReplayVerdict

  // ----- The verdict, exactly -----

  lemma AgreesSplit(tape: seq<Step>, front: seq<Step>, back: seq<Step>, contentHash: string)
    ensures Agrees(tape, front + back, contentHash) <==>
      Continues(tape, 0, front, contentHash) && Agrees(tape[|front|..], back, contentHash)
  {
    hide StepAgrees;
    var all := front + back;
    if |tape| == |all| {
      assert forall k :: 0 <= k < |front| ==> tape[0..|front|][k] == tape[k] && all[k] == front[k];
      assert forall k :: 0 <= k < |back| ==> tape[|front|..][k] == tape[|front| + k] && all[|front| + k] == back[k];
      if Continues(tape, 0, front, contentHash) && Agrees(tape[|front|..], back, contentHash) {
        forall k | 0 <= k < |tape| ensures StepAgrees(tape[k], all[k], contentHash) {
          if k >= |front| {
            assert StepAgrees(tape[|front|..][k - |front|], back[k - |front|], contentHash);
          } else {
            assert StepAgrees(tape[0..|front|][k], front[k], contentHash);
          }
        }
      }
      if Agrees(tape, all, contentHash) {
        forall k | 0 <= k < |back| ensures StepAgrees(tape[|front|..][k], back[k], contentHash) {
          assert StepAgrees(tape[|front| + k], all[|front| + k], contentHash);
        }
      }
    }
  }

  /** The end of a tape: the interrupt, if any, and the final state. */
  function Ending(r: Recorded): seq<Step>
    requires FingerprintOf(r.final).Some?
  {
    (if r.interrupt.Some? then [Interrupted(r.interrupt.value)] else [])
    + [ReplayTape.Final(FingerprintOf(r.final).value, r.nodes, r.routes)]
  }

  lemma EndingDecides(tape: seq<Step>, v: View, r: Recorded, contentHash: string)
    requires v.cursor.index <= |tape| && v.cursor.mismatches == []
    requires FingerprintOf(r.final).Some? && v.nodes == r.nodes && v.routes == r.routes
    ensures
      var seen := if r.interrupt.Some? then ObserveInterrupt(tape, v, r.interrupt.value) else Some(v);
      (seen.Some? && Conclude(tape, seen.value, FingerprintOf(r.final).value) == Passed)
        <==> Agrees(tape[v.cursor.index..], Ending(r), contentHash)
  {
    var rest := tape[v.cursor.index..];
    hide FingerprintOf;
    if r.interrupt.Some? {
      assert |Ending(r)| == 2;
      assert |rest| == 2 ==> rest == [tape[v.cursor.index], tape[v.cursor.index + 1]];
    } else {
      assert |rest| == 1 ==> rest == [tape[v.cursor.index]];
    }
  }

  /** On any tape: replay passes exactly when the replayed machine, fed with the tape's own results,
      runs to an end and its recording agrees with the tape step for step, with nothing over. */
  lemma PassedMeansTapeIsItsRecording(m: Machine, entry: Node, start: SafeState, tape: seq<Step>, contentHash: string, fuel: nat)
    ensures Verdict(m, entry, start, tape, contentHash, fuel) == Passed <==>
      var r := RecordEnter(m, entry, Restore(start), Responses(tape), fuel);
      r.Some? && FingerprintOf(r.value.final).Some? && Agrees(tape, Tape(r.value), contentHash)
  {
    var o := ReplayEnter(m, entry, Restore(start), tape, START, contentHash, fuel);
    assert tape[0..] == tape;
    EnterInLockstep(m, entry, Restore(start), tape, START, contentHash, fuel);
    var r := RecordEnter(m, entry, Restore(start), Responses(tape), fuel);
    hide ReplayEnter, RecordEnter, FingerprintOf, Restore, Continues, Agrees;
    if r.Some? && FingerprintOf(r.value.final).Some? {
      assert Tape(r.value) == r.value.steps + Ending(r.value);
      AgreesSplit(tape, r.value.steps, Ending(r.value), contentHash);
      if Clean(o, START) {
        EndingIndex(tape, r.value.steps, contentHash);
        EndingDecides(tape, o.view, r.value, contentHash);
      } else if o.Ran? {
        DirtyNeverPasses(tape, o.view, o.interrupt, o.final);
      }
    } else if o.Ran? && !Clean(o, START) {
      DirtyNeverPasses(tape, o.view, o.interrupt, o.final);
    }
  }

  lemma EndingIndex(tape: seq<Step>, steps: seq<Step>, contentHash: string)
    requires Continues(tape, 0, steps, contentHash)
    ensures |steps| <= |tape|
  {
  }

  /** A mismatch once noted is never forgiven. */
  lemma DirtyNeverPasses(tape: seq<Step>, v: View, interrupt: Option<Interrupt>, final: AgentState)
    requires v.cursor.mismatches != []
    ensures
      var seen := if interrupt.Some? then ObserveInterrupt(tape, v, interrupt.value) else Some(v);
      seen.Some? && FingerprintOf(final).Some? ==>
        Conclude(tape, seen.value, FingerprintOf(final).value) != Passed
  {
    hide FingerprintOf;
  }

  // ----- Soundness, read off the tape -----

  function NodesOf(tape: seq<Step>): seq<Node> {
    if tape == [] then []
    else NodesOf(tape[..|tape| - 1])
         + if tape[|tape| - 1].NodeEntered? then [tape[|tape| - 1].node] else []
  }

  function RoutesOf(tape: seq<Step>): seq<RouteStep> {
    if tape == [] then []
    else
      var last := tape[|tape| - 1];
      RoutesOf(tape[..|tape| - 1]) + if last.RouteTaken? then [(last.from, last.decision, last.to)] else []
  }

  function CallsOf(tape: seq<Step>): seq<CallKind> {
    if tape == [] then []
    else CallsOf(tape[..|tape| - 1]) + if tape[|tape| - 1].External? then [tape[|tape| - 1].kind] else []
  }

  lemma {:induction false} AgreementReadsTheSame(taped: seq<Step>, actual: seq<Step>, contentHash: string)
    requires Agrees(taped, actual, contentHash)
    ensures NodesOf(taped) == NodesOf(actual) && RoutesOf(taped) == RoutesOf(actual) && CallsOf(taped) == CallsOf(actual)
  {
    if taped != [] {
      var last := |taped| - 1;
      assert StepAgrees(taped[last], actual[last], contentHash);
      forall k | 0 <= k < last ensures StepAgrees(taped[..last][k], actual[..last][k], contentHash) {
        assert StepAgrees(taped[k], actual[k], contentHash);
      }
      hide StepAgrees;
      AgreementReadsTheSame(taped[..last], actual[..last], contentHash);
    }
  }

  lemma {:induction false} ReadConcat(a: seq<Step>, b: seq<Step>)
    ensures NodesOf(a + b) == NodesOf(a) + NodesOf(b)
    ensures RoutesOf(a + b) == RoutesOf(a) + RoutesOf(b)
    ensures CallsOf(a + b) == CallsOf(a) + CallsOf(b)
  {
    if b == [] {
      assert a + b == a;
    } else {
      assert (a + b)[..|a + b| - 1] == a + b[..|b| - 1];
      ReadConcat(a, b[..|b| - 1]);
    }
  }

  lemma ReadOne(step: Step)
    ensures NodesOf([step]) == if step.NodeEntered? then [step.node] else []
    ensures RoutesOf([step]) == if step.RouteTaken? then [(step.from, step.decision, step.to)] else []
    ensures CallsOf([step]) == if step.External? then [step.kind] else []
  {
    assert [step][..0] == [];
  }

  /** A recording lists the nodes it entered and the routes it took. */
  ghost predicate SelfConsistent(r: Option<Recorded>) {
    r.Some? ==> NodesOf(r.value.steps) == r.value.nodes && RoutesOf(r.value.steps) == r.value.routes
  }

  lemma PrecededConsistent(step: Step, rest: Option<Recorded>)
    requires SelfConsistent(rest)
    ensures SelfConsistent(Preceded([step], if step.NodeEntered? then [step.node] else [],
                                    if step.RouteTaken? then [(step.from, step.decision, step.to)] else [], rest))
  {
    ReadOne(step);
    if rest.Some? {
      ReadConcat([step], rest.value.steps);
    }
  }

  lemma {:induction false} EnterConsistent(m: Machine, node: Node, s: AgentState, live: seq<Response>, fuel: nat)
    ensures SelfConsistent(RecordEnter(m, node, s, live, fuel))
    decreases fuel, 1
  {
    hide SelfConsistent;
    NothingConsistent();
    if FingerprintOf(s).Some? && fuel > 0 {
      BodyConsistent(m, node, s, [], live, fuel - 1);
      PrecededConsistent(NodeEntered(node, FingerprintOf(s).value), RecordBody(m, node, s, [], live, fuel - 1));
    }
  }

  lemma NothingConsistent()
    ensures SelfConsistent(None)
  {
  }

  lemma EndConsistent(s: AgentState, interrupt: Option<Interrupt>)
    ensures SelfConsistent(Some(Recorded([], [], [], s, interrupt)))
  {
  }

  lemma {:induction false} BodyConsistent(m: Machine, node: Node, s: AgentState, got: seq<Response>, live: seq<Response>, fuel: nat)
    ensures SelfConsistent(RecordBody(m, node, s, got, live, fuel))
    decreases fuel, 0
  {
    hide SelfConsistent;
    NothingConsistent();
    if fuel > 0 {
      match m.body(node, s, got)
      case Call(kind, action, fingerprint) =>
        if live != [] {
          BodyConsistent(m, node, s, got + [live[0]], live[1..], fuel - 1);
          PrecededConsistent(External(kind, action, Some(fingerprint), live[0]),
                             RecordBody(m, node, s, got + [live[0]], live[1..], fuel - 1));
        }
      case Finish(next) => RouteConsistent(m, node, next, live, fuel - 1);
      case Pause(interrupt) => EndConsistent(s, Some(interrupt));
      case Raise =>
    }
  }

  lemma {:induction false} RouteConsistent(m: Machine, node: Node, s: AgentState, live: seq<Response>, fuel: nat)
    ensures SelfConsistent(RecordRoute(m, node, s, live, fuel))
    decreases fuel, 2
  {
    hide SelfConsistent;
    NothingConsistent();
    match m.route(node, s)
    case Stop => EndConsistent(s, None);
    case Follow(to) => EnterConsistent(m, to, s, live, fuel);
    case Decide(to) =>
      if FingerprintOf(s).Some? {
        EnterConsistent(m, to, s, live, fuel);
        PrecededConsistent(RouteTaken(node, to, to, FingerprintOf(s).value), RecordEnter(m, to, s, live, fuel));
      }
  }

  /** Soundness: a passed replay entered the nodes, took the routes and made the kinds of call the
      tape records, in that order, ended in the recorded final state, and left nothing over. */
  lemma PassedIsSound(m: Machine, entry: Node, start: SafeState, tape: seq<Step>, contentHash: string, fuel: nat)
    requires Verdict(m, entry, start, tape, contentHash, fuel) == Passed
    ensures
      var r := RecordEnter(m, entry, Restore(start), Responses(tape), fuel);
      && r.Some? && FingerprintOf(r.value.final).Some?
      && NodesOf(tape) == r.value.nodes && RoutesOf(tape) == r.value.routes
      && CallsOf(tape) == CallsOf(r.value.steps)
      && |tape| == |Tape(r.value)| && |tape| > 0
      && tape[|tape| - 1] == ReplayTape.Final(FingerprintOf(r.value.final).value, r.value.nodes, r.value.routes)
      && (forall i :: r.value.interrupt == Some(i) ==> |tape| > 1 && tape[|tape| - 2] == Interrupted(i))
  {
    PassedMeansTapeIsItsRecording(m, entry, start, tape, contentHash, fuel);
    EnterConsistent(m, entry, Restore(start), Responses(tape), fuel);
    hide Verdict, RecordEnter, FingerprintOf, Restore, Responses;
    var r := RecordEnter(m, entry, Restore(start), Responses(tape), fuel).value;
    AgreementReadsTheSame(tape, Tape(r), contentHash);
    ReadConcat(r.steps, Ending(r));
    assert Tape(r) == r.steps + Ending(r);
    EndingReads(r);
    assert StepAgrees(tape[|tape| - 1], Tape(r)[|tape| - 1], contentHash);
    if r.interrupt.Some? {
      assert StepAgrees(tape[|tape| - 2], Tape(r)[|tape| - 2], contentHash);
    }
  }

  lemma EndingReads(r: Recorded)
    requires FingerprintOf(r.final).Some?
    ensures NodesOf(Ending(r)) == [] && RoutesOf(Ending(r)) == [] && CallsOf(Ending(r)) == []
  {
    hide FingerprintOf;
    var last := ReplayTape.Final(FingerprintOf(r.final).value, r.nodes, r.routes);
    ReadOne(last);
    if r.interrupt.Some? {
      ReadOne(Interrupted(r.interrupt.value));
      ReadConcat([Interrupted(r.interrupt.value)], [last]);
    }
  }
}
