/** Every verdict of a replay, and what the tape, the projection and the capture tell apart
    (replay/engine.py, replay/tape.py, replay/state.py, replay/capture.py). */
module ReplayFacts {
  import opened Domain
  import opened AgentStates
  import opened ReplayState
  import opened ReplayTape
  import opened ReplayVerdict
  import opened ReplayTheorems

  // ----- What is compared -----

  /** A taped step says what the run says. A call must be of the same kind and be answered by the taped
      result, a mutation also of the same name. Its request is not compared for a policy query; it is
      compared by the input message for an interpretation and by its own fingerprint otherwise, where
      the tape holds one. Every other step is compared whole. */
  lemma AgreementStepByStep(taped: Step, shown: Step, contentHash: string)
    requires shown.External? ==> shown.fingerprint.Some?
    ensures StepAgrees(taped, shown, contentHash) <==>
      if !shown.External? then taped == shown
      else
        && taped.External? && taped.kind == shown.kind && taped.response == shown.response
        && (shown.kind == MutationCall ==> taped.action == shown.action)
        && (taped.fingerprint.Some? ==>
              match shown.kind
              case PolicyCall => true
              case InterpretationCall => taped.fingerprint.value == contentHash
              case _ => taped.fingerprint.value == shown.fingerprint.value)
  {
  }

  /** Taking a step moves on by one unless the tape has ended; it misses, and notes so, at the end and at
      another sort of step, and otherwise notes only a request that differs from the taped one. */
  lemma TakingAStep(tape: seq<Step>, c: Cursor, wanted: Step, fingerprint: Option<string>)
    ensures
      var (n, step) := Consume(tape, c, KindOf(wanted), fingerprint);
      if c.index >= |tape| then step == None && n == Cursor(c.index, c.mismatches + [TapeMiss])
      else if !SameSort(tape[c.index], wanted) then step == None && n == Cursor(c.index + 1, c.mismatches + [UnexpectedCall])
      else
        var taped := tape[c.index];
        && step == Some(taped)
        && n == Cursor(c.index + 1, c.mismatches +
             if taped.External? && taped.fingerprint.Some? && fingerprint.Some? && taped.fingerprint.value != fingerprint.value
             then [RequestFingerprintMismatch] else [])
  {
    if c.index < |tape| {
      SortsAreKinds(tape[c.index], wanted);
    }
    assert c.mismatches + [] == c.mismatches;
  }

  /** What is left on a tape is noted step by step. */
  lemma {:induction false} LeftoversAreCounted(n: nat)
    ensures |Unconsumed(n)| == n && forall k :: 0 <= k < n ==> Unconsumed(n)[k] == UnconsumedStep
  {
    if n > 0 {
      LeftoversAreCounted(n - 1);
    }
  }

  // ----- The course of a run -----

  /** Where a run's course leads: to an end, to a request no result is left for, or to a failure. */
  datatype Ending = Ends(final: AgentState, interrupt: Option<Interrupt>) | Asks(kind: CallKind) | Breaks

  /** The steps a run shows on the way. */
  datatype Course = Course(steps: seq<Step>, ending: Ending)

  function After(step: Step, rest: Course): Course {
    rest.(steps := [step] + rest.steps)
  }

  function CourseEnter(m: Machine, node: Node, s: AgentState, live: seq<Response>, fuel: nat): Course
    decreases fuel, 1
  {
    if TooLong(s) || fuel == 0 then Course([], Breaks)
    else After(NodeEntered(node, FingerprintOf(s).value), CourseBody(m, node, s, [], live, fuel - 1))
  }

  function CourseBody(m: Machine, node: Node, s: AgentState, got: seq<Response>, live: seq<Response>, fuel: nat): Course
    decreases fuel, 0
  {
    if fuel == 0 then Course([], Breaks)
    else
      match m.body(node, s, got)
      case Call(kind, action, fingerprint) =>
        if live == [] then Course([], Asks(kind))
        else
          After(External(kind, action, Some(fingerprint), live[0]),
                CourseBody(m, node, s, got + [live[0]], live[1..], fuel - 1))
      case Finish(next) => CourseRoute(m, node, next, live, fuel - 1)
      case Pause(interrupt) => Course([], Ends(s, Some(interrupt)))
      case Raise => Course([], Breaks)
  }

  function CourseRoute(m: Machine, node: Node, s: AgentState, live: seq<Response>, fuel: nat): Course
    decreases fuel, 2
  {
    match m.route(node, s)
    case Stop => Course([], Ends(s, None))
    case Follow(to) => CourseEnter(m, to, s, live, fuel)
    case Decide(to) =>
      if TooLong(s) then Course([], Breaks)
      else After(RouteTaken(node, to, to, FingerprintOf(s).value), CourseEnter(m, to, s, live, fuel))
  }

  /** A description of more than a thousand characters cannot be projected. */
  predicate TooLong(s: AgentState) {
    s.issue.description.Some? && |s.issue.description.value| > 1000
  }

  lemma OnlyLongOnesCannotBeProjected(s: AgentState)
    ensures FingerprintOf(s).None? <==> TooLong(s)
  {
  }

  // ----- The tape beside the course -----

  /** The taped step is of the sort the run shows. */
  predicate SameSort(taped: Step, shown: Step) {
    || (taped.NodeEntered? && shown.NodeEntered?) || (taped.RouteTaken? && shown.RouteTaken?)
    || (taped.External? && shown.External? && taped.kind == shown.kind)
    || (taped.Interrupted? && shown.Interrupted?) || (taped.Final? && shown.Final?)
    || (taped.OperatorMutation? && shown.OperatorMutation?)
  }

  lemma SortsAreKinds(taped: Step, shown: Step)
    ensures SameSort(taped, shown) <==> KindOf(taped) == KindOf(shown)
  {
  }

  datatype Fate = Misses | Fails | Arrives(at: nat)

  /** The course walked along the tape from `i`: it misses where the tape has ended or holds another
      sort of step, and fails at a mutation of another name or where the run itself breaks. */
  function FateOf(tape: seq<Step>, i: nat, steps: seq<Step>, ending: Ending): Fate
    decreases steps
  {
    if steps == [] then
      match ending
      case Ends(_, _) => Arrives(i)
      case Asks(_) => Misses
      case Breaks => Fails
    else if i >= |tape| || !SameSort(tape[i], steps[0]) then Misses
    else if steps[0].External? && steps[0].kind == MutationCall && tape[i].action != steps[0].action then Fails
    else FateOf(tape, i + 1, steps[1..], ending)
  }

  /** The replay met the fate. */
  predicate Meets(o: ReplayVerdict.Outcome, fate: Fate, ending: Ending) {
    && (o.Missed? <==> fate.Misses?) && (o.Failed? <==> fate.Fails?)
    && (o.Ran? ==> fate == Arrives(o.view.cursor.index) && ending == Ends(o.final, o.interrupt))
  }

  ghost predicate Walks(o: ReplayVerdict.Outcome, tape: seq<Step>, i: nat, course: Course) {
    Meets(o, FateOf(tape, i, course.steps, course.ending), course.ending)
  }

  lemma StepsOn(o: ReplayVerdict.Outcome, tape: seq<Step>, i: nat, step: Step, rest: Course)
    requires i < |tape| && SameSort(tape[i], step) && Walks(o, tape, i + 1, rest)
    requires step.External? && step.kind == MutationCall ==> tape[i].action == step.action
    ensures Walks(o, tape, i, After(step, rest))
  {
    assert ([step] + rest.steps)[1..] == rest.steps;
  }

  lemma StopsAt(o: ReplayVerdict.Outcome, tape: seq<Step>, i: nat, step: Step, rest: Course)
    requires o.Missed? && (i >= |tape| || !SameSort(tape[i], step))
    ensures Walks(o, tape, i, After(step, rest))
  {
  }

  lemma {:induction false} EnterWalks(m: Machine, node: Node, s: AgentState, tape: seq<Step>, v: View, contentHash: string, fuel: nat)
    requires v.cursor.index <= |tape|
    ensures Walks(ReplayEnter(m, node, s, tape, v, contentHash, fuel), tape, v.cursor.index,
                  CourseEnter(m, node, s, Responses(tape[v.cursor.index..]), fuel))
    decreases fuel, 1
  {
    var o, i := ReplayEnter(m, node, s, tape, v, contentHash, fuel), v.cursor.index;
    OnlyLongOnesCannotBeProjected(s);
    hide FingerprintOf;
    if !TooLong(s) && fuel > 0 {
      hide Walks;
      var step := NodeEntered(node, FingerprintOf(s).value);
      var rest := CourseBody(m, node, s, [], Responses(tape[i..]), fuel - 1);
      var seen := ObserveNode(tape, v, node, FingerprintOf(s).value);
      if seen.None? {
        StopsAt(o, tape, i, step, rest);
      } else {
        ResponsesFrom(tape, i);
        assert seen.value.cursor.index == i + 1 && Responses(tape[i..]) == Responses(tape[i + 1..]);
        BodyWalks(m, node, s, [], tape, seen.value, contentHash, fuel - 1);
        StepsOn(o, tape, i, step, rest);
      }
    }
  }

  lemma {:induction false} BodyWalks(m: Machine, node: Node, s: AgentState, got: seq<Response>, tape: seq<Step>, v: View,
                                     contentHash: string, fuel: nat)
    requires v.cursor.index <= |tape|
    ensures Walks(ReplayBody(m, node, s, got, tape, v, contentHash, fuel), tape, v.cursor.index,
                  CourseBody(m, node, s, got, Responses(tape[v.cursor.index..]), fuel))
    decreases fuel, 0
  {
    hide FingerprintOf;
    if fuel > 0 {
      match m.body(node, s, got)
      case Call(kind, action, fingerprint) =>
        hide Walks;
        CallWalks(m, node, s, got, tape, v, contentHash, fuel, kind, action, fingerprint);
      case Finish(next) =>
        hide Walks;
        RouteWalks(m, node, next, tape, v, contentHash, fuel - 1);
      case Pause(_) =>
      case Raise =>
    }
  }

  lemma {:induction false} CallWalks(m: Machine, node: Node, s: AgentState, got: seq<Response>, tape: seq<Step>, v: View,
                                     contentHash: string, fuel: nat, kind: CallKind, action: string, fingerprint: string)
    requires v.cursor.index <= |tape| && fuel > 0 && m.body(node, s, got) == Call(kind, action, fingerprint)
    ensures Walks(ReplayBody(m, node, s, got, tape, v, contentHash, fuel), tape, v.cursor.index,
                  CourseBody(m, node, s, got, Responses(tape[v.cursor.index..]), fuel))
    decreases fuel - 1, 3
  {
    hide FingerprintOf;
    var o, i := ReplayBody(m, node, s, got, tape, v, contentHash, fuel), v.cursor.index;
    var live := Responses(tape[i..]);
    if i < |tape| {
      ResponsesFrom(tape, i);
    }
    if live != [] {
      var step := External(kind, action, Some(fingerprint), live[0]);
      var rest := CourseBody(m, node, s, got + [live[0]], live[1..], fuel - 1);
      if i >= |tape| || !SameSort(tape[i], step) {
        StopsAt(o, tape, i, step, rest);
      } else if kind != MutationCall || tape[i].action == action {
        hide Walks;
        var (c, taped) := Consume(tape, v.cursor, ExternalKind(kind), Presented(kind, fingerprint, contentHash));
        assert live[1..] == Responses(tape[i + 1..]);
        BodyWalks(m, node, s, got + [live[0]], tape, v.(cursor := c), contentHash, fuel - 1);
        StepsOn(o, tape, i, step, rest);
      }
    }
  }

  lemma {:induction false} RouteWalks(m: Machine, node: Node, s: AgentState, tape: seq<Step>, v: View, contentHash: string, fuel: nat)
    requires v.cursor.index <= |tape|
    ensures Walks(ReplayRoute(m, node, s, tape, v, contentHash, fuel), tape, v.cursor.index,
                  CourseRoute(m, node, s, Responses(tape[v.cursor.index..]), fuel))
    decreases fuel, 2
  {
    var o, i := ReplayRoute(m, node, s, tape, v, contentHash, fuel), v.cursor.index;
    OnlyLongOnesCannotBeProjected(s);
    hide FingerprintOf;
    match m.route(node, s)
    case Stop =>
    case Follow(to) =>
      hide Walks;
      EnterWalks(m, to, s, tape, v, contentHash, fuel);
    case Decide(to) =>
      if !TooLong(s) {
        hide Walks;
        var step := RouteTaken(node, to, to, FingerprintOf(s).value);
        var rest := CourseEnter(m, to, s, Responses(tape[i..]), fuel);
        var seen := ObserveRoute(tape, v, node, to, FingerprintOf(s).value);
        if seen.None? {
          StopsAt(o, tape, i, step, rest);
        } else {
          ResponsesFrom(tape, i);
          assert seen.value.cursor.index == i + 1 && Responses(tape[i..]) == Responses(tape[i + 1..]);
          EnterWalks(m, to, s, tape, seen.value, contentHash, fuel);
          StepsOn(o, tape, i, step, rest);
        }
      }
  }

  // ----- The verdict -----

  lemma {:induction false} EnterIsRecording(m: Machine, node: Node, s: AgentState, live: seq<Response>, fuel: nat)
    ensures Records(CourseEnter(m, node, s, live, fuel), RecordEnter(m, node, s, live, fuel))
    decreases fuel, 1
  {
    OnlyLongOnesCannotBeProjected(s);
    hide FingerprintOf;
    if !TooLong(s) && fuel > 0 {
      BodyIsRecording(m, node, s, [], live, fuel - 1);
    }
  }

  lemma {:induction false} BodyIsRecording(m: Machine, node: Node, s: AgentState, got: seq<Response>, live: seq<Response>, fuel: nat)
    ensures Records(CourseBody(m, node, s, got, live, fuel), RecordBody(m, node, s, got, live, fuel))
    decreases fuel, 0
  {
    hide FingerprintOf;
    if fuel > 0 {
      match m.body(node, s, got)
      case Call(_, _, _) =>
        if live != [] {
          BodyIsRecording(m, node, s, got + [live[0]], live[1..], fuel - 1);
        }
      case Finish(next) => RouteIsRecording(m, node, next, live, fuel - 1);
      case Pause(_) =>
      case Raise =>
    }
  }

  lemma {:induction false} RouteIsRecording(m: Machine, node: Node, s: AgentState, live: seq<Response>, fuel: nat)
    ensures Records(CourseRoute(m, node, s, live, fuel), RecordRoute(m, node, s, live, fuel))
    decreases fuel, 2
  {
    OnlyLongOnesCannotBeProjected(s);
    hide FingerprintOf;
    match m.route(node, s)
    case Stop =>
    case Follow(to) => EnterIsRecording(m, to, s, live, fuel);
    case Decide(to) =>
      if !TooLong(s) {
        EnterIsRecording(m, to, s, live, fuel);
      }
  }

  /** The recording is the course of a run that comes to an end. */
  predicate Records(course: Course, r: Option<Recorded>) {
    && (r.Some? <==> course.ending.Ends?)
    && (r.Some? ==> r.value.steps == course.steps && course.ending == Ends(r.value.final, r.value.interrupt))
  }

  lemma {:induction false} ArrivingMeansEnding(tape: seq<Step>, i: nat, steps: seq<Step>, ending: Ending)
    ensures FateOf(tape, i, steps, ending).Arrives? ==> ending.Ends?
    decreases steps
  {
    if steps != [] {
      ArrivingMeansEnding(tape, i + 1, steps[1..], ending);
    }
  }

  /** The whole tape a course that ends would have left. */
  function Written(course: Course): seq<Step>
    requires course.ending.Ends? && FingerprintOf(course.ending.final).Some?
  {
    course.steps + (match course.ending.interrupt case None => [] case Some(i) => [Interrupted(i)])
    + [ReplayTape.Final(FingerprintOf(course.ending.final).value, NodesOf(course.steps), RoutesOf(course.steps))]
  }

  /** The verdict on a run that walked its course to the end, its tape consumed up to `i`. */
  ghost function ArrivedAt(tape: seq<Step>, i: nat, course: Course, contentHash: string): Status
    requires course.ending.Ends? && (FingerprintOf(course.ending.final).None? <==> TooLong(course.ending.final))
  {
    var interrupted := course.ending.interrupt.Some?;
    var j := if interrupted then i + 1 else i;
    if interrupted && (i >= |tape| || !tape[i].Interrupted?) then Incomplete
    else if TooLong(course.ending.final) then FailedSafe
    else if j >= |tape| || !tape[j].Final? then Incomplete
    else if Agrees(tape, Written(course), contentHash) then Passed
    else Diverged
  }

  ghost function VerdictOn(tape: seq<Step>, course: Course, contentHash: string): Status {
    var fate := FateOf(tape, 0, course.steps, course.ending);
    ArrivingMeansEnding(tape, 0, course.steps, course.ending);
    if fate.Misses? then Incomplete
    else if fate.Fails? then FailedSafe
    else
      OnlyLongOnesCannotBeProjected(course.ending.final);
      ArrivedAt(tape, fate.at, course, contentHash)
  }

  lemma ConclusionIsNamed(tape: seq<Step>, v: View, final: SafeState)
    ensures Conclude(tape, v, final) == Incomplete <==> v.cursor.index >= |tape| || !tape[v.cursor.index].Final?
    ensures Conclude(tape, v, final) != FailedSafe
  {
  }

  lemma InterruptIsFound(tape: seq<Step>, v: View, interrupt: Interrupt)
    ensures ObserveInterrupt(tape, v, interrupt).None? <==> v.cursor.index >= |tape| || !tape[v.cursor.index].Interrupted?
    ensures ObserveInterrupt(tape, v, interrupt).Some? ==>
      ObserveInterrupt(tape, v, interrupt).value.cursor.index == v.cursor.index + 1
  {
  }

  /** All four verdicts, on any tape. Walk the course the run takes on the tape's own results along the
      tape: INCOMPLETE where the tape lacks a step of the sort the run comes to, FAILED_SAFE where the
      run breaks, its end cannot be projected, or it asks for another mutation than the tape holds;
      otherwise PASSED when the tape says all the run says and no more, and DIVERGED when not. */
  lemma VerdictsExactly(m: Machine, entry: Node, start: SafeState, tape: seq<Step>, contentHash: string, fuel: nat)
    ensures
      var course := CourseEnter(m, entry, Restore(start), Responses(tape), fuel);
      Verdict(m, entry, start, tape, contentHash, fuel) == VerdictOn(tape, course, contentHash)
  {
    hide ReplayEnter, RecordEnter, FingerprintOf, Restore, Agrees, FateOf, CourseEnter, Responses, ArrivedAt, TooLong;
    var s, live := Restore(start), Responses(tape);
    var o := ReplayEnter(m, entry, s, tape, START, contentHash, fuel);
    var course := CourseEnter(m, entry, s, live, fuel);
    assert tape[0..] == tape;
    EnterWalks(m, entry, s, tape, START, contentHash, fuel);
    ArrivingMeansEnding(tape, 0, course.steps, course.ending);
    if o.Ran? {
      OnlyLongOnesCannotBeProjected(o.final);
      PassedWhenWritten(m, entry, start, tape, contentHash, fuel, course);
      VerdictAtTheEnd(tape, o, course, contentHash, Verdict(m, entry, start, tape, contentHash, fuel));
    }
  }

  /** Passing, in terms of the course. */
  lemma PassedWhenWritten(m: Machine, entry: Node, start: SafeState, tape: seq<Step>, contentHash: string, fuel: nat, course: Course)
    requires course == CourseEnter(m, entry, Restore(start), Responses(tape), fuel) && course.ending.Ends?
    ensures Verdict(m, entry, start, tape, contentHash, fuel) == Passed <==>
      FingerprintOf(course.ending.final).Some? && Agrees(tape, Written(course), contentHash)
  {
    hide Verdict, ReplayEnter, RecordEnter, FingerprintOf, Restore, Agrees, CourseEnter, Responses, NodesOf, RoutesOf;
    var s, live := Restore(start), Responses(tape);
    PassedMeansTapeIsItsRecording(m, entry, start, tape, contentHash, fuel);
    EnterIsRecording(m, entry, s, live, fuel);
    EnterConsistent(m, entry, s, live, fuel);
    if FingerprintOf(course.ending.final).Some? {
      assert Written(course) == Tape(RecordEnter(m, entry, s, live, fuel).value);
    }
  }

  /** What is said at the end of a run that walked its whole course. */
  lemma VerdictAtTheEnd(tape: seq<Step>, o: ReplayVerdict.Outcome, course: Course, contentHash: string, verdict: Status)
    requires o.Ran? && course.ending == Ends(o.final, o.interrupt)
    requires FingerprintOf(o.final).None? <==> TooLong(o.final)
    requires
      var seen := if o.interrupt.Some? then ObserveInterrupt(tape, o.view, o.interrupt.value) else Some(o.view);
      verdict == if seen.None? then Incomplete
                 else if FingerprintOf(o.final).None? then FailedSafe
                 else Conclude(tape, seen.value, FingerprintOf(o.final).value)
    requires verdict == Passed <==> FingerprintOf(o.final).Some? && Agrees(tape, Written(course), contentHash)
    ensures verdict == ArrivedAt(tape, o.view.cursor.index, course, contentHash)
  {
    hide FingerprintOf, Agrees, Conclude, ObserveInterrupt, TooLong, Written;
    var seen := if o.interrupt.Some? then ObserveInterrupt(tape, o.view, o.interrupt.value) else Some(o.view);
    if o.interrupt.Some? {
      InterruptIsFound(tape, o.view, o.interrupt.value);
    }
    if seen.Some? && FingerprintOf(o.final).Some? {
      ConclusionIsNamed(tape, seen.value, FingerprintOf(o.final).value);
    }
  }
}
