/** Merging an interpreted message into the agent state (agent/merge.py). */
module Merge {
  import opened Domain
  import opened AgentStates
  import opened FiniteSets

  /** The validated extraction a language model returned. */
  datatype Interpretation = Interpretation(
    intent: Intent, category: Option<IssueCategory>, location: Option<string>, description: Option<string>,
    safetyFlags: seq<SafetyFlag>, windows: seq<TimeWindow>, property: Option<Id>)

  /** The extraction's own schema. */
  predicate WellFormed(o: Interpretation) {
    && TrimmedOption(o.location, 255) && TrimmedOption(o.description, 4000)
    && |o.safetyFlags| <= 10 && WindowsValid(o.windows)
  }

  const TASK_INTENTS :=
    {NewRepair, QueryTicketStatus, RescheduleAppointment, CancelAppointment, CancelTicketIntent, RequestHuman}

  function ResolveTaskIntent(current: Intent, utterance: Intent): Intent {
    if utterance in TASK_INTENTS then utterance else current
  }

  /** The issue as it stands after the extraction. */
  function NewIssue(fold: char -> string, s: AgentState, o: Interpretation): Issue {
    var location := if o.location.Some? then o.location else s.issue.location;
    s.issue.(category := if o.category.Some? then o.category else s.issue.category,
             location := location, normalized := Normalize(fold, location),
             description := if o.description.Some? then o.description else s.issue.description)
  }

  predicate CategoryChanged(s: AgentState, o: Interpretation) {
    o.category.Some? && s.issue.category.Some? && o.category != s.issue.category
  }

  predicate LocationChanged(fold: char -> string, s: AgentState, o: Interpretation) {
    var normalized := NewIssue(fold, s, o).normalized;
    normalized.Some? && s.issue.normalized.Some? && normalized != s.issue.normalized
  }

  predicate IntentChanged(s: AgentState, o: Interpretation) {
    s.taskIntent != UnknownIntent && ResolveTaskIntent(s.taskIntent, o.intent) != s.taskIntent
  }

  predicate Restarted(s: AgentState, o: Interpretation) {
    s.stage == DoneStage && o.intent in TASK_INTENTS
  }

  predicate VersionChanged(fold: char -> string, s: AgentState, o: Interpretation) {
    CategoryChanged(s, o) || LocationChanged(fold, s, o) || IntentChanged(s, o) || Restarted(s, o)
  }

  predicate BringsNewFlag(s: AgentState, o: Interpretation) {
    exists k :: 0 <= k < |o.safetyFlags| && o.safetyFlags[k] !in s.safetyFlags
  }

  /** Elements in order of first appearance, each once. */
  function Distinct(flags: seq<SafetyFlag>): (d: seq<SafetyFlag>)
    ensures forall f :: f in d <==> f in flags
    ensures forall i, j :: 0 <= i < j < |d| ==> d[i] != d[j]
  {
    if flags == [] then []
    else
      var earlier := Distinct(flags[..|flags| - 1]);
      var last := flags[|flags| - 1];
      if last in earlier then earlier else earlier + [last]
  }

  /** The state after a merge, unless the extraction names another property. */
  function Merged(fold: char -> string, s: AgentState, o: Interpretation): Option<AgentState> {
    if o.property.Some? && o.property != s.owner.propertyId then None
    else
      var changed, flagged := VersionChanged(fold, s, o), BringsNewFlag(s, o);
      var issue, intent := NewIssue(fold, s, o), ResolveTaskIntent(s.taskIntent, o.intent);
      var windows := if changed || o.windows != [] then o.windows else s.windows;
      var missing := MissingFields(intent, s.owner.propertyId, issue.category, issue.normalized, issue.description, windows);
      Some(s.(
        taskIntent := intent, utteranceIntent := o.intent, issue := issue, windows := windows, missing := missing,
        intentVersion := s.intentVersion + (if changed then 1 else 0),
        safetyFlags := Distinct(s.safetyFlags + o.safetyFlags),
        plan := if changed || flagged then EMPTY_PLAN else s.plan,
        durationMinutes := if changed then None else s.durationMinutes,
        snapshotRefresh := changed || s.snapshotRefresh, safetyReview := flagged || s.safetyReview,
        stage := if missing != [] then NeedInfo else s.stage))
  }

  /** The merge collects its updates group by group, later groups overriding earlier ones. */
  method MergeInterpretation(fold: char -> string, s: AgentState, o: Interpretation)
    returns (merged: Option<AgentState>)
    ensures merged == Merged(fold, s, o)
  {
    var issue := NewIssue(fold, s, o);
    var versionChanged := VersionChanged(fold, s, o);
    var newSafety := BringsNewFlag(s, o);
    var windows := if o.windows != [] then o.windows else s.windows;
    var intent := ResolveTaskIntent(s.taskIntent, o.intent);
    var next := s.(taskIntent := intent, utteranceIntent := o.intent, issue := issue,
                   safetyFlags := Distinct(s.safetyFlags + o.safetyFlags), windows := windows,
                   intentVersion := s.intentVersion + if versionChanged then 1 else 0);
    if o.property.Some? && o.property != s.owner.propertyId {
      return None;
    }
    if versionChanged || newSafety {
      next := next.(plan := EMPTY_PLAN);
    }
    if versionChanged {
      next := next.(windows := o.windows, durationMinutes := None, snapshotRefresh := true);
      windows := o.windows;
    }
    if newSafety {
      next := next.(safetyReview := true);
    }
    var missing := ComputeMissingFields(intent, s.owner.propertyId, issue.category, issue.normalized, issue.description, windows);
    next := next.(missing := missing);
    if missing != [] {
      next := next.(stage := NeedInfo);
    }
    merged := Some(next);
  }

  // ----- What one merge does -----

  predicate Solid(word: string) {
    word != [] && forall k :: 0 <= k < |word| ==> !Space(word[k])
  }

  lemma {:induction false} WordsAreSolid(text: string)
    ensures forall i :: 0 <= i < |Words(text)| ==> Solid(Words(text)[i])
  {
    if text != [] {
      WordsAreSolid(text[..|text| - 1]);
    }
  }

  lemma {:induction false} JoinedIsTrimmed(words: seq<string>)
    requires forall i :: 0 <= i < |words| ==> Solid(words[i])
    ensures words != [] ==> Join(words) != [] && !Space(Join(words)[0]) && !Space(Join(words)[|Join(words)| - 1])
  {
    if |words| > 1 {
      JoinedIsTrimmed(words[..|words| - 1]);
    }
  }

  /** A normalised location never has outer white space, so its length is all that can be wrong
      with it. */
  lemma NormalizedIsTrimmed(fold: char -> string, location: Option<string>)
    ensures TrimmedOption(Normalize(fold, location), 255) <==>
      (Normalize(fold, location).Some? ==> |Normalize(fold, location).value| <= 255)
  {
    if location.Some? {
      WordsAreSolid(Fold(fold, location.value));
      JoinedIsTrimmed(Words(Fold(fold, location.value)));
    }
  }

  lemma {:induction false} FewDistinctFlags(flags: seq<SafetyFlag>)
    requires forall i, j :: 0 <= i < j < |flags| ==> flags[i] != flags[j]
    ensures |flags| <= 5
  {
    var all := {ImmediateDanger, ActiveFlooding, ElectricalHazard, LockoutRisk, OtherReviewRequired};
    var present := set i | 0 <= i < |flags| :: flags[i];
    forall f: SafetyFlag | f in present ensures f in all {
      assert f.ImmediateDanger? || f.ActiveFlooding? || f.ElectricalHazard? || f.LockoutRisk? || f.OtherReviewRequired?;
    }
    SubsetIsSmaller(present, all);
    DistinctFillsSet(flags);
  }

  lemma {:induction false} DistinctFillsSet(flags: seq<SafetyFlag>)
    requires forall i, j :: 0 <= i < j < |flags| ==> flags[i] != flags[j]
    ensures |set i | 0 <= i < |flags| :: flags[i]| == |flags|
  {
    if flags != [] {
      var before := flags[..|flags| - 1];
      DistinctFillsSet(before);
      assert (set i | 0 <= i < |flags| :: flags[i]) == (set i | 0 <= i < |before| :: before[i]) + {flags[|flags| - 1]};
    }
  }

  /** A merge of a well-formed extraction into a valid state, though it never validates its result,
      leaves a valid state exactly when the normalised location is at most 255 characters long:
      case folding can lengthen it past the limit the location itself respects. */
  lemma MergeKeepsValidity(fold: char -> string, s: AgentState, o: Interpretation)
    requires Valid(fold, s) && WellFormed(o) && Merged(fold, s, o).Some?
    ensures var normalized := NewIssue(fold, s, o).normalized;
      Valid(fold, Merged(fold, s, o).value) <==> (normalized.Some? ==> |normalized.value| <= 255)
  {
    hide Normalize;
    NormalizedIsTrimmed(fold, NewIssue(fold, s, o).location);
    FewDistinctFlags(Distinct(s.safetyFlags + o.safetyFlags));
  }

  /** The exact growth of the version, the flags that survive, when a plan is void and when it is
      kept, and what no message can touch. */
  lemma MergeInvalidates(fold: char -> string, s: AgentState, o: Interpretation)
    requires Merged(fold, s, o).Some?
    ensures
      var n := Merged(fold, s, o).value;
      && n.intentVersion == s.intentVersion + (if VersionChanged(fold, s, o) then 1 else 0)
      && (forall f :: f in s.safetyFlags ==> f in n.safetyFlags)
      && (forall f :: f in o.safetyFlags ==> f in n.safetyFlags)
      && (n.safetyReview <==> s.safetyReview || |Distinct(n.safetyFlags)| > |Distinct(s.safetyFlags)|)
      && (if VersionChanged(fold, s, o) || |Distinct(n.safetyFlags)| > |Distinct(s.safetyFlags)|
          then n.plan == EMPTY_PLAN else n.plan == s.plan)
      && n.owner == s.owner && n.target == s.target && n.dialogue == s.dialogue && n.reconciling == s.reconciling
      && (n.missing != [] ==> n.stage == NeedInfo)
  {
    var n := Merged(fold, s, o).value;
    if !BringsNewFlag(s, o) {
      forall f | f in n.safetyFlags ensures f in s.safetyFlags {
        if f in o.safetyFlags {
          var k :| 0 <= k < |o.safetyFlags| && o.safetyFlags[k] == f;
        }
      }
      SameFlagsSameCount(n.safetyFlags, s.safetyFlags);
    } else {
      NewFlagCounts(s.safetyFlags, n.safetyFlags);
    }
  }

  lemma NewFlagCounts(a: seq<SafetyFlag>, b: seq<SafetyFlag>)
    requires (forall f :: f in a ==> f in b) && exists f :: f in b && f !in a
    ensures |Distinct(a)| < |Distinct(b)|
  {
    var f :| f in b && f !in a;
    var x := Distinct(a);
    var longer := x + [f];
    forall g | g in longer ensures g in b {
    }
    SameFlagsSameCount(longer, b);
    DistinctFillsSet(Distinct(longer));
    DistinctFillsSet(longer);
    var these, those := set i | 0 <= i < |longer| :: longer[i], set i | 0 <= i < |Distinct(longer)| :: Distinct(longer)[i];
    forall g | g in these ensures g in those {
      assert g in Distinct(longer);
    }
    SubsetIsSmaller(these, those);
  }

  lemma SameFlagsSameCount(a: seq<SafetyFlag>, b: seq<SafetyFlag>)
    requires forall f :: f in a ==> f in b
    ensures |Distinct(a)| <= |Distinct(b)|
  {
    var x, y := Distinct(a), Distinct(b);
    DistinctFillsSet(x);
    DistinctFillsSet(y);
    var xs, ys := set i | 0 <= i < |x| :: x[i], set i | 0 <= i < |y| :: y[i];
    forall f | f in xs ensures f in ys {
      assert f in x;
      assert f in y;
    }
    SubsetIsSmaller(xs, ys);
  }

  // ----- Any sequence of merges -----

  /** Extractions are merged one after another; one that names another property changes nothing. */
  function MergeAll(fold: char -> string, s: AgentState, outputs: seq<Interpretation>): AgentState {
    if outputs == [] then s
    else
      var before := MergeAll(fold, s, outputs[..|outputs| - 1]);
      var merged := Merged(fold, before, outputs[|outputs| - 1]);
      if merged.Some? then merged.value else before
  }

  /** How many of the merges raised the version. */
  function Raises(fold: char -> string, s: AgentState, outputs: seq<Interpretation>): nat {
    if outputs == [] then 0
    else
      var last := |outputs| - 1;
      var before := MergeAll(fold, s, outputs[..last]);
      Raises(fold, s, outputs[..last])
      + if Merged(fold, before, outputs[last]).Some? && VersionChanged(fold, before, outputs[last]) then 1 else 0
  }

  predicate ShortWhenFolded(fold: char -> string, o: Interpretation) {
    var normalized := Normalize(fold, o.location);
    normalized.Some? ==> |normalized.value| <= 255
  }

  /** Any sequence of merges, of locations that stay short when folded, keeps the state valid,
      counts its version changes exactly and never drops a safety flag. */
  lemma {:induction false} MergesKeepValidity(fold: char -> string, s: AgentState, outputs: seq<Interpretation>)
    requires Valid(fold, s)
    requires forall k :: 0 <= k < |outputs| ==> WellFormed(outputs[k]) && ShortWhenFolded(fold, outputs[k])
    ensures var n := MergeAll(fold, s, outputs);
      && Valid(fold, n) && n.intentVersion == s.intentVersion + Raises(fold, s, outputs)
      && (forall f :: f in s.safetyFlags ==> f in n.safetyFlags)
  {
    if outputs != [] {
      var last := |outputs| - 1;
      var before, o := MergeAll(fold, s, outputs[..last]), outputs[last];
      MergesKeepValidity(fold, s, outputs[..last]);
      hide Valid, Normalize, Merged, WellFormed, VersionChanged;
      if Merged(fold, before, o).Some? {
        OwnLocationIsShort(fold, before, o);
        MergeKeepsValidity(fold, before, o);
        MergeInvalidates(fold, before, o);
      }
    }
  }

  lemma OwnLocationIsShort(fold: char -> string, s: AgentState, o: Interpretation)
    requires Valid(fold, s) && ShortWhenFolded(fold, o)
    ensures var normalized := NewIssue(fold, s, o).normalized; normalized.Some? ==> |normalized.value| <= 255
  {
    hide Normalize;
  }

  // ----- A location that folds past the limit -----

  /** Case folding as it treats one letter: a sharp s becomes two letters. */
  function SharpS(c: char): string {
    if c == '\U{00DF}' then "ss" else [c]
  }

  function Repeated(c: char, n: nat): string {
    seq(n, i => c)
  }

  lemma {:induction false} FoldedSharpS(n: nat)
    ensures Fold(SharpS, Repeated('\U{00DF}', n)) == Repeated('s', 2 * n)
  {
    if n > 0 {
      assert Repeated('\U{00DF}', n)[..n - 1] == Repeated('\U{00DF}', n - 1);
      FoldedSharpS(n - 1);
    }
  }

  lemma {:induction false} OneWord(n: nat)
    ensures Words(Repeated('s', n + 1)) == [Repeated('s', n + 1)]
  {
    if n > 0 {
      assert Repeated('s', n + 1)[..n] == Repeated('s', n);
      OneWord(n - 1);
      assert Repeated('s', n) + ['s'] == Repeated('s', n + 1);
    } else {
      assert Repeated('s', 1)[..0] == [];
      assert Repeated('s', 1) == ['s'];
    }
  }

  /** A location of 128 sharp s is well-formed and folds to 256 characters: merged into any valid
      state, it leaves one that its own validator would refuse. */
  lemma FoldedLocationBreaksValidity(s: AgentState, o: Interpretation)
    requires Valid(SharpS, s) && o.property.None?
    requires o == Interpretation(o.intent, None, Some(Repeated('\U{00DF}', 128)), None, [], [], None)
    ensures WellFormed(o)
    ensures Merged(SharpS, s, o).Some? && !Valid(SharpS, Merged(SharpS, s, o).value)
  {
    FoldedSharpS(128);
    OneWord(255);
    assert Join([Repeated('s', 256)]) == Repeated('s', 256);
    assert |NewIssue(SharpS, s, o).normalized.value| == 256;
    MergeKeepsValidity(SharpS, s, o);
  }
}
