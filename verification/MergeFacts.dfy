/** A merge read field by field, and what normalising a location does to its text (agent/merge.py,
    agent/models.py, agent/state.py). */
module MergeFacts {
  import opened Domain
  import opened AgentStates
  import opened Merge

  // ----- The goal and whether it changed -----

  /** The utterances that set a goal. */
  predicate SetsGoal(intent: Intent) {
    match intent
    case NewRepair => true
    case QueryTicketStatus => true
    case RescheduleAppointment => true
    case CancelAppointment => true
    case CancelTicketIntent => true
    case RequestHuman => true
    case _ => false
  }

  /** What was known and is now said otherwise: the category, the normalised location or the goal; or a
      finished conversation starts over. */
  predicate GoalMoves(fold: char -> string, s: AgentState, o: Interpretation) {
    || (o.category.Some? && s.issue.category.Some? && o.category.value != s.issue.category.value)
    || (o.location.Some? && s.issue.normalized.Some?
        && Normalize(fold, o.location).Some? && Normalize(fold, o.location) != s.issue.normalized)
    || (SetsGoal(o.intent) && s.taskIntent != UnknownIntent && o.intent != s.taskIntent)
    || (SetsGoal(o.intent) && s.stage == DoneStage)
  }

  /** The extraction names a flag the state does not have. */
  predicate NamesNewFlag(s: AgentState, o: Interpretation) {
    exists f :: f in o.safetyFlags && f !in s.safetyFlags
  }

  /** A plan with nothing prepared. */
  predicate Blank(plan: Plan) {
    && plan.evidenceIds == [] && !plan.conflict && plan.sufficiency == None && plan.missingTopics == []
    && plan.asOf == None && plan.policyFingerprint == None
    && plan.slots == [] && plan.slotsFingerprint == None && plan.selectedSlot == None
    && plan.duplicates == [] && plan.duplicatesFingerprint == None && plan.confirmation == None
    && plan.pendingAction == NoAction && plan.pendingOperation == None && plan.lastTool == None
  }

  lemma WhenTheGoalMoves(fold: char -> string, s: AgentState, o: Interpretation)
    requires s.issue.normalized == Normalize(fold, s.issue.location)
    ensures VersionChanged(fold, s, o) <==> GoalMoves(fold, s, o)
    ensures BringsNewFlag(s, o) <==> NamesNewFlag(s, o)
  {
    hide Normalize;
    if NamesNewFlag(s, o) {
      var f :| f in o.safetyFlags && f !in s.safetyFlags;
      var k :| 0 <= k < |o.safetyFlags| && o.safetyFlags[k] == f;
    }
  }

  /** Only an extraction that names another property is refused. Otherwise category, location and
      description are each the extraction's when it brings one; the goal is the utterance's when it sets
      one; the windows are the extraction's when it brings some, or when the goal moved; a moved goal
      raises the version, forgets the duration and asks for a fresh snapshot; a moved goal or a new flag
      voids the plan; and the stage moves only to ask for what is missing. */
  lemma MergedFieldByField(fold: char -> string, s: AgentState, o: Interpretation)
    requires s.issue.normalized == Normalize(fold, s.issue.location)
    ensures Merged(fold, s, o).None? <==> o.property.Some? && o.property != s.owner.propertyId
    ensures Merged(fold, s, o).Some? ==>
      var n, moved, flagged := Merged(fold, s, o).value, GoalMoves(fold, s, o), NamesNewFlag(s, o);
      && n.issue.category == (if o.category.Some? then o.category else s.issue.category)
      && n.issue.location == (if o.location.Some? then o.location else s.issue.location)
      && n.issue.normalized == Normalize(fold, n.issue.location)
      && n.issue.description == (if o.description.Some? then o.description else s.issue.description)
      && n.issue.severity == s.issue.severity
      && n.taskIntent == (if SetsGoal(o.intent) then o.intent else s.taskIntent)
      && n.utteranceIntent == o.intent
      && n.windows == (if moved || o.windows != [] then o.windows else s.windows)
      && n.intentVersion == s.intentVersion + (if moved then 1 else 0)
      && n.durationMinutes == (if moved then None else s.durationMinutes)
      && (n.snapshotRefresh <==> moved || s.snapshotRefresh)
      && (n.safetyReview <==> flagged || s.safetyReview)
      && (if moved || flagged then Blank(n.plan) else n.plan == s.plan)
      && n.stage == (if n.missing == [] then s.stage else NeedInfo)
      && n.traceId == s.traceId && n.owner == s.owner && n.target == s.target && n.dialogue == s.dialogue
      && n.reconciling == s.reconciling && n.retryCount == s.retryCount && n.escalationReason == s.escalationReason
  {
    WhenTheGoalMoves(fold, s, o);
    hide Normalize, MissingFields, Distinct, VersionChanged, BringsNewFlag, GoalMoves, NamesNewFlag;
  }

  /** The flags are those of the state, then those the extraction adds, each once and in order. */
  lemma MergedFlags(fold: char -> string, s: AgentState, o: Interpretation)
    requires Merged(fold, s, o).Some?
    ensures
      var flags, all := Merged(fold, s, o).value.safetyFlags, s.safetyFlags + o.safetyFlags;
      && (forall f :: f in flags <==> f in all)
      && (forall i, j :: 0 <= i < j < |flags| ==> flags[i] != flags[j] && First(all, flags[i]) < First(all, flags[j]))
  {
    var all := s.safetyFlags + o.safetyFlags;
    DistinctKeepsOrder(all);
    assert Merged(fold, s, o).value.safetyFlags == Distinct(all) by {
      hide VersionChanged, BringsNewFlag, NewIssue, MissingFields, Distinct;
    }
    hide Merged, First;
  }

  /** Where a flag first appears, or the length when it does not. */
  function First(flags: seq<SafetyFlag>, f: SafetyFlag): nat {
    if flags == [] then 0 else if flags[0] == f then 0 else 1 + First(flags[1..], f)
  }

  lemma {:induction false} FirstAppended(flags: seq<SafetyFlag>, last: SafetyFlag, f: SafetyFlag)
    ensures First(flags, f) <= |flags| && (First(flags, f) < |flags| <==> f in flags)
    ensures First(flags + [last], f) == if f in flags then First(flags, f) else if f == last then |flags| else |flags| + 1
  {
    if flags != [] {
      FirstAppended(flags[1..], last, f);
      assert (flags + [last])[1..] == flags[1..] + [last];
    }
  }

  predicate InOrder(flags: seq<SafetyFlag>, d: seq<SafetyFlag>) {
    forall i, j :: 0 <= i < j < |d| ==> First(flags, d[i]) < First(flags, d[j])
  }

  lemma {:induction false} DistinctKeepsOrder(flags: seq<SafetyFlag>)
    ensures InOrder(flags, Distinct(flags))
  {
    if flags != [] {
      var init, last := flags[..|flags| - 1], flags[|flags| - 1];
      assert flags == init + [last];
      DistinctKeepsOrder(init);
      var d, e := Distinct(flags), Distinct(init);
      assert d == if last in e then e else e + [last];
      assert InOrder(init, e);
      forall i, j | 0 <= i < j < |d| ensures First(flags, d[i]) < First(flags, d[j]) {
        FirstAppended(init, last, d[i]);
        FirstAppended(init, last, d[j]);
        FirstAppended(init, last, e[i]);
        assert d[i] == e[i] && e[i] in e && e[i] in init;
        hide First;
        if j < |e| {
          assert d[j] == e[j] && e[j] in e && e[j] in init;
          assert First(init, e[i]) < First(init, e[j]);
        } else {
          assert d[j] == last && last !in init;
        }
      }
    }
  }

  /** What is missing: for a repair the property, the category, a location and a description, in that
      order; for a new appointment a time; otherwise nothing. */
  lemma MissingFieldsNamed(fold: char -> string, s: AgentState, o: Interpretation)
    requires Merged(fold, s, o).Some?
    ensures
      var n := Merged(fold, s, o).value;
      && (PropertyField in n.missing <==> n.taskIntent == NewRepair && n.owner.propertyId == None)
      && (CategoryField in n.missing <==> n.taskIntent == NewRepair && n.issue.category == None)
      && (LocationField in n.missing <==> n.taskIntent == NewRepair && n.issue.normalized == None)
      && (DescriptionField in n.missing <==> n.taskIntent == NewRepair && n.issue.description == None)
      && (AvailabilityField in n.missing <==> n.taskIntent == RescheduleAppointment && n.windows == [])
      && SeverityField !in n.missing
      && forall i, j :: 0 <= i < j < |n.missing| ==> Place(n.missing[i]) < Place(n.missing[j])
  {
    hide VersionChanged, BringsNewFlag, NewIssue, Distinct, ResolveTaskIntent, MissingFields, Place;
    var n := Merged(fold, s, o).value;
    FieldsNamed(n.taskIntent, n.owner.propertyId, n.issue.category, n.issue.normalized, n.issue.description, n.windows);
  }

  lemma FieldsNamed(intent: Intent, property: Option<Id>, category: Option<IssueCategory>, location: Option<string>,
                    description: Option<string>, windows: seq<TimeWindow>)
    ensures
      var missing := MissingFields(intent, property, category, location, description, windows);
      && (PropertyField in missing <==> intent == NewRepair && property == None)
      && (CategoryField in missing <==> intent == NewRepair && category == None)
      && (LocationField in missing <==> intent == NewRepair && location == None)
      && (DescriptionField in missing <==> intent == NewRepair && description == None)
      && (AvailabilityField in missing <==> intent == RescheduleAppointment && windows == [])
      && SeverityField !in missing
      && forall i, j :: 0 <= i < j < |missing| ==> Place(missing[i]) < Place(missing[j])
  {
    hide Asked, MissingFields, Place;
    Named(property.None?, category.None?, location.None?, description.None?);
    FieldsAsked(intent, property, category, location, description, windows);
  }

  lemma FieldsAsked(intent: Intent, property: Option<Id>, category: Option<IssueCategory>, location: Option<string>,
                    description: Option<string>, windows: seq<TimeWindow>)
    ensures MissingFields(intent, property, category, location, description, windows) ==
      if intent == NewRepair then
        Asked(property.None?, PropertyField) + Asked(category.None?, CategoryField)
        + Asked(location.None?, LocationField) + Asked(description.None?, DescriptionField)
      else if intent == RescheduleAppointment && windows == [] then [AvailabilityField]
      else []
  {
  }

  lemma Named(property: bool, category: bool, location: bool, description: bool)
    ensures
      var fields := Asked(property, PropertyField) + Asked(category, CategoryField) + Asked(location, LocationField)
                    + Asked(description, DescriptionField);
      && (PropertyField in fields <==> property) && (CategoryField in fields <==> category)
      && (LocationField in fields <==> location) && (DescriptionField in fields <==> description)
      && AvailabilityField !in fields && SeverityField !in fields
      && forall i, j :: 0 <= i < j < |fields| ==> Place(fields[i]) < Place(fields[j])
  {
    hide Asked, Ascending;
    var a, b, c, d := Asked(property, PropertyField), Asked(category, CategoryField), Asked(location, LocationField),
                      Asked(description, DescriptionField);
    Follow(a, b);
    Follow(a + b, c);
    Follow(a + b + c, d);
    Ascends(a + b + c + d);
  }

  function Asked(missing: bool, field: IssueField): (fields: seq<IssueField>)
    ensures forall f :: f in fields <==> missing && f == field
    ensures Ascending(fields)
  {
    if missing then [field] else []
  }

  predicate Ascending(fields: seq<IssueField>) {
    forall i, j :: 0 <= i < j < |fields| ==> Place(fields[i]) < Place(fields[j])
  }

  lemma Ascends(fields: seq<IssueField>)
    requires Ascending(fields)
    ensures forall i, j :: 0 <= i < j < |fields| ==> Place(fields[i]) < Place(fields[j])
  {
  }

  lemma Follow(a: seq<IssueField>, b: seq<IssueField>)
    requires Ascending(a) && Ascending(b) && forall x, y :: x in a && y in b ==> Place(x) < Place(y)
    ensures Ascending(a + b) && forall x :: x in a + b <==> x in a || x in b
  {
  }

  function Place(field: IssueField): nat {
    match field
    case PropertyField => 0
    case CategoryField => 1
    case LocationField => 2
    case DescriptionField => 3
    case SeverityField => 4
    case AvailabilityField => 5
  }

  // ----- Normalising a location -----

  /** A run of characters none of which is a blank. */
  predicate Word(text: string) {
    text != "" && forall k :: 0 <= k < |text| ==> text[k] !in {' ', '\t', '\n', '\r'}
  }

  /** Folding goes character by character. */
  lemma {:induction false} FoldsCharacterByCharacter(fold: char -> string, a: string, b: string)
    ensures Fold(fold, "") == ""
    ensures forall c :: Fold(fold, [c]) == fold(c)
    ensures Fold(fold, a + b) == Fold(fold, a) + Fold(fold, b)
  {
    forall c ensures Fold(fold, [c]) == fold(c) {
      assert [c][..0] == "";
      assert Fold(fold, "") + fold(c) == fold(c);
    }
    if b == "" {
      assert a + b == a;
    } else {
      var last := |b| - 1;
      FoldsCharacterByCharacter(fold, a, b[..last]);
      assert (a + b)[..|a + b| - 1] == a + b[..last];
    }
  }

  lemma {:induction false} WordsOfAWord(text: string)
    requires Word(text)
    ensures Words(text) == [text]
  {
    var last := |text| - 1;
    if last > 0 {
      assert forall k :: 0 <= k < last ==> text[..last][k] == text[k];
      WordsOfAWord(text[..last]);
      assert text == text[..last] + [text[last]];
    } else {
      assert text[..0] == "" && text == [text[0]];
    }
  }

  /** One more character: nothing when it is a blank, else one more letter or a new word. */
  lemma OneMoreCharacter(text: string, c: char)
    ensures Words(text + [c]) ==
      var words := Words(text);
      if c in {' ', '\t', '\n', '\r'} then words
      else if text != "" && !Space(text[|text| - 1]) && words != [] then words[..|words| - 1] + [words[|words| - 1] + [c]]
      else words + [[c]]
    ensures text != "" && !Space(text[|text| - 1]) ==> Words(text) != []
  {
    assert (text + [c])[..|text|] == text;
  }

  /** A text falls into words at every blank. */
  lemma {:induction false} WordsFallApartAtBlanks(a: string, c: char, b: string)
    requires c in {' ', '\t', '\n', '\r'}
    ensures Words(a + [c] + b) == Words(a) + Words(b)
  {
    if b == "" {
      assert a + [c] + b == a + [c] && Words(b) == [];
      OneMoreCharacter(a, c);
    } else {
      var last := |b| - 1;
      var init, d := b[..last], b[last];
      assert b == init + [d] && a + [c] + b == a + [c] + init + [d];
      WordsFallApartAtBlanks(a, c, init);
      OneMoreCharacter(a + [c] + init, d);
      OneMoreCharacter(init, d);
      assert Words("") == [];
      hide Words;
      var text := a + [c] + init;
      assert text[|text| - 1] == if init == "" then c else init[|init| - 1];
      OneMoreWord(Words(a), Words(init), d);
    }
  }

  lemma OneMoreWord(x: seq<string>, y: seq<string>, d: char)
    ensures y != [] ==>
      (x + y)[..|x + y| - 1] + [(x + y)[|x + y| - 1] + [d]] == x + (y[..|y| - 1] + [y[|y| - 1] + [d]])
    ensures x + y + [[d]] == x + (y + [[d]])
    ensures x + [] == x
  {
  }

  /** The words of a text, one blank between each two. */
  lemma JoinsWithSingleBlanks(words: seq<string>, word: string)
    ensures Join([]) == ""
    ensures Join([word]) == word
    ensures words != [] ==> Join(words + [word]) == Join(words) + " " + word
  {
    assert (words + [word])[..|words|] == words;
  }

  predicate Neat(words: seq<string>) {
    forall k :: 0 <= k < |words| ==> Word(words[k])
  }

  lemma {:induction false} JoinedWordsFallApart(words: seq<string>)
    requires Neat(words)
    ensures Words(Join(words)) == words
  {
    if |words| == 1 {
      WordsOfAWord(words[0]);
    } else if words != [] {
      var init, last := words[..|words| - 1], words[|words| - 1];
      assert words == init + [last];
      JoinedWordsFallApart(init);
      JoinsWithSingleBlanks(init, last);
      WordsFallApartAtBlanks(Join(init), ' ', last);
      WordsOfAWord(last);
      hide Words, Join;
    }
  }

  lemma {:induction false} WordsAreNeat(text: string)
    ensures Neat(Words(text))
  {
    if text != "" {
      WordsAreNeat(text[..|text| - 1]);
    }
  }

  /** Normalising is folding and then joining the words; the result falls into the very same words, and
      there is none exactly when there are no words. So two locations are normalised alike exactly when
      they fold to the same words. */
  lemma NormalisedAlike(fold: char -> string, a: string, b: string)
    ensures Normalize(fold, None) == None
    ensures Normalize(fold, Some(a)).None? <==> Words(Fold(fold, a)) == []
    ensures Normalize(fold, Some(a)).Some? ==> Words(Normalize(fold, Some(a)).value) == Words(Fold(fold, a))
    ensures Normalize(fold, Some(a)) == Normalize(fold, Some(b)) <==> Words(Fold(fold, a)) == Words(Fold(fold, b))
  {
    var x, y := Words(Fold(fold, a)), Words(Fold(fold, b));
    WordsAreNeat(Fold(fold, a));
    WordsAreNeat(Fold(fold, b));
    JoinedWordsFallApart(x);
    JoinedWordsFallApart(y);
    assert Words("") == [];
  }
}
