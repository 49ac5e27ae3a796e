/** A replay bundle as its repository stores it: numbered, keyed and checksummed steps, and the
    integrity check applied before replay (replay/repository.py). Checksums are injective: a
    checksum is the content it digests. */
module ReplayBundles {
  import opened Domain
  import opened ReplayState
  import opened ReplayTape

  datatype StepKey =
    | NodeKey(entry: nat, node: Node)
    | RouteKey(decision: nat, from: Node)
    | ExternalKey(prefix: string, call: nat)
    | InterruptKey
    | FinalKey
    | OtherKey(text: string)

  datatype StepChecksum = StepChecksum(sequence: int, kind: StepKind, key: StepKey, fingerprint: Option<string>, payload: Step)

  datatype StepRow = StepRow(
    sequence: int, kind: StepKind, key: StepKey, fingerprint: Option<string>, payload: Step, checksum: StepChecksum)

  function Checksum(row: StepRow): StepChecksum {
    StepChecksum(row.sequence, row.kind, row.key, row.fingerprint, row.payload)
  }

  function NewRow(sequence: int, key: StepKey, fingerprint: Option<string>, payload: Step): StepRow {
    StepRow(sequence, KindOf(payload), key, fingerprint, payload,
            StepChecksum(sequence, KindOf(payload), key, fingerprint, payload))
  }

  datatype BundleStatus = Capturing | Ready | IncompleteBundle | Invalid

  /** The immutable description of the captured run. */
  datatype Origin = Origin(bundleId: Id, runId: Id, threadId: Option<Id>, traceId: Id, trigger: string,
                           schemaVersion: int, graphVersion: int, revision: string, envelope: string)

  datatype Expected = Expected(result: Option<SafeState>, nodes: seq<Node>, routes: seq<RouteStep>, state: Option<SafeState>)

  datatype BundleChecksum = BundleChecksum(
    origin: Origin, start: Option<SafeState>, expected: Option<Expected>, stepCount: nat, steps: seq<StepChecksum>)

  function StepChecksums(rows: seq<StepRow>): seq<StepChecksum> {
    seq(|rows|, i requires 0 <= i < |rows| => rows[i].checksum)
  }

  /** The stored bundle. */
  datatype Bundle = Bundle(
    origin: Origin, status: BundleStatus, start: Option<SafeState>, expected: Option<Expected>,
    stepCount: nat, steps: seq<StepRow>, checksum: Option<BundleChecksum>, error: Option<string>)

  function Digest(b: Bundle): BundleChecksum {
    BundleChecksum(b.origin, b.start, b.expected, b.stepCount, StepChecksums(b.steps))
  }

  /** The check made of a bundle's rows before they are replayed. */
  method ValidateIntegrity(b: Bundle) returns (sound: bool)
    ensures sound <==> Sound(b)
  {
    if b.checksum.None? || b.start.None? {
      return false;
    }
    var i := 0;
    while i < |b.steps|
      invariant 0 <= i <= |b.steps|
      invariant forall j :: 0 <= j < i ==> b.steps[j].sequence == j + 1 && Checksum(b.steps[j]) == b.steps[j].checksum
    {
      if b.steps[i].sequence != i + 1 || Checksum(b.steps[i]) != b.steps[i].checksum {
        return false;
      }
      i := i + 1;
    }
    sound := Digest(b) == b.checksum.value;
  }

  predicate Sound(b: Bundle) {
    && b.checksum.Some? && b.start.Some?
    && (forall i :: 0 <= i < |b.steps| ==> b.steps[i].sequence == i + 1 && Checksum(b.steps[i]) == b.steps[i].checksum)
    && Digest(b) == b.checksum.value
  }

  /** Integrity detects every change: a tampered copy of a sound bundle that keeps its checksum is
      sound exactly when nothing the checksum covers has changed, step by step. */
  lemma IntegrityMeansUnchanged(b: Bundle, copy: Bundle)
    requires Sound(b) && copy.checksum == b.checksum
    ensures Sound(copy) <==>
      && copy.origin == b.origin && copy.start == b.start && copy.expected == b.expected
      && copy.stepCount == b.stepCount && copy.steps == b.steps
  {
    if Sound(copy) {
      assert StepChecksums(copy.steps) == StepChecksums(b.steps);
      assert |StepChecksums(copy.steps)| == |copy.steps| && |StepChecksums(b.steps)| == |b.steps|;
      forall i | 0 <= i < |b.steps| ensures copy.steps[i] == b.steps[i] {
        assert StepChecksums(copy.steps)[i] == copy.steps[i].checksum;
        assert StepChecksums(b.steps)[i] == b.steps[i].checksum;
        assert Checksum(copy.steps[i]) == Checksum(b.steps[i]);
      }
    }
  }

  function Payloads(rows: seq<StepRow>): seq<Step> {
    seq(|rows|, i requires 0 <= i < |rows| => rows[i].payload)
  }

  predicate HasKey(rows: seq<StepRow>, key: StepKey) {
    exists i :: 0 <= i < |rows| && rows[i].key == key
  }

  /** Rows are numbered in order and carry their own checksums; keys are unique. */
  predicate RowsKept(rows: seq<StepRow>) {
    && (forall i :: 0 <= i < |rows| ==> rows[i].sequence == i + 1 && Checksum(rows[i]) == rows[i].checksum)
    && (forall i, j :: 0 <= i < j < |rows| ==> rows[i].key != rows[j].key)
  }

  lemma AppendedRowsKept(rows: seq<StepRow>, key: StepKey, fingerprint: Option<string>, payload: Step)
    requires RowsKept(rows) && !HasKey(rows, key)
    ensures RowsKept(rows + [NewRow(|rows| + 1, key, fingerprint, payload)])
  {
  }

  /** The very step is stored already. */
  predicate Stored(rows: seq<StepRow>, key: StepKey, fingerprint: Option<string>, payload: Step) {
    exists i :: 0 <= i < |rows| && rows[i] == NewRow(i + 1, key, fingerprint, payload)
  }

  /** Under a used key the checksums agree exactly when the stored row is the step's own. */
  lemma SameStepAgain(rows: seq<StepRow>, i: nat, key: StepKey, fingerprint: Option<string>, payload: Step)
    requires i < |rows| && rows[i].key == key && RowsKept(rows)
    ensures rows[i].checksum == NewRow(rows[i].sequence, key, fingerprint, payload).checksum
      <==> Stored(rows, key, fingerprint, payload)
  {
    assert Checksum(rows[i]) == rows[i].checksum;
    if rows[i].checksum == NewRow(rows[i].sequence, key, fingerprint, payload).checksum {
      assert rows[i] == NewRow(i + 1, key, fingerprint, payload);
    }
    if j :| 0 <= j < |rows| && rows[j] == NewRow(j + 1, key, fingerprint, payload) {
      assert rows[j].key == key;
      assert j == i;
    }
  }

  class BundleStore {
    const maxSteps: nat
    var bundle: Bundle

    constructor (origin: Origin, maxSteps: nat)
      ensures this.maxSteps == maxSteps && bundle == Bundle(origin, Capturing, None, None, 0, [], None, None)
    {
      this.maxSteps := maxSteps;
      bundle := Bundle(origin, Capturing, None, None, 0, [], None, None);
    }

    /** The rows are kept, within the limit, and a ready bundle carries its checksum. */
    predicate WellKept()
      reads this
    {
      && bundle.stepCount == |bundle.steps| <= maxSteps && RowsKept(bundle.steps)
      && (bundle.status == Capturing ==> bundle.checksum.None?)
      && (bundle.status == Ready ==> bundle.checksum == Some(Digest(bundle)))
    }

    method SetStart(state: SafeState)
      requires WellKept()
      modifies this
      ensures WellKept()
      ensures bundle == if old(bundle).status == Capturing && old(bundle).start.None?
                        then old(bundle).(start := Some(state)) else old(bundle)
    {
      if bundle.status == Capturing && bundle.start.None? {
        bundle := bundle.(start := Some(state));
      }
    }

    method Find(key: StepKey) returns (found: Option<nat>)
      ensures found.None? <==> !HasKey(bundle.steps, key)
      ensures found.Some? ==> found.value < |bundle.steps| && bundle.steps[found.value].key == key
    {
      for i := 0 to |bundle.steps|
        invariant forall j :: 0 <= j < i ==> bundle.steps[j].key != key
      {
        if bundle.steps[i].key == key {
          return Some(i);
        }
      }
      found := None;
    }

    /** Appends a step under a new key, accepts the same step again, and refuses anything else:
        an oversized payload, a finished bundle, a full one, or another content under a used key. */
    method AppendStep(key: StepKey, fingerprint: Option<string>, payload: Step, oversized: bool) returns (ok: bool)
      requires WellKept()
      modifies this
      ensures WellKept()
      ensures !HasKey(old(bundle).steps, key) ==>
        (ok <==> !oversized && old(bundle).status == Capturing && old(bundle).stepCount < maxSteps)
      ensures HasKey(old(bundle).steps, key) ==>
        (ok <==> !oversized && old(bundle).status == Capturing && old(bundle).stepCount < maxSteps
                 && Stored(old(bundle).steps, key, fingerprint, payload))
      ensures bundle == if ok && !HasKey(old(bundle).steps, key)
        then old(bundle).(stepCount := old(bundle).stepCount + 1,
                          steps := old(bundle).steps + [NewRow(old(bundle).stepCount + 1, key, fingerprint, payload)])
        else old(bundle)
    {
      hide RowsKept, HasKey, Stored;
      if oversized || bundle.status != Capturing || bundle.stepCount >= maxSteps {
        return false;
      }
      var existing := Find(key);
      if existing.Some? {
        var row := bundle.steps[existing.value];
        SameStepAgain(bundle.steps, existing.value, key, fingerprint, payload);
        return row.checksum == NewRow(row.sequence, key, fingerprint, payload).checksum;
      }
      AppendedRowsKept(bundle.steps, key, fingerprint, payload);
      var sequence := bundle.stepCount + 1;
      bundle := bundle.(stepCount := sequence, steps := bundle.steps + [NewRow(sequence, key, fingerprint, payload)]);
      ok := true;
    }

    /** A bundle is finalised once; a ready one is sealed with its checksum. */
    method FinalizeBundle(status: BundleStatus, expected: Option<Expected>, error: Option<string>)
      requires WellKept() && status != Capturing
      modifies this
      ensures WellKept()
      ensures old(bundle).status != Capturing ==> bundle == old(bundle)
      ensures old(bundle).status == Capturing ==>
        bundle == old(bundle).(status := status, expected := expected, error := error, checksum := bundle.checksum)
      ensures old(bundle).status == Capturing && status == Ready && bundle.start.Some? ==> Sound(bundle)
    {
      if bundle.status != Capturing {
        return;
      }
      bundle := bundle.(status := status, expected := expected, error := error);
      if status == Ready {
        bundle := bundle.(checksum := Some(Digest(bundle)));
      }
    }
  }
}
