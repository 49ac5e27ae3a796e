/** One request through the transactional service: acquire the retry key, run the handler, flush,
    store the answer and commit; or leave no trace (application/service_support.py,
    infrastructure/database/repositories/idempotency.py). */
module Execution {
  import opened Domain
  import opened Commands
  import opened RepairStore
  import opened RepairRuns

  datatype ExecutionStatus = Pending | Succeeded | Failed | Unknown

  /** The durable part of an answer. */
  datatype StoredPayload = StoredPayload(code: ResultCode, version: int, data: ResultData)

  datatype Record = Record(
    key: Key, digest: Digest, operationId: OperationId, status: ExecutionStatus,
    resource: Option<(ResourceType, Id)>, payload: Option<StoredPayload>)

  datatype Store = Store(db: Db, records: seq<Record>)

  const EMPTY_STORE := Store(EMPTY_DB, [])

  /** What the caller sees: a result, a stable error code, or an error the service does not catch. */
  datatype Answer = Answered(result: OperationResult) | Refused(error: Error) | Crashed

  function FindKey(records: seq<Record>, key: Key): (r: Option<nat>)
    ensures r.Some? ==> r.value < |records| && records[r.value].key == key
    ensures r.None? ==> forall i :: 0 <= i < |records| ==> records[i].key != key
  {
    if records == [] then None
    else if records[|records| - 1].key == key then Some(|records| - 1)
    else FindKey(records[..|records| - 1], key)
  }

  function FindOperation(records: seq<Record>, operationId: OperationId): (r: Option<nat>)
    ensures r.Some? ==> r.value < |records| && records[r.value].operationId == operationId
    ensures r.None? ==> forall i :: 0 <= i < |records| ==> records[i].operationId != operationId
  {
    if records == [] then None
    else if records[|records| - 1].operationId == operationId then Some(|records| - 1)
    else FindOperation(records[..|records| - 1], operationId)
  }

  function SuccessRecord(command: Command, result: OperationResult): Record {
    Record(command.Key(), command.Digest(), command.OperationId(), Succeeded,
           Some((result.resourceType, result.resourceId)),
           Some(StoredPayload(result.code, result.resourceVersion, result.data)))
  }

  /** The answer rebuilt from a stored record. */
  function ReplayResult(record: Record): Answer {
    match (record.resource, record.payload)
    case (Some(resource), Some(payload)) =>
      Answered(OperationResult(payload.code, resource.0, resource.1, payload.version, true, payload.data))
    case _ => Crashed
  }

  function Execute(s: Store, call: Call): (Store, Answer) {
    var command := call.command;
    var found := FindKey(s.records, command.Key());
    if found.Some? then
      var record := s.records[found.value];
      if record.digest != command.Digest() then (s, Refused(IdempotencyPayloadConflict))
      else if record.status != Succeeded then (s, Refused(IdempotencyInProgress))
      else (s, ReplayResult(record))
    else if FindOperation(s.records, command.OperationId()).Some? then (s, Crashed)
    else
      match Transact(s.db, call)
      case Err(error) => (s, Refused(error))
      case Ok((db, result)) => (Store(db, s.records + [SuccessRecord(command, result)]), Answered(result))
  }

  function After(calls: seq<Call>): Store {
    if calls == [] then EMPTY_STORE else Execute(After(calls[..|calls| - 1]), calls[|calls| - 1]).0
  }

  /** The answer the `i`-th call received. */
  function AnswerTo(calls: seq<Call>, i: nat): Answer
    requires i < |calls|
  {
    Execute(After(calls[..i]), calls[i]).1
  }

  // ----- The calls that took effect -----

  predicate Commits(s: Store, call: Call) {
    && FindKey(s.records, call.command.Key()).None?
    && FindOperation(s.records, call.command.OperationId()).None?
    && Transact(s.db, call).Ok?
  }

  /** The calls that committed, in order. */
  function Committed(calls: seq<Call>): seq<Call> {
    if calls == [] then []
    else
      var last := |calls| - 1;
      var earlier := Committed(calls[..last]);
      if Commits(After(calls[..last]), calls[last]) then earlier + [calls[last]] else earlier
  }

  /** A call changes the store exactly when it commits; every other answer leaves it untouched,
      retry key included. */
  lemma OnlyCommitsWrite(s: Store, call: Call)
    ensures !Commits(s, call) ==> Execute(s, call).0 == s
    ensures Commits(s, call) ==>
      && Execute(s, call).1 == Answered(Transact(s.db, call).value.1)
      && Execute(s, call).0.db == Step(s.db, call)
      && Execute(s, call).0.records == s.records + [SuccessRecord(call.command, Transact(s.db, call).value.1)]
    ensures Execute(s, call).1.Answered? && Execute(s, call).0 == s ==>
      FindKey(s.records, call.command.Key()).Some?
  {
    hide Transact;
  }

  /** The result the `k`-th committed call received. */
  function ResultOf(committed: seq<Call>, k: nat): Result<(Db, OperationResult)>
    requires k < |committed|
  {
    Transact(Run(committed[..k]), committed[k])
  }

  ghost predicate RecordsTell(s: Store, committed: seq<Call>) {
    && s.db == Run(committed) && |s.records| == |committed|
    && (forall k :: 0 <= k < |committed| ==>
          ResultOf(committed, k).Ok? && s.records[k] == SuccessRecord(committed[k].command, ResultOf(committed, k).value.1))
    && (forall j, k :: 0 <= j < k < |committed| ==>
          && committed[j].command.Key() != committed[k].command.Key()
          && committed[j].command.OperationId() != committed[k].command.OperationId())
  }

  lemma RecordsTellNext(s: Store, committed: seq<Call>, call: Call)
    requires RecordsTell(s, committed) && Commits(s, call)
    ensures RecordsTell(Execute(s, call).0, committed + [call])
  {
    hide Transact;
    OnlyCommitsWrite(s, call);
    ResultsNext(s, committed, call);
    IdentitiesNext(s, committed, call);
    var longer := committed + [call];
    assert longer[..|longer| - 1] == committed;
    hide Execute, Step, Commits, SuccessRecord;
  }

  lemma ResultsNext(s: Store, committed: seq<Call>, call: Call)
    requires RecordsTell(s, committed) && Commits(s, call)
    ensures var records, longer := s.records + [SuccessRecord(call.command, Transact(s.db, call).value.1)], committed + [call];
      forall k :: 0 <= k < |longer| ==>
        ResultOf(longer, k).Ok? && records[k] == SuccessRecord(longer[k].command, ResultOf(longer, k).value.1)
  {
    hide Transact, Run, SuccessRecord;
    var longer := committed + [call];
    forall k | 0 <= k < |committed| ensures ResultOf(longer, k) == ResultOf(committed, k) && longer[k] == committed[k] {
      assert longer[..k] == committed[..k];
    }
    assert longer[..|committed|] == committed;
  }

  lemma IdentitiesNext(s: Store, committed: seq<Call>, call: Call)
    requires RecordsTell(s, committed) && Commits(s, call)
    ensures forall j :: 0 <= j < |committed| ==>
      && committed[j].command.Key() != call.command.Key()
      && committed[j].command.OperationId() != call.command.OperationId()
  {
    hide Transact, Run;
    forall j | 0 <= j < |committed|
      ensures committed[j].command.Key() != call.command.Key()
           && committed[j].command.OperationId() != call.command.OperationId()
    {
      RecordKey(s, committed, j);
    }
  }

  lemma RecordKey(s: Store, committed: seq<Call>, j: nat)
    requires RecordsTell(s, committed) && j < |committed|
    ensures s.records[j].key == committed[j].command.Key()
    ensures s.records[j].operationId == committed[j].command.OperationId()
  {
    hide Transact, Run;
  }

  /** The store of every run: the repair tables are those of the committed calls alone, and the
      records are their answers, one per retry key and one per operation. */
  lemma {:induction false} EveryStoreTells(calls: seq<Call>)
    ensures RecordsTell(After(calls), Committed(calls))
  {
    hide Execute, Transact;
    if calls != [] {
      var last := |calls| - 1;
      EveryStoreTells(calls[..last]);
      var s := After(calls[..last]);
      OnlyCommitsWrite(s, calls[last]);
      if Commits(s, calls[last]) {
        RecordsTellNext(s, Committed(calls[..last]), calls[last]);
      }
    }
  }

  // ----- Retry erasure -----

  /** `key` succeeded somewhere in the list. */
  predicate SucceededIn(calls: seq<Call>, key: Key) {
    exists i :: 0 <= i < |calls| && calls[i].command.Key() == key && AnswerTo(calls, i).Answered?
  }

  lemma SucceededNext(before: seq<Call>, call: Call, key: Key)
    ensures SucceededIn(before + [call], key) <==>
      SucceededIn(before, key) || (call.command.Key() == key && Execute(After(before), call).1.Answered?)
  {
    hide Execute, After;
    var calls := before + [call];
    assert calls[..|before|] == before && AnswerTo(calls, |before|) == Execute(After(before), call).1;
    forall i | 0 <= i < |before| ensures AnswerTo(calls, i) == AnswerTo(before, i) && calls[i] == before[i] {
      assert calls[..i] == before[..i];
    }
    if SucceededIn(before, key) {
      var i :| 0 <= i < |before| && before[i].command.Key() == key && AnswerTo(before, i).Answered?;
      assert calls[i].command.Key() == key && AnswerTo(calls, i).Answered?;
    }
  }

  /** A key has a record exactly when one of its calls was answered. */
  lemma {:induction false} RecordedMeansSucceeded(calls: seq<Call>, key: Key)
    ensures FindKey(After(calls).records, key).Some? <==> SucceededIn(calls, key)
  {
    hide Execute, FindKey;
    if calls == [] {
      hide SucceededIn;
      NothingSucceeded(key);
    } else {
      var last := |calls| - 1;
      var before, call, s := calls[..last], calls[last], After(calls[..last]);
      RecordedMeansSucceeded(before, key);
      assert before + [call] == calls;
      SucceededNext(before, call, key);
      RecordedNext(s, call, key);
      hide SucceededIn;
    }
  }

  lemma NothingSucceeded(key: Key)
    ensures FindKey(EMPTY_STORE.records, key).None? && !SucceededIn([], key)
  {
    hide Execute;
  }

  lemma RecordedNext(s: Store, call: Call, key: Key)
    ensures FindKey(Execute(s, call).0.records, key).Some? <==>
      FindKey(s.records, key).Some? || (call.command.Key() == key && Execute(s, call).1.Answered?)
  {
    hide Transact;
    OnlyCommitsWrite(s, call);
    if Commits(s, call) {
      FindKeyAppend(s.records, SuccessRecord(call.command, Transact(s.db, call).value.1), key);
    }
  }

  lemma FindKeyAppend(records: seq<Record>, record: Record, key: Key)
    ensures FindKey(records + [record], key).Some? <==> FindKey(records, key).Some? || record.key == key
  {
    assert (records + [record])[..|records|] == records;
  }

  /** The list with every repeat after its key's first success deleted. */
  function Erase(calls: seq<Call>): seq<Call> {
    if calls == [] then []
    else
      var last := |calls| - 1;
      if SucceededIn(calls[..last], calls[last].command.Key()) then Erase(calls[..last])
      else Erase(calls[..last]) + [calls[last]]
  }

  /** Repeats are invisible: deleting every repeat after a key's first success leaves the same
      store, records included; and so does keeping only the calls that committed. */
  lemma {:induction false} RetriesAreInvisible(calls: seq<Call>)
    ensures After(Erase(calls)) == After(calls)
    ensures After(calls).db == Run(Committed(calls))
  {
    hide Execute, Transact, Run, SucceededIn;
    EveryStoreTells(calls);
    if calls != [] {
      var last := |calls| - 1;
      var before := calls[..last];
      RetriesAreInvisible(before);
      RecordedMeansSucceeded(before, calls[last].command.Key());
      OnlyCommitsWrite(After(before), calls[last]);
      if !SucceededIn(before, calls[last].command.Key()) {
        var erased := Erase(calls);
        assert erased[..|erased| - 1] == Erase(before);
      }
    }
  }

  // ----- What a repeat is told -----

  lemma RecordsGrow(s: Store, call: Call)
    ensures s.records <= Execute(s, call).0.records
  {
    hide Transact, SuccessRecord;
  }

  lemma {:induction false} RecordsPersist(calls: seq<Call>, more: seq<Call>)
    ensures After(calls).records <= After(calls + more).records
  {
    hide Execute;
    if more == [] {
      assert calls + more == calls;
    } else {
      var last := |more| - 1;
      var all := calls + more;
      assert all[..|all| - 1] == calls + more[..last];
      assert After(all) == Execute(After(calls + more[..last]), more[last]).0;
      hide After;
      RecordsPersist(calls, more[..last]);
      RecordsGrow(After(calls + more[..last]), more[last]);
    }
  }

  lemma AnswerFromRecord(s: Store, committed: seq<Call>, k: nat, again: Call)
    requires RecordsTell(s, committed) && k < |s.records| && s.records[k].key == again.command.Key()
    requires s.records[k].status == Succeeded
    ensures Execute(s, again) == (s, if s.records[k].digest == again.command.Digest()
                                     then ReplayResult(s.records[k]) else Refused(IdempotencyPayloadConflict))
  {
    var found := FindKey(s.records, again.command.Key());
    RecordKey(s, committed, k);
    RecordKey(s, committed, found.value);
    hide Transact, Run;
    assert found.value == k;
  }

  /** Once a call has been answered, every later call under its key finds the store as it is and
      leaves it so: told the same code, resource, version and data, marked replayed, when its
      fingerprint is the same, and refused when it is not. */
  lemma RepeatsAreAnsweredFromTheRecord(calls: seq<Call>, call: Call, more: seq<Call>, again: Call)
    requires Commits(After(calls), call) && again.command.Key() == call.command.Key()
    ensures
      var answer := Execute(After(calls), call).1;
      var later := After(calls + [call] + more);
      && answer.Answered?
      && Execute(later, again) == (later, if again.command.Digest() == call.command.Digest()
                                          then Answered(answer.result.(replayed := true))
                                          else Refused(IdempotencyPayloadConflict))
  {
    hide Execute, Transact, Run, Committed;
    var first, now := calls + [call], calls + [call] + more;
    var k := |After(calls).records|;
    var record := SuccessRecord(call.command, Transact(After(calls).db, call).value.1);
    assert first[..|first| - 1] == calls;
    assert After(first) == Execute(After(calls), call).0;
    hide After;
    OnlyCommitsWrite(After(calls), call);
    assert After(first).records[k] == record;
    RecordsPersist(first, more);
    assert After(now).records[k] == record;
    EveryStoreTells(now);
    hide Commits, RecordsTell;
    AnswerFromRecord(After(now), Committed(now), k, again);
  }

  /** No run ever leaves a record unfinished, so no repeat is told that its request is in
      progress; and the one error that escapes uncaught is an operation id already spent under
      another key. */
  lemma EveryRecordSucceeded(calls: seq<Call>, call: Call)
    ensures forall k :: 0 <= k < |After(calls).records| ==>
      var record := After(calls).records[k];
      record.status == Succeeded && record.resource.Some? && record.payload.Some?
    ensures FindKey(After(calls).records, call.command.Key()).Some? ==>
      Execute(After(calls), call).1 != Refused(IdempotencyInProgress)
    ensures Execute(After(calls), call).1 == Crashed <==>
      && FindKey(After(calls).records, call.command.Key()).None?
      && FindOperation(After(calls).records, call.command.OperationId()).Some?
  {
    EveryStoreTells(calls);
    hide Transact, Run, After, Committed;
  }
}
