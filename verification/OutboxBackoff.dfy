/** What `attempt_count` and `available_at` say about a row's failed deliveries, over every run. */
module OutboxBackoff {
  import opened Outbox
  import opened OutboxRuns

  /** All clock readings come from one clock that never goes back. */
  ghost predicate OnOneClock(events: seq<Event>) {
    && (forall i :: 0 <= i < |events| ==> 0.0 <= events[i].at)
    && (forall i, j :: 0 <= i < j < |events| ==> events[i].at <= events[j].at)
  }

  function LastTime(events: seq<Event>): real {
    if events == [] then 0.0 else events[|events| - 1].at
  }

  lemma EarlierOnOneClock(events: seq<Event>)
    requires OnOneClock(events) && events != []
    ensures OnOneClock(events[..|events| - 1])
    ensures LastTime(events[..|events| - 1]) <= events[|events| - 1].at
  {
  }

  /** When row `id` had a delivery failure acknowledged, in order. */
  function FailureTimes(events: seq<Event>, settings: Settings, id: nat): seq<real> {
    if events == [] then []
    else
      var last := |events| - 1;
      var earlier := FailureTimes(events[..last], settings, id);
      var e := events[last];
      if e.Fail? && e.id == id && HoldsClaim(After(events[..last], settings).rows, id, e.worker, e.token)
      then earlier + [e.at] else earlier
  }

  // ----- Counting, whatever the clocks read -----

  predicate CountTells(row: Row, failures: nat, settings: Settings) {
    && row.attempts == failures
    && (row.status in {Pending, Processing} ==> row.attempts < settings.maxAttempts)
    && (row.status == DeadLetter ==> row.attempts == settings.maxAttempts)
  }

  lemma StepKeepsCount(s: State, e: Event, settings: Settings, id: nat, failures: nat)
    requires id < |s.rows| && CountTells(s.rows[id], failures, settings)
    ensures id < |Next(s, e, settings).rows|
    ensures
      var fails := e.Fail? && e.id == id && HoldsClaim(s.rows, id, e.worker, e.token);
      CountTells(Next(s, e, settings).rows[id], if fails then failures + 1 else failures, settings)
  {
    hide Delay, ClaimAll, Pick;
    if e.ClaimBatch? {
      ClaimTouchesEligible(s, e, settings, id);
    }
  }

  /** In every run, whatever its workers' clocks read: a row's attempt count is the number of its
      acknowledged failures; it stays below the limit until the row is dead-lettered, and is the
      limit then. */
  lemma {:induction false} AttemptsCountFailures(events: seq<Event>, settings: Settings, id: nat)
    requires settings.maxAttempts >= 1 && id < |After(events, settings).rows|
    ensures
      var row, failures := After(events, settings).rows[id], |FailureTimes(events, settings, id)|;
      && row.attempts == failures
      && (row.status in {Pending, Processing} ==> failures < settings.maxAttempts)
      && (row.status == DeadLetter ==> failures == settings.maxAttempts)
  {
    hide Next;
    if events != [] {
      var last := |events| - 1;
      var before, e := events[..last], events[last];
      var s := After(before, settings);
      if id < |s.rows| {
        AttemptsCountFailures(before, settings, id);
        StepKeepsCount(s, e, settings, id, |FailureTimes(before, settings, id)|);
      } else {
        NoFailuresYet(before, settings, id);
        PublishedRowTells(s, e, settings, id);
      }
    }
  }

  // ----- Backing off, on one clock -----

  /** The `k`-th failure came a full back-off after the one before it. */
  ghost predicate BackedOff(times: seq<real>, base: real) {
    forall k :: 0 < k < |times| ==> times[k] >= times[k - 1] + Delay(base, k - 1)
  }

  ghost predicate RetryTells(row: Row, times: seq<real>, settings: Settings, now: real) {
    && row.attempts == |times|
    && BackedOff(times, settings.retryBase)
    && (row.status in {Pending, Processing} && times != [] ==>
          row.availableAt == times[|times| - 1] + Delay(settings.retryBase, |times| - 1))
    && (row.status == Processing ==> row.availableAt <= now)
  }

  lemma FailureKeepsRetry(row: Row, times: seq<real>, settings: Settings, before: real, at: real, error: string)
    requires RetryTells(row, times, settings, before) && row.status == Processing && before <= at
    ensures RetryTells(FailedRow(row, at, error, settings), times + [at], settings, at)
  {
    hide Delay;
  }

  /** A claim leaves a row alone or takes it, when it is eligible, without touching its schedule. */
  lemma ClaimTouchesEligible(s: State, e: Event, settings: Settings, id: nat)
    requires e.ClaimBatch? && id < |s.rows|
    ensures id < |Next(s, e, settings).rows|
    ensures
      var row, next := s.rows[id], Next(s, e, settings).rows[id];
      || next == row
      || (Eligible(row, e.at) && next.status == Processing
          && next.attempts == row.attempts && next.availableAt == row.availableAt)
  {
    hide Pick, ClaimAll, Eligible;
    var picked := Pick(s.rows, e.at, e.locked, e.limit);
    PickedAreRows(s.rows, e.at, e.locked, e.limit);
    ClaimAllShape(s, picked, e.worker, e.at + e.lease);
  }

  lemma ClaimsKeepRetry(s: State, e: Event, settings: Settings, id: nat, times: seq<real>, before: real)
    requires e.ClaimBatch? && id < |s.rows| && before <= e.at
    requires RetryTells(s.rows[id], times, settings, before)
    ensures id < |Next(s, e, settings).rows| && RetryTells(Next(s, e, settings).rows[id], times, settings, e.at)
  {
    hide Next, BackedOff, Delay;
    ClaimTouchesEligible(s, e, settings, id);
  }

  lemma StepKeepsRetry(s: State, e: Event, settings: Settings, id: nat, times: seq<real>, before: real)
    requires id < |s.rows| && before <= e.at && RetryTells(s.rows[id], times, settings, before)
    ensures id < |Next(s, e, settings).rows|
    ensures
      var fails := e.Fail? && e.id == id && HoldsClaim(s.rows, id, e.worker, e.token);
      RetryTells(Next(s, e, settings).rows[id], if fails then times + [e.at] else times, settings, e.at)
  {
    hide Delay, BackedOff, ClaimAll, Pick, FailedRow;
    match e
    case ClaimBatch(_, _, _, _, _) => ClaimsKeepRetry(s, e, settings, id, times, before);
    case Fail(failed, worker, token, at, error) =>
      if failed == id && HoldsClaim(s.rows, id, worker, token) {
        FailureKeepsRetry(s.rows[id], times, settings, before, at, error);
      }
    case _ =>
  }

  lemma {:induction false} NoFailuresYet(events: seq<Event>, settings: Settings, id: nat)
    requires id >= |After(events, settings).rows|
    ensures FailureTimes(events, settings, id) == []
  {
    if events != [] {
      RowsOnlyGrow(After(events[..|events| - 1], settings), events[|events| - 1], settings);
      NoFailuresYet(events[..|events| - 1], settings, id);
    }
  }

  lemma RowsOnlyGrow(s: State, e: Event, settings: Settings)
    ensures |s.rows| <= |Next(s, e, settings).rows|
    ensures !e.Publish? ==> |s.rows| == |Next(s, e, settings).rows|
  {
    if e.ClaimBatch? {
      PickedAreRows(s.rows, e.at, e.locked, e.limit);
      ClaimAllShape(s, Pick(s.rows, e.at, e.locked, e.limit), e.worker, e.at + e.lease);
    }
  }

  lemma {:induction false} EveryRunTells(events: seq<Event>, settings: Settings, id: nat)
    requires OnOneClock(events) && id < |After(events, settings).rows|
    ensures RetryTells(After(events, settings).rows[id], FailureTimes(events, settings, id), settings, LastTime(events))
  {
    hide Next, OnOneClock, RetryTells;
    if events != [] {
      var last := |events| - 1;
      var before, e := events[..last], events[last];
      var s := After(before, settings);
      EarlierOnOneClock(events);
      if id < |s.rows| {
        EveryRunTells(before, settings, id);
        StepKeepsRetry(s, e, settings, id, FailureTimes(before, settings, id), LastTime(before));
      } else {
        NoFailuresYet(before, settings, id);
        PublishedRowTells(s, e, settings, id);
      }
    }
  }

  lemma PublishedRowTells(s: State, e: Event, settings: Settings, id: nat)
    requires |s.rows| <= id < |Next(s, e, settings).rows|
    ensures e.Publish? && RetryTells(Next(s, e, settings).rows[id], [], settings, e.at)
    ensures settings.maxAttempts >= 1 ==> CountTells(Next(s, e, settings).rows[id], 0, settings)
  {
    RowsOnlyGrow(s, e, settings);
  }

  lemma {:induction false} BackoffAddsUp(times: seq<real>, base: real)
    requires BackedOff(times, base) && times != []
    ensures times[|times| - 1] >= times[0] + base * (Power2(|times| - 1) as real - 1.0)
  {
    if |times| > 1 {
      var n := |times| - 1;
      BackoffAddsUp(times[..n], base);
      var p := Power2(n - 1) as real;
      assert Power2(n) as real == p + p;
      assert base * (p - 1.0) + base * p == base * (p + p - 1.0);
    }
  }

  /** In every run on one clock, whatever leases expire in between: the k-th retry cannot fail before
      its doubled back-off has passed, so n failures span at least base * (2^(n-1) - 1) seconds. */
  lemma FailuresBackOff(events: seq<Event>, settings: Settings, id: nat)
    requires OnOneClock(events) && id < |After(events, settings).rows|
    ensures
      var times := FailureTimes(events, settings, id);
      && (forall k :: 0 < k < |times| ==> times[k] >= times[k - 1] + Delay(settings.retryBase, k - 1))
      && (times != [] ==>
            times[|times| - 1] >= times[0] + settings.retryBase * (Power2(|times| - 1) as real - 1.0))
  {
    hide After, FailureTimes, Delay, Power2, OnOneClock;
    EveryRunTells(events, settings, id);
    if FailureTimes(events, settings, id) != [] {
      BackoffAddsUp(FailureTimes(events, settings, id), settings.retryBase);
    }
  }
}
