/** Which slots a query may offer and in what order, told in minutes and instants
    (application/slot_queries.py). */
module SlotFacts {
  import opened Domain
  import opened Slots

  /** A query is refused for its window, its duration or its size, in that order. */
  lemma QueriesAreChecked(q: Query)
    ensures Validate(q) ==
      if q.from >= q.to then Some(InvalidWindow)
      else if q.durationMinutes < 1 then Some(InvalidDuration)
      else if q.maxResults < 1 || q.maxResults > 100 then Some(InvalidMaxResults)
      else None
  {
  }

  /** A full or half hour. */
  ghost predicate OnTheHalfHour(t: Time) {
    exists halves: int :: t == halves * 1_800_000_000
  }

  lemma HalfHours(t: Time)
    ensures OnTheHalfHour(t) <==> t % GRANULARITY == 0
  {
    if t % GRANULARITY == 0 {
      assert t == (t / GRANULARITY) * 1_800_000_000;
    }
    if OnTheHalfHour(t) {
      var halves :| t == halves * 1_800_000_000;
      MultiplesDivide(halves);
    }
  }

  lemma MultiplesDivide(n: int)
    ensures (n * 1_800_000_000) % GRANULARITY == 0
  {
  }

  /** The worker's visit would lie inside one stretch of availability, past its very start when that is
      left out, and touch no booking. */
  predicate CouldWork(s: Source, start: Time, end: Time) {
    && (exists k :: 0 <= k < |s.availability| && Inside(start, end, s.availability[k]))
    && (forall k :: 0 <= k < |s.booked| ==> s.booked[k].endsAt <= start || end <= s.booked[k].startsAt)
  }

  predicate Inside(start: Time, end: Time, w: Window) {
    && end <= w.endsAt
    && if w.lowerInclusive then w.startsAt <= start else w.startsAt < start
  }

  /** A slot is offered exactly when some source of the worker serves the area and the worker could work
      from that half hour on for the whole repair, within the search window. */
  lemma OfferedExactly(q: Query, sources: seq<Source>, w: Id, start: Time)
    ensures Offered(q, sources, w, start) <==>
      var end := start + q.durationMinutes * 60_000_000;
      && q.from <= start && end <= q.to && OnTheHalfHour(start)
      && exists i :: 0 <= i < |sources| && sources[i].workerId == w && sources[i].area == q.area && CouldWork(sources[i], start, end)
  {
    HalfHours(start);
    var end := start + q.durationMinutes * 60_000_000;
    forall i | 0 <= i < |sources| ensures Free(sources[i], start, end) <==> CouldWork(sources[i], start, end) {
      CouldWorkWhenFree(sources[i], start, end);
    }
    hide Free, CouldWork, OnTheHalfHour;
  }

  lemma CouldWorkWhenFree(s: Source, start: Time, end: Time)
    ensures Free(s, start, end) <==> CouldWork(s, start, end)
  {
    if Free(s, start, end) {
      var k :| 0 <= k < |s.availability| && Covered(start, end, s.availability[k]);
      assert Inside(start, end, s.availability[k]);
      forall k | 0 <= k < |s.booked| ensures s.booked[k].endsAt <= start || end <= s.booked[k].startsAt {
        assert !Overlaps(start, end, s.booked[k]);
      }
    }
    if CouldWork(s, start, end) {
      var k :| 0 <= k < |s.availability| && Inside(start, end, s.availability[k]);
      assert Covered(start, end, s.availability[k]);
    }
  }

  /** The load shown is that of the first source to offer the slot. */
  lemma {:induction false} LoadOfTheFirstOffer(q: Query, sources: seq<Source>, i: nat, start: Time)
    requires i < |sources| && Offers(q, sources[i], start)
    requires forall k :: 0 <= k < i && sources[k].workerId == sources[i].workerId ==> !Offers(q, sources[k], start)
    ensures OfferedLoad(q, sources, sources[i].workerId, start) == sources[i].load
  {
    hide Offers;
    var last := |sources| - 1;
    if i < last {
      assert sources[..last][i] == sources[i];
      LoadOfTheFirstOffer(q, sources[..last], i, start);
    }
  }

  /** Earlier first; at one time the lighter load, and then the smaller id. */
  lemma OrderOfSlots(a: Slot, b: Slot)
    ensures Precedes(a, b) <==>
      if a.startsAt != b.startsAt then a.startsAt < b.startsAt
      else if a.load != b.load then a.load < b.load
      else a.workerId < b.workerId
  {
  }
}
