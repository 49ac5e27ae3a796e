/** Candidate slots for one repair: aligned starts, worker by worker, sorted and cut to size
    (application/slot_queries.py). Times are microseconds of one wall clock with a fixed offset,
    counted from a midnight. */
module Slots {
  import opened Domain
  import opened Appointments
  import opened Sorting
  import Schema
  import BookingChecks

  const MINUTE := 60_000_000
  const GRANULARITY := 30 * MINUTE
  const MAX_RESULTS := 100

  datatype Window = Window(startsAt: Time, endsAt: Time, lowerInclusive: bool)

  /** One worker as the slot query reads it; areas are already normalised. */
  datatype Source = Source(workerId: Id, area: string, load: nat, availability: seq<Window>, booked: seq<Window>)

  datatype Slot = Slot(workerId: Id, area: string, startsAt: Time, endsAt: Time, load: nat, rank: nat)

  datatype Query = Query(area: string, from: Time, to: Time, durationMinutes: int, maxResults: int)

  datatype QueryError = InvalidWindow | InvalidDuration | InvalidMaxResults

  function Validate(q: Query): Option<QueryError> {
    if q.to <= q.from then Some(InvalidWindow)
    else if q.durationMinutes <= 0 then Some(InvalidDuration)
    else if !(1 <= q.maxResults <= MAX_RESULTS) then Some(InvalidMaxResults)
    else None
  }

  /** Seconds dropped, then the minutes moved up to the next half hour unless already there. */
  function CeilToBoundary(value: Time): Time {
    var base := value - value % MINUTE;
    var remainder := (base / MINUTE) % 30;
    if remainder == 0 && value == base then base
    else base + (if remainder != 0 then 30 - remainder else 30) * MINUTE
  }

  /** It is a half-hour boundary, less than half an hour ahead. */
  lemma CeilIsBoundary(value: Time)
    ensures CeilToBoundary(value) % GRANULARITY == 0
    ensures value <= CeilToBoundary(value) < value + GRANULARITY
  {
    var seconds, minutes := value % MINUTE, value / MINUTE;
    var remainder, halves := minutes % 30, minutes / 30;
    assert value == minutes * MINUTE + seconds && minutes == halves * 30 + remainder;
    assert (value - seconds) / MINUTE == minutes;
    var whole := if remainder == 0 && seconds == 0 then halves else halves + 1;
    assert CeilToBoundary(value) == whole * GRANULARITY;
  }

  /** And the first one at or after the value. */
  lemma CeilIsLeastBoundary(value: Time, t: Time)
    requires t % GRANULARITY == 0 && value <= t
    ensures CeilToBoundary(value) <= t
  {
    CeilIsBoundary(value);
    var r := CeilToBoundary(value);
    hide CeilToBoundary;
    assert t == (t / GRANULARITY) * GRANULARITY && r == (r / GRANULARITY) * GRANULARITY;
  }

  predicate Covered(start: Time, end: Time, w: Window) {
    w.startsAt <= start && end <= w.endsAt && !(start == w.startsAt && !w.lowerInclusive)
  }

  predicate Overlaps(start: Time, end: Time, w: Window) {
    start < w.endsAt && end > w.startsAt
  }

  predicate Free(s: Source, start: Time, end: Time) {
    && (exists k :: 0 <= k < |s.availability| && Covered(start, end, s.availability[k]))
    && (forall k :: 0 <= k < |s.booked| ==> !Overlaps(start, end, s.booked[k]))
  }

  function Duration(q: Query): int {
    q.durationMinutes * MINUTE
  }

  /** A start the query may offer: aligned, and the repair fits in the search window. */
  predicate Startable(q: Query, start: Time) {
    q.from <= start && start % GRANULARITY == 0 && start + Duration(q) <= q.to
  }

  /** The source offers its worker at `start`. */
  predicate Offers(q: Query, s: Source, start: Time) {
    s.area == q.area && Startable(q, start) && Free(s, start, start + Duration(q))
  }

  /** Some source offers worker `w` at `start`. */
  predicate Offered(q: Query, sources: seq<Source>, w: Id, start: Time) {
    exists i :: 0 <= i < |sources| && sources[i].workerId == w && Offers(q, sources[i], start)
  }

  /** The work load of the first source that offers the worker then. */
  function OfferedLoad(q: Query, sources: seq<Source>, w: Id, start: Time): nat {
    if sources == [] then 0
    else if Offered(q, sources[..|sources| - 1], w, start) then OfferedLoad(q, sources[..|sources| - 1], w, start)
    else sources[|sources| - 1].load
  }

  /** An unranked slot of the query. */
  predicate Genuine(q: Query, sources: seq<Source>, c: Slot) {
    && Offered(q, sources, c.workerId, c.startsAt) && c.endsAt == c.startsAt + Duration(q) && c.area == q.area
    && c.load == OfferedLoad(q, sources, c.workerId, c.startsAt)
  }

  ghost predicate NoRepeats(slots: seq<Slot>) {
    forall i, j :: 0 <= i < j < |slots| ==> (slots[i].workerId, slots[i].startsAt) != (slots[j].workerId, slots[j].startsAt)
  }

  // ----- Generating -----

  lemma OfferedGrows(q: Query, sources: seq<Source>, s: Source, w: Id, start: Time)
    ensures Offered(q, sources + [s], w, start) <==> Offered(q, sources, w, start) || (s.workerId == w && Offers(q, s, start))
    ensures Offered(q, sources, w, start) ==> OfferedLoad(q, sources + [s], w, start) == OfferedLoad(q, sources, w, start)
    ensures !Offered(q, sources, w, start) ==> OfferedLoad(q, sources + [s], w, start) == s.load
  {
    var more := sources + [s];
    assert more[..|sources|] == sources;
    if Offered(q, sources, w, start) {
      var i :| 0 <= i < |sources| && sources[i].workerId == w && Offers(q, sources[i], start);
      assert more[i] == sources[i];
    }
    if s.workerId == w && Offers(q, s, start) {
      assert more[|sources|] == s;
    }
  }

  /** The pairs listed, and only genuine slots for them, each once. */
  ghost predicate Listing(q: Query, sources: seq<Source>, candidates: seq<Slot>, seen: set<(Id, Time)>) {
    && NoRepeats(candidates)
    && (forall k :: 0 <= k < |candidates| ==> (candidates[k].workerId, candidates[k].startsAt) in seen)
    && (forall p :: p in seen ==> exists k :: 0 <= k < |candidates| && (candidates[k].workerId, candidates[k].startsAt) == p)
    && (forall k :: 0 <= k < |candidates| ==>
          && candidates[k].endsAt == candidates[k].startsAt + Duration(q) && candidates[k].area == q.area
          && candidates[k].load == OfferedLoad(q, sources, candidates[k].workerId, candidates[k].startsAt))
  }

  lemma ListOneMore(q: Query, sources: seq<Source>, candidates: seq<Slot>, seen: set<(Id, Time)>, c: Slot)
    requires Listing(q, sources, candidates, seen) && (c.workerId, c.startsAt) !in seen
    requires c.endsAt == c.startsAt + Duration(q) && c.area == q.area
    requires c.load == OfferedLoad(q, sources, c.workerId, c.startsAt)
    ensures Listing(q, sources, candidates + [c], seen + {(c.workerId, c.startsAt)})
  {
    hide OfferedLoad;
    var more := candidates + [c];
    forall p | p in seen + {(c.workerId, c.startsAt)}
      ensures exists k :: 0 <= k < |more| && (more[k].workerId, more[k].startsAt) == p
    {
      if p in seen {
        var k :| 0 <= k < |candidates| && (candidates[k].workerId, candidates[k].startsAt) == p;
        assert more[k] == candidates[k];
      } else {
        assert more[|candidates|] == c;
      }
    }
  }

  /** The loads recorded so far are those of the longer list of sources too. */
  lemma ListingStays(q: Query, sources: seq<Source>, s: Source, candidates: seq<Slot>, seen: set<(Id, Time)>)
    requires Listing(q, sources, candidates, seen)
    requires forall w: Id, t: Time :: (w, t) in seen ==> Offered(q, sources, w, t)
    ensures Listing(q, sources + [s], candidates, seen)
  {
    hide OfferedLoad, Offered;
    forall k | 0 <= k < |candidates|
      ensures OfferedLoad(q, sources + [s], candidates[k].workerId, candidates[k].startsAt)
           == OfferedLoad(q, sources, candidates[k].workerId, candidates[k].startsAt)
    {
      OfferedGrows(q, sources, s, candidates[k].workerId, candidates[k].startsAt);
    }
  }

  /** The starts of one source, from the first boundary on, half an hour apart. */
  method AddWorker(q: Query, ghost before: seq<Source>, s: Source, candidates: seq<Slot>, seen: set<(Id, Time)>)
    returns (more: seq<Slot>, noted: set<(Id, Time)>)
    requires Validate(q).None?
    requires Listing(q, before, candidates, seen)
    requires forall k :: 0 <= k < |candidates| ==> candidates[k].rank == 0
    requires forall w: Id, t: Time :: (w, t) in seen <==> Offered(q, before, w, t)
    ensures Listing(q, before + [s], more, noted)
    ensures forall k :: 0 <= k < |more| ==> more[k].rank == 0
    ensures forall w: Id, t: Time :: (w, t) in noted <==> Offered(q, before + [s], w, t)
  {
    more, noted := candidates, seen;
    ListingStays(q, before, s, candidates, seen);
    forall w: Id, t: Time ensures Offered(q, before + [s], w, t) <==> Offered(q, before, w, t) || (s.workerId == w && Offers(q, s, t)) {
      OfferedGrows(q, before, s, w, t);
    }
    hide Listing, OfferedLoad, Offered, Free, CeilToBoundary;
    if s.area != q.area {
      return;
    }
    var start := CeilToBoundary(q.from);
    FirstStart(q.from);
    while start + Duration(q) <= q.to
      invariant start % GRANULARITY == 0 && q.from <= start
      invariant Listing(q, before + [s], more, noted)
      invariant forall k :: 0 <= k < |more| ==> more[k].rank == 0
      invariant forall w: Id, t: Time :: (w, t) in noted <==>
        Offered(q, before, w, t) || (s.workerId == w && Offers(q, s, t) && t < start)
      decreases q.to - start
    {
      var end := start + Duration(q);
      if (s.workerId, start) !in noted && Free(s, start, end) {
        OfferedGrows(q, before, s, s.workerId, start);
        var c := Slot(s.workerId, s.area, start, end, s.load, 0);
        ListOneMore(q, before + [s], more, noted, c);
        more, noted := more + [c], noted + {(s.workerId, start)};
      }
      forall t: Time | start < t < start + GRANULARITY ensures !Offers(q, s, t) {
        NoBoundaryBetween(start, t);
      }
      NextBoundary(start);
      start := start + GRANULARITY;
    }
  }

  lemma FirstStart(from: Time)
    ensures var start := CeilToBoundary(from);
      && from <= start && start % GRANULARITY == 0
      && forall t: Time :: from <= t < start ==> t % GRANULARITY != 0
  {
    CeilIsBoundary(from);
    hide CeilToBoundary;
    forall t: Time | from <= t < CeilToBoundary(from) ensures t % GRANULARITY != 0 {
      if t % GRANULARITY == 0 {
        CeilIsLeastBoundary(from, t);
      }
    }
  }

  lemma NoBoundaryBetween(start: Time, t: Time)
    requires start % GRANULARITY == 0 && start < t < start + GRANULARITY
    ensures t % GRANULARITY != 0
  {
    assert (t - start) % GRANULARITY == t - start;
    assert start == (start / GRANULARITY) * GRANULARITY && t == (t / GRANULARITY) * GRANULARITY + t % GRANULARITY;
  }

  lemma NextBoundary(start: Time)
    requires start % GRANULARITY == 0
    ensures (start + GRANULARITY) % GRANULARITY == 0
  {
  }

  // ----- Ordering and cutting -----

  /** Earlier start, then lighter load, then smaller worker id. */
  predicate Precedes(a: Slot, b: Slot) {
    || a.startsAt < b.startsAt
    || (a.startsAt == b.startsAt && a.load < b.load)
    || (a.startsAt == b.startsAt && a.load == b.load && a.workerId < b.workerId)
  }

  ghost predicate InOrder(slots: seq<Slot>) {
    forall i, j :: 0 <= i < j < |slots| ==> Precedes(slots[i], slots[j])
  }

  const BY_START_LOAD_WORKER: (Slot, Slot) -> bool := (a: Slot, b: Slot) => Precedes(a, b)

  /** Slots for distinct starts or workers sort strictly. */
  lemma SortedInOrder(slots: seq<Slot>)
    requires NoRepeats(slots)
    ensures InOrder(Sorted(BY_START_LOAD_WORKER, slots))
  {
    var sorted := Sorted(BY_START_LOAD_WORKER, slots);
    SortedPermutes(BY_START_LOAD_WORKER, slots);
    SortedAscending(BY_START_LOAD_WORKER, slots);
    forall i, j | 0 <= i < j < |sorted| ensures Precedes(sorted[i], sorted[j]) {
      assert !BY_START_LOAD_WORKER(sorted[j], sorted[i]);
      var k, l := PairMoves(sorted, slots, i, j);
      assert (slots[k].workerId, slots[k].startsAt) != (slots[l].workerId, slots[l].startsAt);
    }
  }

  function Ranked(slots: seq<Slot>): seq<Slot> {
    seq(|slots|, i requires 0 <= i < |slots| => slots[i].(rank := i + 1))
  }

  /** The answer lists genuine slots, ranked from one in strict order, and leaves an offered slot
      out only when it is full of slots that come before. */
  ghost predicate BestSlots(q: Query, sources: seq<Source>, r: seq<Slot>) {
    && |r| <= q.maxResults
    && (forall k :: 0 <= k < |r| ==> Genuine(q, sources, r[k]) && r[k].rank == k + 1)
    && InOrder(r)
    && (forall w: Id, t: Time :: Offered(q, sources, w, t) ==>
          || (exists k :: 0 <= k < |r| && r[k].workerId == w && r[k].startsAt == t)
          || (|r| == q.maxResults
              && forall k :: 0 <= k < |r| ==>
                   Precedes(r[k], Slot(w, q.area, t, t + Duration(q), OfferedLoad(q, sources, w, t), 0))))
  }

  /** The sorted candidates, cut to size and ranked. */
  function Cut(q: Query, candidates: seq<Slot>): seq<Slot>
    requires Validate(q).None?
  {
    var sorted := Sorted(BY_START_LOAD_WORKER, candidates);
    Ranked(if |sorted| <= q.maxResults then sorted else sorted[..q.maxResults])
  }

  lemma CutShape(q: Query, candidates: seq<Slot>)
    requires Validate(q).None? && NoRepeats(candidates)
    ensures
      var r, sorted := Cut(q, candidates), Sorted(BY_START_LOAD_WORKER, candidates);
      && |r| == (if |sorted| <= q.maxResults then |sorted| else q.maxResults)
      && (forall k :: 0 <= k < |r| ==> r[k] == sorted[k].(rank := k + 1) && sorted[k] in candidates)
      && InOrder(r)
  {
    hide Precedes, Sorted;
    var r, sorted := Cut(q, candidates), Sorted(BY_START_LOAD_WORKER, candidates);
    SortedInOrder(candidates);
    SortedPermutes(BY_START_LOAD_WORKER, candidates);
    forall k | 0 <= k < |r| ensures sorted[k] in candidates {
      assert sorted[k] in sorted;
    }
    forall i, j | 0 <= i < j < |r| ensures Precedes(r[i], r[j]) {
      RankIsIgnored(sorted[i], sorted[j], i + 1, j + 1);
    }
  }

  /** A candidate that is cut off comes after everything kept. */
  lemma CutOffComesAfter(q: Query, candidates: seq<Slot>, k: nat)
    requires Validate(q).None? && NoRepeats(candidates) && k < |candidates| && candidates[k].rank == 0
    ensures
      var r := Cut(q, candidates);
      || (exists l :: 0 <= l < |r| && r[l].workerId == candidates[k].workerId && r[l].startsAt == candidates[k].startsAt)
      || (|r| == q.maxResults && forall i :: 0 <= i < |r| ==> Precedes(r[i], candidates[k]))
  {
    CutShape(q, candidates);
    SortedInOrder(candidates);
    SortedPermutes(BY_START_LOAD_WORKER, candidates);
    hide Precedes, Sorted, Cut;
    var r, sorted := Cut(q, candidates), Sorted(BY_START_LOAD_WORKER, candidates);
    assert candidates[k] in sorted;
    var l :| 0 <= l < |sorted| && sorted[l] == candidates[k];
    if l < |r| {
      assert r[l].workerId == candidates[k].workerId && r[l].startsAt == candidates[k].startsAt;
    } else {
      forall i | 0 <= i < |r| ensures Precedes(r[i], candidates[k]) {
        RankIsIgnored(sorted[i], sorted[l], i + 1, 0);
      }
    }
  }

  lemma CutKeepsTheBest(q: Query, sources: seq<Source>, candidates: seq<Slot>, seen: set<(Id, Time)>)
    requires Validate(q).None? && Listing(q, sources, candidates, seen)
    requires forall w: Id, t: Time :: (w, t) in seen <==> Offered(q, sources, w, t)
    requires forall k :: 0 <= k < |candidates| ==> candidates[k].rank == 0
    ensures BestSlots(q, sources, Cut(q, candidates))
  {
    hide Offered, OfferedLoad, Precedes, Sorted, Cut;
    var r := Cut(q, candidates);
    CutShape(q, candidates);
    forall w: Id, t: Time | Offered(q, sources, w, t)
      ensures (exists k :: 0 <= k < |r| && r[k].workerId == w && r[k].startsAt == t)
           || (|r| == q.maxResults
               && forall k :: 0 <= k < |r| ==>
                    Precedes(r[k], Slot(w, q.area, t, t + Duration(q), OfferedLoad(q, sources, w, t), 0)))
    {
      assert (w, t) in seen;
      var k: nat :| k < |candidates| && (candidates[k].workerId, candidates[k].startsAt) == (w, t);
      CutOffComesAfter(q, candidates, k);
    }
  }

  lemma RankIsIgnored(a: Slot, b: Slot, m: nat, n: nat)
    ensures Precedes(a.(rank := m), b.(rank := n)) <==> Precedes(a, b)
  {
  }

  /** Worker by worker, then sorted, cut and ranked. */
  method GenerateAvailableSlots(q: Query, sources: seq<Source>) returns (error: Option<QueryError>, slots: seq<Slot>)
    ensures error == Validate(q)
    ensures error.None? ==> BestSlots(q, sources, slots)
  {
    error, slots := Validate(q), [];
    if error.Some? {
      return;
    }
    hide Listing, OfferedLoad, Offers, BestSlots;
    var candidates: seq<Slot>, seen: set<(Id, Time)> := [], {};
    NothingListed(q);
    var i := 0;
    while i < |sources|
      invariant 0 <= i <= |sources|
      invariant Listing(q, sources[..i], candidates, seen)
      invariant forall k :: 0 <= k < |candidates| ==> candidates[k].rank == 0
      invariant forall w: Id, t: Time :: (w, t) in seen <==> Offered(q, sources[..i], w, t)
    {
      candidates, seen := AddWorker(q, sources[..i], sources[i], candidates, seen);
      assert sources[..i + 1] == sources[..i] + [sources[i]];
      i := i + 1;
    }
    assert sources[..i] == sources;
    CutKeepsTheBest(q, sources, candidates, seen);
    slots := Cut(q, candidates);
  }

  lemma NothingListed(q: Query)
    ensures Listing(q, [], [], {})
    ensures forall w: Id, t: Time :: !Offered(q, [], w, t)
  {
  }

  // ----- Booking a generated slot -----

  /** Every live booking of the worker is among the source's booked intervals. */
  predicate ListsBookings(s: Source, rows: seq<Appointment>) {
    forall i :: 0 <= i < |rows| && rows[i].status == Booked && rows[i].workerId == s.workerId ==>
      exists k :: 0 <= k < |s.booked| && s.booked[k].startsAt == rows[i].startsAt && s.booked[k].endsAt == rows[i].endsAt
  }

  /** Booking an offered slot never makes the overlap check speak up, as long as every source of that
      worker lists all of the worker's bookings; empty bookings do no harm. */
  lemma BookingAnOfferedSlotStaysSilent(q: Query, sources: seq<Source>, w: Id, start: Time, rows: seq<Appointment>, draft: Appointment)
    requires Validate(q).None? && Offered(q, sources, w, start)
    requires forall i :: 0 <= i < |sources| && sources[i].workerId == w ==> ListsBookings(sources[i], rows)
    requires (forall i :: 0 <= i < |rows| ==> rows[i].startsAt <= rows[i].endsAt) && !BookingChecks.Raises(rows)
    requires draft.status == Booked && draft.workerId == w && draft.startsAt == start && draft.endsAt == start + Duration(q)
    ensures !BookingChecks.Raises(rows + [draft])
  {
    hide BookingChecks.Raises, Startable;
    var i :| 0 <= i < |sources| && sources[i].workerId == w && Offers(q, sources[i], start);
    var s := sources[i];
    forall j | 0 <= j < |rows| && Schema.BookedTogether(rows[j], draft)
      ensures !(start < rows[j].endsAt && rows[j].startsAt < start + Duration(q))
    {
      var k :| 0 <= k < |s.booked| && s.booked[k].startsAt == rows[j].startsAt && s.booked[k].endsAt == rows[j].endsAt;
      assert !Overlaps(start, start + Duration(q), s.booked[k]);
    }
    BookingChecks.RaisesExactly(rows);
    BookingChecks.RaisesExactly(rows + [draft]);
    forall a: nat, b: nat ensures !BookingChecks.Reported(rows + [draft], a, b) {
      if a < |rows| && b < |rows| {
        assert !BookingChecks.Reported(rows, a, b);
      }
    }
  }
}
