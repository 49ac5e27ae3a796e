/** The in-memory booking checks (domain/invariants.py): each looks at a list in one pass and is
    proved to find exactly what the schema's constraints forbid. */
module BookingChecks {
  import opened Domain
  import opened Appointments
  import opened Schema
  import opened Sorting

  /** Counts the live bookings of each ticket; answers the ticket that has a second one. */
  method EnsureSingleActiveAppointment(rows: seq<Appointment>) returns (offender: Option<Id>)
    ensures offender.None? <==> OneBookingPerTicket(rows)
    ensures offender.Some? ==>
      exists i, j :: 0 <= i < j < |rows| && rows[i].status == Booked && rows[j].status == Booked
        && rows[i].ticketId == rows[j].ticketId == offender.value
  {
    var booked: map<Id, nat> := map[];
    var k := 0;
    while k < |rows|
      invariant 0 <= k <= |rows|
      invariant forall t :: t in booked <==> exists i :: 0 <= i < k && rows[i].status == Booked && rows[i].ticketId == t
      invariant forall t :: t in booked ==> booked[t] == 1
      invariant OneBookingPerTicket(rows[..k])
    {
      assert rows[..k + 1][..k] == rows[..k];
      if rows[k].status == Booked {
        var t := rows[k].ticketId;
        var count := (if t in booked then booked[t] else 0) + 1;
        if count > 1 {
          var i :| 0 <= i < k && rows[i].status == Booked && rows[i].ticketId == t;
          return Some(t);
        }
        booked := booked[t := count];
      }
      k := k + 1;
    }
    assert rows[..k] == rows;
    offender := None;
  }

  // ----- Overlaps -----

  /** The order of the check's sort: by worker, then by start. */
  const BY_WORKER_AND_START: (Appointment, Appointment) -> bool :=
    (a: Appointment, b: Appointment) => a.workerId < b.workerId || (a.workerId == b.workerId && a.startsAt < b.startsAt)

  function Live(rows: seq<Appointment>): seq<Appointment> {
    if rows == [] then []
    else
      var last := |rows| - 1;
      Live(rows[..last]) + if rows[last].status == Booked then [rows[last]] else []
  }

  function SortedBookings(rows: seq<Appointment>): seq<Appointment> {
    Sorted(BY_WORKER_AND_START, Live(rows))
  }

  /** One after the other, or at the same start for the same worker. */
  predicate Before(a: Appointment, b: Appointment) {
    a.workerId < b.workerId || (a.workerId == b.workerId && a.startsAt <= b.startsAt)
  }

  ghost predicate InOrder(rows: seq<Appointment>) {
    forall i, j :: 0 <= i < j < |rows| ==> Before(rows[i], rows[j])
  }

  lemma SortedShape(rows: seq<Appointment>)
    ensures InOrder(SortedBookings(rows))
    ensures multiset(SortedBookings(rows)) == multiset(Live(rows))
    ensures forall a :: a in SortedBookings(rows) <==> a in Live(rows)
  {
    var sorted := SortedBookings(rows);
    SortedPermutes(BY_WORKER_AND_START, Live(rows));
    SortedAscending(BY_WORKER_AND_START, Live(rows));
    forall i, j | 0 <= i < j < |sorted| ensures Before(sorted[i], sorted[j]) {
      assert !BY_WORKER_AND_START(sorted[j], sorted[i]);
    }
  }

  /** The sorted neighbours of one worker clash. */
  predicate Clash(left: Appointment, right: Appointment) {
    left.workerId == right.workerId && left.endsAt > right.startsAt
  }

  /** Compares sorted neighbours and answers the first pair that clashes. */
  method EnsureNoWorkerOverlap(rows: seq<Appointment>) returns (clash: Option<(Appointment, Appointment)>)
    ensures clash.Some? <==> exists k :: 0 < k < |SortedBookings(rows)| && Clash(SortedBookings(rows)[k - 1], SortedBookings(rows)[k])
    ensures clash.Some? ==>
      Clash(clash.value.0, clash.value.1) && clash.value.0 in Live(rows) && clash.value.1 in Live(rows)
  {
    var active := SortedBookings(rows);
    SortedShape(rows);
    var k := 1;
    while k < |active|
      invariant 1 <= k
      invariant forall l :: 0 < l < k && l < |active| ==> !Clash(active[l - 1], active[l])
    {
      if Clash(active[k - 1], active[k]) {
        assert active[k - 1] in active && active[k] in active;
        return Some((active[k - 1], active[k]));
      }
      k := k + 1;
    }
    clash := None;
  }

  /** The check speaks up. */
  ghost predicate Raises(rows: seq<Appointment>) {
    exists k :: 0 < k < |SortedBookings(rows)| && Clash(SortedBookings(rows)[k - 1], SortedBookings(rows)[k])
  }

  /** Looking at neighbours is enough: some neighbours clash exactly when some pair does. */
  lemma NeighboursSuffice(sorted: seq<Appointment>)
    requires InOrder(sorted)
    ensures (exists k :: 0 < k < |sorted| && Clash(sorted[k - 1], sorted[k]))
      <==> (exists i, j :: 0 <= i < j < |sorted| && Clash(sorted[i], sorted[j]))
  {
    if i, j :| 0 <= i < j < |sorted| && Clash(sorted[i], sorted[j]) {
      assert Before(sorted[i], sorted[i + 1]) && (i + 1 < j ==> Before(sorted[i + 1], sorted[j]));
      assert Clash(sorted[i + 1 - 1], sorted[i + 1]);
    }
  }

  predicate NonEmptyIntervals(rows: seq<Appointment>) {
    forall i :: 0 <= i < |rows| ==> rows[i].startsAt < rows[i].endsAt
  }

  /** A live booking stands in the selection right after those that precede it in the list. */
  lemma {:induction false} PlaceInLive(rows: seq<Appointment>, p: nat)
    requires p < |rows| && rows[p].status == Booked
    ensures |Live(rows[..p])| < |Live(rows)| && Live(rows)[|Live(rows[..p])|] == rows[p]
  {
    if p < |rows| - 1 {
      assert rows[..|rows| - 1][..p] == rows[..p];
      PlaceInLive(rows[..|rows| - 1], p);
    }
  }

  lemma {:induction false} PlaceInRows(rows: seq<Appointment>, k: nat) returns (p: nat)
    requires k < |Live(rows)|
    ensures p < |rows| && rows[p] == Live(rows)[k] && rows[p].status == Booked && |Live(rows[..p])| == k
  {
    var last := |rows| - 1;
    if k < |Live(rows[..last])| {
      p := PlaceInRows(rows[..last], k);
      assert rows[..last][..p] == rows[..p];
    } else {
      p := last;
    }
  }

  lemma PlacesAscend(rows: seq<Appointment>, p: nat, q: nat)
    requires p < q < |rows| && rows[p].status == Booked
    ensures |Live(rows[..p])| < |Live(rows[..q])|
  {
    PlaceInLive(rows[..q], p);
    assert rows[..q][..p] == rows[..p];
  }

  lemma ClashIsOverlap(rows: seq<Appointment>, i: nat, j: nat)
    requires NonEmptyIntervals(rows) && i < j < |SortedBookings(rows)|
    requires Clash(SortedBookings(rows)[i], SortedBookings(rows)[j])
    ensures !WorkersNotDoubleBooked(rows)
  {
    hide SortedBookings, Live;
    var sorted := SortedBookings(rows);
    SortedShape(rows);
    assert Before(sorted[i], sorted[j]);
    var k, l := PairMoves(sorted, Live(rows), i, j);
    var a := PlaceInRows(rows, k);
    var b := PlaceInRows(rows, l);
    var p, q := if a < b then a else b, if a < b then b else a;
    assert BookedTogether(rows[p], rows[q]) && Overlap(rows[p], rows[q]);
  }

  lemma OverlapIsClash(rows: seq<Appointment>, p: nat, q: nat) returns (i: nat, j: nat)
    requires p < q < |rows| && BookedTogether(rows[p], rows[q]) && Overlap(rows[p], rows[q])
    ensures i < j < |SortedBookings(rows)| && Clash(SortedBookings(rows)[i], SortedBookings(rows)[j])
  {
    hide SortedBookings, Live;
    var sorted := SortedBookings(rows);
    SortedShape(rows);
    PlaceInLive(rows, p);
    PlaceInLive(rows, q);
    PlacesAscend(rows, p, q);
    var m, n := PairMoves(Live(rows), sorted, |Live(rows[..p])|, |Live(rows[..q])|);
    i, j := if m < n then m else n, if m < n then n else m;
    assert Before(sorted[i], sorted[j]);
  }

  /** For non-empty intervals the sorted adjacent-pair check is silent exactly when no worker is
      booked for two overlapping intervals. */
  lemma SilentMeansNoOverlap(rows: seq<Appointment>)
    requires NonEmptyIntervals(rows)
    ensures !Raises(rows) <==> WorkersNotDoubleBooked(rows)
  {
    var sorted := SortedBookings(rows);
    SortedShape(rows);
    hide SortedBookings;
    NeighboursSuffice(sorted);
    if i, j :| 0 <= i < j < |sorted| && Clash(sorted[i], sorted[j]) {
      ClashIsOverlap(rows, i, j);
    }
    if p, q :| 0 <= p < q < |rows| && BookedTogether(rows[p], rows[q]) && Overlap(rows[p], rows[q]) {
      var i, j := OverlapIsClash(rows, p, q);
    }
  }

  // ----- Exactly when the check speaks up -----

  /** Two live bookings of one worker, the `p`-th sorted before the `q`-th, and ending after it starts. */
  predicate Reported(rows: seq<Appointment>, p: nat, q: nat) {
    && p < |rows| && q < |rows| && p != q && BookedTogether(rows[p], rows[q])
    && (rows[p].startsAt < rows[q].startsAt || (rows[p].startsAt == rows[q].startsAt && p < q))
    && rows[p].endsAt > rows[q].startsAt
  }

  lemma SortedPairInRows(rows: seq<Appointment>, i: nat, j: nat) returns (p: nat, q: nat)
    requires i < j < |SortedBookings(rows)|
    ensures p < |rows| && q < |rows| && p != q && rows[p].status == Booked && rows[q].status == Booked
    ensures rows[p] == SortedBookings(rows)[i] && rows[q] == SortedBookings(rows)[j]
    ensures p < q || BY_WORKER_AND_START(rows[p], rows[q])
  {
    var from := SortedIsStable(BY_WORKER_AND_START, Live(rows));
    hide Sorted, Live;
    p := PlaceInRows(rows, from[i]);
    q := PlaceInRows(rows, from[j]);
    if q < p {
      PlacesAscend(rows, q, p);
    }
  }

  lemma RowsPairInSorted(rows: seq<Appointment>, p: nat, q: nat) returns (i: nat, j: nat)
    requires p < |rows| && q < |rows| && p != q && rows[p].status == Booked && rows[q].status == Booked
    requires BY_WORKER_AND_START(rows[p], rows[q]) || (p < q && !BY_WORKER_AND_START(rows[q], rows[p]))
    ensures i < j < |SortedBookings(rows)|
    ensures SortedBookings(rows)[i] == rows[p] && SortedBookings(rows)[j] == rows[q]
  {
    var from := SortedIsStable(BY_WORKER_AND_START, Live(rows));
    hide Sorted, Live;
    PlaceInLive(rows, p);
    PlaceInLive(rows, q);
    var a, b := |Live(rows[..p])|, |Live(rows[..q])|;
    if p < q {
      PlacesAscend(rows, p, q);
    } else {
      PlacesAscend(rows, q, p);
    }
    assert a in from && b in from;
    SortedShape(rows);
    i :| 0 <= i < |from| && from[i] == a;
    j :| 0 <= j < |from| && from[j] == b;
    assert Before(SortedBookings(rows)[j], SortedBookings(rows)[i]) || i < j;
  }

  /** On any list of rows the check raises exactly when some pair is reported. */
  lemma RaisesExactly(rows: seq<Appointment>)
    ensures Raises(rows) <==> exists p: nat, q: nat :: Reported(rows, p, q)
  {
    var sorted := SortedBookings(rows);
    SortedShape(rows);
    hide SortedBookings;
    NeighboursSuffice(sorted);
    if i, j :| 0 <= i < j < |sorted| && Clash(sorted[i], sorted[j]) {
      var p, q := SortedPairInRows(rows, i, j);
      assert Before(sorted[i], sorted[j]);
      assert Reported(rows, p, q);
    }
    if p: nat, q: nat :| Reported(rows, p, q) {
      var i, j := RowsPairInSorted(rows, p, q);
      assert Clash(sorted[i], sorted[j]);
    }
  }

  predicate During(a: Appointment, t: Time) {
    a.startsAt <= t < a.endsAt
  }

  /** Some worker has two live bookings at one instant. */
  ghost predicate SharesInstant(rows: seq<Appointment>) {
    exists p: nat, q: nat, t: Time ::
      p < q < |rows| && BookedTogether(rows[p], rows[q]) && During(rows[p], t) && During(rows[q], t)
  }

  /** A live empty booking strictly inside another of its worker, or at the start of a non-empty one
      listed before it. */
  predicate EmptyInTheWay(rows: seq<Appointment>, p: nat, q: nat) {
    && p < |rows| && q < |rows| && p != q && BookedTogether(rows[p], rows[q])
    && rows[q].startsAt == rows[q].endsAt
    && (rows[p].startsAt < rows[q].startsAt < rows[p].endsAt
        || (rows[p].startsAt == rows[q].startsAt < rows[p].endsAt && p < q))
  }

  /** On intervals that do not run backwards, empty ones among them, the check raises exactly when a
      worker has two live bookings at one instant, or an empty one is in the way of another. */
  lemma RaisesOnSharedInstantOrEmpty(rows: seq<Appointment>)
    requires forall i :: 0 <= i < |rows| ==> rows[i].startsAt <= rows[i].endsAt
    ensures Raises(rows) <==> SharesInstant(rows) || exists p: nat, q: nat :: EmptyInTheWay(rows, p, q)
  {
    RaisesExactly(rows);
    hide Raises;
    if p: nat, q: nat :| Reported(rows, p, q) {
      if rows[q].startsAt == rows[q].endsAt {
        assert EmptyInTheWay(rows, p, q);
      } else {
        var t := rows[q].startsAt;
        var k, l := if p < q then p else q, if p < q then q else p;
        assert k < l < |rows| && BookedTogether(rows[k], rows[l]) && During(rows[k], t) && During(rows[l], t);
      }
    }
    if p: nat, q: nat :| EmptyInTheWay(rows, p, q) {
      assert Reported(rows, p, q);
    }
    if p: nat, q: nat, t: Time :| p < q < |rows| && BookedTogether(rows[p], rows[q]) && During(rows[p], t) && During(rows[q], t) {
      assert Reported(rows, p, q) || Reported(rows, q, p);
    }
  }

  /** An empty interval inside another is reported although the two share no instant, so the
      intervals do have to be non-empty. */
  lemma EmptyIntervalIsReported(a: Appointment)
    requires a.status == Booked && a.startsAt + 1 < a.endsAt
    ensures
      var rows := [a, a.(startsAt := a.startsAt + 1, endsAt := a.startsAt + 1)];
      && Raises(rows)
      && forall t: Time :: !(During(rows[0], t) && During(rows[1], t))
  {
    var b := a.(startsAt := a.startsAt + 1, endsAt := a.startsAt + 1);
    var rows := [a, b];
    assert rows[..1] == [a] && rows[..1][..0] == [];
    assert Live([a]) == [a] && Live(rows) == [a, b];
    assert [a, b][..1] == [a] && Sorted(BY_WORKER_AND_START, [a]) == [a];
    assert SortedBookings(rows) == [a, b];
    assert Clash(SortedBookings(rows)[0], SortedBookings(rows)[1]);
  }
}
