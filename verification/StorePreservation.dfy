/** A legal effect keeps every store invariant. What makes an effect legal is local to the ticket
    it concerns; each invariant is kept by a proof of its own. */
module StorePreservation {
  import opened Domain
  import opened Rows
  import opened Appointments
  import opened WorkerEvents
  import opened RepairStore
  import opened StoreInvariants

  // ----- Legal effects -----

  ghost predicate LegalClosing(db: Db, e: Effect) {
    e.closing.Some? ==>
      var (id, closed) := e.closing.value;
      && id < |db.appointments| && e.ticketId < |db.tickets|
      && db.appointments[id].status == Booked && db.appointments[id].ticketId == e.ticketId
      && closed == db.appointments[id].(status := closed.status, version := closed.version, outcome := closed.outcome)
      && closed.version == db.appointments[id].version + 1 && closed.status != Booked
      && (closed.status in {ApptCancelled, NoShow} <==> closed.outcome.Some?)
      && (closed.status == Superseded <==> e.adding.Some?)
      && (e.event.None? ==> closed.status in {Superseded, Fulfilled})
  }

  ghost predicate LegalAdding(db: Db, e: Effect) {
    e.adding.Some? ==>
      var a := e.adding.value;
      && a.ticketId == e.ticketId && e.ticketId < |db.tickets| && e.event.None?
      && a.status == Booked && a.version == 1 && a.outcome == None && a.startsAt < a.endsAt
      && (e.closing.None? ==> LatestStatus(db, e.ticketId) != Some(Booked) && a.supersedes == None)
      && (e.closing.Some? ==> a.supersedes == Some(e.closing.value.0) && a.purpose == e.closing.value.1.purpose)
  }

  ghost predicate LegalEvent(db: Db, e: Effect) {
    e.event.Some? ==>
      var v := e.event.value;
      && v.appointmentId < |db.appointments| && e.ticketId < |db.tickets|
      && db.appointments[v.appointmentId].ticketId == e.ticketId
      && db.appointments[v.appointmentId].status == Booked
      && v.sequenceNo == |Log(db.events, v.appointmentId)| + 1
      && (forall k :: 0 <= k < |db.events| ==> db.events[k].externalKey != v.externalKey)
      && LegalLog(Log(db.events, v.appointmentId) + [v.event])
      && (e.closing.Some? ==> e.closing.value.0 == v.appointmentId)
      && StatusFitsLog(if e.closing.Some? then e.closing.value.1.status else Booked,
                       Log(db.events, v.appointmentId) + [v.event])
  }

  ghost predicate LegalTicket(db: Db, e: Effect) {
    match e.ticket
    case None => e.ticketRows == []
    case Some(after) =>
      && e.ticketId <= |db.tickets| && EscalationConsistent(after) && |e.ticketRows| == 1
      && var row := e.ticketRows[0];
      && row.ticketId == e.ticketId && row.to == after.status
      && row.after == after.version && row.before + 1 == row.after
      && if e.ticketId == |db.tickets| then
           && row.from == None && row.action == Creation
           && after.version == 1 && after.reworkCount == 0 && after.status == Open
         else
           var before := db.tickets[e.ticketId];
           && row.from == Some(before.status) && row.before == before.version
           && after.reworkCount == before.reworkCount + (if CountsRework(row.action) then 1 else 0)
  }

  /** The visit a ticket is on once the effect is applied. */
  ghost function VisitAfter(db: Db, e: Effect): (Option<AppointmentStatus>, seq<EventType>) {
    if e.adding.Some? then (Some(Booked), [])
    else
      var latest := Latest(db.appointments, e.ticketId);
      (if latest.Some? && e.closing.Some? && e.closing.value.0 == latest.value
       then Some(e.closing.value.1.status) else LatestStatus(db, e.ticketId),
       if latest.Some? && e.event.Some? && e.event.value.appointmentId == latest.value
       then LatestLog(db, e.ticketId) + [e.event.value.event] else LatestLog(db, e.ticketId))
  }

  ghost predicate LegalVisit(db: Db, e: Effect) {
    var (status, log) := VisitAfter(db, e);
    && (e.ticket.Some? ==> Agrees(e.ticket.value.status, status, log))
    && (e.ticket.None? && e.ticketId < |db.tickets| ==> Agrees(db.tickets[e.ticketId].status, status, log))
  }

  ghost predicate LegalAppointmentRows(db: Db, e: Effect) {
    && (forall a :: LegalRowsOf(db, e, a, Select(e.appointmentRows, OfAppointment(a))))
    && (forall k :: 0 <= k < |e.appointmentRows| ==>
          var id := e.appointmentRows[k].appointmentId;
          id < |db.appointments| || (id == |db.appointments| && e.adding.Some?))
  }

  ghost predicate LegalRowsOf(db: Db, e: Effect, a: Id, rows: seq<AppointmentRow>) {
    if e.closing.Some? && e.closing.value.0 == a && a < |db.appointments| then
      && |rows| == 1 && rows[0].from == Some(Booked) && rows[0].to == e.closing.value.1.status
      && rows[0].before == db.appointments[a].version && rows[0].after == e.closing.value.1.version
    else if e.adding.Some? && a == |db.appointments| then
      |rows| == 1 && rows[0].from == None && rows[0].to == Booked && rows[0].before == 0 && rows[0].after == 1
    else rows == []
  }

  ghost predicate LegalOutbox(db: Db, e: Effect) {
    && AnnouncedBy(Select(e.outbox, OnStatusOf(e.ticketId)), StatusRows(e.ticketRows))
    && (forall k :: 0 <= k < |e.outbox| ==>
          var v := e.outbox[k];
          if v.kind in {AppointmentBooked, AppointmentRescheduled}
          then e.adding.Some? && v.aggregateId == |db.appointments|
          else e.ticket.Some? && v.aggregateId == e.ticketId && v.aggregateVersion == e.ticket.value.version)
    && (forall j, k :: 0 <= j < k < |e.outbox| ==> e.outbox[j].kind != e.outbox[k].kind)
  }

  ghost predicate Legal(db: Db, e: Effect) {
    && LegalClosing(db, e) && LegalAdding(db, e) && LegalEvent(db, e) && LegalTicket(db, e)
    && LegalVisit(db, e) && LegalAppointmentRows(db, e) && LegalOutbox(db, e)
  }

  // ----- Tables after an effect -----

  lemma LogAppend(events: seq<WorkerEvent>, v: WorkerEvent, a: Id)
    ensures Log(events + [v], a) == if v.appointmentId == a then Log(events, a) + [v.event] else Log(events, a)
  {
    assert (events + [v])[..|events|] == events;
  }

  lemma {:induction false} LogOfUnknown(events: seq<WorkerEvent>, a: Id)
    requires forall k :: 0 <= k < |events| ==> events[k].appointmentId != a
    ensures Log(events, a) == []
  {
    if events != [] {
      LogOfUnknown(events[..|events| - 1], a);
    }
  }

  lemma LogAfter(db: Db, e: Effect, a: Id)
    ensures Log(Apply(db, e).events, a)
         == if e.event.Some? && e.event.value.appointmentId == a
            then Log(db.events, a) + [e.event.value.event] else Log(db.events, a)
  {
    if e.event.Some? {
      LogAppend(db.events, e.event.value, a);
    }
  }

  lemma AppointmentsAfter(db: Db, e: Effect)
    requires LegalClosing(db, e)
    ensures var after := Apply(db, e).appointments;
      && |after| == |db.appointments| + (if e.adding.Some? then 1 else 0)
      && (forall i :: 0 <= i < |db.appointments| ==>
            after[i] == if e.closing.Some? && e.closing.value.0 == i then e.closing.value.1 else db.appointments[i])
      && (e.adding.Some? ==> after[|db.appointments|] == e.adding.value)
  {
  }

  lemma TicketsAfter(db: Db, e: Effect)
    requires LegalTicket(db, e)
    ensures var after := Apply(db, e).tickets;
      && |after| == |db.tickets| + (if e.ticket.Some? && e.ticketId == |db.tickets| then 1 else 0)
      && (forall t :: 0 <= t < |after| ==>
            after[t] == if e.ticket.Some? && e.ticketId == t then e.ticket.value else db.tickets[t])
  {
  }

  lemma LatestAfter(db: Db, e: Effect, t: Id)
    requires LegalClosing(db, e)
    ensures Latest(Apply(db, e).appointments, t)
         == if e.adding.Some? && e.adding.value.ticketId == t then Some(|db.appointments|)
            else Latest(db.appointments, t)
  {
    AppointmentsAfter(db, e);
    var after := Apply(db, e).appointments;
    assert forall i :: 0 <= i < |db.appointments| ==> after[i].ticketId == db.appointments[i].ticketId;
    var was, now := Latest(db.appointments, t), Latest(after, t);
    if e.adding.Some? && e.adding.value.ticketId == t {
      assert after[|db.appointments|].ticketId == t;
    } else if was.Some? {
      assert after[was.value].ticketId == t;
    }
  }

  // ----- Preservation, one invariant at a time -----

  lemma TicketRowsKept(db: Db, e: Effect)
    requires TicketRows(db) && LegalTicket(db, e)
    ensures TicketRows(Apply(db, e))
  {
    TicketsAfter(db, e);
  }

  lemma AppointmentRowsKept(db: Db, e: Effect)
    requires AppointmentRows(db) && Legal(db, e)
    ensures AppointmentRows(Apply(db, e))
  {
    AppointmentsAfter(db, e);
    TicketsAfter(db, e);
  }

  lemma BookingIsLatestKept(db: Db, e: Effect)
    requires BookingIsLatest(db) && LegalClosing(db, e) && LegalAdding(db, e)
    ensures BookingIsLatest(Apply(db, e))
  {
    AppointmentsAfter(db, e);
    var after := Apply(db, e).appointments;
    forall i | 0 <= i < |after| && after[i].status == Booked
      ensures Latest(after, after[i].ticketId) == Some(i)
    {
      LatestAfter(db, e, after[i].ticketId);
      if i < |db.appointments| {
        assert Latest(db.appointments, db.appointments[i].ticketId) == Some(i);
      }
    }
  }

  lemma VisitAfterIsRead(db: Db, e: Effect)
    requires AppointmentRows(db) && Legal(db, e)
    ensures (LatestStatus(Apply(db, e), e.ticketId), LatestLog(Apply(db, e), e.ticketId)) == VisitAfter(db, e)
  {
    AppointmentsAfter(db, e);
    LatestAfter(db, e, e.ticketId);
    var latest := Latest(Apply(db, e).appointments, e.ticketId);
    if e.adding.Some? {
      LogOfUnknown(db.events, |db.appointments|);
    }
    if latest.Some? {
      LogAfter(db, e, latest.value);
    }
  }

  lemma OtherVisitsUntouched(db: Db, e: Effect, t: Id)
    requires AppointmentRows(db) && Legal(db, e) && t != e.ticketId
    ensures LatestStatus(Apply(db, e), t) == LatestStatus(db, t)
    ensures LatestLog(Apply(db, e), t) == LatestLog(db, t)
  {
    AppointmentsAfter(db, e);
    LatestAfter(db, e, t);
    var latest := Latest(db.appointments, t);
    if latest.Some? {
      LogAfter(db, e, latest.value);
    }
  }

  lemma TicketsAgreeKept(db: Db, e: Effect)
    requires AppointmentRows(db) && TicketsAgree(db) && Legal(db, e)
    ensures TicketsAgree(Apply(db, e))
  {
    TicketsAfter(db, e);
    VisitAfterIsRead(db, e);
    forall t | 0 <= t < |Apply(db, e).tickets|
      ensures Agrees(Apply(db, e).tickets[t].status, LatestStatus(Apply(db, e), t), LatestLog(Apply(db, e), t))
    {
      if t != e.ticketId {
        OtherVisitsUntouched(db, e, t);
      }
    }
  }

  lemma LogsLegalKept(db: Db, e: Effect)
    requires AppointmentRows(db) && LogsLegal(db) && Legal(db, e)
    ensures LogsLegal(Apply(db, e))
  {
    AppointmentsAfter(db, e);
    forall a | 0 <= a < |Apply(db, e).appointments|
      ensures LegalLog(Log(Apply(db, e).events, a))
      ensures StatusFitsLog(Apply(db, e).appointments[a].status, Log(Apply(db, e).events, a))
    {
      LogAfter(db, e, a);
      if a == |db.appointments| {
        LogOfUnknown(db.events, a);
      }
    }
  }

  lemma EventIdentitiesKept(db: Db, e: Effect)
    requires EventIdentities(db) && LegalEvent(db, e)
    ensures EventIdentities(Apply(db, e))
  {
    var after := Apply(db, e).events;
    forall k | 0 <= k < |after|
      ensures after[k].sequenceNo == |Log(after[..k], after[k].appointmentId)| + 1
    {
      if k < |db.events| {
        assert after[..k] == db.events[..k];
      } else {
        assert after[..k] == db.events;
      }
    }
  }

  lemma LinksLegalKept(db: Db, e: Effect)
    requires AppointmentRows(db) && LinksLegal(db) && LegalClosing(db, e) && LegalAdding(db, e)
    ensures LinksLegal(Apply(db, e))
  {
    SupersededStaysNamed(db, e);
    LinksStayDistinct(db, e);
    LinksStayBack(db, e);
  }

  lemma LinksStayBack(db: Db, e: Effect)
    requires LinksPointBack(db.appointments) && LegalClosing(db, e) && LegalAdding(db, e)
    ensures LinksPointBack(Apply(db, e).appointments)
  {
    AppointmentsAfter(db, e);
    hide Apply, Latest;
    var before, after := db.appointments, Apply(db, e).appointments;
    forall j | 0 <= j < |before| && before[j].supersedes.Some?
      ensures before[j].supersedes.value < j && after[before[j].supersedes.value] == before[before[j].supersedes.value]
    {
    }
  }

  lemma LinksStayDistinct(db: Db, e: Effect)
    requires LinksPointBack(db.appointments) && LinksDistinct(db.appointments)
    requires LegalClosing(db, e) && LegalAdding(db, e)
    ensures LinksDistinct(Apply(db, e).appointments)
  {
    AppointmentsAfter(db, e);
    hide Apply, Latest;
    var before, after := db.appointments, Apply(db, e).appointments;
    assert forall i :: 0 <= i < |before| ==> after[i].supersedes == before[i].supersedes;
  }

  lemma SupersededStaysNamed(db: Db, e: Effect)
    requires SupersededIsNamed(db.appointments) && LegalClosing(db, e) && LegalAdding(db, e)
    ensures SupersededIsNamed(Apply(db, e).appointments)
  {
    AppointmentsAfter(db, e);
    hide Apply, Latest;
    var before, after := db.appointments, Apply(db, e).appointments;
    forall i | 0 <= i < |after| && after[i].status == Superseded
      ensures exists j :: i < j < |after| && after[j].supersedes == Some(i)
    {
      if before[i].status == Superseded {
        var j :| i < j < |before| && before[j].supersedes == Some(i);
        assert after[j].supersedes == Some(i);
      } else {
        assert after[|before|].supersedes == Some(i);
      }
    }
  }

  lemma ReworkRowsAppend(rows: seq<TicketRow>, row: TicketRow)
    ensures ReworkRows(rows + [row]) == ReworkRows(rows) + if CountsRework(row.action) then 1 else 0
  {
    assert (rows + [row])[..|rows|] == rows;
  }

  /** A ticket's history after an effect: one more row when it is the ticket concerned. */
  lemma HistoryAfter(db: Db, e: Effect, t: Id)
    requires LegalTicket(db, e)
    ensures History(Apply(db, e), t)
         == if e.ticket.Some? && t == e.ticketId then History(db, t) + e.ticketRows else History(db, t)
  {
    assert Apply(db, e).ticketHistory == db.ticketHistory + e.ticketRows;
    hide EscalationConsistent, CountsRework, Apply;
    SelectAppend(db.ticketHistory, e.ticketRows, OfTicket(t));
    if e.ticket.Some? {
      SelectOne(e.ticketRows[0], OfTicket(t));
      assert e.ticketRows == [e.ticketRows[0]];
    }
  }

  lemma NoHistoryBeforeCreation(db: Db)
    requires HistoriesTell(db)
    ensures History(db, |db.tickets|) == []
  {
    SelectNone(db.ticketHistory, OfTicket(|db.tickets|));
  }

  lemma HistoryExtended(rows: seq<TicketRow>, before: Ticket, row: TicketRow, after: Ticket)
    requires HistoryTells(rows, before)
    requires row.from == Some(before.status) && row.to == after.status
    requires row.before == before.version && row.after == after.version == before.version + 1
    requires after.reworkCount == before.reworkCount + (if CountsRework(row.action) then 1 else 0)
    ensures HistoryTells(rows + [row], after)
  {
    ReworkRowsAppend(rows, row);
  }

  lemma HistoryOpened(row: TicketRow, after: Ticket)
    requires row.from == None && row.to == after.status == Open && row.action == Creation
    requires row.before == 0 && row.after == after.version == 1 && after.reworkCount == 0
    ensures HistoryTells([row], after)
  {
    ReworkRowsAppend([], row);
    assert [] + [row] == [row];
  }

  lemma HistoryTellsKept(db: Db, e: Effect, t: Id)
    requires HistoriesTell(db) && LegalTicket(db, e) && t < |Apply(db, e).tickets|
    ensures HistoryTells(History(Apply(db, e), t), Apply(db, e).tickets[t])
  {
    hide HistoryTells, History, EscalationConsistent;
    TicketsAfter(db, e);
    HistoryAfter(db, e, t);
    if e.ticket.Some? && t == e.ticketId {
      var row := e.ticketRows[0];
      assert e.ticketRows == [row];
      if t == |db.tickets| {
        NoHistoryBeforeCreation(db);
        assert [] + [row] == [row];
        HistoryOpened(row, e.ticket.value);
      } else {
        HistoryExtended(History(db, t), db.tickets[t], row, e.ticket.value);
      }
    }
  }

  lemma HistoriesTellKept(db: Db, e: Effect)
    requires HistoriesTell(db) && LegalTicket(db, e)
    ensures HistoriesTell(Apply(db, e))
  {
    hide HistoryTells, History, EscalationConsistent;
    TicketsAfter(db, e);
    forall t | 0 <= t < |Apply(db, e).tickets|
      ensures HistoryTells(History(Apply(db, e), t), Apply(db, e).tickets[t])
    {
      HistoryTellsKept(db, e, t);
    }
  }

  lemma AppointmentHistoryExtended(rows: seq<AppointmentRow>, before: Appointment, row: AppointmentRow, after: Appointment)
    requires AppointmentHistoryTells(rows, before)
    requires row.from == Some(before.status) && row.to == after.status
    requires row.before == before.version && row.after == after.version == before.version + 1
    ensures AppointmentHistoryTells(rows + [row], after)
  {
  }

  lemma AppointmentLogAfter(db: Db, e: Effect, a: Id)
    requires AppointmentHistoriesTell(db)
    ensures AppointmentLog(Apply(db, e), a) == AppointmentLog(db, a) + Select(e.appointmentRows, OfAppointment(a))
    ensures a == |db.appointments| ==> AppointmentLog(db, a) == []
  {
    hide AppointmentHistoryTells;
    SelectAppend(db.appointmentHistory, e.appointmentRows, OfAppointment(a));
    if a == |db.appointments| {
      SelectNone(db.appointmentHistory, OfAppointment(a));
    }
  }

  lemma AppointmentHistoryStep(db: Db, e: Effect, a: Id, rows: seq<AppointmentRow>, more: seq<AppointmentRow>)
    requires LegalClosing(db, e) && LegalAdding(db, e) && LegalRowsOf(db, e, a, more)
    requires a < |db.appointments| ==> AppointmentHistoryTells(rows, db.appointments[a])
    requires a == |db.appointments| ==> rows == []
    requires a < |Apply(db, e).appointments|
    ensures AppointmentHistoryTells(rows + more, Apply(db, e).appointments[a])
  {
    AppointmentsAfter(db, e);
    hide Apply, Latest;
    if a == |db.appointments| {
      assert rows + more == more;
    } else if e.closing.Some? && e.closing.value.0 == a {
      assert more == [more[0]];
      AppointmentHistoryExtended(rows, db.appointments[a], more[0], e.closing.value.1);
    } else {
      assert rows + more == rows;
    }
  }

  lemma AppointmentHistoryTellsKept(db: Db, e: Effect, a: Id)
    requires AppointmentHistoriesTell(db) && LegalClosing(db, e) && LegalAdding(db, e) && LegalAppointmentRows(db, e)
    requires a < |Apply(db, e).appointments|
    ensures AppointmentHistoryTells(AppointmentLog(Apply(db, e), a), Apply(db, e).appointments[a])
  {
    AppointmentsAfter(db, e);
    AppointmentLogAfter(db, e, a);
    hide LegalAdding, LegalClosing, LegalRowsOf, AppointmentHistoryTells, Apply, Select;
    AppointmentHistoryStep(db, e, a, AppointmentLog(db, a), Select(e.appointmentRows, OfAppointment(a)));
  }

  lemma AppointmentHistoriesTellKept(db: Db, e: Effect)
    requires AppointmentHistoriesTell(db) && LegalClosing(db, e) && LegalAdding(db, e) && LegalAppointmentRows(db, e)
    ensures AppointmentHistoriesTell(Apply(db, e))
  {
    forall a | 0 <= a < |Apply(db, e).appointments|
      ensures AppointmentHistoryTells(AppointmentLog(Apply(db, e), a), Apply(db, e).appointments[a])
    {
      AppointmentHistoryTellsKept(db, e, a);
    }
  }

  lemma AnnouncedByConcat(xs: seq<DomainEvent>, rows: seq<TicketRow>, ys: seq<DomainEvent>, more: seq<TicketRow>)
    requires AnnouncedBy(xs, rows) && AnnouncedBy(ys, more)
    ensures AnnouncedBy(xs + ys, rows + more)
  {
  }

  lemma StatusRowsAppend(rows: seq<TicketRow>, more: seq<TicketRow>)
    ensures StatusRows(rows + more) == StatusRows(rows) + StatusRows(more)
  {
    SelectAppend(rows, more, IsStatusChange());
  }

  lemma OtherTicketPublished(db: Db, e: Effect, t: Id)
    requires Published(db) && LegalTicket(db, e) && LegalOutbox(db, e)
    requires t < |db.tickets| && t != e.ticketId
    ensures AnnouncedBy(StatusEvents(Apply(db, e), t), StatusRows(History(Apply(db, e), t)))
  {
    HistoryAfter(db, e, t);
    hide AnnouncedBy, StatusRows, History, EscalationConsistent;
    SelectAppend(db.outbox, e.outbox, OnStatusOf(t));
    SelectNone(e.outbox, OnStatusOf(t));
    assert StatusEvents(Apply(db, e), t) == StatusEvents(db, t);
  }

  lemma OwnTicketPublished(db: Db, e: Effect)
    requires LegalTicket(db, e) && LegalOutbox(db, e)
    requires AnnouncedBy(StatusEvents(db, e.ticketId), StatusRows(History(db, e.ticketId)))
    ensures AnnouncedBy(StatusEvents(Apply(db, e), e.ticketId), StatusRows(History(Apply(db, e), e.ticketId)))
  {
    var t := e.ticketId;
    HistoryAfter(db, e, t);
    SelectAppend(db.outbox, e.outbox, OnStatusOf(t));
    StatusRowsAppend(History(db, t), e.ticketRows);
    AnnouncedByConcat(StatusEvents(db, t), StatusRows(History(db, t)),
                      Select(e.outbox, OnStatusOf(t)), StatusRows(e.ticketRows));
    assert History(Apply(db, e), t) == History(db, t) + e.ticketRows;
  }

  lemma NothingPublishedBeforeCreation(db: Db)
    requires HistoriesTell(db) && EventKeysUnique(db)
    ensures AnnouncedBy(StatusEvents(db, |db.tickets|), StatusRows(History(db, |db.tickets|)))
  {
    NoHistoryBeforeCreation(db);
    SelectNone(db.outbox, OnStatusOf(|db.tickets|));
  }

  lemma PublishedKept(db: Db, e: Effect)
    requires HistoriesTell(db) && Published(db) && EventKeysUnique(db) && LegalTicket(db, e) && LegalOutbox(db, e)
    ensures Published(Apply(db, e))
  {
    TicketsAfter(db, e);
    forall t | 0 <= t < |Apply(db, e).tickets|
      ensures AnnouncedBy(StatusEvents(Apply(db, e), t), StatusRows(History(Apply(db, e), t)))
    {
      if t != e.ticketId {
        OtherTicketPublished(db, e, t);
      } else {
        if t == |db.tickets| {
          NothingPublishedBeforeCreation(db);
        }
        OwnTicketPublished(db, e);
      }
    }
  }

  lemma EventKeysUniqueKept(db: Db, e: Effect)
    requires EventKeysUnique(db) && LegalTicket(db, e) && LegalOutbox(db, e)
    ensures EventKeysUnique(Apply(db, e))
  {
    TicketsAfter(db, e);
    var before, after := db.outbox, Apply(db, e).outbox;
    forall j, k | 0 <= j < k < |after|
      ensures after[j].EventKey() != after[k].EventKey()
    {
      if k >= |before| {
        assert after[k] == e.outbox[k - |before|];
        if j >= |before| {
          assert after[j] == e.outbox[j - |before|];
        }
      }
    }
    forall k | 0 <= k < |after|
      ensures var v := after[k];
        if v.kind in {AppointmentBooked, AppointmentRescheduled}
        then v.aggregateId < |Apply(db, e).appointments|
        else v.aggregateId < |Apply(db, e).tickets| && v.aggregateVersion <= Apply(db, e).tickets[v.aggregateId].version
    {
      if k >= |before| {
        assert after[k] == e.outbox[k - |before|];
      }
    }
  }

  /** Applying a legal effect keeps every invariant of the store. */
  lemma LegalEffectKeepsInv(db: Db, e: Effect)
    requires Inv(db) && Legal(db, e)
    ensures Inv(Apply(db, e))
  {
    TicketRowsKept(db, e);
    AppointmentRowsKept(db, e);
    BookingIsLatestKept(db, e);
    TicketsAgreeKept(db, e);
    LogsLegalKept(db, e);
    EventIdentitiesKept(db, e);
    LinksLegalKept(db, e);
    HistoriesTellKept(db, e);
    AppointmentHistoriesTellKept(db, e);
    PublishedKept(db, e);
    EventKeysUniqueKept(db, e);
  }
}
