/** Rescheduling builds chains of appointments: every appointment hangs from one root through
    backward links, and chains never branch or merge. */
module Supersession {
  import opened Domain
  import opened Appointments
  import opened StoreInvariants
  import opened RepairRuns

  /** The appointments that led to `j`, oldest first. */
  ghost function Chain(rows: seq<Appointment>, j: Id): seq<Id>
    requires LinksPointBack(rows) && j < |rows|
    decreases j
  {
    if rows[j].supersedes.None? then [j] else Chain(rows, rows[j].supersedes.value) + [j]
  }

  lemma {:induction false} ChainShape(rows: seq<Appointment>, j: Id)
    requires LinksPointBack(rows) && j < |rows|
    ensures var chain := Chain(rows, j);
      && |chain| > 0 && chain[|chain| - 1] == j
      && (forall k :: 0 <= k < |chain| ==>
            && chain[k] < |rows|
            && rows[chain[k]].ticketId == rows[j].ticketId && rows[chain[k]].purpose == rows[j].purpose)
      && rows[chain[0]].supersedes == None
      && (forall k :: 0 < k < |chain| ==> chain[k - 1] < chain[k] && rows[chain[k]].supersedes == Some(chain[k - 1]))
      && (forall k :: 0 <= k < |chain| - 1 ==> rows[chain[k]].status == Superseded)
    decreases j
  {
    if rows[j].supersedes.Some? {
      ChainShape(rows, rows[j].supersedes.value);
    }
  }

  /** Chains with the same root agree wherever both reach. */
  lemma {:induction false} ChainsDoNotBranch(rows: seq<Appointment>, i: Id, j: Id, k: nat)
    requires LinksPointBack(rows) && LinksDistinct(rows) && i < |rows| && j < |rows|
    requires Chain(rows, i)[0] == Chain(rows, j)[0]
    requires k < |Chain(rows, i)| && k < |Chain(rows, j)|
    ensures Chain(rows, i)[k] == Chain(rows, j)[k]
  {
    ChainShape(rows, i);
    ChainShape(rows, j);
    if k > 0 {
      ChainsDoNotBranch(rows, i, j, k - 1);
      var p, q := Chain(rows, i)[k], Chain(rows, j)[k];
      assert rows[p].supersedes == rows[q].supersedes;
    }
  }

  /** In every run an appointment is superseded exactly when one later appointment names it, and
      no two do. */
  lemma SupersededExactlyOnce(calls: seq<Call>, i: Id)
    requires i < |Run(calls).appointments|
    ensures var rows := Run(calls).appointments;
      && (rows[i].status == Superseded <==>
            exists j :: i < j < |rows| && rows[j].supersedes == Some(i))
      && (forall j, k :: 0 <= j < k < |rows| && rows[j].supersedes == Some(i) ==> rows[k].supersedes != Some(i))
      && (forall j :: 0 <= j < |rows| && rows[j].supersedes == Some(i) ==> i < j)
  {
    hide Step;
    EveryRunKeepsInv(calls);
    var db := Run(calls);
    assert LinksLegal(db);
    hide Run, Inv;
  }

  lemma {:induction false} SharedMemberSharesRoot(rows: seq<Appointment>, i: Id, k: nat)
    requires LinksPointBack(rows) && i < |rows| && k < |Chain(rows, i)|
    ensures Chain(rows, i)[k] < |rows| && Chain(rows, Chain(rows, i)[k])[0] == Chain(rows, i)[0]
    decreases i
  {
    ChainShape(rows, i);
    if k < |Chain(rows, i)| - 1 {
      ChainShape(rows, rows[i].supersedes.value);
      SharedMemberSharesRoot(rows, rows[i].supersedes.value, k);
    }
  }

  lemma ChainsWithSharedMember(rows: seq<Appointment>, i: Id, j: Id, k: nat, l: nat)
    requires LinksPointBack(rows) && LinksDistinct(rows) && i < |rows| && j < |rows|
    requires k < |Chain(rows, i)| && l < |Chain(rows, j)| && Chain(rows, i)[k] == Chain(rows, j)[l]
    ensures Chain(rows, i) <= Chain(rows, j) || Chain(rows, j) <= Chain(rows, i)
  {
    ChainShape(rows, i);
    ChainShape(rows, j);
    SharedMemberSharesRoot(rows, i, k);
    SharedMemberSharesRoot(rows, j, l);
    hide LinksPointBack, LinksDistinct;
    forall m | 0 <= m < |Chain(rows, i)| && m < |Chain(rows, j)| ensures Chain(rows, i)[m] == Chain(rows, j)[m] {
      ChainsDoNotBranch(rows, i, j, m);
    }
  }

  /** In every run each appointment ends one finite chain whose links go back in time to a root,
      within one ticket and purpose, and whose earlier members are all superseded. */
  lemma EveryAppointmentEndsAChain(calls: seq<Call>, i: Id)
    requires i < |Run(calls).appointments|
    ensures var rows := Run(calls).appointments;
      && LinksPointBack(rows)
      && var chain := Chain(rows, i);
      && |chain| > 0 && chain[|chain| - 1] == i
      && (forall k :: 0 < k < |chain| ==>
            chain[k - 1] < chain[k] < |rows| && rows[chain[k]].supersedes == Some(chain[k - 1]))
      && (forall k :: 0 <= k < |chain| ==>
            && chain[k] < |rows|
            && rows[chain[k]].ticketId == rows[i].ticketId && rows[chain[k]].purpose == rows[i].purpose)
      && (forall k :: 0 <= k < |chain| - 1 ==> rows[chain[k]].status == Superseded)
      && rows[chain[0]].supersedes == None
  {
    hide Step;
    EveryRunKeepsInv(calls);
    assert LinksLegal(Run(calls));
    hide Run, Inv;
    ChainShape(Run(calls).appointments, i);
    hide Chain;
  }

  /** Chains never branch or merge: two that share a member are one, as far as the shorter goes. */
  lemma ChainsAreDisjoint(calls: seq<Call>, i: Id, j: Id)
    requires i < |Run(calls).appointments| && j < |Run(calls).appointments|
    ensures var rows := Run(calls).appointments;
      && LinksPointBack(rows)
      && ((exists k, l :: 0 <= k < |Chain(rows, i)| && 0 <= l < |Chain(rows, j)|
                          && Chain(rows, i)[k] == Chain(rows, j)[l]) ==>
            Chain(rows, i) <= Chain(rows, j) || Chain(rows, j) <= Chain(rows, i))
  {
    hide Step;
    EveryRunKeepsInv(calls);
    assert LinksLegal(Run(calls));
    var rows := Run(calls).appointments;
    hide Run, Inv;
    if k, l :| 0 <= k < |Chain(rows, i)| && 0 <= l < |Chain(rows, j)| && Chain(rows, i)[k] == Chain(rows, j)[l] {
      ChainsWithSharedMember(rows, i, j, k, l);
    }
  }
}
