/** Selecting the rows of a table that satisfy a condition, in order. */
module Rows {

  function Select<T>(rows: seq<T>, keep: T -> bool): (kept: seq<T>)
    ensures forall i :: 0 <= i < |kept| ==> keep(kept[i]) && kept[i] in rows
  {
    if rows == [] then []
    else
      var last := |rows| - 1;
      var earlier := Select(rows[..last], keep);
      if keep(rows[last]) then earlier + [rows[last]] else earlier
  }

  lemma {:induction false} SelectAppend<T>(rows: seq<T>, more: seq<T>, keep: T -> bool)
    ensures Select(rows + more, keep) == Select(rows, keep) + Select(more, keep)
  {
    if more == [] {
      assert rows + more == rows;
    } else {
      var last := |more| - 1;
      assert (rows + more)[..|rows + more| - 1] == rows + more[..last];
      SelectAppend(rows, more[..last], keep);
    }
  }

  lemma SelectOne<T>(x: T, keep: T -> bool)
    ensures Select([x], keep) == if keep(x) then [x] else []
  {
    assert [x][..0] == [];
  }

  lemma {:induction false} SelectNone<T>(rows: seq<T>, keep: T -> bool)
    requires forall i :: 0 <= i < |rows| ==> !keep(rows[i])
    ensures Select(rows, keep) == []
  {
    if rows != [] {
      SelectNone(rows[..|rows| - 1], keep);
    }
  }

  lemma SelectTwo<T>(x: T, y: T, keep: T -> bool)
    ensures Select([x, y], keep) == (if keep(x) then [x] else []) + (if keep(y) then [y] else [])
  {
    SelectOne(x, keep);
    SelectOne(y, keep);
    SelectAppend([x], [y], keep);
    assert [x] + [y] == [x, y];
  }

  lemma {:induction false} SelectFinds<T>(rows: seq<T>, keep: T -> bool, k: nat)
    requires k < |rows| && keep(rows[k])
    ensures rows[k] in Select(rows, keep)
  {
    if k < |rows| - 1 {
      SelectFinds(rows[..|rows| - 1], keep, k);
    }
  }
}
