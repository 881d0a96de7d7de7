/** The position column while a reorder rewrites it row by row under a unique constraint. */
module Reordering {
  import opened Wrappers

  /** A uuid primary key. */
  type Id = string

  /** The position column of the step table. */
  type Column = map<Id, nat>

  /** One UPDATE of the position column. */
  datatype Write = Write(id: Id, position: nat)

  const SHIFT: nat := 10_000
  const MAX_POSITION: nat := 32_767

  predicate Injective(column: Column) {
    forall a, b :: a in column && b in column && a != b ==> column[a] != column[b]
  }

  /** The column satisfies its unique constraint and its small-integer range. */
  predicate Storable(column: Column) {
    Injective(column) && forall id :: id in column ==> column[id] <= MAX_POSITION
  }

  ghost predicate Lists(column: Column, ids: seq<Id>) {
    && Distinct(ids)
    && (forall i :: 0 <= i < |ids| ==> ids[i] in column)
    && (forall id :: id in column ==> id in ids)
  }

  ghost function AfterWrites(column: Column, writes: seq<Write>): Column {
    if writes == [] then column
    else
      var w := writes[|writes| - 1];
      AfterWrites(column, writes[..|writes| - 1])[w.id := w.position]
  }

  /** Every single row write leaves the column storable. */
  ghost predicate NeverCollides(column: Column, writes: seq<Write>) {
    forall k :: 0 <= k <= |writes| ==> Storable(AfterWrites(column, writes[..k]))
  }

  /** The bulk `position + 10_000` update, in whatever row order `scan` the database takes. */
  function ShiftWrites(column: Column, scan: seq<Id>): (r: seq<Write>)
    requires forall i :: 0 <= i < |scan| ==> scan[i] in column
    ensures |r| == |scan|
    ensures forall i :: 0 <= i < |scan| ==> r[i] == Write(scan[i], column[scan[i]] + SHIFT)
  {
    seq(|scan|, i requires 0 <= i < |scan| => Write(scan[i], column[scan[i]] + SHIFT))
  }

  /** Then 10, 20, ... down the requested list. */
  function AssignWrites(ids: seq<Id>): (r: seq<Write>)
    ensures |r| == |ids|
    ensures forall i :: 0 <= i < |ids| ==> r[i] == Write(ids[i], 10 * (i + 1))
  {
    seq(|ids|, i requires 0 <= i < |ids| => Write(ids[i], 10 * (i + 1)))
  }

  function ReorderWrites(column: Column, scan: seq<Id>, ids: seq<Id>): seq<Write>
    requires forall i :: 0 <= i < |scan| ==> scan[i] in column
  {
    ShiftWrites(column, scan) + AssignWrites(ids)
  }

  lemma LastWrite(column: Column, writes: seq<Write>, m: nat)
    requires 0 < m <= |writes|
    ensures AfterWrites(column, writes[..m])
         == AfterWrites(column, writes[..m - 1])[writes[m - 1].id := writes[m - 1].position]
  {
    assert writes[..m][..m - 1] == writes[..m - 1];
  }

  /** The row writes as the database carries them out: one at a time, each checked against the unique
      constraint and the column's range, stopping at the first one it refuses. */
  method WriteRows(column: Column, writes: seq<Write>) returns (ok: bool, now: Column)
    ensures ok <==> NeverCollides(column, writes)
    ensures ok ==> now == AfterWrites(column, writes)
  {
    ok, now := true, column;
    var i := 0;
    assert writes[..0] == [];
    if !Storable(now) { return false, now; }
    while i < |writes|
      invariant 0 <= i <= |writes|
      invariant now == AfterWrites(column, writes[..i])
      invariant forall k :: 0 <= k <= i ==> Storable(AfterWrites(column, writes[..k]))
    {
      LastWrite(column, writes, i + 1);
      now := now[writes[i].id := writes[i].position];
      i := i + 1;
      assert now == AfterWrites(column, writes[..i]);
      if !Storable(now) { return false, now; }
    }
    assert writes[..i] == writes;
  }

  lemma {:induction false} WritesKeepRows(column: Column, writes: seq<Write>)
    requires forall i :: 0 <= i < |writes| ==> writes[i].id in column
    ensures AfterWrites(column, writes).Keys == column.Keys
  {
    if writes != [] {
      WritesKeepRows(column, writes[..|writes| - 1]);
    }
  }

  /** Where row `scan[i]` stands after the first `k` shifts. */
  lemma {:induction false} AfterShifts(column: Column, scan: seq<Id>, k: nat, i: nat)
    requires Lists(column, scan) && k <= |scan| && i < |scan|
    ensures scan[i] in AfterWrites(column, ShiftWrites(column, scan)[..k])
    ensures AfterWrites(column, ShiftWrites(column, scan)[..k])[scan[i]]
         == column[scan[i]] + (if i < k then SHIFT else 0)
  {
    if k > 0 {
      AfterShifts(column, scan, k - 1, i);
      LastWrite(column, ShiftWrites(column, scan), k);
    }
  }

  /** Where row `ids[i]` stands after the first `k` assignments. */
  lemma {:induction false} AfterAssigns(column: Column, ids: seq<Id>, k: nat, i: nat)
    requires Lists(column, ids) && k <= |ids| && i < |ids|
    ensures ids[i] in AfterWrites(column, AssignWrites(ids)[..k])
    ensures AfterWrites(column, AssignWrites(ids)[..k])[ids[i]]
         == (if i < k then 10 * (i + 1) else column[ids[i]])
  {
    if k > 0 {
      AfterAssigns(column, ids, k - 1, i);
      LastWrite(column, AssignWrites(ids), k);
    }
  }

  lemma {:induction false} Compose(column: Column, first: seq<Write>, second: seq<Write>)
    ensures AfterWrites(column, first + second) == AfterWrites(AfterWrites(column, first), second)
  {
    if second == [] {
      assert first + second == first;
    } else {
      var n := |second| - 1;
      Compose(column, first, second[..n]);
      assert (first + second)[..|first| + n] == first + second[..n];
    }
  }

  /** The column between the shift and the assignments. */
  ghost function Shifted(column: Column, scan: seq<Id>): Column
    requires Lists(column, scan)
  {
    AfterWrites(column, ShiftWrites(column, scan))
  }

  lemma ShiftedColumn(column: Column, scan: seq<Id>)
    requires Lists(column, scan)
    ensures Shifted(column, scan).Keys == column.Keys
    ensures forall id :: id in column ==> Shifted(column, scan)[id] == column[id] + SHIFT
  {
    var w := ShiftWrites(column, scan);
    assert w[..|scan|] == w;
    WritesKeepRows(column, w);
    forall id | id in column ensures Shifted(column, scan)[id] == column[id] + SHIFT {
      var j :| 0 <= j < |scan| && scan[j] == id;
      AfterShifts(column, scan, |scan|, j);
    }
  }

  lemma ListedCount(column: Column, ids: seq<Id>)
    requires Lists(column, ids)
    ensures |ids| == |column|
  {
    DistinctCardinality(ids);
    assert ToSet(ids) == column.Keys;
  }

  /** While rows are being shifted no two share a position. */
  lemma ShiftIsSafe(column: Column, scan: seq<Id>, k: nat)
    requires Injective(column) && Lists(column, scan) && k <= |scan|
    requires forall id :: id in column ==> 10 <= column[id] <= SHIFT
    ensures Storable(AfterWrites(column, ShiftWrites(column, scan)[..k]))
  {
    var now := AfterWrites(column, ShiftWrites(column, scan)[..k]);
    WritesKeepRows(column, ShiftWrites(column, scan)[..k]);
    forall a | a in column ensures now[a] == column[a] || now[a] == column[a] + SHIFT {
      var i :| 0 <= i < |scan| && scan[i] == a;
      AfterShifts(column, scan, k, i);
    }
  }

  /** Nor while the requested positions are assigned one by one to the shifted rows. */
  lemma AssignIsSafe(column: Column, ids: seq<Id>, k: nat)
    requires Injective(column) && |ids| <= 1000 && Lists(column, ids) && k <= |ids|
    requires forall id :: id in column ==> SHIFT < column[id] <= 2 * SHIFT
    ensures Storable(AfterWrites(column, AssignWrites(ids)[..k]))
  {
    var now := AfterWrites(column, AssignWrites(ids)[..k]);
    WritesKeepRows(column, AssignWrites(ids)[..k]);
    forall a, b | a in column && b in column && a != b
      ensures now[a] != now[b] && now[a] <= MAX_POSITION
    {
      var i :| 0 <= i < |ids| && ids[i] == a;
      var j :| 0 <= j < |ids| && ids[j] == b;
      AfterAssigns(column, ids, k, i);
      AfterAssigns(column, ids, k, j);
    }
    forall a | a in column ensures now[a] <= MAX_POSITION {
      var i :| 0 <= i < |ids| && ids[i] == a;
      AfterAssigns(column, ids, k, i);
    }
  }

  lemma PrefixIsSafe(column: Column, scan: seq<Id>, ids: seq<Id>, k: nat)
    requires Injective(column) && |ids| <= 1000
    requires Lists(column, scan) && Lists(column, ids) && k <= |scan| + |ids|
    requires forall id :: id in column ==> 10 <= column[id] <= SHIFT
    ensures Storable(AfterWrites(column, ReorderWrites(column, scan, ids)[..k]))
  {
    var w := ReorderWrites(column, scan, ids);
    if k <= |scan| {
      assert w[..k] == ShiftWrites(column, scan)[..k];
      ShiftIsSafe(column, scan, k);
    } else {
      var m := k - |scan|;
      assert w[..k] == ShiftWrites(column, scan) + AssignWrites(ids)[..m];
      Compose(column, ShiftWrites(column, scan), AssignWrites(ids)[..m]);
      ShiftedColumn(column, scan);
      AssignIsSafe(Shifted(column, scan), ids, m);
    }
  }

  /** Whatever row order the database shifts in and whatever order is requested, a reorder of at
      most a thousand rows at positions in 10..10_000 never trips the unique constraint. */
  lemma ReorderIsSafe(column: Column, scan: seq<Id>, ids: seq<Id>)
    requires Injective(column) && |column| <= 1000
    requires Lists(column, scan) && Lists(column, ids)
    requires forall id :: id in column ==> 10 <= column[id] <= SHIFT
    ensures NeverCollides(column, ReorderWrites(column, scan, ids))
  {
    ListedCount(column, ids);
    forall k | 0 <= k <= |ReorderWrites(column, scan, ids)|
      ensures Storable(AfterWrites(column, ReorderWrites(column, scan, ids)[..k]))
    {
      PrefixIsSafe(column, scan, ids, k);
    }
  }

  /** If the first row shifted lands on a taken position, the constraint trips at once. */
  lemma ReorderCanCollide(column: Column, scan: seq<Id>, ids: seq<Id>, taken: Id)
    requires Lists(column, scan) && Lists(column, ids) && scan != []
    requires taken in column && column[taken] == column[scan[0]] + SHIFT
    ensures !NeverCollides(column, ReorderWrites(column, scan, ids))
  {
    var w := ReorderWrites(column, scan, ids);
    var now := AfterWrites(column, w[..1]);
    assert w[..0] == [];
    LastWrite(column, w, 1);
    assert !Injective(now) by {
      assert now[taken] == now[scan[0]] && taken != scan[0];
    }
  }

  /** A completed reorder puts the k-th listed row at 10k. */
  lemma ReorderResult(column: Column, scan: seq<Id>, ids: seq<Id>)
    requires Lists(column, scan) && Lists(column, ids)
    ensures AfterWrites(column, ReorderWrites(column, scan, ids)).Keys == column.Keys
    ensures forall k :: 0 <= k < |ids| ==>
              AfterWrites(column, ReorderWrites(column, scan, ids))[ids[k]] == 10 * (k + 1)
  {
    var w := ReorderWrites(column, scan, ids);
    WritesKeepRows(column, w);
    Compose(column, ShiftWrites(column, scan), AssignWrites(ids));
    ShiftedColumn(column, scan);
    assert AssignWrites(ids)[..|ids|] == AssignWrites(ids);
    forall k | 0 <= k < |ids| ensures AfterWrites(column, w)[ids[k]] == 10 * (k + 1) {
      AfterAssigns(Shifted(column, scan), ids, |ids|, k);
    }
  }

  // ---- the exact positions 10, 20, ..., 10n ----

  /** `ids` lists the rows in position order, and they sit at exactly 10, 20, ..., 10n. */
  ghost predicate Ranked(column: Column, ids: seq<Id>) {
    && Lists(column, ids)
    && forall k :: 0 <= k < |ids| ==> column[ids[k]] == 10 * (k + 1)
  }

  ghost predicate Exact(column: Column) {
    exists ids :: Ranked(column, ids)
  }

  lemma RankedBounds(column: Column, ids: seq<Id>)
    requires Ranked(column, ids)
    ensures Injective(column) && |ids| == |column|
    ensures forall id :: id in column ==> 10 <= column[id] <= 10 * |column|
  {
    ListedCount(column, ids);
    forall id | id in column ensures exists k :: 0 <= k < |ids| && ids[k] == id && column[id] == 10 * (k + 1) {
      var k :| 0 <= k < |ids| && ids[k] == id;
    }
  }

  function Nth(k: nat): nat { 10 * (k + 1) }

  /** Being exact means being unique and occupying precisely the positions 10, 20, ..., 10n. */
  lemma ExactMeaning(column: Column)
    requires Exact(column)
    ensures Injective(column)
    ensures forall id :: id in column ==> 10 <= column[id] <= 10 * |column|
    ensures column.Values == set k: nat | k < |column| :: Nth(k)
  {
    var ids :| Ranked(column, ids);
    RankedBounds(column, ids);
    forall p | p in column.Values ensures exists k: nat :: k < |column| && p == Nth(k) {
      var id :| id in column && column[id] == p;
      var k :| 0 <= k < |ids| && ids[k] == id;
      assert p == Nth(k);
    }
    forall k: nat | k < |column| ensures Nth(k) in column.Values {
      assert column[ids[k]] == Nth(k);
    }
  }

  lemma ExactAppend(column: Column, id: Id)
    requires Exact(column) && id !in column
    ensures Exact(column[id := 10 * |column| + 10])
  {
    var ids :| Ranked(column, ids);
    RankedBounds(column, ids);
    var after := column[id := 10 * |column| + 10];
    var more := ids + [id];
    forall a | a in after ensures a in more {
      if a == id { assert more[|ids|] == id; } else {
        var k :| 0 <= k < |ids| && ids[k] == a;
        assert more[k] == a;
      }
    }
    assert Ranked(after, more);
  }

  ghost function Rewritten(column: Column, scan: seq<Id>, ids: seq<Id>): Column
    requires Lists(column, scan)
  {
    AfterWrites(column, ReorderWrites(column, scan, ids))
  }

  lemma ReorderIsExact(column: Column, scan: seq<Id>, ids: seq<Id>)
    requires Lists(column, scan) && Lists(column, ids)
    ensures Ranked(Rewritten(column, scan, ids), ids)
    ensures Rewritten(column, scan, ids).Keys == column.Keys
  {
    ReorderResult(column, scan, ids);
  }

  /** The exact limit: a reorder of rows at 10, 20, ..., 10n survives every row order the database
      may shift in if and only if there are at most a thousand rows. */
  lemma ThousandRowLimit(column: Column, ids: seq<Id>)
    requires Exact(column) && Lists(column, ids)
    ensures (forall scan :: Lists(column, scan) ==> NeverCollides(column, ReorderWrites(column, scan, ids)))
            <==> |column| <= 1000
  {
    var ranked :| Ranked(column, ranked);
    RankedBounds(column, ranked);
    if |column| <= 1000 {
      forall scan | Lists(column, scan) ensures NeverCollides(column, ReorderWrites(column, scan, ids)) {
        ReorderIsSafe(column, scan, ids);
      }
    } else {
      ReorderCanCollide(column, ranked, ids, ranked[1000]);
    }
  }
}
