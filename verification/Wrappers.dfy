/** Shared vocabulary: optional values and duplicate-free sequences. */
module Wrappers {

  datatype Option<+T> = None | Some(value: T)

  /** No two positions of `s` hold the same element. */
  ghost predicate Distinct<T>(s: seq<T>) {
    forall i, j :: 0 <= i < j < |s| ==> s[i] != s[j]
  }

  /** Only the row at `k` is added or changed. */
  ghost predicate OnlyRow<K(!new), V(!new)>(a: map<K, V>, b: map<K, V>, k: K) {
    b.Keys == a.Keys + {k} && forall other :: other in a && other != k ==> b[other] == a[other]
  }

  function ToSet<T(==, !new)>(s: seq<T>): (r: set<T>)
    ensures forall x :: x in r <==> x in s
  {
    set x | x in s
  }

  /** A duplicate-free sequence has as many elements as positions. */
  lemma {:induction false} DistinctCardinality<T(!new)>(s: seq<T>)
    requires Distinct(s)
    ensures |ToSet(s)| == |s|
  {
    if s == [] {
      assert ToSet(s) == {};
    } else {
      var n := |s| - 1;
      DistinctCardinality(s[..n]);
      assert s == s[..n] + [s[n]];
      assert ToSet(s) == ToSet(s[..n]) + {s[n]};
    }
  }
}
