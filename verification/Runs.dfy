/** Runs of a state machine: folding a step function over a sequence of requests. */
module Runs {

  /** The state after `rs`, one request at a time. */
  ghost function Fold<S, R>(step: (S, R) -> S, s: S, rs: seq<R>): S {
    if rs == [] then s
    else step(Fold(step, s, rs[..|rs| - 1]), rs[|rs| - 1])
  }

  lemma FoldStep<S, R>(step: (S, R) -> S, s: S, rs: seq<R>, i: nat)
    requires i < |rs|
    ensures Fold(step, s, rs[..i + 1]) == step(Fold(step, s, rs[..i]), rs[i])
  {
    assert rs[..i + 1][..i] == rs[..i];
  }

  lemma {:induction false} FoldSplits<S, R>(step: (S, R) -> S, s: S, a: seq<R>, b: seq<R>)
    ensures Fold(step, s, a + b) == Fold(step, Fold(step, s, a), b)
  {
    if b == [] {
      assert a + b == a;
    } else {
      var n := |b| - 1;
      assert (a + b)[..|a| + n] == a + b[..n];
      FoldSplits(step, s, a, b[..n]);
    }
  }

  lemma FoldMiddle<S, R>(step: (S, R) -> S, s: S, rs: seq<R>, k: nat, i: nat)
    requires k <= i <= |rs|
    ensures Fold(step, s, rs[..i]) == Fold(step, Fold(step, s, rs[..k]), rs[k..i])
  {
    assert rs[..i] == rs[..k] + rs[k..i];
    FoldSplits(step, s, rs[..k], rs[k..i]);
  }

  /** The requests that are not marked. */
  ghost function Unmarked<R>(rs: seq<R>, marks: seq<bool>): seq<R>
    requires |rs| == |marks|
  {
    if rs == [] then []
    else
      var n := |rs| - 1;
      Unmarked(rs[..n], marks[..n]) + (if marks[n] then [] else [rs[n]])
  }

  /** If every marked request leaves its state as it finds it, the run without them ends the same. */
  lemma {:induction false} SkipIdle<S, R>(step: (S, R) -> S, s: S, rs: seq<R>, marks: seq<bool>)
    requires |rs| == |marks|
    requires forall i :: 0 <= i < |rs| && marks[i] ==> step(Fold(step, s, rs[..i]), rs[i]) == Fold(step, s, rs[..i])
    ensures Fold(step, s, rs) == Fold(step, s, Unmarked(rs, marks))
  {
    if rs != [] {
      var n := |rs| - 1;
      forall i | 0 <= i < n && marks[..n][i]
        ensures step(Fold(step, s, rs[..n][..i]), rs[..n][i]) == Fold(step, s, rs[..n][..i])
      {
        assert rs[..n][..i] == rs[..i];
      }
      SkipIdle(step, s, rs[..n], marks[..n]);
      var kept := Unmarked(rs[..n], marks[..n]);
      assert Fold(step, s, rs) == step(Fold(step, s, rs[..n]), rs[n]);
      if marks[n] {
        assert Unmarked(rs, marks) == kept;
      } else {
        assert (kept + [rs[n]])[..|kept|] == kept;
      }
    }
  }
}
