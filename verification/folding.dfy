/** Functional options applied left to right (`for _, opt := range options
    { opt(o) }`), and the two laws every option builder of the toolkit is
    meant to follow: an option whose argument is rejected changes nothing,
    and of several options that set the same field the last one wins. */
module Folding {

  /** The record after applying `opts` in order to `s`. */
  function Fold<S, T>(step: (S, T) -> S, s: S, opts: seq<T>): S
    decreases |opts|
  {
    if |opts| == 0 then s else step(Fold(step, s, opts[..|opts| - 1]), opts[|opts| - 1])
  }

  /** Applying `a` then `b` is applying `a + b`. */
  lemma {:induction false} FoldAppend<S, T>(step: (S, T) -> S, s: S, a: seq<T>, b: seq<T>)
    ensures Fold(step, s, a + b) == Fold(step, Fold(step, s, a), b)
    decreases |b|
  {
    if |b| == 0 {
      assert a + b == a;
    } else {
      var b' := b[..|b| - 1];
      assert (a + b)[..|a + b| - 1] == a + b';
      assert (a + b)[|a + b| - 1] == b[|b| - 1];
      FoldAppend(step, s, a, b');
    }
  }

  /** A single option is applied to the starting record. */
  lemma {:induction false} FoldOne<S, T>(step: (S, T) -> S, s: S, x: T)
    ensures Fold(step, s, [x]) == step(s, x)
  {
    assert [x][..0] == [];
  }

  /** An option that leaves every record unchanged can be dropped from any
      list of options. */
  lemma {:induction false} FoldSkips<S, T>(step: (S, T) -> S, s: S, a: seq<T>, x: T, b: seq<T>)
    requires forall s' :: step(s', x) == s'
    ensures Fold(step, s, a + [x] + b) == Fold(step, s, a + b)
  {
    FoldAppend(step, s, a + [x], b);
    FoldAppend(step, s, a, [x]);
    FoldAppend(step, s, a, b);
    assert Fold(step, Fold(step, s, a), [x]) == step(Fold(step, Fold(step, s, a), []), x);
  }

  /** When `x` always sets a projection of the record to `v` and no later
      option touches that projection, the record ends up with `v` there. */
  lemma {:induction false} LastWins<S, T, V>(step: (S, T) -> S, view: S -> V, s: S, a: seq<T>, x: T, v: V, b: seq<T>)
    requires forall s' :: view(step(s', x)) == v
    requires forall s', y :: y in b ==> view(step(s', y)) == view(s')
    ensures view(Fold(step, s, a + [x] + b)) == v
  {
    FoldAppend(step, s, a + [x], b);
    FoldAppend(step, s, a, [x]);
    assert Fold(step, Fold(step, s, a), [x]) == step(Fold(step, Fold(step, s, a), []), x);
    Untouched(step, view, Fold(step, s, a + [x]), b);
  }

  /** Options that all leave a projection alone leave it alone together. */
  lemma {:induction false} Untouched<S, T, V>(step: (S, T) -> S, view: S -> V, s: S, b: seq<T>)
    requires forall s', y :: y in b ==> view(step(s', y)) == view(s')
    ensures view(Fold(step, s, b)) == view(s)
    decreases |b|
  {
    if |b| != 0 {
      var b' := b[..|b| - 1];
      assert b[|b| - 1] in b;
      forall s', y | y in b' ensures view(step(s', y)) == view(s') {
        assert y in b;
      }
      Untouched(step, view, s, b');
    }
  }

  /** A property every option keeps holds of the record they build. */
  lemma {:induction false} FoldKeeps<S, T>(step: (S, T) -> S, inv: S -> bool, s: S, opts: seq<T>)
    requires inv(s)
    requires forall s', y :: inv(s') ==> inv(step(s', y))
    ensures inv(Fold(step, s, opts))
    decreases |opts|
  {
    if |opts| != 0 {
      FoldKeeps(step, inv, s, opts[..|opts| - 1]);
    }
  }
}
