/**
 Folding with steps that commute does not depend on the order of the list.

 A step that commutes may be taken out of the middle and done last, so two lists with the same members
 equally often fold to the same value. The reducer's counters and the run totals are such folds.
 */
module OrderInvariance {

  ghost function Fold<S, D>(f: (S, D) -> S, s: S, ds: seq<D>): S {
    if ds == [] then s else f(Fold(f, s, ds[..|ds| - 1]), ds[|ds| - 1])
  }

  ghost predicate Commutes<S(!new), D(!new)>(f: (S, D) -> S) {
    forall s, a, b :: f(f(s, a), b) == f(f(s, b), a)
  }

  lemma FoldLast<S, D>(f: (S, D) -> S, s: S, ds: seq<D>, d: D)
    ensures Fold(f, s, ds + [d]) == f(Fold(f, s, ds), d)
  {
    assert (ds + [d])[..|ds|] == ds;
  }

  lemma {:induction false} FoldInPieces<S, D>(f: (S, D) -> S, s: S, a: seq<D>, b: seq<D>)
    ensures Fold(f, s, a + b) == Fold(f, Fold(f, s, a), b)
  {
    if b == [] {
      assert a + b == a;
    } else {
      var init, last := b[..|b| - 1], b[|b| - 1];
      FoldInPieces(f, s, a, init);
      FoldLast(f, s, a + init, last);
      assert a + b == (a + init) + [last];
    }
  }

  // Two blocks of commuting steps may be done in either order.
  lemma {:induction false} StepAndBlock<S(!new), D(!new)>(f: (S, D) -> S, s: S, a: seq<D>, d: D)
    requires Commutes(f)
    ensures f(Fold(f, s, a), d) == Fold(f, f(s, d), a)
  {
    if a != [] {
      StepAndBlock(f, s, a[..|a| - 1], d);
    }
  }

  lemma {:induction false} BlocksCommute<S(!new), D(!new)>(f: (S, D) -> S, s: S, a: seq<D>, b: seq<D>)
    requires Commutes(f)
    ensures Fold(f, Fold(f, s, a), b) == Fold(f, Fold(f, s, b), a)
  {
    if b != [] {
      BlocksCommute(f, s, a, b[..|b| - 1]);
      StepAndBlock(f, Fold(f, s, b[..|b| - 1]), a, b[|b| - 1]);
    }
  }

  // A step may be taken out of the middle and done last.
  lemma MoveLast<S(!new), D(!new)>(f: (S, D) -> S, s: S, pre: seq<D>, d: D, post: seq<D>)
    requires Commutes(f)
    ensures Fold(f, s, pre + [d] + post) == f(Fold(f, s, pre + post), d)
  {
    FoldInPieces(f, s, pre + [d], post);
    FoldLast(f, s, pre, d);
    StepAndBlock(f, Fold(f, s, pre), post, d);
    FoldInPieces(f, s, pre, post);
  }

  lemma {:induction false} FoldPermutation<S(!new), D(!new)>(f: (S, D) -> S, s: S, a: seq<D>, b: seq<D>)
    requires Commutes(f) && multiset(a) == multiset(b)
    ensures Fold(f, s, a) == Fold(f, s, b)
    decreases |a|
  {
    assert |a| == |multiset(a)| == |multiset(b)| == |b|;
    if a != [] {
      var n, last := |a| - 1, a[|a| - 1];
      assert last in multiset(a);
      var i :| 0 <= i < |b| && b[i] == last;
      var rest := b[..i] + b[i + 1..];
      MoveLast(f, s, b[..i], last, b[i + 1..]);
      assert b == b[..i] + [last] + b[i + 1..];
      assert a == a[..n] + [last];
      assert multiset(rest) == multiset(b) - multiset{last};
      assert multiset(a[..n]) == multiset(a) - multiset{last};
      FoldPermutation(f, s, a[..n], rest);
    }
  }
}
