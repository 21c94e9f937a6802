/** A left fold over a sequence with a step that can fail, as every
    generator loop over its equipment is: the first failing step stops the
    loop. Its lemmas reason about the step only through what it promises. */
module Folds {
  import opened Wrappers

  function Fold<A, X>(step: (A, X) -> Result<A>, a0: A, xs: seq<X>): Result<A>
    decreases |xs|
  {
    if xs == [] then Ok(a0)
    else
      var a :- Fold(step, a0, xs[..|xs| - 1]);
      step(a, xs[|xs| - 1])
  }

  /** A step that never fails makes a loop that never fails. */
  lemma {:induction false} FoldOk<A(!new), X(!new)>(step: (A, X) -> Result<A>, a0: A, xs: seq<X>)
    requires forall a, x :: step(a, x).Ok?
    ensures Fold(step, a0, xs).Ok?
    decreases |xs|
  {
    if xs != [] {
      FoldOk(step, a0, xs[..|xs| - 1]);
    }
  }

  /** An invariant of the elements seen so far: it holds at the start and
      each step carries it from a prefix to the prefix one longer. */
  lemma {:induction false} FoldHistory<A(!new), X(!new)>(step: (A, X) -> Result<A>, inv: (A, seq<X>) -> bool,
                                                         a0: A, xs: seq<X>)
    requires inv(a0, [])
    requires forall a, ys, x :: inv(a, ys) && step(a, x).Ok? ==> inv(step(a, x).value, ys + [x])
    ensures Fold(step, a0, xs).Ok? ==> inv(Fold(step, a0, xs).value, xs)
    decreases |xs|
  {
    if xs != [] {
      var n := |xs| - 1;
      FoldHistory(step, inv, a0, xs[..n]);
      assert xs[..n] + [xs[n]] == xs;
    }
  }

  /** A fact about element `i` that its own step establishes and that every
      later step keeps, unless that later element rules it out. */
  lemma {:induction false} FoldLast<A(!new), X(!new)>(step: (A, X) -> Result<A>, q: X -> bool, r: (X, A) -> bool,
                                                      keep: (X, X) -> bool, a0: A, xs: seq<X>, i: nat)
    requires i < |xs| && q(xs[i])
    requires forall j :: i < j < |xs| ==> keep(xs[i], xs[j])
    requires forall a, x :: q(x) && step(a, x).Ok? ==> r(x, step(a, x).value)
    requires forall a, x, y :: r(y, a) && keep(y, x) && step(a, x).Ok? ==> r(y, step(a, x).value)
    ensures Fold(step, a0, xs).Ok? ==> r(xs[i], Fold(step, a0, xs).value)
    decreases |xs|
  {
    var n := |xs| - 1;
    if i < n {
      var init := xs[..n];
      assert init[i] == xs[i];
      forall j | i < j < |init| ensures keep(init[i], init[j]) {
        assert init[j] == xs[j];
      }
      FoldLast(step, q, r, keep, a0, init, i);
    }
  }

  /** One more element: the loop over a prefix one longer is one more step. */
  lemma FoldSnoc<A, X>(step: (A, X) -> Result<A>, a0: A, xs: seq<X>, i: nat)
    requires i < |xs| && Fold(step, a0, xs[..i]).Ok?
    ensures Fold(step, a0, xs[..i + 1]) == step(Fold(step, a0, xs[..i]).value, xs[i])
  {
    assert xs[..i + 1][..i] == xs[..i];
  }

  /** A loop that fails on a prefix fails as a whole. */
  lemma {:induction false} FoldPrefixErr<A, X>(step: (A, X) -> Result<A>, a0: A, xs: seq<X>, k: nat)
    requires k <= |xs| && Fold(step, a0, xs[..k]).Err?
    ensures Fold(step, a0, xs).Err?
    decreases |xs| - k
  {
    if k < |xs| {
      assert xs[..k + 1][..k] == xs[..k];
      FoldPrefixErr(step, a0, xs, k + 1);
    } else {
      assert xs[..k] == xs;
    }
  }

  /** A loop over two parts, the first of which succeeds, is the loop over
      the second from where the first ended. */
  lemma {:induction false} FoldAppend<A, X>(step: (A, X) -> Result<A>, a0: A, xs: seq<X>, ys: seq<X>)
    requires Fold(step, a0, xs).Ok?
    ensures Fold(step, a0, xs + ys) == Fold(step, Fold(step, a0, xs).value, ys)
    decreases |ys|
  {
    if ys == [] {
      assert xs + ys == xs;
    } else {
      var n := |ys| - 1;
      assert (xs + ys)[..|xs + ys| - 1] == xs + ys[..n];
      assert (xs + ys)[|xs + ys| - 1] == ys[n];
      FoldAppend(step, a0, xs, ys[..n]);
    }
  }
}
