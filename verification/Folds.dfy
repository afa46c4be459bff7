// Folding a step function over a sequence, first element first.
module Folds {

  function Fold<S, A>(s: S, items: seq<A>, step: (S, A) -> S): S {
    if items == [] then s
    else
      var n := |items| - 1;
      step(Fold(s, items[..n], step), items[n])
  }

  lemma {:induction false} FoldConcat<S, A>(s: S, a: seq<A>, b: seq<A>, step: (S, A) -> S)
    ensures Fold(s, a + b, step) == Fold(Fold(s, a, step), b, step)
    decreases |b|
  {
    if b == [] {
      assert a + b == a;
    } else {
      var n := |b| - 1;
      FoldConcat(s, a, b[..n], step);
      assert (a + b)[..|a| + n] == a + b[..n];
    }
  }

  lemma FoldNext<S, A>(s: S, items: seq<A>, a: A, step: (S, A) -> S)
    ensures Fold(s, items + [a], step) == step(Fold(s, items, step), a)
  {
    assert (items + [a])[..|items|] == items;
  }

  // The same with the number of each element, counted from a first number on.
  function NumberedFold<S, A>(s: S, items: seq<A>, from: nat, step: (S, A, nat) -> S): S {
    if items == [] then s
    else
      var n := |items| - 1;
      step(NumberedFold(s, items[..n], from, step), items[n], from + n)
  }

  lemma {:induction false} NumberedFoldConcat<S, A>(s: S, a: seq<A>, b: seq<A>, from: nat, step: (S, A, nat) -> S)
    ensures NumberedFold(s, a + b, from, step) == NumberedFold(NumberedFold(s, a, from, step), b, from + |a|, step)
    decreases |b|
  {
    if b == [] {
      assert a + b == a;
    } else {
      var n := |b| - 1;
      NumberedFoldConcat(s, a, b[..n], from, step);
      assert (a + b)[..|a| + n] == a + b[..n];
    }
  }

  lemma {:induction false} NumberedFoldStuck<S, A>(s: S, items: seq<A>, from: nat, step: (S, A, nat) -> S)
    requires forall a, k {:trigger step(s, a, k)} :: step(s, a, k) == s
    ensures NumberedFold(s, items, from, step) == s
  {
    if items != [] { NumberedFoldStuck(s, items[..|items| - 1], from, step); }
  }

  lemma NumberedFoldNext<S, A>(s: S, items: seq<A>, a: A, from: nat, step: (S, A, nat) -> S)
    ensures NumberedFold(s, items + [a], from, step) == step(NumberedFold(s, items, from, step), a, from + |items|)
  {
    assert (items + [a])[..|items|] == items;
  }
}
