/** Folding a step over a list, and when the order of the list does not matter. */
module Folds {
  ghost function Fold<S, R>(step: (S, R) -> S, start: S, items: seq<R>): S {
    if items == [] then start else step(Fold(step, start, items[..|items| - 1]), items[|items| - 1])
  }

  ghost predicate Commutes<S(!new), R(!new)>(step: (S, R) -> S) {
    forall s, a, b :: step(step(s, a), b) == step(step(s, b), a)
  }

  function Without<R>(items: seq<R>, i: nat): seq<R>
    requires i < |items|
  {
    items[..i] + items[i + 1..]
  }

  /** One item can be taken last. */
  lemma {:induction false} TakenLast<S(!new), R(!new)>(step: (S, R) -> S, start: S, items: seq<R>, i: nat)
    requires Commutes(step) && i < |items|
    ensures Fold(step, start, items) == step(Fold(step, start, Without(items, i)), items[i])
  {
    var n := |items| - 1;
    var others := Without(items, i);
    if i == n {
      assert others == items[..n];
    } else {
      TakenLast(step, start, items[..n], i);
      assert others[..n - 1] == Without(items[..n], i);
      assert others[n - 1] == items[n];
    }
  }

  lemma MultisetWithout<R>(items: seq<R>, i: nat)
    requires i < |items|
    ensures multiset(Without(items, i)) == multiset(items) - multiset{items[i]}
  {
    assert items == items[..i] + ([items[i]] + items[i + 1..]);
    assert multiset(items) == multiset(items[..i]) + (multiset{items[i]} + multiset(items[i + 1..]));
  }

  /** A step that commutes folds every permutation alike. */
  lemma {:induction false} FoldPermuted<S(!new), R(!new)>(step: (S, R) -> S, start: S, a: seq<R>, b: seq<R>)
    requires Commutes(step) && multiset(a) == multiset(b)
    ensures Fold(step, start, a) == Fold(step, start, b)
    decreases |a|
  {
    assert |a| == |multiset(a)| == |multiset(b)| == |b|;
    if a != [] {
      var last := a[|a| - 1];
      assert last in multiset(b);
      var i :| 0 <= i < |b| && b[i] == last;
      assert a[..|a| - 1] == Without(a, |a| - 1);
      MultisetWithout(a, |a| - 1);
      MultisetWithout(b, i);
      FoldPermuted(step, start, Without(a, |a| - 1), Without(b, i));
      TakenLast(step, start, b, i);
    }
  }
}
