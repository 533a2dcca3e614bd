/** Schedules of atomic actions: folding a step function over them, the last action last. */
module Schedules {

  function Fold<S, A>(step: (S, A) -> S, s: S, actions: seq<A>): S {
    if actions == [] then s
    else step(Fold(step, s, actions[..|actions| - 1]), actions[|actions| - 1])
  }

  lemma FoldSnoc<S, A>(step: (S, A) -> S, s: S, actions: seq<A>, a: A)
    ensures Fold(step, s, actions + [a]) == step(Fold(step, s, actions), a)
  {
    assert (actions + [a])[..|actions|] == actions;
  }

  lemma FoldOne<S, A>(step: (S, A) -> S, s: S, a: A)
    ensures Fold(step, s, [a]) == step(s, a)
  {
    FoldSnoc(step, s, [], a);
    assert [] + [a] == [a];
  }

  lemma {:induction false} FoldConcat<S, A>(step: (S, A) -> S, s: S, first: seq<A>, second: seq<A>)
    ensures Fold(step, s, first + second) == Fold(step, Fold(step, s, first), second)
    decreases |second|
  {
    if second == [] {
      assert first + second == first;
    } else {
      var n := |second| - 1;
      assert (first + second)[..|first + second| - 1] == first + second[..n];
      FoldConcat(step, s, first, second[..n]);
    }
  }

  lemma FoldPrefix<S, A>(step: (S, A) -> S, s: S, actions: seq<A>, n: nat)
    requires n < |actions|
    ensures Fold(step, s, actions[..n + 1]) == step(Fold(step, s, actions[..n]), actions[n])
  {
    assert actions[..n + 1] == actions[..n] + [actions[n]];
    FoldSnoc(step, s, actions[..n], actions[n]);
  }
}
