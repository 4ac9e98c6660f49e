/** One step per item of a list read at the start: the shape of every periodic task. */
module Rounds {
  function Fold<S>(start: S, n: nat, step: (S, nat) -> S): S {
    if n == 0 then start else step(Fold(start, n - 1, step), n - 1)
  }

  /** What holds at the start and is carried from each item to the next holds after the round. */
  lemma {:induction false} FoldInduction<S(!new)>(start: S, n: nat, step: (S, nat) -> S, good: (S, nat) -> bool)
    requires good(start, 0)
    requires forall s: S, i: nat :: i < n && good(s, i) ==> good(step(s, i), i + 1)
    ensures good(Fold(start, n, step), n)
  {
    if n > 0 {
      FoldInduction(start, n - 1, step, good);
      assert good(Fold(start, n - 1, step), n - 1);
    }
  }

  /** A long round is a first round followed by a second one, when the steps agree. */
  lemma {:induction false} FoldSplit<S(!new)>(start: S, m: nat, n: nat, all: (S, nat) -> S, first: (S, nat) -> S, second: (S, nat) -> S)
    requires forall s: S, i: nat :: i < m ==> all(s, i) == first(s, i)
    requires forall s: S, i: nat :: i < n ==> all(s, m + i) == second(s, i)
    ensures Fold(start, m + n, all) == Fold(Fold(start, m, first), n, second)
    decreases n
  {
    if n == 0 {
      FoldAgrees(start, m, all, first);
    } else {
      FoldSplit(start, m, n - 1, all, first, second);
      assert all(Fold(start, m + n - 1, all), m + (n - 1)) == second(Fold(start, m + n - 1, all), n - 1);
    }
  }

  lemma {:induction false} FoldAgrees<S(!new)>(start: S, n: nat, a: (S, nat) -> S, b: (S, nat) -> S)
    requires forall s: S, i: nat :: i < n ==> a(s, i) == b(s, i)
    ensures Fold(start, n, a) == Fold(start, n, b)
  {
    if n > 0 {
      FoldAgrees(start, n - 1, a, b);
    }
  }

  /** The steps of a run: one event after another. */
  function Follow<S, E>(events: seq<E>, apply: (S, E) -> S): (S, nat) -> S {
    (s: S, k: nat) => if k < |events| then apply(s, events[k]) else s
  }

  lemma FollowConcat<S(!new), E>(start: S, a: seq<E>, b: seq<E>, apply: (S, E) -> S)
    ensures Fold(start, |a + b|, Follow(a + b, apply)) == Fold(Fold(start, |a|, Follow(a, apply)), |b|, Follow(b, apply))
  {
    FoldSplit(start, |a|, |b|, Follow(a + b, apply), Follow(a, apply), Follow(b, apply));
  }
}
