/** Runs: a step function applied to one event after another. */
module Runs {

  function RunOf<S, E>(next: (S, E) -> S, s: S, events: seq<E>): S {
    if events == [] then s else next(RunOf(next, s, events[..|events| - 1]), events[|events| - 1])
  }

  lemma {:induction false} RunAppend<S, E>(next: (S, E) -> S, s: S, a: seq<E>, b: seq<E>)
    ensures RunOf(next, s, a + b) == RunOf(next, RunOf(next, s, a), b)
    decreases |b|
  {
    if b == [] {
      assert a + b == a;
    } else {
      assert (a + b)[..|a + b| - 1] == a + b[..|b| - 1];
      RunAppend(next, s, a, b[..|b| - 1]);
    }
  }

  lemma {:induction false} RunOfTwo<S, E>(next: (S, E) -> S, s: S, e: E, f: E)
    ensures RunOf(next, s, [e, f]) == next(next(s, e), f)
  {
    assert [e, f][..1] == [e] && [e][..0] == [];
    assert RunOf(next, s, [e]) == next(s, e);
  }

  lemma {:induction false} RunOfOne<S, E>(next: (S, E) -> S, s: S, e: E)
    ensures RunOf(next, s, [e]) == next(s, e)
  {
    assert [e][..0] == [];
  }

  lemma {:induction false} RunOfThree<S, E>(next: (S, E) -> S, s: S, e: E, f: E, g: E)
    ensures RunOf(next, s, [e, f, g]) == next(next(next(s, e), f), g)
  {
    assert [e, f, g][..2] == [e, f];
    RunOfTwo(next, s, e, f);
  }
}
