/** What every run over a list of events shares: short runs taken step by step, and a run cut in two. */
module Runs {
  ghost predicate Unrolls<S, E>(run: (S, seq<E>) -> S, step: (S, E) -> S, s: S, es: seq<E>) {
    run(s, es) == if es == [] then s else run(step(s, es[0]), es[1..])
  }

  /** `run` takes the events in order, one `step` each. */
  ghost predicate Folds<S(!new), E(!new)>(run: (S, seq<E>) -> S, step: (S, E) -> S) {
    forall s, es :: Unrolls(run, step, s, es)
  }

  lemma OneStep<S(!new), E(!new)>(run: (S, seq<E>) -> S, step: (S, E) -> S, s: S, e: E)
    requires Folds(run, step)
    ensures run(s, [e]) == step(s, e)
  {
    assert Unrolls(run, step, s, [e]) && Unrolls(run, step, step(s, e), []);
  }

  lemma TwoSteps<S(!new), E(!new)>(run: (S, seq<E>) -> S, step: (S, E) -> S, s: S, e: E, f: E)
    requires Folds(run, step)
    ensures run(s, [e, f]) == step(step(s, e), f)
  {
    assert Unrolls(run, step, s, [e, f]) && [e, f][1..] == [f];
    OneStep(run, step, step(s, e), f);
  }

  lemma ThreeSteps<S(!new), E(!new)>(run: (S, seq<E>) -> S, step: (S, E) -> S, s: S, e: E, f: E, g: E)
    requires Folds(run, step)
    ensures run(s, [e, f, g]) == step(step(step(s, e), f), g)
  {
    assert Unrolls(run, step, s, [e, f, g]) && [e, f, g][1..] == [f, g];
    TwoSteps(run, step, step(s, e), f, g);
  }

  lemma FourSteps<S(!new), E(!new)>(run: (S, seq<E>) -> S, step: (S, E) -> S, s: S, e: E, f: E, g: E, h: E)
    requires Folds(run, step)
    ensures run(s, [e, f, g, h]) == step(step(step(step(s, e), f), g), h)
  {
    assert Unrolls(run, step, s, [e, f, g, h]) && [e, f, g, h][1..] == [f, g, h];
    ThreeSteps(run, step, step(s, e), f, g, h);
  }

  lemma {:induction false} Append<S(!new), E(!new)>(run: (S, seq<E>) -> S, step: (S, E) -> S, s: S, first: seq<E>, rest: seq<E>)
    requires Folds(run, step)
    ensures run(s, first + rest) == run(run(s, first), rest)
    decreases |first|
  {
    assert Unrolls(run, step, s, first) && Unrolls(run, step, s, first + rest);
    if first == [] {
      assert first + rest == rest;
    } else {
      assert (first + rest)[1..] == first[1..] + rest;
      Append(run, step, step(s, first[0]), first[1..], rest);
    }
  }
}
