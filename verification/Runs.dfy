/** Runs of a component: a component is a state and a total step function, and a run is a
    finite sequence of events. A property of "every reachable state" is a property of
    `Run(step, s, es)` for every `es`. */
module Runs {

  function Run<S, E>(step: (S, E) -> S, s: S, es: seq<E>): S
    decreases |es|
  {
    if es == [] then s else step(Run(step, s, es[..|es| - 1]), es[|es| - 1])
  }

  /** What every step keeps, every run keeps. */
  lemma {:induction false} RunKeeps<S(!new), E(!new)>(step: (S, E) -> S, inv: S -> bool, s: S, es: seq<E>)
    requires inv(s)
    requires forall t, e :: inv(t) ==> inv(step(t, e))
    ensures inv(Run(step, s, es))
    decreases |es|
  {
    if es != [] {
      RunKeeps(step, inv, s, es[..|es| - 1]);
    }
  }

  /** As RunKeeps, when only events of one kind occur in the run. */
  lemma {:induction false} RunOfKeeps<S(!new), E(!new)>(
      step: (S, E) -> S, ok: E -> bool, inv: S -> bool, s: S, es: seq<E>)
    requires inv(s)
    requires forall t, e :: inv(t) && ok(e) ==> inv(step(t, e))
    requires forall i :: 0 <= i < |es| ==> ok(es[i])
    ensures inv(Run(step, s, es))
    decreases |es|
  {
    if es != [] {
      RunOfKeeps(step, ok, inv, s, es[..|es| - 1]);
    }
  }

  /** A run may be cut anywhere: the second part starts where the first one ends. */
  lemma {:induction false} RunJoins<S, E>(step: (S, E) -> S, s: S, a: seq<E>, b: seq<E>)
    ensures Run(step, s, a + b) == Run(step, Run(step, s, a), b)
    decreases |b|
  {
    if b == [] {
      assert a + b == a;
    } else {
      var c := b[..|b| - 1];
      RunJoins(step, s, a, c);
      assert (a + b)[..|a + b| - 1] == a + c;
    }
  }

  /** The state a run ends in, given the states it passes through. */
  lemma {:induction false} RunTrace<S, E>(step: (S, E) -> S, es: seq<E>, states: seq<S>)
    requires |states| == |es| + 1
    requires forall k :: 0 <= k < |es| ==> step(states[k], es[k]) == states[k + 1]
    ensures Run(step, states[0], es) == states[|es|]
    decreases |es|
  {
    if es != [] {
      var n := |es| - 1;
      RunTrace(step, es[..n], states[..n + 1]);
      assert step(states[n], es[n]) == states[n + 1];
    }
  }
}
