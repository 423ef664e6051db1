/**
 * Left folds over a sequence, as the telemetry parsers of both windows run
 * them: a state updated by each item in turn. The step is a function value,
 * so facts about one parser's steps are stated once, as preconditions, and
 * the induction never looks inside a step.
 */
module Folds {

  /** The state after `step` has seen every item of `items`, in order. */
  function Fold<S, T>(s0: S, items: seq<T>, step: (S, T) -> S): S
    decreases |items|
  {
    if items == [] then s0 else step(Fold(s0, items[..|items| - 1], step), items[|items| - 1])
  }

  /**
   * Last update wins: when every item that `sets` the tracked number leaves
   * the state holding `value(item)`, every other item keeps what the state
   * holds, and no item after position i sets the value, the folded state
   * holds the value item i set.
   */
  lemma {:induction false} LastUpdateWins<S, T>(s0: S, items: seq<T>, step: (S, T) -> S,
                                               sets: T -> bool, value: T -> real, holds: (S, real) -> bool, i: nat)
    requires forall s, t :: sets(t) ==> holds(step(s, t), value(t))
    requires forall s, t, v :: holds(s, v) && !sets(t) ==> holds(step(s, t), v)
    requires i < |items| && sets(items[i])
    requires forall j :: i < j < |items| ==> !sets(items[j])
    ensures holds(Fold(s0, items, step), value(items[i]))
    decreases |items|
  {
    var n := |items| - 1;
    var init := items[..n];
    if i < n {
      assert init[i] == items[i];
      forall j | i < j < |init|
        ensures !sets(init[j])
      {
        assert init[j] == items[j];
      }
      LastUpdateWins(s0, init, step, sets, value, holds, i);
      assert !sets(items[n]);
      assert Fold(s0, items, step) == step(Fold(s0, init, step), items[n]);
    }
  }
}
