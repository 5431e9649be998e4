/**
 * The shape shared by the engines' development loops: iteration `k` yields a
 * result, the result is kept, and the loop ends after the first result that
 * stops it, or at the iteration bound.
 */
module BoundedLoop {

  /** The results kept from iteration `k` on. */
  function RunFrom<T>(k: nat, bound: nat, outcome: nat -> T, stops: T -> bool): seq<T>
    decreases bound - k
  {
    if k >= bound then []
    else if stops(outcome(k)) then [outcome(k)]
    else [outcome(k)] + RunFrom(k + 1, bound, outcome, stops)
  }

  /** One step: the iteration's result is kept, and the run goes on unless it stops. */
  lemma RunStep<T>(k: nat, bound: nat, outcome: nat -> T, stops: T -> bool)
    requires k < bound
    ensures RunFrom(k, bound, outcome, stops) ==
            if stops(outcome(k)) then [outcome(k)] else [outcome(k)] + RunFrom(k + 1, bound, outcome, stops)
  {
  }

  /**
   * A run from `k` holds at most `bound - k` results, the iterations' results
   * in order; every result but the last lets the loop go on; a run shorter than
   * the bound ends with a result that stops it.
   */
  lemma {:induction false} RunShape<T>(k: nat, bound: nat, outcome: nat -> T, stops: T -> bool)
    ensures var run := RunFrom(k, bound, outcome, stops);
      |run| <= (if k >= bound then 0 else bound - k)
      && (forall j :: 0 <= j < |run| ==> run[j] == outcome(k + j))
      && (forall j :: 0 <= j < |run| - 1 ==> !stops(run[j]))
      && (k < bound && |run| < bound - k ==> run != [] && stops(run[|run| - 1]))
    decreases bound - k
  {
    if k < bound && !stops(outcome(k)) {
      RunShape(k + 1, bound, outcome, stops);
      var rest := RunFrom(k + 1, bound, outcome, stops);
      assert RunFrom(k, bound, outcome, stops) == [outcome(k)] + rest;
      forall j | 1 <= j < 1 + |rest|
        ensures ([outcome(k)] + rest)[j] == rest[j - 1]
      {
      }
    }
  }

  /** A result that stops the loop at iteration `k` ends the run there. */
  lemma StopsAt<T>(k: nat, bound: nat, outcome: nat -> T, stops: T -> bool)
    requires k < bound && stops(outcome(k))
    ensures RunFrom(k, bound, outcome, stops) == [outcome(k)]
  {
  }
}
