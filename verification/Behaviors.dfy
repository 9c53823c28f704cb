/** Runs of a state machine, and the induction principle every protocol of this project uses. */
module Behaviors {

  datatype Option<+T> = None | Some(value: T)

  /** A finite run: it starts in an initial state and every two neighbours are related by `next`. */
  ghost predicate IsRun<S(!new)>(init: S -> bool, next: (S, S) -> bool, run: seq<S>) {
    && |run| > 0
    && init(run[0])
    && forall i | 0 <= i < |run| - 1 :: next(run[i], run[i + 1])
  }

  /** An inductive predicate holds in every state of every run. */
  lemma {:induction false} InvariantInRun<S(!new)>(
      init: S -> bool, next: (S, S) -> bool, inv: S -> bool, run: seq<S>, k: nat)
    requires IsRun(init, next, run)
    requires k < |run|
    requires forall s | init(s) :: inv(s)
    requires forall s, s' | inv(s) && next(s, s') :: inv(s')
    ensures inv(run[k])
  {
    if k > 0 {
      InvariantInRun(init, next, inv, run, k - 1);
      assert next(run[k - 1], run[k - 1 + 1]);
    }
  }
}
