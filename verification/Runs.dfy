/** Runs of a transition system, and the one induction every safety theorem uses. */
module Runs {

  /** A non-empty sequence of states: the first is initial and each next state
      follows from the one before by a step. */
  ghost predicate IsRun<S(!new)>(init: S -> bool, next: (S, S) -> bool, run: seq<S>) {
    && |run| > 0
    && init(run[0])
    && forall i | 0 < i < |run| :: next(run[i - 1], run[i])
  }

  /** What holds initially and is kept by every step holds throughout every run. */
  lemma {:induction false} Invariance<S(!new)>(init: S -> bool, next: (S, S) -> bool, inv: S -> bool, run: seq<S>)
    requires IsRun(init, next, run)
    requires forall s | init(s) :: inv(s)
    requires forall s, s' | inv(s) && next(s, s') :: inv(s')
    ensures forall i | 0 <= i < |run| :: inv(run[i])
  {
    if |run| > 1 {
      var before := run[..|run| - 1];
      Invariance(init, next, inv, before);
      assert inv(before[|run| - 2]);
      assert next(run[|run| - 2], run[|run| - 1]);
    }
  }

  /** What every step keeps holds from any point of a run on. */
  lemma {:induction false} Persists<S(!new)>(init: S -> bool, next: (S, S) -> bool, p: S -> bool,
                                             run: seq<S>, i: nat, j: nat)
    requires IsRun(init, next, run) && i <= j < |run| && p(run[i])
    requires forall s, s' | p(s) && next(s, s') :: p(s')
    ensures p(run[j])
  {
    if i < j {
      Persists(init, next, p, run, i, j - 1);
      assert next(run[j - 1], run[j]);
    }
  }

  /** A run grows by a step from its last state. */
  lemma Extend<S(!new)>(init: S -> bool, next: (S, S) -> bool, run: seq<S>, s: S)
    requires IsRun(init, next, run) && next(run[|run| - 1], s)
    ensures IsRun(init, next, run + [s])
  {
  }

  /** A measure that every step of a stretch lowers bounds the stretch. */
  lemma {:induction false} Descent<S>(measure: S -> nat, run: seq<S>, i: nat, j: nat)
    requires i <= j < |run|
    requires forall k | i < k <= j :: measure(run[k]) < measure(run[k - 1])
    ensures (j - i) + measure(run[j]) <= measure(run[i])
  {
    if i < j {
      Descent(measure, run, i, j - 1);
      assert measure(run[j]) < measure(run[j - 1]);
    }
  }
}
