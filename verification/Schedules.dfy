// Runs of a step function under a schedule of moves. A move that cannot be made is a step
// that changes nothing, so the runs of all schedules are all interleavings.
module Schedules {

  function Run<S, M>(apply: (S, M) -> S, s: S, ms: seq<M>): S
    decreases |ms|
  {
    if ms == [] then s else Run(apply, apply(s, ms[0]), ms[1..])
  }

  lemma {:induction false} RunAppend<S, M>(apply: (S, M) -> S, s: S, before: seq<M>, after: seq<M>)
    ensures Run(apply, s, before + after) == Run(apply, Run(apply, s, before), after)
    decreases |before|
  {
    if before == [] {
      assert before + after == after;
    } else {
      assert (before + after)[1..] == before[1..] + after;
      RunAppend(apply, apply(s, before[0]), before[1..], after);
    }
  }

  lemma RunOne<S, M>(apply: (S, M) -> S, s: S, m: M)
    ensures Run(apply, s, [m]) == apply(s, m)
  {
    assert [m][1..] == [];
    assert Run(apply, apply(s, m), []) == apply(s, m);
  }

  lemma RunThen<S, M>(apply: (S, M) -> S, s: S, before: seq<M>, m: M)
    ensures Run(apply, s, before + [m]) == apply(Run(apply, s, before), m)
  {
    RunAppend(apply, s, before, [m]);
    RunOne(apply, Run(apply, s, before), m);
  }

  /** A run goes on by the next move of its list. */
  lemma RunNext<S, M>(apply: (S, M) -> S, s: S, ms: seq<M>, k: nat)
    requires k < |ms|
    ensures Run(apply, s, ms[..k + 1]) == apply(Run(apply, s, ms[..k]), ms[k])
  {
    assert ms[..k + 1] == ms[..k] + [ms[k]];
    RunThen(apply, s, ms[..k], ms[k]);
  }

  lemma RunTwo<S, M>(apply: (S, M) -> S, s: S, a: M, b: M)
    ensures Run(apply, s, [a, b]) == apply(apply(s, a), b)
  {
    assert [a, b] == [a] + [b];
    RunThen(apply, s, [a], b);
    RunOne(apply, s, a);
  }

  lemma RunFour<S, M>(apply: (S, M) -> S, s: S, a: M, b: M, c: M, d: M)
    ensures Run(apply, s, [a, b, c, d]) == apply(apply(apply(apply(s, a), b), c), d)
  {
    assert [a, b, c, d] == [a, b] + [c, d];
    RunAppend(apply, s, [a, b], [c, d]);
    RunTwo(apply, s, a, b);
    RunTwo(apply, apply(apply(s, a), b), c, d);
  }

  /** What every step keeps, every run keeps. */
  lemma {:induction false} RunKeeps<S(!new), M(!new)>(apply: (S, M) -> S, inv: S -> bool, s: S, ms: seq<M>)
    requires inv(s)
    requires forall s, m :: inv(s) ==> inv(apply(s, m))
    ensures inv(Run(apply, s, ms))
    decreases |ms|
  {
    if ms != [] {
      RunKeeps(apply, inv, apply(s, ms[0]), ms[1..]);
    }
  }
}
