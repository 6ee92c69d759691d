// Sums over a finite family of threads, and how one thread's step changes them.
module Tally {

  /** The total weight of a family. */
  function Sum<T>(w: T -> int, ts: seq<T>): int {
    if |ts| == 0 then 0 else Sum(w, ts[..|ts| - 1]) + w(ts[|ts| - 1])
  }

  lemma {:induction false} SumUpdate<T>(w: T -> int, ts: seq<T>, i: nat, x: T)
    requires i < |ts|
    ensures Sum(w, ts[i := x]) == Sum(w, ts) - w(ts[i]) + w(x)
  {
    var n := |ts| - 1;
    if i == n {
      assert ts[i := x][..n] == ts[..n];
    } else {
      assert ts[i := x][..n] == ts[..n][i := x];
      SumUpdate(w, ts[..n], i, x);
    }
  }

  lemma SumAppend<T>(w: T -> int, ts: seq<T>, x: T)
    ensures Sum(w, ts + [x]) == Sum(w, ts) + w(x)
  {
    assert (ts + [x])[..|ts|] == ts;
  }

  lemma {:induction false} SumBounds<T(!new)>(w: T -> int, ts: seq<T>, bound: nat)
    requires forall t :: 0 <= w(t) <= bound
    ensures 0 <= Sum(w, ts) <= bound * |ts|
  {
    if |ts| > 0 {
      SumBounds(w, ts[..|ts| - 1], bound);
    }
  }

  lemma {:induction false} SumNonNegative<T(!new)>(w: T -> int, ts: seq<T>)
    requires forall t :: 0 <= w(t)
    ensures 0 <= Sum(w, ts)
  {
    if |ts| > 0 {
      SumNonNegative(w, ts[..|ts| - 1]);
    }
  }

  /** One member never outweighs the whole. */
  lemma {:induction false} SumAtLeast<T(!new)>(w: T -> int, ts: seq<T>, i: nat)
    requires forall t :: 0 <= w(t)
    requires i < |ts|
    ensures w(ts[i]) <= Sum(w, ts)
  {
    var n := |ts| - 1;
    SumNonNegative(w, ts[..n]);
    if i < n {
      assert ts[..n][i] == ts[i];
      SumAtLeast(w, ts[..n], i);
    }
  }

  /** Nor do two distinct members. */
  lemma {:induction false} SumAtLeastTwo<T(!new)>(w: T -> int, ts: seq<T>, i: nat, j: nat)
    requires forall t :: 0 <= w(t)
    requires i < j < |ts|
    ensures w(ts[i]) + w(ts[j]) <= Sum(w, ts)
  {
    var n := |ts| - 1;
    if j == n {
      assert ts[..n][i] == ts[i];
      SumAtLeast(w, ts[..n], i);
    } else {
      assert ts[..n][i] == ts[i] && ts[..n][j] == ts[j];
      SumAtLeastTwo(w, ts[..n], i, j);
    }
  }

  lemma {:induction false} SumOfZeros<T>(w: T -> int, ts: seq<T>)
    requires forall i :: 0 <= i < |ts| ==> w(ts[i]) == 0
    ensures Sum(w, ts) == 0
  {
    if |ts| > 0 {
      var n := |ts| - 1;
      forall i | 0 <= i < n ensures w(ts[..n][i]) == 0 { assert ts[..n][i] == ts[i]; }
      SumOfZeros(w, ts[..n]);
    }
  }

  /** A positive total has a positive member. */
  lemma {:induction false} SumWitness<T>(w: T -> int, ts: seq<T>) returns (i: nat)
    requires Sum(w, ts) > 0
    ensures i < |ts| && w(ts[i]) > 0
  {
    var n := |ts| - 1;
    if w(ts[n]) > 0 {
      i := n;
    } else {
      i := SumWitness(w, ts[..n]);
      assert ts[..n][i] == ts[i];
    }
  }

  lemma {:induction false} SumFirst<T>(w: T -> int, ts: seq<T>)
    requires |ts| > 0
    ensures Sum(w, ts) == w(ts[0]) + Sum(w, ts[1..])
  {
    var n := |ts| - 1;
    if n > 0 {
      SumFirst(w, ts[..n]);
      assert ts[..n][1..] == ts[1..][..n - 1];
    }
  }
}
